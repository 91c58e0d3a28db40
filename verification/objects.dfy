/**
 API objects (pykube/objects.py): a resource document together with the
 snapshot taken when it was last loaded, the request arguments derived from
 them, and the status rules of `exists`, `create`, `reload`, `update` and
 `delete`. Each HTTP exchange is given by the response the server returns.
 */
module Objects {
  import opened Errors
  import opened Json
  import Http
  import Utils

  /** The resource classes declared in pykube/objects.py. */
  datatype Kind =
    | ConfigMap | DaemonSet | Deployment | Endpoint | Ingress | Job | Namespace | Node
    | Pod | ReplicationController | ReplicaSet | Secret | Service | PersistentVolume
    | PersistentVolumeClaim

  const DefaultNamespace: string := "default"

  function Version(k: Kind): string {
    match k
    case DaemonSet | Deployment | Ingress | ReplicaSet => "extensions/v1beta1"
    case Job => "batch/v1"
    case _ => "v1"
  }

  function Endpoint(k: Kind): string {
    match k
    case ConfigMap => "configmaps"
    case DaemonSet => "daemonsets"
    case Deployment => "deployments"
    case Endpoint => "endpoints"
    case Ingress => "ingresses"
    case Job => "jobs"
    case Namespace => "namespaces"
    case Node => "nodes"
    case Pod => "pods"
    case ReplicationController => "replicationcontrollers"
    case ReplicaSet => "replicasets"
    case Secret => "secrets"
    case Service => "services"
    case PersistentVolume => "persistentvolumes"
    case PersistentVolumeClaim => "persistentvolumeclaims"
  }

  /** Classes deriving from `NamespacedAPIObject`. */
  predicate Namespaced(k: Kind) {
    !(k.Namespace? || k.Node? || k.PersistentVolume?)
  }

  /** The class attribute `base`; no class in the library sets it, so it is `None` throughout. */
  function BaseAttr(k: Kind): Json {
    JNull
  }

  /** The HTTP method of a request the library sends. */
  datatype Verb = GET | POST | PATCH | DELETE

  /** A server response: its status code and its decoded JSON body. */
  datatype Response = Response(status: int, body: map<string, Json>)

  /** `obj` is the working document, `original` the snapshot `set_obj` took. */
  datatype ApiObject = ApiObject(kind: Kind, obj: map<string, Json>, original: map<string, Json>)

  /** `set_obj`: the snapshot is a deep copy, so an equal value. */
  function SetObj(k: Kind, doc: map<string, Json>): (o: ApiObject)
    ensures o.obj == doc && o.original == doc && o.kind == k
  {
    ApiObject(k, doc, doc)
  }

  /** `obj["metadata"]["name"]` of a document. */
  function DocName(doc: map<string, Json>): Result<Json> {
    var md :- Get(JObj(doc), "metadata");
    Get(md, "name")
  }

  /** `name`: read from the working document, not the snapshot. */
  function Name(o: ApiObject): (r: Result<Json>)
    ensures "metadata" !in o.obj ==> r == Err(KeyError("metadata"))
    ensures "metadata" in o.obj && o.obj["metadata"].JObj? ==>
              r == if "name" in o.obj["metadata"].fields then Ok(o.obj["metadata"].fields["name"])
                   else Err(KeyError("name"))
    ensures r.Err? ==> r.error.KeyError? || r.error.TypeError?
  {
    DocName(o.obj)
  }

  /**
   `namespace`: `None` for cluster-scoped classes; for namespaced ones the
   document's `metadata.namespace` when truthy, otherwise `"default"`.
   */
  function NamespaceOf(o: ApiObject): (r: Result<Option<Json>>)
    ensures !Namespaced(o.kind) ==> r == Ok(None)
    ensures Namespaced(o.kind) && r.Ok? ==> r.value.Some? && Truthy(r.value.value)
    ensures Namespaced(o.kind) && "metadata" in o.obj && o.obj["metadata"].JObj? ==>
              r.Ok? &&
              var md := o.obj["metadata"].fields;
              r.value == Some(if "namespace" in md && Truthy(md["namespace"]) then md["namespace"]
                              else JStr(DefaultNamespace))
    ensures Namespaced(o.kind) && "metadata" !in o.obj ==> r == Err(KeyError("metadata"))
  {
    if !Namespaced(o.kind) then Ok(None)
    else
      var md :- Get(JObj(o.obj), "metadata");
      var ns :- GetOr(md, "namespace", JNull);
      Ok(Some(if Truthy(ns) then ns else JStr(DefaultNamespace)))
  }

  /**
   `api_kwargs(**kwargs)`: `url` is the collection endpoint, or the endpoint
   followed by the name in the snapshot; `base` only when truthy; `version`;
   `namespace` only when not `None`; then the caller's arguments (without
   `collection`) override all of these.
   */
  function ApiKwargs(o: ApiObject, kwargs: map<string, Json>): (r: Result<map<string, Json>>)
    ensures r.Ok? ==> "collection" !in r.value || "collection" !in kwargs
    ensures r.Ok? ==> forall k :: k in kwargs && k != "collection" ==> k in r.value && r.value[k] == kwargs[k]
    ensures r.Ok? && "url" !in kwargs ==>
              var collection := "collection" in kwargs && Truthy(kwargs["collection"]);
              "url" in r.value &&
              (collection ==> r.value["url"] == JStr(Endpoint(o.kind))) &&
              (!collection ==> DocName(o.original).Ok? &&
                               r.value["url"] == JStr(Endpoint(o.kind) + "/" + Str(DocName(o.original).value)))
    ensures r.Ok? && "version" !in kwargs ==> "version" in r.value && r.value["version"] == JStr(Version(o.kind))
    ensures r.Ok? && "base" !in kwargs ==> ("base" in r.value <==> Truthy(BaseAttr(o.kind)))
    ensures r.Ok? && "namespace" !in kwargs ==>
              NamespaceOf(o).Ok? &&
              ("namespace" in r.value <==> NamespaceOf(o).value.Some?) &&
              ("namespace" in r.value ==> r.value["namespace"] == NamespaceOf(o).value.value)
    ensures r.Ok? ==> forall k :: k in r.value ==> k in kwargs || k in {"url", "base", "version", "namespace"}
  {
    var collection := "collection" in kwargs && Truthy(kwargs["collection"]);
    var rest := kwargs - {"collection"};
    var url :- if collection then Ok(JStr(Endpoint(o.kind)))
               else
                 var name :- DocName(o.original);
                 Ok(JStr(Endpoint(o.kind) + "/" + Str(name)));
    var ns :- NamespaceOf(o);
    Ok(Defaults(url, BaseAttr(o.kind), Version(o.kind), ns) + rest)
  }

  /** The arguments `api_kwargs` supplies before the caller's: `base` only when truthy, `namespace` only when set. */
  function Defaults(url: Json, base: Json, version: string, ns: Option<Json>): (d: map<string, Json>)
    ensures "url" in d && d["url"] == url
    ensures "version" in d && d["version"] == JStr(version)
    ensures "base" in d <==> Truthy(base)
    ensures "namespace" in d <==> ns.Some?
    ensures ns.Some? ==> d["namespace"] == ns.value
    ensures d.Keys <= {"url", "base", "version", "namespace"}
  {
    var withBase := if Truthy(base) then map["url" := url, "base" := base] else map["url" := url];
    var withVersion := withBase["version" := JStr(version)];
    if ns.Some? then withVersion["namespace" := ns.value] else withVersion
  }

  /** The URL names the snapshot, not the working document: renaming locally does not retarget requests. */
  lemma ApiKwargsUseSnapshotName(o: ApiObject, newName: Json)
    requires "metadata" in o.obj && o.obj["metadata"].JObj?
    ensures var md := o.obj["metadata"].fields;
            var renamed := o.(obj := o.obj["metadata" := JObj(md["name" := newName])]);
            ApiKwargs(renamed, map[]) == ApiKwargs(o, map[])
  {
  }

  /** The default API prefix `get_kwargs` picks for a class's version: no class sets `base`. */
  function ApiBase(k: Kind): string {
    if Version(k) == "v1" then "/api" else "/apis"
  }

  /** `posixpath.join` accepts the namespace `api_kwargs` passes: there is none, or it is a string. */
  predicate JoinableNamespace(o: ApiObject) {
    NamespaceOf(o).Ok? && (NamespaceOf(o).value.None? || NamespaceOf(o).value.value.JStr?)
  }

  /** The `namespaces/<ns>` path segments of a request for `o`. */
  function NamespacePath(o: ApiObject): seq<string> {
    match NamespaceOf(o)
    case Ok(Some(JStr(ns))) => ["namespaces", ns]
    case _ => []
  }

  /** The arguments `api_kwargs` gets from `exists`, `reload` and `delete` (none) or from `create` (`collection`). */
  function CollectionArg(collection: bool): map<string, Json> {
    if collection then map["collection" := JBool(true)] else map[]
  }

  /**
   The error building a request for `o` raises, whichever client sends it:
   that of `api_kwargs`, else the `TypeError` of `posixpath.join` for a
   truthy namespace that is not a string. `None` when the request builds.
   */
  function RequestError(o: ApiObject, collection: bool): Option<Error> {
    match ApiKwargs(o, CollectionArg(collection))
    case Err(e) => Some(e)
    case Ok(_) => if JoinableNamespace(o) then None else Some(TypeError("join() argument must be str"))
  }

  /**
   The request `self.api.<verb>(**self.api_kwargs(..))` sends: `api_kwargs`,
   then the client's `get_kwargs`, which leaves only the full URL. The one
   way `get_kwargs` fails on these arguments is a truthy namespace that is
   not a string, which `posixpath.join` rejects with `TypeError`. The
   request body and headers the verbs add pass through unchanged and are
   not modelled.
   */
  function Request(o: ApiObject, collection: bool, api: Http.Client): (r: Result<map<string, Json>>)
    ensures r.Err? <==> RequestError(o, collection).Some?
    ensures r.Err? ==> r.error == RequestError(o, collection).value
    ensures ApiKwargs(o, CollectionArg(collection)).Err? ==> r == Err(ApiKwargs(o, CollectionArg(collection)).error)
    ensures ApiKwargs(o, CollectionArg(collection)).Ok? ==> (r.Ok? <==> JoinableNamespace(o))
    ensures ApiKwargs(o, CollectionArg(collection)).Ok? && !JoinableNamespace(o) ==>
              r == Err(TypeError("join() argument must be str"))
    ensures r.Ok? ==>
              var url := ApiKwargs(o, CollectionArg(collection)).value["url"];
              url.JStr? &&
              r.value == map["url" := JStr(api.url + Http.PosixJoin([ApiBase(o.kind), Version(o.kind)] + NamespacePath(o) + [url.s]))]
  {
    var kw :- ApiKwargs(o, CollectionArg(collection));
    RequestParts(o, collection, api, kw);
    Http.GetKwargs(api.url, api.namespace, kw)
  }

  lemma RequestParts(o: ApiObject, collection: bool, api: Http.Client, kw: map<string, Json>)
    requires ApiKwargs(o, CollectionArg(collection)) == Ok(kw)
    ensures "url" in kw && kw["url"].JStr?
    ensures JoinableNamespace(o) ==>
              Http.GetKwargs(api.url, api.namespace, kw)
              == Ok(map["url" := JStr(api.url + Http.PosixJoin([ApiBase(o.kind), Version(o.kind)] + NamespacePath(o) + [kw["url"].s]))])
    ensures !JoinableNamespace(o) ==> Http.GetKwargs(api.url, api.namespace, kw) == Err(TypeError("join() argument must be str"))
  {
    RequestPrefix(o, collection, kw);
    var url := kw["url"].s;
    var ns := NamespaceOf(o).value;
    if JoinableNamespace(o) {
      assert Http.NamespaceBits(api.namespace, kw) == Ok(Http.Strs(NamespacePath(o))) by {
        if ns.Some? {
          Http.NamespaceSegment(api.namespace, kw, ns.value.s);
        }
      }
      Http.GetKwargsUrlOnly(api.url, api.namespace, kw, ApiBase(o.kind), Version(o.kind), NamespacePath(o), url);
    } else {
      var bits := [JStr(ApiBase(o.kind)), JStr(Version(o.kind))] + [JStr("namespaces"), ns.value] + [JStr(url)];
      assert Http.NamespaceBits(api.namespace, kw) == Ok([JStr("namespaces"), ns.value]);
      assert !bits[3].JStr?;
    }
  }

  /** The arguments `api_kwargs` hands `get_kwargs`: the class's default base and version, and a relative URL. */
  lemma RequestPrefix(o: ApiObject, collection: bool, kw: map<string, Json>)
    requires ApiKwargs(o, CollectionArg(collection)) == Ok(kw)
    ensures kw.Keys <= {"url", "base", "version", "namespace"}
    ensures "url" in kw && kw["url"].JStr?
    ensures Http.BaseAndVersion(kw) == Ok((JStr(ApiBase(o.kind)), JStr(Version(o.kind))))
    ensures Http.RelativeUrl(kw) == Ok(kw["url"].s)
  {
    var args := CollectionArg(collection);
    assert "url" !in args && "version" !in args && "base" !in args && "namespace" !in args;
    assert kw.Keys <= {"url", "base", "version", "namespace"};
    assert "base" !in kw;
    DefaultBase(o.kind);
    assert Http.BaseAndVersion(kw) == Ok((JStr(ApiBase(o.kind)), JStr(Version(o.kind))));
    EndpointRelative(o.kind);
    assert !Http.StartsWithSlash(kw["url"].s);
  }

  /**
   The client only shapes the URL: whether a request can be built, and the
   error when it cannot, do not depend on it, and neither does `exists`.
   */
  lemma ClientShapesOnlyTheUrl(o: ApiObject, collection: bool, a1: Http.Client, a2: Http.Client)
    ensures Request(o, collection, a1).Ok? <==> Request(o, collection, a2).Ok?
    ensures Request(o, collection, a1).Err? ==> Request(o, collection, a1) == Request(o, collection, a2)
    ensures forall status: int, ensure: bool {:trigger Exists(o, a1, status, ensure)} ::
              Exists(o, a1, status, ensure) == Exists(o, a2, status, ensure)
  {
  }

  /** Every class's version is `v1` or contains `/`, so `get_kwargs` never needs a `base`. */
  lemma DefaultBase(k: Kind)
    ensures Version(k) == "v1" || '/' in Version(k)
  {
    if Version(k) == "extensions/v1beta1" {
      assert Version(k)[10] == '/';
    } else if Version(k) == "batch/v1" {
      assert Version(k)[5] == '/';
    }
  }

  /** An endpoint is never empty and never absolute. */
  lemma EndpointRelative(k: Kind)
    ensures |Endpoint(k)| > 0 && Endpoint(k)[0] != '/'
  {
  }

  /**
   `exists(ensure)`: 200 means present; 404 means absent, or
   `ObjectDoesNotExist` when `ensure` is set (its message reads `name`, whose
   own error surfaces first); any other status goes through
   `raise_for_status`, and one that passes it counts as present. Building
   the GET comes first.
   */
  function Exists(o: ApiObject, api: Http.Client, status: int, ensure: bool): (r: Result<bool>)
    ensures RequestError(o, false).Some? ==> r == Err(RequestError(o, false).value)
    ensures RequestError(o, false).None? ==>
              && (r == Ok(true) <==> !Http.IsErrorStatus(status))
              && (r == Ok(false) <==> status == 404 && !ensure)
              && (r == Err(ObjectDoesNotExist) <==> status == 404 && ensure && Name(o).Ok?)
              && (status == 404 && ensure && Name(o).Err? ==> r == Err(Name(o).error))
              && (Http.IsErrorStatus(status) && status != 404 ==> r == Err(HTTPError(status)))
  {
    var _ :- Request(o, false, api);
    var _ :- if status != 200 && status != 404 then Http.RaiseForStatus(status) else Ok(());
    if Http.IsErrorStatus(status) then
      if ensure then
        var _ :- Name(o);
        Err(ObjectDoesNotExist)
      else Ok(false)
    else Ok(true)
  }

  /** `create`: POST to the collection; on success both documents become the server's. */
  function Create(o: ApiObject, api: Http.Client, resp: Response): (r: Result<ApiObject>)
    ensures RequestError(o, true).Some? ==> r == Err(RequestError(o, true).value)
    ensures r.Ok? <==> RequestError(o, true).None? && !Http.IsErrorStatus(resp.status)
    ensures r.Ok? ==> r.value == SetObj(o.kind, resp.body)
  {
    var _ :- Request(o, true, api);
    var _ :- Http.RaiseForStatus(resp.status);
    Ok(SetObj(o.kind, resp.body))
  }

  /** `reload`: GET the object; on success both documents become the server's. */
  function Reload(o: ApiObject, api: Http.Client, resp: Response): (r: Result<ApiObject>)
    ensures RequestError(o, false).Some? ==> r == Err(RequestError(o, false).value)
    ensures r.Ok? <==> RequestError(o, false).None? && !Http.IsErrorStatus(resp.status)
    ensures r.Ok? ==> r.value == SetObj(o.kind, resp.body)
  {
    var _ :- Request(o, false, api);
    var _ :- Http.RaiseForStatus(resp.status);
    Ok(SetObj(o.kind, resp.body))
  }

  /**
   The merge-patch body `update` sends: the working document, with the
   snapshot filling the keys it dropped; an unchanged document is sent as is.
   */
  function PatchBody(o: ApiObject): (body: map<string, Json>)
    ensures body.Keys == o.obj.Keys + o.original.Keys
    ensures o.obj == o.original ==> body == o.obj
  {
    Utils.MergeFields(o.obj, o.original);
    if o.obj == o.original then
      Utils.MergeSelf(o.obj);
      Utils.ObjMerge(o.obj, o.original)
    else Utils.ObjMerge(o.obj, o.original)
  }

  /** What `update` did: the object afterwards and the body its PATCH carried. */
  datatype Patched = Patched(obj: ApiObject, sent: map<string, Json>)

  /**
   `update`: the working document becomes the merge, which the PATCH is
   built from and carries; on success both documents become the server's.
   */
  function Update(o: ApiObject, api: Http.Client, resp: Response): (r: Result<Patched>)
    ensures RequestError(o.(obj := PatchBody(o)), false).Some? ==>
              r == Err(RequestError(o.(obj := PatchBody(o)), false).value)
    ensures r.Ok? <==> RequestError(o.(obj := PatchBody(o)), false).None? && !Http.IsErrorStatus(resp.status)
    ensures r.Ok? ==> r.value.obj == SetObj(o.kind, resp.body)
    ensures r.Ok? ==> r.value.sent == PatchBody(o)
  {
    var merged := o.(obj := PatchBody(o));
    var _ :- Request(merged, false, api);
    var _ :- Http.RaiseForStatus(resp.status);
    Ok(Patched(SetObj(o.kind, resp.body), merged.obj))
  }

  /**
   What `update` sends keeps every key and scalar of the working document and
   adds the snapshot's keys the working document dropped.
   */
  lemma PatchBodyKeepsCurrent(o: ApiObject)
    ensures Utils.Extends(JObj(PatchBody(o)), JObj(o.obj))
    ensures forall k :: k in o.original && k !in o.obj ==> PatchBody(o)[k] == o.original[k]
  {
    Utils.MergeFields(o.obj, o.original);
    Utils.MergeExtends(o.obj, o.original);
  }

  /** `delete`: building the request comes first; then a 404 counts as done and any other status goes through `raise_for_status`. */
  function Delete(o: ApiObject, api: Http.Client, status: int): (r: Result<()>)
    ensures RequestError(o, false).Some? ==> r == Err(RequestError(o, false).value)
    ensures RequestError(o, false).None? ==> (r.Ok? <==> status == 404 || !Http.IsErrorStatus(status))
    ensures RequestError(o, false).None? && r.Err? ==> r.error == HTTPError(status)
  {
    var _ :- Request(o, false, api);
    if status != 404 then Http.RaiseForStatus(status) else Ok(())
  }

  /**
   `Pod.ready`: the `status` of the first condition whose `type` is
   `"Ready"` is `"True"`. A pod without `status.conditions` is not ready.
   */
  function PodReady(o: ApiObject): (r: Result<bool>)
    ensures "status" !in o.obj ==> r == Err(KeyError("status"))
    ensures "status" in o.obj && o.obj["status"].JObj? && "conditions" !in o.obj["status"].fields ==> r == Ok(false)
  {
    var status :- Get(JObj(o.obj), "status");
    var cs :- GetOr(status, "conditions", JList([]));
    var conditions :- Members(cs);
    FirstReady(conditions)
  }

  /** The generator `next(c for c in cs if c["type"] == "Ready")` followed by the status test. */
  function FirstReady(cs: seq<Json>): (r: Result<bool>)
    ensures r == Ok(true) ==> exists i :: 0 <= i < |cs| && Get(cs[i], "type") == Ok(JStr("Ready"))
                                          && Get(cs[i], "status") == Ok(JStr("True"))
    ensures (forall j :: 0 <= j < |cs| ==> Get(cs[j], "type").Ok? && Get(cs[j], "type").value != JStr("Ready"))
              ==> r == Ok(false)
    ensures r.Err? ==> exists j :: 0 <= j < |cs| && (Get(cs[j], "type").Err? || Get(cs[j], "status").Err?)
    decreases |cs|
  {
    if |cs| == 0 then Ok(false)
    else
      var t :- Get(cs[0], "type");
      if t == JStr("Ready") then
        var s :- Get(cs[0], "status");
        Ok(s == JStr("True"))
      else FirstReady(cs[1..])
  }

  /** Condition `i` is the first whose type is `"Ready"`, and every earlier one has a type. */
  ghost predicate FirstReadyAt(cs: seq<Json>, i: int) {
    && 0 <= i < |cs|
    && Get(cs[i], "type") == Ok(JStr("Ready"))
    && forall j :: 0 <= j < i ==> Get(cs[j], "type").Ok? && Get(cs[j], "type").value != JStr("Ready")
  }

  /** `FirstReady` against a search-free description of the first Ready condition. */
  lemma {:induction false} FirstReadySpec(cs: seq<Json>)
    ensures FirstReady(cs) == Ok(true) <==>
              exists i :: FirstReadyAt(cs, i) && Get(cs[i], "status") == Ok(JStr("True"))
    ensures (forall j :: 0 <= j < |cs| ==> Get(cs[j], "type").Ok? && Get(cs[j], "type").value != JStr("Ready"))
              ==> FirstReady(cs) == Ok(false)
    decreases |cs|
  {
    if |cs| > 0 {
      FirstReadySpec(cs[1..]);
      var t := Get(cs[0], "type");
      if t.Ok? && t.value != JStr("Ready") {
        if FirstReady(cs) == Ok(true) {
          var i :| FirstReadyAt(cs[1..], i) && Get(cs[1..][i], "status") == Ok(JStr("True"));
          assert FirstReadyAt(cs, i + 1);
        }
        if exists i :: FirstReadyAt(cs, i) && Get(cs[i], "status") == Ok(JStr("True")) {
          var i :| FirstReadyAt(cs, i) && Get(cs[i], "status") == Ok(JStr("True"));
          assert i > 0;
          assert FirstReadyAt(cs[1..], i - 1);
        }
      } else if t.Ok? {
        if FirstReady(cs) == Ok(true) {
          assert FirstReadyAt(cs, 0);
        }
        if exists i :: FirstReadyAt(cs, i) && Get(cs[i], "status") == Ok(JStr("True")) {
          var i :| FirstReadyAt(cs, i) && Get(cs[i], "status") == Ok(JStr("True"));
          assert i == 0;
        }
      }
    }
  }

  /** A pod whose conditions are a list: ready exactly when its first Ready condition says `"True"`. */
  lemma PodReadyByConditions(o: ApiObject, cs: seq<Json>)
    requires "status" in o.obj && o.obj["status"].JObj?
    requires "conditions" in o.obj["status"].fields && o.obj["status"].fields["conditions"] == JList(cs)
    ensures PodReady(o) == Ok(true) <==> exists i :: FirstReadyAt(cs, i) && Get(cs[i], "status") == Ok(JStr("True"))
  {
    FirstReadySpec(cs);
  }
}
