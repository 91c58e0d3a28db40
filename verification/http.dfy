/**
 The request-building and response-checking parts of the HTTP client
 (pykube/http.py): the API path `get_kwargs` assembles from keyword
 arguments, `raise_for_status`, and the bounded re-send on 401.
 */
module Http {
  import opened Errors
  import opened Json

  /** `requests` treats 4xx and 5xx as errors: `r.ok` is false exactly for these. */
  predicate IsErrorStatus(code: int) {
    400 <= code < 600
  }

  /** `raise_for_status`: an HTTP error for a 4xx or 5xx status, nothing otherwise. */
  function RaiseForStatus(code: int): (r: Result<()>)
    ensures r.Err? <==> IsErrorStatus(code)
    ensures r.Err? ==> r.error == HTTPError(code)
  {
    if IsErrorStatus(code) then Err(HTTPError(code)) else Ok(())
  }

  predicate StartsWithSlash(s: string) {
    |s| > 0 && s[0] == '/'
  }

  /** `posixpath.join(*parts)`: an absolute part restarts the path, otherwise one `/` separates. */
  function PosixJoin(parts: seq<string>): (path: string)
    requires |parts| > 0
    ensures StartsWithSlash(parts[|parts| - 1]) ==> path == parts[|parts| - 1]
    decreases |parts|
  {
    if |parts| == 1 then parts[0]
    else
      var path := PosixJoin(parts[..|parts| - 1]);
      var b := parts[|parts| - 1];
      if StartsWithSlash(b) then b
      else if |path| == 0 || path[|path| - 1] == '/' then path + b
      else path + "/" + b
  }

  /**
   An absolute part discards everything before it: the join is the join of
   the parts from the last absolute one on.
   */
  /** The join ends with its last part. */
  lemma JoinEndsWithLast(parts: seq<string>)
    requires |parts| > 0
    ensures var last := parts[|parts| - 1];
            var path := PosixJoin(parts);
            |last| <= |path| && path[|path| - |last|..] == last
  {
  }

  lemma {:induction false} JoinRestarts(parts: seq<string>, i: int)
    requires 0 <= i < |parts| && StartsWithSlash(parts[i])
    ensures PosixJoin(parts) == PosixJoin(parts[i..])
    decreases |parts|
  {
    if i < |parts| - 1 {
      var init := parts[..|parts| - 1];
      JoinRestarts(init, i);
      assert parts[i..][..|parts[i..]| - 1] == init[i..];
    }
  }

  /** `needle in v` for a one-character string `needle`. */
  function ContainsChar(v: Json, needle: char): Result<bool> {
    match v
    case JStr(s) => Ok(needle in s)
    case JList(xs) => Ok(JStr([needle]) in xs)
    case JObj(m) => Ok([needle] in m)
    case _ => Err(TypeError("argument is not iterable"))
  }

  /** The strings of `bits`, or the `TypeError` `posixpath.join` raises on a non-string. */
  function Strings(bits: seq<Json>): (r: Result<seq<string>>)
    ensures r.Ok? ==> |r.value| == |bits|
    ensures r.Ok? ==> forall i :: 0 <= i < |bits| ==> bits[i] == JStr(r.value[i])
    ensures r.Err? <==> exists i :: 0 <= i < |bits| && !bits[i].JStr?
    ensures r.Err? ==> r.error == TypeError("join() argument must be str")
  {
    if |bits| == 0 then Ok([])
    else if !bits[0].JStr? then Err(TypeError("join() argument must be str"))
    else
      match Strings(bits[1..])
      case Ok(rest) => Ok([bits[0].s] + rest)
      case Err(e) => Err(e)
  }

  /**
   The `(base, version)` pair: version `v1` defaults the base to `/api`, a
   version containing `/` to `/apis`; any other version needs an explicit
   `base`, which always overrides the default.
   */
  function BaseAndVersion(kwargs: map<string, Json>): (r: Result<(Json, Json)>)
    ensures "version" !in kwargs || kwargs["version"] == JStr("v1") ==>
              r == Ok((if "base" in kwargs then kwargs["base"] else JStr("/api"), JStr("v1")))
    ensures "version" in kwargs && kwargs["version"] != JStr("v1") && ContainsChar(kwargs["version"], '/') == Ok(true) ==>
              r == Ok((if "base" in kwargs then kwargs["base"] else JStr("/apis"), kwargs["version"]))
    ensures "version" in kwargs && ContainsChar(kwargs["version"], '/') == Ok(false) && kwargs["version"] != JStr("v1") ==>
              r == if "base" in kwargs then Ok((kwargs["base"], kwargs["version"]))
                   else Err(TypeError("unknown API version; base kwarg must be specified."))
  {
    var version := if "version" in kwargs then kwargs["version"] else JStr("v1");
    if version == JStr("v1") then
      Ok((if "base" in kwargs then kwargs["base"] else JStr("/api"), version))
    else
      var hasSlash :- ContainsChar(version, '/');
      if hasSlash then
        Ok((if "base" in kwargs then kwargs["base"] else JStr("/apis"), version))
      else if "base" !in kwargs then
        Err(TypeError("unknown API version; base kwarg must be specified."))
      else
        Ok((kwargs["base"], version))
  }

  /** The relative URL with exactly one leading `/` removed; it must be a string. */
  function RelativeUrl(kwargs: map<string, Json>): (r: Result<string>)
    ensures "url" !in kwargs ==> r == Ok("")
    ensures "url" in kwargs && kwargs["url"].JStr? ==>
              r == Ok(var u := kwargs["url"].s; if StartsWithSlash(u) then u[1..] else u)
    ensures "url" in kwargs && !kwargs["url"].JStr? ==> r.Err?
  {
    var url := if "url" in kwargs then kwargs["url"] else JStr("");
    if !url.JStr? then Err(AttributeError("url has no attribute 'startswith'"))
    else if StartsWithSlash(url.s) then Ok(url.s[1..])
    else Ok(url.s)
  }

  /** What `get_kwargs` reads from the client: its server URL and its configuration's `namespace`. */
  datatype Client = Client(url: string, namespace: Option<Json>)

  /**
   `HTTPClient.get_kwargs`: consumes `version`, `base` and `namespace` and
   replaces `url` by the client URL followed by the joined API path.
   `configNamespace` is the client configuration's `namespace` attribute;
   `None` stands for a configuration without one (reading it raises).
   */
  function GetKwargs(clientUrl: string, configNamespace: Option<Json>, kwargs: map<string, Json>)
    : (r: Result<map<string, Json>>)
    ensures r.Ok? ==> "version" !in r.value && "base" !in r.value && "namespace" !in r.value
    ensures r.Ok? ==> "url" in r.value && r.value["url"].JStr?
    ensures r.Ok? ==> forall k :: k in kwargs && k !in {"version", "base", "namespace", "url"} ==>
                        k in r.value && r.value[k] == kwargs[k]
    ensures r.Ok? ==> forall k :: k in r.value ==> k in kwargs || k == "url"
    ensures BaseAndVersion(kwargs).Err? ==> r == Err(BaseAndVersion(kwargs).error)
    ensures BaseAndVersion(kwargs).Ok? && NamespaceBits(configNamespace, kwargs).Err? ==>
              r == Err(NamespaceBits(configNamespace, kwargs).error)
  {
    var bv :- BaseAndVersion(kwargs);
    var nsBits :- NamespaceBits(configNamespace, kwargs);
    var path :- RelativeUrl(kwargs);
    var parts :- Strings([bv.0, bv.1] + nsBits + [JStr(path)]);
    Ok((kwargs - {"version", "base", "namespace"})["url" := JStr(clientUrl + PosixJoin(parts))])
  }

  /** A namespace segment pair as path strings. */
  lemma NamespaceSegment(configNamespace: Option<Json>, kwargs: map<string, Json>, ns: string)
    requires "namespace" in kwargs && kwargs["namespace"] == JStr(ns) && |ns| > 0
    ensures NamespaceBits(configNamespace, kwargs) == Ok(Strs(["namespaces", ns]))
  {
    assert Strs(["namespaces", ns]) == [JStr("namespaces"), JStr(ns)];
  }

  /**
   `get_kwargs` once its pieces are known: the URL is the client URL followed
   by base, version, namespace segments and relative URL joined as paths, and
   every other argument (`data`, `headers`, ...) passes through.
   */
  lemma GetKwargsFromParts(clientUrl: string, configNamespace: Option<Json>, kwargs: map<string, Json>,
                           base: string, version: string, nsBits: seq<string>, path: string)
    requires BaseAndVersion(kwargs) == Ok((JStr(base), JStr(version)))
    requires NamespaceBits(configNamespace, kwargs) == Ok(Strs(nsBits))
    requires RelativeUrl(kwargs) == Ok(path)
    ensures GetKwargs(clientUrl, configNamespace, kwargs)
            == Ok((kwargs - {"version", "base", "namespace"})["url" := JStr(clientUrl + PosixJoin([base, version] + nsBits + [path]))])
  {
    var parts := [base, version] + nsBits + [path];
    StringsOfStrings(parts);
    var bits := [JStr(base), JStr(version)] + Strs(nsBits) + [JStr(path)];
    forall i | 0 <= i < |parts|
      ensures bits[i] == Strs(parts)[i]
    {
      assert Strs(parts)[i] == JStr(parts[i]);
      if i < 2 {
        assert bits[i] == JStr(parts[i]);
      } else if i < 2 + |nsBits| {
        assert parts[i] == nsBits[i - 2];
        assert bits[i] == Strs(nsBits)[i - 2];
      } else {
        assert parts[i] == path && bits[i] == JStr(path);
      }
    }
    assert bits == Strs(parts);
  }

  /** `GetKwargsFromParts` for a request that has no arguments besides the consumed ones: only the URL is left. */
  lemma GetKwargsUrlOnly(clientUrl: string, configNamespace: Option<Json>, kwargs: map<string, Json>,
                         base: string, version: string, nsBits: seq<string>, path: string)
    requires kwargs.Keys <= {"version", "base", "namespace", "url"}
    requires BaseAndVersion(kwargs) == Ok((JStr(base), JStr(version)))
    requires NamespaceBits(configNamespace, kwargs) == Ok(Strs(nsBits))
    requires RelativeUrl(kwargs) == Ok(path)
    ensures GetKwargs(clientUrl, configNamespace, kwargs)
            == Ok(map["url" := JStr(clientUrl + PosixJoin([base, version] + nsBits + [path]))])
  {
    GetKwargsFromParts(clientUrl, configNamespace, kwargs, base, version, nsBits, path);
    OnlyUrlLeft(kwargs, JStr(clientUrl + PosixJoin([base, version] + nsBits + [path])));
  }

  /**
   The `namespaces/<ns>` path segments: none when `namespace` is absent or
   `None`; an empty value falls back to the configuration's namespace; a
   resolved namespace that is falsy adds nothing. `None` for
   `configNamespace` is a configuration without a `namespace` attribute, as
   pykube's own `KubeConfig` is: the fallback then raises `AttributeError`.
   */
  function NamespaceBits(configNamespace: Option<Json>, kwargs: map<string, Json>): (r: Result<seq<Json>>)
    ensures "namespace" !in kwargs || kwargs["namespace"] == JNull ==> r == Ok([])
    ensures "namespace" in kwargs && Truthy(kwargs["namespace"]) ==>
              r == Ok([JStr("namespaces"), kwargs["namespace"]])
    ensures r.Ok? ==> r.value == [] || (|r.value| == 2 && r.value[0] == JStr("namespaces") && Truthy(r.value[1]))
  {
    if "namespace" !in kwargs || kwargs["namespace"] == JNull then Ok([])
    else
      var n := kwargs["namespace"];
      var namespace :- if Truthy(n) then Ok(n)
                       else if configNamespace.Some? then Ok(configNamespace.value)
                       else Err(AttributeError("config has no attribute 'namespace'"));
      if Truthy(namespace) then Ok([JStr("namespaces"), namespace]) else Ok([])
  }

  /** The strings as JSON values. */
  function Strs(ss: seq<string>): (r: seq<Json>)
    ensures |r| == |ss| && forall i :: 0 <= i < |ss| ==> r[i] == JStr(ss[i])
  {
    if |ss| == 0 then [] else [JStr(ss[0])] + Strs(ss[1..])
  }

  lemma StringsOfStrings(ss: seq<string>)
    ensures Strings(Strs(ss)) == Ok(ss)
  {
    var r := Strings(Strs(ss));
    assert r.Ok?;
    assert r.value == ss;
  }

  /** Once the consumed keys are removed, a request with no other arguments keeps only its URL. */
  lemma OnlyUrlLeft(kwargs: map<string, Json>, url: Json)
    requires kwargs.Keys <= {"version", "base", "namespace", "url"}
    ensures (kwargs - {"version", "base", "namespace"})["url" := url] == map["url" := url]
  {
  }

  /** One step of `posixpath.join`: the effect of appending one more part. */
  lemma JoinStep(parts: seq<string>, b: string)
    requires |parts| > 0
    ensures var path := PosixJoin(parts);
            PosixJoin(parts + [b]) ==
              if StartsWithSlash(b) then b
              else if |path| == 0 || path[|path| - 1] == '/' then path + b
              else path + "/" + b
  {
    assert (parts + [b])[..|parts|] == parts;
  }

  lemma PlainJoin3(a: string, b: string, c: string)
    requires |a| > 0 && a[|a| - 1] != '/'
    requires |b| > 0 && b[0] != '/' && b[|b| - 1] != '/'
    requires !StartsWithSlash(c)
    ensures PosixJoin([a, b] + [] + [c]) == a + "/" + b + "/" + c
  {
    JoinStep([a], b);
    assert [a] + [b] == [a, b];
    var ab := a + "/" + b;
    assert ab[|ab| - 1] == b[|b| - 1];
    JoinStep([a, b], c);
    assert [a, b] + [c] == [a, b] + [] + [c];
  }

  lemma PlainJoin5(a: string, b: string, c: string, d: string, e: string)
    requires |a| > 0 && a[|a| - 1] != '/'
    requires |b| > 0 && b[0] != '/' && b[|b| - 1] != '/'
    requires |c| > 0 && c[0] != '/' && c[|c| - 1] != '/'
    requires |d| > 0 && d[0] != '/' && d[|d| - 1] != '/'
    requires !StartsWithSlash(e)
    ensures PosixJoin([a, b] + [c, d] + [e]) == a + "/" + b + "/" + c + "/" + d + "/" + e
  {
    PlainJoin3(a, b, c);
    assert [a, b] + [] + [c] == [a, b, c];
    var abc := a + "/" + b + "/" + c;
    assert abc[|abc| - 1] == c[|c| - 1];
    JoinStep([a, b, c], d);
    assert [a, b, c] + [d] == [a, b, c, d];
    var abcd := abc + "/" + d;
    assert abcd[|abcd| - 1] == d[|d| - 1];
    JoinStep([a, b, c, d], e);
    assert [a, b, c, d] + [e] == [a, b] + [c, d] + [e];
  }

  lemma NamespacedJoin(a: string, b: string, ns: string, e: string)
    requires |a| > 0 && a[|a| - 1] != '/'
    requires |b| > 0 && b[0] != '/' && b[|b| - 1] != '/'
    requires |ns| > 0 && ns[0] != '/' && ns[|ns| - 1] != '/'
    requires !StartsWithSlash(e)
    ensures PosixJoin([a, b] + ["namespaces", ns] + [e]) == a + "/" + b + "/namespaces/" + ns + "/" + e
  {
    PlainJoin5(a, b, "namespaces", ns, e);
    assert a + "/" + b + "/" + "namespaces" + "/" + ns + "/" + e == a + "/" + b + "/namespaces/" + ns + "/" + e;
  }

  /**
   The ordinary request path: for string arguments with no `/` at either end of
   the version and namespace, the URL is the client URL, the base, the version,
   `namespaces/<ns>`, and the relative URL with its one leading `/` removed.
   */
  lemma GetKwargsPath(clientUrl: string, base: string, version: string, ns: string, url: string)
    requires StartsWithSlash(base) && base[|base| - 1] != '/'
    requires |version| > 0 && version[0] != '/' && version[|version| - 1] != '/'
    requires |ns| > 0 && ns[0] != '/' && ns[|ns| - 1] != '/'
    requires !StartsWithSlash(url)
    ensures GetKwargs(clientUrl, None, map["base" := JStr(base), "version" := JStr(version),
                                           "namespace" := JStr(ns), "url" := JStr("/" + url)])
            == Ok(map["url" := JStr(clientUrl + base + "/" + version + "/namespaces/" + ns + "/" + url)])
  {
    var kw := map["base" := JStr(base), "version" := JStr(version), "namespace" := JStr(ns), "url" := JStr("/" + url)];
    assert RelativeUrl(kw) == Ok(url) by {
      assert ("/" + url)[1..] == url;
    }
    assert BaseAndVersion(kw) == Ok((JStr(base), JStr(version))) by {
      if version != "v1" {
        assert ContainsChar(JStr(version), '/').Ok?;
      }
    }
    NamespaceSegment(None, kw, ns);
    GetKwargsUrlOnly(clientUrl, None, kw, base, version, ["namespaces", ns], url);
    NamespacedUrl(clientUrl, base, version, ns, url);
  }

  lemma NamespacedUrl(clientUrl: string, base: string, version: string, ns: string, url: string)
    requires |base| > 0 && base[|base| - 1] != '/'
    requires |version| > 0 && version[0] != '/' && version[|version| - 1] != '/'
    requires |ns| > 0 && ns[0] != '/' && ns[|ns| - 1] != '/'
    requires !StartsWithSlash(url)
    ensures clientUrl + PosixJoin([base, version] + ["namespaces", ns] + [url])
            == clientUrl + base + "/" + version + "/namespaces/" + ns + "/" + url
  {
    NamespacedJoin(base, version, ns, url);
    assert clientUrl + (base + "/" + version + "/namespaces/" + ns + "/" + url)
           == clientUrl + base + "/" + version + "/namespaces/" + ns + "/" + url;
  }

  /** Without a namespace argument no `namespaces` segment is added. */
  lemma GetKwargsPathNoNamespace(clientUrl: string, base: string, version: string, url: string)
    requires StartsWithSlash(base) && base[|base| - 1] != '/'
    requires |version| > 0 && version[0] != '/' && version[|version| - 1] != '/'
    requires !StartsWithSlash(url)
    ensures GetKwargs(clientUrl, None, map["base" := JStr(base), "version" := JStr(version), "url" := JStr(url)])
            == Ok(map["url" := JStr(clientUrl + base + "/" + version + "/" + url)])
  {
    var kw := map["base" := JStr(base), "version" := JStr(version), "url" := JStr(url)];
    ExplicitBase(kw, base, version);
    assert Strs([]) == [];
    GetKwargsUrlOnly(clientUrl, None, kw, base, version, [], url);
    PlainUrl(clientUrl, base, version, url);
  }

  /** An explicit base with a string version is taken as given. */
  lemma ExplicitBase(kwargs: map<string, Json>, base: string, version: string)
    requires "base" in kwargs && kwargs["base"] == JStr(base)
    requires "version" in kwargs && kwargs["version"] == JStr(version)
    ensures BaseAndVersion(kwargs) == Ok((JStr(base), JStr(version)))
  {
    if version != "v1" {
      assert ContainsChar(JStr(version), '/').Ok?;
    }
  }

  lemma PlainUrl(clientUrl: string, base: string, version: string, url: string)
    requires |base| > 0 && base[|base| - 1] != '/'
    requires |version| > 0 && version[0] != '/' && version[|version| - 1] != '/'
    requires !StartsWithSlash(url)
    ensures clientUrl + PosixJoin([base, version] + [] + [url]) == clientUrl + base + "/" + version + "/" + url
  {
    PlainJoin3(base, version, url);
    assert clientUrl + (base + "/" + version + "/" + url) == clientUrl + base + "/" + version + "/" + url;
  }

  /** Only one leading `/` is removed: a URL starting with `//` restarts the joined path. */
  lemma DoubleSlashRestartsPath(clientUrl: string, rest: string)
    ensures GetKwargs(clientUrl, None, map["url" := JStr("//" + rest)])
            == Ok(map["url" := JStr(clientUrl + "/" + rest)])
  {
    var kw := map["url" := JStr("//" + rest)];
    assert ("//" + rest)[1..] == "/" + rest;
    assert Strs([]) == [];
    GetKwargsUrlOnly(clientUrl, None, kw, "/api", "v1", [], "/" + rest);
    JoinStep(["/api"], "v1");
    assert ["/api"] + ["v1"] == ["/api", "v1"];
    JoinStep(["/api", "v1"], "/" + rest);
    assert ["/api", "v1"] + ["/" + rest] == ["/api", "v1"] + [] + ["/" + rest];
    assert "/api/v1"[|"/api/v1"| - 1] != '/';
    assert PosixJoin(["/api", "v1"] + [] + ["/" + rest]) == "/" + rest;
    assert clientUrl + ("/" + rest) == clientUrl + "/" + rest;
  }

  /** Without a `version`, `v1` is used and the base defaults to `/api`. */
  lemma DefaultVersionUsesApi(clientUrl: string, url: string, apiBase: string)
    requires apiBase == "/api"
    requires !StartsWithSlash(url)
    ensures GetKwargs(clientUrl, None, map["url" := JStr(url)])
            == Ok(map["url" := JStr(clientUrl + apiBase + "/v1/" + url)])
  {
    var kw := map["url" := JStr(url)];
    assert Strs([]) == [];
    GetKwargsUrlOnly(clientUrl, None, kw, apiBase, "v1", [], url);
    PlainUrl(clientUrl, apiBase, "v1", url);
    assert clientUrl + apiBase + "/" + "v1" + "/" + url == clientUrl + apiBase + "/v1/" + url;
  }

  /** A grouped version (one containing `/`) defaults the base to `/apis`. */
  lemma GroupVersionUsesApis(clientUrl: string, version: string, url: string, apisBase: string)
    requires apisBase == "/apis"
    requires '/' in version && version[0] != '/' && version[|version| - 1] != '/'
    requires !StartsWithSlash(url)
    ensures GetKwargs(clientUrl, None, map["version" := JStr(version), "url" := JStr(url)])
            == Ok(map["url" := JStr(clientUrl + apisBase + "/" + version + "/" + url)])
  {
    var kw := map["version" := JStr(version), "url" := JStr(url)];
    assert '/' !in "v1";
    assert ContainsChar(JStr(version), '/') == Ok(true);
    assert BaseAndVersion(kw) == Ok((JStr(apisBase), JStr(version)));
    assert Strs([]) == [];
    GetKwargsUrlOnly(clientUrl, None, kw, apisBase, version, [], url);
    PlainUrl(clientUrl, apisBase, version, url);
  }

  /** Any other version string needs an explicit base. */
  lemma UnknownVersionNeedsBase(clientUrl: string, version: string, kwargs: map<string, Json>)
    requires version != "v1" && '/' !in version
    requires "version" in kwargs && kwargs["version"] == JStr(version) && "base" !in kwargs
    ensures GetKwargs(clientUrl, None, kwargs).Err?
    ensures GetKwargs(clientUrl, None, kwargs).error.TypeError?
  {
  }

  /**
   With a configuration that has no `namespace`, as pykube's `KubeConfig`,
   an empty namespace argument makes `get_kwargs` raise `AttributeError`.
   */
  lemma EmptyNamespaceWithoutConfigRaises(clientUrl: string, url: Json)
    ensures GetKwargs(clientUrl, None, map["namespace" := JStr(""), "url" := url])
            == Err(AttributeError("config has no attribute 'namespace'"))
  {
    var kw := map["namespace" := JStr(""), "url" := url];
    assert BaseAndVersion(kw) == Ok((JStr("/api"), JStr("v1")));
    assert NamespaceBits(None, kw) == Err(AttributeError("config has no attribute 'namespace'"));
  }

  /** An empty namespace resolves to the configuration's namespace. */
  lemma EmptyNamespaceUsesConfig(clientUrl: string, configNs: string)
    requires |configNs| > 0 && configNs[0] != '/' && configNs[|configNs| - 1] != '/'
    ensures GetKwargs(clientUrl, Some(JStr(configNs)), map["namespace" := JStr(""), "url" := JStr("pods")])
            == Ok(map["url" := JStr(clientUrl + "/api/v1/namespaces/" + configNs + "/pods")])
  {
    var kw := map["namespace" := JStr(""), "url" := JStr("pods")];
    EmptyNamespaceBits(configNs);
    GetKwargsUrlOnly(clientUrl, Some(JStr(configNs)), kw, "/api", "v1", ["namespaces", configNs], "pods");
    ConfigNamespaceUrl(clientUrl, configNs);
  }

  lemma EmptyNamespaceBits(configNs: string)
    requires |configNs| > 0
    ensures NamespaceBits(Some(JStr(configNs)), map["namespace" := JStr(""), "url" := JStr("pods")])
            == Ok(Strs(["namespaces", configNs]))
  {
    assert Strs(["namespaces", configNs]) == [JStr("namespaces"), JStr(configNs)];
  }

  lemma ConfigNamespaceUrl(clientUrl: string, configNs: string)
    requires |configNs| > 0 && configNs[0] != '/' && configNs[|configNs| - 1] != '/'
    ensures clientUrl + PosixJoin(["/api", "v1"] + ["namespaces", configNs] + ["pods"])
            == clientUrl + "/api/v1/namespaces/" + configNs + "/pods"
  {
    NamespacedUrl(clientUrl, "/api", "v1", configNs, "pods");
    var head := clientUrl + "/api" + "/" + "v1" + "/namespaces/";
    assert head == clientUrl + "/api/v1/namespaces/";
    assert head + configNs + "/" + "pods" == head + configNs + "/pods";
  }

  /** How the adapter's `send` ended: the last status and how many requests went out. */
  datatype Sent = Sent(status: int, sends: nat)

  /** `send` re-sends only on a 401, when a refresh function exists, and below attempt 2. */
  predicate ShouldRetry(status: int, hasRetry: bool, attempt: int) {
    status == 401 && hasRetry && attempt < 2
  }

  /**
   `send` followed through its retries: `statusAt(k)` is the status the request
   with `_retry_attempt == k` receives.
   */
  function Send(attempt: nat, hasRetry: bool, statusAt: nat -> int): (r: Sent)
    ensures 1 <= r.sends
    ensures attempt <= 2 ==> r.sends <= 3 - attempt
    ensures r.status == statusAt(attempt + r.sends - 1)
    ensures !ShouldRetry(r.status, hasRetry, attempt + r.sends - 1)
    ensures forall k :: attempt <= k < attempt + r.sends - 1 ==> ShouldRetry(statusAt(k), hasRetry, k)
    decreases 2 - attempt
  {
    var status := statusAt(attempt);
    if ShouldRetry(status, hasRetry, attempt) then
      var rest := Send(attempt + 1, hasRetry, statusAt);
      Sent(rest.status, rest.sends + 1)
    else Sent(status, 1)
  }

  /** From a fresh request at most three requests go out: the original and two retries. */
  lemma RetriesBounded(hasRetry: bool, statusAt: nat -> int)
    ensures Send(0, hasRetry, statusAt).sends <= 3
    ensures !hasRetry || statusAt(0) != 401 ==> Send(0, hasRetry, statusAt).sends == 1
  {
  }
}
