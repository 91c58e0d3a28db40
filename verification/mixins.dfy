/**
 The replica-count capability shared by the replicated resource classes
 (pykube/mixins.py): the `replicas` accessor, the `scalable` indirection
 through `scalable_attr`, and `scale`, which patches the count and then
 reloads until the server reports it.
 */
module Mixins {
  import opened Errors
  import opened Json
  import opened Objects
  import Http
  import Utils

  /** The classes that mix in `ReplicatedMixin`: the only ones with a `replicas` property. */
  predicate Replicated(k: Kind) {
    k.Deployment? || k.ReplicationController? || k.ReplicaSet?
  }

  /** `scalable_attr` of the classes that mix in `ScalableMixin`; `None` for the others. */
  function ScalableAttr(k: Kind): Option<string> {
    match k
    case Deployment | ReplicationController | ReplicaSet => Some("replicas")
    case Job => Some("parallelism")
    case _ => None
  }

  /** `obj["spec"][attr]`. */
  function SpecField(o: ApiObject, attr: string): Result<Json> {
    var spec :- Get(JObj(o.obj), "spec");
    Get(spec, attr)
  }

  /** `obj["spec"][attr] = v`: only that entry of `spec` changes. */
  function SetSpecField(o: ApiObject, attr: string, v: Json): (r: Result<ApiObject>)
    ensures r.Ok? <==> "spec" in o.obj && o.obj["spec"].JObj?
  {
    var spec :- Get(JObj(o.obj), "spec");
    var spec' :- Put(spec, attr, v);
    Ok(o.(obj := o.obj["spec" := spec']))
  }

  /** The `replicas` property; an object of a class without `ReplicatedMixin` has no such attribute. */
  function Replicas(o: ApiObject): (r: Result<Json>)
    ensures !Replicated(o.kind) ==> r.Err? && r.error.AttributeError?
    ensures Replicated(o.kind) && "spec" !in o.obj ==> r == Err(KeyError("spec"))
    ensures Replicated(o.kind) && "spec" in o.obj && o.obj["spec"].JObj? ==>
              r == if "replicas" in o.obj["spec"].fields then Ok(o.obj["spec"].fields["replicas"])
                   else Err(KeyError("replicas"))
  {
    if !Replicated(o.kind) then Err(AttributeError("object has no attribute 'replicas'"))
    else SpecField(o, "replicas")
  }

  /** The `replicas` setter. */
  function SetReplicas(o: ApiObject, v: Json): (r: Result<ApiObject>)
    ensures r.Ok? <==> Replicated(o.kind) && "spec" in o.obj && o.obj["spec"].JObj?
  {
    if !Replicated(o.kind) then Err(AttributeError("object has no attribute 'replicas'"))
    else SetSpecField(o, "replicas", v)
  }

  /**
   Reading `replicas` after setting it gives the value set; nothing but
   `spec.replicas` changes, and the snapshot is untouched.
   */
  lemma ReplicasRoundTrip(o: ApiObject, v: Json)
    requires Replicated(o.kind)
    requires "spec" in o.obj && o.obj["spec"].JObj?
    ensures SetReplicas(o, v).Ok?
    ensures Replicas(SetReplicas(o, v).value) == Ok(v)
    ensures var o' := SetReplicas(o, v).value;
            && o'.kind == o.kind && o'.original == o.original
            && o'.obj.Keys == o.obj.Keys
            && (forall k :: k in o.obj && k != "spec" ==> o'.obj[k] == o.obj[k])
            && o'.obj["spec"].JObj?
            && o'.obj["spec"].fields == o.obj["spec"].fields["replicas" := v]
  {
  }

  /** `scalable`: the attribute `scalable_attr` names. */
  function Scalable(o: ApiObject): (r: Result<Json>)
    ensures ScalableAttr(o.kind).None? ==> r.Err?
    ensures ScalableAttr(o.kind).Some? ==> r == SpecField(o, ScalableAttr(o.kind).value)
  {
    match ScalableAttr(o.kind)
    case None => Err(AttributeError("object has no attribute 'scalable_attr'"))
    case Some(attr) => SpecField(o, attr)
  }

  /**
   The `scalable` setter: reading `scalable` back gives the value set, and
   nothing but that entry of `spec` changes.
   */
  function SetScalable(o: ApiObject, v: Json): (r: Result<ApiObject>)
    ensures r.Ok? <==> ScalableAttr(o.kind).Some? && "spec" in o.obj && o.obj["spec"].JObj?
    ensures r.Ok? ==> Scalable(r.value) == Ok(v)
    ensures r.Ok? ==> r.value.kind == o.kind && r.value.original == o.original && r.value.obj.Keys == o.obj.Keys
    ensures r.Ok? ==> forall k :: k in o.obj && k != "spec" ==> r.value.obj[k] == o.obj[k]
    ensures r.Ok? ==> r.value.obj["spec"] == JObj(o.obj["spec"].fields[ScalableAttr(o.kind).value := v])
  {
    match ScalableAttr(o.kind)
    case None => Err(AttributeError("object has no attribute 'scalable_attr'"))
    case Some(attr) => SetSpecField(o, attr, v)
  }

  /** Replicated classes scale `spec.replicas`; a `Job` scales `spec.parallelism`; no other class scales. */
  lemma ScalableIsReplicasOrParallelism(o: ApiObject)
    ensures Replicated(o.kind) ==> Scalable(o) == Replicas(o)
    ensures o.kind == Job ==> Scalable(o) == SpecField(o, "parallelism")
    ensures !Replicated(o.kind) && o.kind != Job ==> Scalable(o).Err?
  {
  }

  /** One `scale` call's client and the server's side of it: the existence check, the PATCH, the successive reloads. */
  datatype ScaleEnv = ScaleEnv(api: Http.Client, existsStatus: int, patch: Response, reloads: seq<Response>)

  /**
   The outcome of `scale`: the object afterwards, the requests sent, the
   merge-patch body of the PATCH when one was sent, and whether the reload
   loop saw the target (`false` when the given reloads ran out first; the
   library would keep polling).
   */
  datatype ScaleRun = ScaleRun(obj: ApiObject, calls: seq<Verb>, sent: Option<map<string, Json>>, converged: bool)

  function Gets(n: nat): (r: seq<Verb>)
    ensures |r| == n && forall i :: 0 <= i < n ==> r[i] == GET
  {
    if n == 0 then [] else [GET] + Gets(n - 1)
  }

  /**
   The reload loop: reload until `scalable` equals `count` by Python's `==`.
   Returns the reloaded object, the number of reloads and whether the target
   was seen.
   */
  function AwaitScalable(o: ApiObject, count: Json, api: Http.Client, reloads: seq<Response>): (r: Result<(ApiObject, nat, bool)>)
    ensures r.Ok? ==> r.value.1 <= |reloads|
    ensures r.Ok? && r.value.2 ==> Scalable(r.value.0).Ok? && PyEq(Scalable(r.value.0).value, count)
    ensures r.Ok? && r.value.2 ==> r.value.1 >= 1 && r.value.0 == SetObj(o.kind, reloads[r.value.1 - 1].body)
    ensures r.Ok? && !r.value.2 ==> r.value.1 == |reloads|
    decreases |reloads|
  {
    if |reloads| == 0 then Ok((o, 0, false))
    else
      var o' :- Reload(o, api, reloads[0]);
      var current :- Scalable(o');
      if PyEq(current, count) then Ok((o', 1, true))
      else
        var rest :- AwaitScalable(o', count, api, reloads[1..]);
        assert o'.kind == o.kind;
        assert rest.2 ==> reloads[1..][rest.1 - 1] == reloads[rest.1];
        Ok((rest.0, rest.1 + 1, rest.2))
  }

  /**
   `scale(replicas)`: the target is `replicas`, or the current value when it
   is `None` (`JNull`); the object must exist; only when the current value
   differs from the target by Python's `!=` is it set, PATCHed once, and
   reloaded until it shows.
   */
  function Scale(o: ApiObject, replicas: Json, env: ScaleEnv): (r: Result<ScaleRun>)
    ensures r.Ok? ==> |r.value.calls| >= 1 && r.value.calls[0] == GET
    ensures r.Ok? ==> forall i :: 2 <= i < |r.value.calls| ==> r.value.calls[i] == GET
    ensures r.Ok? ==> (r.value.sent.Some? <==> PATCH in r.value.calls)
    ensures r.Ok? && r.value.sent.None? ==> r.value == ScaleRun(o, [GET], None, true)
    ensures r.Ok? && r.value.sent.Some? ==>
              && replicas != JNull && Scalable(o).Ok? && !PyEq(Scalable(o).value, replicas)
              && SetScalable(o, replicas).Ok?
              && r.value.sent.value == PatchBody(SetScalable(o, replicas).value)
  {
    var count :- if replicas == JNull then Scalable(o) else Ok(replicas);
    var _ :- Exists(o, env.api, env.existsStatus, true);
    var current :- Scalable(o);
    PyEqReflSymm(current, current);
    if PyEq(current, count) then Ok(ScaleRun(o, [GET], None, true))
    else Rescale(o, count, env)
  }

  /**
   The branch of `scale` that changes the value: set it, PATCH once with the
   merge of the updated document and its snapshot, then reload until it shows.
   */
  function Rescale(o: ApiObject, count: Json, env: ScaleEnv): (r: Result<ScaleRun>)
    ensures r.Ok? ==> |r.value.calls| >= 2 && r.value.calls[0] == GET && r.value.calls[1] == PATCH
    ensures r.Ok? ==> forall i :: 2 <= i < |r.value.calls| ==> r.value.calls[i] == GET
    ensures r.Ok? ==> |r.value.calls| <= 2 + |env.reloads|
    ensures r.Ok? ==> SetScalable(o, count).Ok? && r.value.sent == Some(PatchBody(SetScalable(o, count).value))
    ensures r.Ok? && r.value.converged ==> Scalable(r.value.obj).Ok? && PyEq(Scalable(r.value.obj).value, count)
  {
    var o1 :- SetScalable(o, count);
    var patched :- Update(o1, env.api, env.patch);
    var waited :- AwaitScalable(patched.obj, count, env.api, env.reloads);
    Ok(ScaleRun(waited.0, [GET, PATCH] + Gets(waited.1), Some(patched.sent), waited.2))
  }

  /**
   The PATCH `scale` sends carries the target: the merge body extends the
   document with the target written in, so a scalar target reaches the
   server unchanged under `spec[scalable_attr]`.
   */
  lemma {:induction false} PatchCarriesTarget(o: ApiObject, count: Json)
    requires SetScalable(o, count).Ok?
    ensures Utils.Extends(JObj(PatchBody(SetScalable(o, count).value)), JObj(SetScalable(o, count).value.obj))
    ensures !Utils.IsContainer(count) ==>
              Scalable(o.(obj := PatchBody(SetScalable(o, count).value))) == Ok(count)
  {
    var o1 := SetScalable(o, count).value;
    var attr := ScalableAttr(o.kind).value;
    var body := PatchBody(o1);
    PatchBodyKeepsCurrent(o1);
    assert Utils.Extends(body["spec"], o1.obj["spec"]);
    assert body["spec"].JObj?;
    assert Utils.Extends(body["spec"].fields[attr], count);
    if !Utils.IsContainer(count) {
      assert body["spec"].fields[attr] == count;
    }
  }

  /**
   `scale()` with no argument takes the current value as its target, so it
   only checks existence: no PATCH is sent and the object is unchanged.
   */
  lemma ScaleWithoutTargetOnlyChecksExistence(o: ApiObject, env: ScaleEnv)
    ensures Scale(o, JNull, env).Ok? <==> Scalable(o).Ok? && Exists(o, env.api, env.existsStatus, true) == Ok(true)
    ensures Scale(o, JNull, env).Ok? ==> Scale(o, JNull, env).value == ScaleRun(o, [GET], None, true)
  {
    if Scalable(o).Ok? {
      PyEqReflSymm(Scalable(o).value, Scalable(o).value);
    }
  }

  /**
   A missing object makes `scale` raise before anything is set or sent beyond
   the existence check: `ObjectDoesNotExist`, or the error of reading the name
   that its message formats; a GET that cannot be built raises first.
   */
  lemma ScaleOfMissingObjectRaises(o: ApiObject, replicas: Json, env: ScaleEnv)
    requires Scalable(o).Ok?
    requires env.existsStatus == 404
    ensures Scale(o, replicas, env)
            == Err(if RequestError(o, false).Some? then RequestError(o, false).value
                   else if Name(o).Ok? then ObjectDoesNotExist else Name(o).error)
  {
  }

  /**
   `scale(n)` with `n` different from the current value sends exactly one
   PATCH, right after the existence check, whose body carries `n`; when the
   reloads converge the object reports `n`.
   */
  lemma ScaleToNewTarget(o: ApiObject, n: Json, env: ScaleEnv)
    requires n != JNull
    requires Scalable(o).Ok? && !PyEq(Scalable(o).value, n)
    ensures Scale(o, n, env).Ok? ==>
              var run := Scale(o, n, env).value;
              && |run.calls| >= 2 && run.calls[0] == GET && run.calls[1] == PATCH
              && (forall i :: 0 <= i < |run.calls| && i != 1 ==> run.calls[i] == GET)
              && |run.calls| <= 2 + |env.reloads|
              && run.sent.Some?
              && (!Utils.IsContainer(n) ==> Scalable(o.(obj := run.sent.value)) == Ok(n))
              && (run.converged ==> Scalable(run.obj).Ok? && PyEq(Scalable(run.obj).value, n))
  {
    if Scale(o, n, env).Ok? {
      ScaleIsRescale(o, n, env);
      RescaleCarriesTarget(o, n, env);
    }
  }

  lemma ScaleIsRescale(o: ApiObject, n: Json, env: ScaleEnv)
    requires n != JNull
    requires Scalable(o).Ok? && !PyEq(Scalable(o).value, n)
    requires Scale(o, n, env).Ok?
    ensures Scale(o, n, env) == Rescale(o, n, env)
  {
  }

  lemma RescaleCarriesTarget(o: ApiObject, n: Json, env: ScaleEnv)
    requires Rescale(o, n, env).Ok?
    ensures var run := Rescale(o, n, env).value;
            && |run.calls| >= 2 && run.calls[0] == GET && run.calls[1] == PATCH
            && (forall i :: 0 <= i < |run.calls| && i != 1 ==> run.calls[i] == GET)
            && |run.calls| <= 2 + |env.reloads|
            && run.sent.Some?
            && Utils.Extends(JObj(run.sent.value), JObj(SetScalable(o, n).value.obj))
            && (!Utils.IsContainer(n) ==> Scalable(o.(obj := run.sent.value)) == Ok(n))
            && (run.converged ==> Scalable(run.obj).Ok? && PyEq(Scalable(run.obj).value, n))
  {
    var run := Rescale(o, n, env).value;
    assert run.sent == Some(PatchBody(SetScalable(o, n).value));
    assert forall i :: 2 <= i < |run.calls| ==> run.calls[i] == GET;
    forall i | 0 <= i < |run.calls| && i != 1
      ensures run.calls[i] == GET
    {
      if i != 0 {
        assert 2 <= i;
      }
    }
    PatchCarriesTarget(o, n);
  }

  /**
   Asking for a value Python's `==` finds equal to the current one (the value
   itself, or `1` for `True`) is the same as giving no target.
   */
  lemma ScaleToCurrentValue(o: ApiObject, n: Json, env: ScaleEnv)
    requires Scalable(o).Ok? && PyEq(Scalable(o).value, n)
    ensures Scale(o, n, env) == Scale(o, JNull, env)
  {
    PyEqReflSymm(Scalable(o).value, n);
  }
}
