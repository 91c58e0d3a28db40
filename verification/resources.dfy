/**
 The minimal resource wrappers of pykube/resources.py: plain accessors over
 a document, with none of the defaulting pykube/objects.py performs.
 */
module Resources {
  import opened Errors
  import opened Json
  import Objects
  import Mixins

  datatype Resource = Resource(obj: map<string, Json>)

  /** `name`: `metadata.name`, the same rule `Objects.Name` follows. */
  function Name(r: Resource): (res: Result<Json>)
    ensures "metadata" !in r.obj ==> res == Err(KeyError("metadata"))
    ensures "metadata" in r.obj && r.obj["metadata"].JObj? ==>
              var md := r.obj["metadata"].fields;
              res == if "name" in md then Ok(md["name"]) else Err(KeyError("name"))
    ensures res == Objects.Name(Objects.SetObj(Objects.Pod, r.obj))
  {
    var md :- Get(JObj(r.obj), "metadata");
    Get(md, "name")
  }

  /** `namespace`: `metadata.namespace`, read directly. */
  function Namespace(r: Resource): (res: Result<Json>)
    ensures "metadata" in r.obj && r.obj["metadata"].JObj? ==>
              var md := r.obj["metadata"].fields;
              res == if "namespace" in md then Ok(md["namespace"]) else Err(KeyError("namespace"))
  {
    var md :- Get(JObj(r.obj), "metadata");
    Get(md, "namespace")
  }

  /**
   Unlike the namespaced classes of pykube/objects.py, a document without a
   namespace has none here rather than `"default"`.
   */
  lemma NamespaceHasNoDefault(doc: map<string, Json>, md: map<string, Json>)
    requires "metadata" in doc && doc["metadata"] == JObj(md) && "namespace" !in md
    ensures Namespace(Resource(doc)) == Err(KeyError("namespace"))
    ensures Objects.NamespaceOf(Objects.SetObj(Objects.Pod, doc)) == Ok(Some(JStr(Objects.DefaultNamespace)))
  {
  }

  /** `ReplicationController.replicas`: `spec.replicas`, with a `KeyError` for either missing level. */
  function Replicas(r: Resource): (res: Result<Json>)
    ensures "spec" !in r.obj ==> res == Err(KeyError("spec"))
    ensures "spec" in r.obj && r.obj["spec"].JObj? ==>
              var spec := r.obj["spec"].fields;
              res == if "replicas" in spec then Ok(spec["replicas"]) else Err(KeyError("replicas"))
    ensures res == Mixins.Replicas(Objects.SetObj(Objects.ReplicationController, r.obj))
  {
    var spec :- Get(JObj(r.obj), "spec");
    Get(spec, "replicas")
  }

  /** The `replicas` setter. */
  function SetReplicas(r: Resource, v: Json): (res: Result<Resource>)
    ensures res.Ok? <==> "spec" in r.obj && r.obj["spec"].JObj?
  {
    var spec :- Get(JObj(r.obj), "spec");
    var spec' :- Put(spec, "replicas", v);
    Ok(Resource(r.obj["spec" := spec']))
  }

  /** Reading `replicas` after setting it gives the value set; only `spec.replicas` changes. */
  lemma ReplicasRoundTrip(r: Resource, v: Json)
    requires "spec" in r.obj && r.obj["spec"].JObj?
    ensures SetReplicas(r, v).Ok? && Replicas(SetReplicas(r, v).value) == Ok(v)
    ensures var r' := SetReplicas(r, v).value;
            && r'.obj.Keys == r.obj.Keys
            && (forall k :: k in r.obj && k != "spec" ==> r'.obj[k] == r.obj[k])
            && r'.obj["spec"] == JObj(r.obj["spec"].fields["replicas" := v])
  {
  }

  /** `Pod.ready`: the same first-Ready rule, but `status.conditions` must exist. */
  function PodReady(r: Resource): (res: Result<bool>)
    ensures "status" in r.obj && r.obj["status"].JObj? && "conditions" !in r.obj["status"].fields ==>
              res == Err(KeyError("conditions"))
  {
    var status :- Get(JObj(r.obj), "status");
    var cs :- Get(status, "conditions");
    var conditions :- Members(cs);
    Objects.FirstReady(conditions)
  }

  /** Where both readers succeed they agree; without conditions only the pykube/objects.py one does. */
  lemma PodReadyAgreesWithObjects(doc: map<string, Json>)
    requires "status" in doc && doc["status"].JObj? && "conditions" in doc["status"].fields
    ensures PodReady(Resource(doc)) == Objects.PodReady(Objects.SetObj(Objects.Pod, doc))
  {
  }
}
