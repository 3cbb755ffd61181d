/** The part of the Kubernetes API the plugin talks to: the custom objects of the
    `grafana.integreatly.org/v1beta1` group in namespace `infra-grafana`, held as
    a map from (plural kind, name) to the object body. Reads, creates and deletes
    are the three SDK calls getNamespacedCustomObject,
    createNamespacedCustomObject and deleteNamespacedCustomObject. */
module Cluster {
  import opened Resources

  /** The two resource plurals the plugin uses: `grafanas` and `grafanadatasources`. */
  datatype Kind = Grafanas | GrafanaDatasources

  datatype ObjectKey = ObjectKey(kind: Kind, name: string)

  datatype CustomObject = InstanceBody(instance: Grafana) | DatasourceBody(datasource: GrafanaDatasource)

  type Objects = map<ObjectKey, CustomObject>

  /** createNamespacedCustomObject: the server stores the body under a name that
      is still free. It answers an error for a name already taken (the stored
      object stays as it was) and for a key it rejects for reasons of its own
      (`refused`: admission, quota, validation); the callers swallow both errors. */
  function CreateSpec(m: Objects, refused: set<ObjectKey>, key: ObjectKey, obj: CustomObject): (r: Objects)
    ensures forall k :: k != key ==> (k in r <==> k in m) && (k in m ==> r[k] == m[k])
    ensures key in m ==> key in r && r[key] == m[key]
    ensures key !in m ==> (key in r <==> key !in refused) && (key in r ==> r[key] == obj)
  {
    if key in m || key in refused then m else m[key := obj]
  }

  /** What else the server may refuse: reads that fail although the name may
      exist (`unreadable`: authorization, timeout, a transient error), and
      deletes it rejects (`undeletable`). The callers treat a failed read as
      "absent" and only log a failed delete. */
  datatype Faults = Faults(unreadable: set<ObjectKey>, undeletable: set<ObjectKey>)

  /** getNamespacedCustomObject answers the object: it exists and the read goes through. */
  predicate Found(m: Objects, faults: Faults, key: ObjectKey) {
    key in m && key !in faults.unreadable
  }

  /** deleteNamespacedCustomObject: afterwards the key is free unless the
      server rejected the delete; deleting a key that is absent is an error
      the callers swallow, and changes nothing. */
  function DeleteSpec(m: Objects, undeletable: set<ObjectKey>, key: ObjectKey): (r: Objects)
    ensures key in r <==> key in m && key in undeletable
    ensures key in r ==> r[key] == m[key]
    ensures forall k :: k != key ==> (k in r <==> k in m) && (k in m ==> r[k] == m[k])
  {
    if key in undeletable then m else m - {key}
  }

  class ClusterStore {
    var objects: Objects
    const refused: set<ObjectKey>
    const faults: Faults

    constructor (initial: Objects, refused: set<ObjectKey>, faults: Faults)
      ensures objects == initial && this.refused == refused && this.faults == faults
    {
      objects := initial;
      this.refused := refused;
      this.faults := faults;
    }

    /** getNamespacedCustomObject succeeds exactly when the object exists and
        the read goes through; the SDK throws otherwise. */
    method Get(key: ObjectKey) returns (found: bool)
      ensures found <==> key in objects && key !in faults.unreadable
    {
      found := Found(objects, faults, key);
    }

    method Create(key: ObjectKey, obj: CustomObject)
      modifies this
      ensures objects == CreateSpec(old(objects), refused, key, obj)
    {
      objects := CreateSpec(objects, refused, key, obj);
    }

    method Delete(key: ObjectKey)
      modifies this
      ensures objects == DeleteSpec(old(objects), faults.undeletable, key)
    {
      objects := DeleteSpec(objects, faults.undeletable, key);
    }
  }
}
