/**
 * The object store the signed forms and purchase orders go to. Only the
 * effect of a put is modelled: the object map gains the key. Whether a put
 * fails is decided outside the model and passed in.
 */
module ObjectStore {
  class BlobStore {
    var objects: map<string, seq<bv8>>

    constructor ()
      ensures objects == map[]
    {
      objects := map[];
    }

    /** put_object: stores the bytes under the key, replacing any earlier object. */
    method Put(key: string, data: seq<bv8>)
      modifies this
      ensures objects == old(objects)[key := data]
    {
      objects := objects[key := data];
    }
  }
}
