/** An S3 bucket as the history services use it: a map from keys to stored objects that
    requests read and overwrite. Service-side failures are part of the state: `faults`
    maps a key (or a listing prefix) to the error code every request on it fails with. */
module ObjectStore {
  import opened Outcomes
  import opened Text

  /** A stored body: raw bytes (an image, an audio file), text (a JSON Lines index), or a
      JSON document of the service's document type `D` (the text `json.dumps` gives for it). */
  datatype Body<D> = Bytes(data: seq<bv8>) | Text(content: string) | Document(doc: D)

  datatype StoredObject<D> = StoredObject(body: Body<D>, contentType: string)

  /** The error code S3 reports for a missing key. */
  const NoSuchKey := "NoSuchKey"

  class Bucket<D> {
    var objects: map<string, StoredObject<D>>
    const faults: map<string, string>

    constructor(faults: map<string, string>)
      ensures objects == map[] && this.faults == faults
    {
      objects := map[];
      this.faults := faults;
    }

    /** What `get_object` on `key` yields in the current state. */
    function Lookup(key: string): (r: Result<StoredObject<D>, string>)
      reads this
      ensures r.Success? <==> key !in faults && key in objects
      ensures r.Success? ==> r.value == objects[key]
      ensures r.Failure? ==> r.error == if key in faults then faults[key] else NoSuchKey
    {
      if key in faults then Failure(faults[key])
      else if key in objects then Success(objects[key])
      else Failure(NoSuchKey)
    }

    /** The keys a listing with `prefix` may return. */
    function Matching(prefix: string): set<string>
      reads this
    {
      set key | key in objects && StartsWith(key, prefix)
    }

    /** `put_object`: stores the body under `key`, replacing what was there, or fails with
        the key's fault and changes nothing. */
    method PutObject(key: string, body: Body<D>, contentType: string) returns (error: Option<string>)
      modifies this
      ensures key in faults ==> error == Some(faults[key]) && objects == old(objects)
      ensures key !in faults ==> error.None? && objects == old(objects)[key := StoredObject(body, contentType)]
    {
      if key in faults {
        return Some(faults[key]);
      }
      objects := objects[key := StoredObject(body, contentType)];
      error := None;
    }

    /** `get_object`. */
    method GetObject(key: string) returns (r: Result<StoredObject<D>, string>)
      ensures r == Lookup(key)
    {
      r := Lookup(key);
    }

    /** `list_objects_v2` with `Prefix` and `MaxKeys`: up to `maxKeys` distinct stored keys
        starting with the prefix, all of them when there are no more than that. */
    method ListObjects(prefix: string, maxKeys: nat) returns (r: Result<seq<string>, string>)
      ensures prefix in faults ==> r == Failure(faults[prefix])
      ensures prefix !in faults ==> r.Success?
      ensures r.Success? ==>
        && |r.value| == (if |Matching(prefix)| < maxKeys then |Matching(prefix)| else maxKeys)
        && (forall i :: 0 <= i < |r.value| ==> r.value[i] in Matching(prefix))
        && (forall i, j :: 0 <= i < j < |r.value| ==> r.value[i] != r.value[j])
    {
      if prefix in faults {
        return Failure(faults[prefix]);
      }
      var remaining := Matching(prefix);
      var keys: seq<string> := [];
      while remaining != {} && |keys| < maxKeys
        invariant remaining <= Matching(prefix) && |keys| <= maxKeys
        invariant |keys| + |remaining| == |Matching(prefix)|
        invariant forall i :: 0 <= i < |keys| ==> keys[i] in Matching(prefix) && keys[i] !in remaining
        invariant forall i, j :: 0 <= i < j < |keys| ==> keys[i] != keys[j]
        decreases |remaining|
      {
        var key :| key in remaining;
        keys := keys + [key];
        remaining := remaining - {key};
      }
      r := Success(keys);
    }
  }
}
