/**
 * The key-value store the backend uses: a map from text keys to documents.
 * `online` is false when the store is unreachable; every operation would then
 * throw, so callers test it before their first operation.
 */
module KeyValue {
  import opened Common
  import opened Records

  /** `kv.mget(keys)`: one slot per key, in order, None for an absent key. */
  function FindAll(data: map<string, Value>, keys: seq<string>): (r: seq<Option<Value>>)
    ensures |r| == |keys|
    ensures forall i :: 0 <= i < |keys| ==> r[i] == Lookup(data, keys[i])
  {
    seq(|keys|, i requires 0 <= i < |keys| => Lookup(data, keys[i]))
  }

  class KvStore {
    var data: map<string, Value>
    const online: bool

    constructor (initial: map<string, Value>, online: bool)
      ensures data == initial && this.online == online
    {
      data := initial;
      this.online := online;
    }

    /** `kv.get(key)` */
    method Get(key: string) returns (v: Option<Value>)
      requires online
      ensures v == Lookup(data, key)
    {
      v := Lookup(data, key);
    }

    /** `kv.mget(keys)` */
    method MGet(keys: seq<string>) returns (vs: seq<Option<Value>>)
      requires online
      ensures vs == FindAll(data, keys)
    {
      vs := FindAll(data, keys);
    }

    /** `kv.set(key, value)`: replaces whatever the key held. */
    method Set(key: string, value: Value)
      requires online
      modifies this`data
      ensures data == old(data)[key := value]
    {
      data := data[key := value];
    }

    /** `kv.del(key)`: a no-op when the key is absent. */
    method Del(key: string)
      requires online
      modifies this`data
      ensures data == old(data) - {key}
    {
      data := data - {key};
    }
  }
}
