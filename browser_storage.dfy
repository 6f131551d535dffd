/**
 * The browser's `localStorage`: text values under text keys, with the keys in
 * an order that `key(i)` exposes. Removing a key keeps the order of the others,
 * and a new key goes last. `available` is false when the storage cannot be
 * used at all; every access would then throw, so callers test it first.
 */
module BrowserStorage {
  import opened Common

  predicate Distinct(s: seq<string>)
  {
    forall i, j :: 0 <= i < j < |s| ==> s[i] != s[j]
  }

  /** The key order after removing `k`. */
  function Removed(keys: seq<string>, k: string): (r: seq<string>)
    ensures forall x :: x in r <==> x in keys && x != k
    ensures |r| <= |keys|
  {
    if keys == [] then []
    else if keys[0] == k then Removed(keys[1..], k)
    else [keys[0]] + Removed(keys[1..], k)
  }

  lemma {:induction false} RemovedKeepsDistinct(keys: seq<string>, k: string)
    requires Distinct(keys)
    ensures Distinct(Removed(keys, k))
  {
    if keys != [] {
      RemovedKeepsDistinct(keys[1..], k);
      if keys[0] != k {
        var t := Removed(keys[1..], k);
        var r := [keys[0]] + t;
        assert keys[0] !in keys[1..];
        forall i, j | 0 <= i < j < |r|
          ensures r[i] != r[j]
        {
          if i == 0 {
            assert r[j] in t;
          } else {
            assert r[i] == t[i - 1] && r[j] == t[j - 1];
          }
        }
      }
    }
  }

  class Storage {
    var keys: seq<string>
    var items: map<string, string>
    const available: bool

    ghost predicate Valid()
      reads this
    {
      Distinct(keys) && forall k :: k in items <==> k in keys
    }

    constructor (available: bool)
      ensures Valid() && keys == [] && items == map[] && this.available == available
    {
      keys := [];
      items := map[];
      this.available := available;
    }

    /** `localStorage.length` */
    function Length(): nat
      reads this
    {
      |keys|
    }

    /** `localStorage.key(i)`: null past the end. */
    method Key(i: nat) returns (k: Option<string>)
      requires available
      ensures k == if i < |keys| then Some(keys[i]) else None
    {
      k := if i < |keys| then Some(keys[i]) else None;
    }

    /** `localStorage.getItem(key)`: null for an absent key. */
    method GetItem(key: string) returns (v: Option<string>)
      requires available
      ensures v == Lookup(items, key)
    {
      v := Lookup(items, key);
    }

    /** `localStorage.setItem(key, value)` */
    method SetItem(key: string, value: string)
      requires available && Valid()
      modifies this`keys, this`items
      ensures Valid()
      ensures items == old(items)[key := value]
      ensures keys == if key in old(items) then old(keys) else old(keys) + [key]
    {
      if key !in items {
        keys := keys + [key];
      }
      items := items[key := value];
    }

    /** `localStorage.removeItem(key)` */
    method RemoveItem(key: string)
      requires available && Valid()
      modifies this`keys, this`items
      ensures Valid()
      ensures items == old(items) - {key}
      ensures keys == Removed(old(keys), key)
    {
      RemovedKeepsDistinct(keys, key);
      keys := Removed(keys, key);
      items := items - {key};
    }
  }
}
