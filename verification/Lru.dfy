/** The recency list of `pack/module/lru.js`: what one call does to `data.keys`. */
module Lru {
  import opened Wrappers

  /** A key object. Only `area` and `uuid` identify it; `rest` is whatever else the object carries. */
  datatype UserArea = UserArea(area: string, uuid: string, rest: string)

  type Ident = (string, string)

  function Id(key: UserArea): Ident {
    (key.area, key.uuid)
  }

  predicate Matches(a: UserArea, b: UserArea) {
    a.uuid == b.uuid && a.area == b.area
  }

  predicate Has(keys: seq<UserArea>, key: UserArea) {
    exists i :: 0 <= i < |keys| && Matches(keys[i], key)
  }

  predicate Distinct(keys: seq<UserArea>) {
    forall i, j :: 0 <= i < j < |keys| ==> !Matches(keys[i], keys[j])
  }

  /** The list without its first entry that matches `key`. */
  function Without(keys: seq<UserArea>, key: UserArea): seq<UserArea> {
    if keys == [] then []
    else if Matches(keys[0], key) then keys[1..]
    else [keys[0]] + Without(keys[1..], key)
  }

  lemma {:induction false} WithoutAt(keys: seq<UserArea>, key: UserArea, i: nat)
    requires i < |keys| && Matches(keys[i], key)
    requires forall j :: 0 <= j < i ==> !Matches(keys[j], key)
    ensures Without(keys, key) == keys[..i] + keys[i + 1..]
  {
    if i > 0 {
      WithoutAt(keys[1..], key, i - 1);
      assert keys[1..][..i - 1] == keys[1..i];
      assert [keys[0]] + keys[1..i] == keys[..i];
    }
  }

  lemma {:induction false} WithoutMiss(keys: seq<UserArea>, key: UserArea)
    requires !Has(keys, key)
    ensures Without(keys, key) == keys
  {
    if keys != [] {
      assert !Matches(keys[0], key);
      forall i | 0 <= i < |keys| - 1 ensures !Matches(keys[1..][i], key) {
        assert keys[1..][i] == keys[i + 1];
      }
      WithoutMiss(keys[1..], key);
    }
  }

  datatype Op = Set(key: UserArea) | Get(key: UserArea) | Remove(key: UserArea)

  /** `data.keys` after one call; `limit` stands for `Const.LRU_MAP_LIMIT`. */
  function Step(limit: nat, keys: seq<UserArea>, op: Op): seq<UserArea> {
    match op
    case Set(key) =>
      var pushed := Without(keys, key) + [key];
      if |pushed| > limit then pushed[1..] else pushed
    case Get(key) => if Has(keys, key) then Without(keys, key) + [key] else keys
    case Remove(key) => Without(keys, key)
  }

  /** What the call returns; None is JavaScript's `undefined`. */
  function Reply(keys: seq<UserArea>, op: Op): Option<UserArea> {
    match op
    case Set(key) => Some(key)
    case Get(key) => if Has(keys, key) then Some(key) else None
    case Remove(_) => None
  }

  function Run(limit: nat, keys: seq<UserArea>, ops: seq<Op>): seq<UserArea>
    decreases |ops|
  {
    if ops == [] then keys else Run(limit, Step(limit, keys, ops[0]), ops[1..])
  }

  class Data {
    const id: string
    var keys: seq<UserArea>

    /** lruCreate */
    constructor (id: string)
      ensures this.id == id && keys == []
    {
      this.id := id;
      keys := [];
    }
  }

  /** aIndexOf */
  method IndexOf(val: UserArea, keys: seq<UserArea>) returns (index: int)
    ensures -1 <= index < |keys|
    ensures index < 0 <==> !Has(keys, val)
    ensures index >= 0 ==> Matches(keys[index], val) && !Has(keys[..index], val)
  {
    index := 0;
    while index < |keys|
      invariant 0 <= index <= |keys|
      invariant !Has(keys[..index], val)
    {
      if Matches(keys[index], val) {
        return;
      }
      index := index + 1;
    }
    assert keys[..index] == keys;
    index := -1;
  }

  /** aRemove: -1 on a miss, `undefined` (None) when an entry was spliced out. */
  method RemoveKey(val: UserArea, data: Data) returns (r: Option<int>)
    modifies data`keys
    ensures data.keys == Without(old(data.keys), val)
    ensures r == if Has(old(data.keys), val) then None else Some(-1)
  {
    var index := IndexOf(val, data.keys);
    if index > -1 {
      forall j | 0 <= j < index ensures !Matches(data.keys[j], val) {
        assert data.keys[..index][j] == data.keys[j];
      }
      WithoutAt(data.keys, val, index);
      data.keys := data.keys[..index] + data.keys[index + 1..];
      return None;
    }
    WithoutMiss(data.keys, val);
    return Some(-1);
  }

  /** `r < 0` in JavaScript, where `undefined < 0` is false. */
  predicate Negative(r: Option<int>) {
    r.Some? && r.value < 0
  }

  method LruSet(limit: nat, key: UserArea, data: Data) returns (r: Option<UserArea>)
    modifies data`keys
    ensures data.keys == Step(limit, old(data.keys), Set(key))
    ensures r == Reply(old(data.keys), Set(key))
  {
    var _ := RemoveKey(key, data);
    data.keys := data.keys + [key];
    if |data.keys| > limit {
      data.keys := data.keys[1..];
    }
    return Some(key);
  }

  method LruRemove(key: UserArea, data: Data) returns (r: Option<UserArea>)
    modifies data`keys
    ensures forall limit: nat :: data.keys == Step(limit, old(data.keys), Remove(key))
    ensures r == Reply(old(data.keys), Remove(key))
  {
    var _ := RemoveKey(key, data);
    return None;
  }

  method LruGet(key: UserArea, data: Data) returns (r: Option<UserArea>)
    modifies data`keys
    ensures forall limit: nat :: data.keys == Step(limit, old(data.keys), Get(key))
    ensures r == Reply(old(data.keys), Get(key))
  {
    var removed := RemoveKey(key, data);
    if Negative(removed) {
      WithoutMiss(old(data.keys), key);
      return None;
    }
    data.keys := data.keys + [key];
    return Some(key);
  }
}
