/** `LimitMap` of `pack/module/utils.js`: a map that forgets its oldest insertions. */
module LimitMaps {
  import opened Wrappers

  /** `limit || 10` */
  function LimitOr(limit: int): int {
    if limit != 0 then limit else 10
  }

  /** How many entries fit: a negative limit leaves room for the newest entry only. */
  function Capacity(limit: int): nat {
    if limit > 0 then limit else 1
  }

  datatype State<!K(==), V> = State(limit: int, entries: map<K, V>, keys: seq<K>) {
    /** The state after `set`. */
    function Set(key: K, value: V): State<K, V> {
      if key in entries then
        this.(entries := entries[key := value])
      else if |keys| >= limit && keys != [] then
        State(limit, (entries - {keys[0]})[key := value], keys[1..] + [key])
      else
        State(limit, entries[key := value], keys + [key])
    }
  }

  class LimitMap<!K(==), V> {
    var limit: int
    var entries: map<K, V>
    var keys: seq<K>

    function Value(): State<K, V>
      reads this
    {
      State(limit, entries, keys)
    }

    constructor (limit: int)
      ensures Value() == State(LimitOr(limit), map[], [])
    {
      this.limit := LimitOr(limit);
      this.entries := map[];
      this.keys := [];
    }

    method Set(key: K, value: V)
      modifies this
      ensures Value() == old(Value()).Set(key, value)
    {
      if key !in entries {
        if |keys| >= limit {
          // shift() of an empty array yields undefined, which is no key
          if keys != [] {
            var firstKey := keys[0];
            keys := keys[1..];
            entries := entries - {firstKey};
          }
        }
        keys := keys + [key];
      }
      entries := entries[key := value];
    }

    method Get(key: K) returns (value: Option<V>)
      ensures value == if key in entries then Some(entries[key]) else None
    {
      if key in entries {
        return Some(entries[key]);
      }
      return None;
    }

    method Reset(limit: int)
      modifies this
      ensures Value() == State(LimitOr(limit), map[], [])
    {
      this.limit := LimitOr(limit);
      this.entries := map[];
      this.keys := [];
    }
  }

  // ---------- whole runs ----------

  function Run<K(==), V>(s: State<K, V>, sets: seq<(K, V)>): State<K, V>
    decreases |sets|
  {
    if sets == [] then s else Run(s.Set(sets[0].0, sets[0].1), sets[1..])
  }

  /** The map that never forgets. */
  function Unbounded<K(==), V>(m: map<K, V>, sets: seq<(K, V)>): map<K, V>
    decreases |sets|
  {
    if sets == [] then m else Unbounded(m[sets[0].0 := sets[0].1], sets[1..])
  }

  /** The keys that were new when they were set, in order: a key that was forgotten is new again. */
  function Fresh<K(==), V>(s: State<K, V>, sets: seq<(K, V)>): seq<K>
    decreases |sets|
  {
    if sets == [] then []
    else (if sets[0].0 in s.entries then [] else [sets[0].0])
         + Fresh(s.Set(sets[0].0, sets[0].1), sets[1..])
  }

  function Last<K>(log: seq<K>, n: nat): seq<K> {
    if |log| <= n then log else log[|log| - n..]
  }

  /** The queue lists the map's domain, each key once. */
  ghost predicate Aligned<K, V>(entries: map<K, V>, keys: seq<K>) {
    && (forall i, j :: 0 <= i < j < |keys| ==> keys[i] != keys[j])
    && (forall i :: 0 <= i < |keys| ==> keys[i] in entries)
    && (forall key :: key in entries ==> key in keys)
  }

  ghost predicate Contained<K, V>(entries: map<K, V>, m: map<K, V>) {
    forall key :: key in entries ==> key in m && entries[key] == m[key]
  }

  /** The state, given the log of insertions since it was empty and the map that never forgets. */
  ghost predicate Agrees<K, V>(s: State<K, V>, log: seq<K>, m: map<K, V>) {
    s.keys == Last(log, Capacity(s.limit)) && Aligned(s.entries, s.keys) && Contained(s.entries, m)
  }

  lemma LastPush<K>(log: seq<K>, n: nat, key: K)
    requires n > 0
    ensures Last(log + [key], n) == (if |log| >= n then Last(log, n)[1..] else Last(log, n)) + [key]
  {
  }

  lemma AlignedDrop<K, V>(entries: map<K, V>, keys: seq<K>)
    requires Aligned(entries, keys) && keys != []
    ensures Aligned(entries - {keys[0]}, keys[1..])
  {
    forall key | key in entries && key != keys[0] ensures key in keys[1..] {
      assert keys == [keys[0]] + keys[1..];
    }
  }

  lemma AlignedPush<K, V>(entries: map<K, V>, keys: seq<K>, key: K, value: V)
    requires Aligned(entries, keys) && key !in entries
    ensures Aligned(entries[key := value], keys + [key])
  {
  }

  lemma ContainedUpdate<K, V>(entries: map<K, V>, m: map<K, V>, key: K, value: V)
    requires Contained(entries, m)
    ensures Contained(entries[key := value], m[key := value])
  {
  }

  lemma OverwriteAgrees<K, V>(s: State<K, V>, log: seq<K>, m: map<K, V>, key: K, value: V)
    requires Agrees(s, log, m) && key in s.entries
    ensures Agrees(s.Set(key, value), log, m[key := value])
  {
    ContainedUpdate(s.entries, m, key, value);
  }

  lemma EvictAgrees<K, V>(s: State<K, V>, log: seq<K>, m: map<K, V>, key: K, value: V)
    requires s.limit != 0 && Agrees(s, log, m) && key !in s.entries && |s.keys| >= s.limit && s.keys != []
    ensures Agrees(s.Set(key, value), log + [key], m[key := value])
  {
    LastPush(log, Capacity(s.limit), key);
    AlignedDrop(s.entries, s.keys);
    AlignedPush(s.entries - {s.keys[0]}, s.keys[1..], key, value);
    ContainedUpdate(s.entries - {s.keys[0]}, m, key, value);
  }

  lemma AppendAgrees<K, V>(s: State<K, V>, log: seq<K>, m: map<K, V>, key: K, value: V)
    requires s.limit != 0 && Agrees(s, log, m) && key !in s.entries && !(|s.keys| >= s.limit && s.keys != [])
    ensures Agrees(s.Set(key, value), log + [key], m[key := value])
  {
    LastPush(log, Capacity(s.limit), key);
    AlignedPush(s.entries, s.keys, key, value);
    ContainedUpdate(s.entries, m, key, value);
  }

  lemma SetAgrees<K, V>(s: State<K, V>, log: seq<K>, m: map<K, V>, key: K, value: V)
    requires s.limit != 0 && Agrees(s, log, m)
    ensures Agrees(s.Set(key, value), if key in s.entries then log else log + [key], m[key := value])
  {
    if key in s.entries {
      OverwriteAgrees(s, log, m, key, value);
    } else if |s.keys| >= s.limit && s.keys != [] {
      EvictAgrees(s, log, m, key, value);
    } else {
      AppendAgrees(s, log, m, key, value);
    }
  }

  lemma FreshNext<K, V>(s: State<K, V>, log: seq<K>, sets: seq<(K, V)>)
    requires sets != []
    ensures var (key, value) := sets[0];
            log + Fresh(s, sets)
            == (if key in s.entries then log else log + [key]) + Fresh(s.Set(key, value), sets[1..])
  {
  }

  /** On every run with a usable limit the keys are the last `Capacity` fresh insertions, without duplicates;
      they are the map's domain; and every retained key has the value the unbounded map has. */
  lemma {:induction false} RunAgrees<K(!new), V>(s: State<K, V>, log: seq<K>, m: map<K, V>, sets: seq<(K, V)>)
    requires s.limit != 0 && Agrees(s, log, m)
    ensures Agrees(Run(s, sets), log + Fresh(s, sets), Unbounded(m, sets))
    ensures Run(s, sets).limit == s.limit
    decreases |sets|
  {
    if sets == [] {
      assert log + [] == log;
    } else {
      var (key, value) := sets[0];
      SetAgrees(s, log, m, key, value);
      var log' := if key in s.entries then log else log + [key];
      RunAgrees(s.Set(key, value), log', m[key := value], sets[1..]);
      FreshNext(s, log, sets);
    }
  }

  lemma AgreesFromCreate<K(!new), V>(limit: int, sets: seq<(K, V)>)
    ensures var s: State<K, V> := State(LimitOr(limit), map[], []);
            var after := Run(s, sets);
            && Agrees(after, Fresh(s, sets), Unbounded(map[], sets))
            && after.limit == s.limit
            && forall key :: key in after.entries <==> key in after.keys
  {
    var s: State<K, V> := State(LimitOr(limit), map[], []);
    RunAgrees(s, [], map[], sets);
    assert [] + Fresh(s, sets) == Fresh(s, sets);
  }

  /** A new map keeps the newest fresh keys: as many as a positive limit says, ten when none is given, and one alone
      under a negative limit. */
  lemma NewestStay<K(!new), V>(limit: int, sets: seq<(K, V)>)
    ensures var s: State<K, V> := State(LimitOr(limit), map[], []);
            var keys, log := Run(s, sets).keys, Fresh(s, sets);
            var fits := if limit > 0 then limit else if limit == 0 then 10 else 1;
            |keys| <= fits && keys == if |log| <= fits then log else log[|log| - fits..]
  {
    AgreesFromCreate<K, V>(limit, sets);
    assert Capacity(LimitOr(limit)) == if limit > 0 then limit else if limit == 0 then 10 else 1;
  }

  lemma LastHas<K>(log: seq<K>, key: K, newer: seq<K>, n: nat)
    requires key !in newer
    ensures key in Last(log + [key] + newer, n) <==> |newer| < n
  {
    var all := log + [key] + newer;
    var kept := Last(all, n);
    if |newer| < n {
      assert kept[|kept| - |newer| - 1] == all[|log|] == key;
    } else {
      assert kept == Last(newer, n);
    }
  }

  /** A key that was just inserted, and is not forgotten and inserted again, stays exactly while fewer than
      `Capacity` fresh keys follow: setting it again does not prolong its stay. */
  lemma Retention<K(!new), V>(s: State<K, V>, log: seq<K>, m: map<K, V>, key: K, value: V, sets: seq<(K, V)>)
    requires s.limit != 0 && Agrees(s, log, m) && key !in s.entries
    requires key !in Fresh(s.Set(key, value), sets)
    ensures key in Run(s.Set(key, value), sets).entries
            <==> |Fresh(s.Set(key, value), sets)| < Capacity(s.limit)
  {
    var next := s.Set(key, value);
    SetAgrees(s, log, m, key, value);
    RunAgrees(next, log + [key], m[key := value], sets);
    LastHas(log, key, Fresh(next, sets), Capacity(s.limit));
  }
}
