/** The recency list refines a table of last-touch times that evicts its oldest entry. */
module LruTimestamps {
  import opened Wrappers
  import opened Lru
  import opened LruRuns

  /** When a key was last touched, and the object it was touched with. */
  datatype Stamp = Stamp(time: nat, key: UserArea)

  type Table = map<Ident, Stamp>

  ghost predicate Oldest(m: Table, id: Ident) {
    id in m && forall j :: j in m ==> m[id].time <= m[j].time
  }

  ghost function Evict(m: Table): Table {
    map id | id in m && !Oldest(m, id) :: m[id]
  }

  /** One call at time `now`. */
  ghost function TableStep(limit: nat, m: Table, now: nat, op: Op): Table {
    var touched := m[Id(op.key) := Stamp(now, op.key)];
    match op
    case Set(_) => if |touched| > limit then Evict(touched) else touched
    case Get(key) => if Id(key) in m then touched else m
    case Remove(key) => m - {Id(key)}
  }

  function TableReply(m: Table, op: Op): Option<UserArea> {
    if op.Set? || (op.Get? && Id(op.key) in m) then Some(op.key) else None
  }

  ghost function TableRun(limit: nat, m: Table, now: nat, ops: seq<Op>): Table
    decreases |ops|
  {
    if ops == [] then m else TableRun(limit, TableStep(limit, m, now, ops[0]), now + 1, ops[1..])
  }

  /** `keys` lists the table's entries, oldest first, and the clock is past all of them. */
  ghost predicate Sorted(keys: seq<UserArea>, m: Table, now: nat) {
    && m.Keys == Ids(keys)
    && (forall i :: 0 <= i < |keys| ==> m[Id(keys[i])].key == keys[i])
    && (forall i, j :: 0 <= i < j < |keys| ==> m[Id(keys[i])].time < m[Id(keys[j])].time)
    && (forall id :: id in m ==> m[id].time < now)
  }

  lemma SortedHas(keys: seq<UserArea>, m: Table, now: nat, key: UserArea)
    requires Sorted(keys, m, now)
    ensures Has(keys, key) <==> Id(key) in m
  {
  }

  lemma WithoutIds(keys: seq<UserArea>, key: UserArea, at: nat)
    requires Distinct(keys) && at < |keys| && Matches(keys[at], key)
    ensures Ids(keys[..at] + keys[at + 1..]) == Ids(keys) - {Id(key)}
  {
    var front, back := keys[..at], keys[at + 1..];
    assert keys == front + [keys[at]] + back;
    IdsConcat(front + [keys[at]], back);
    IdsConcat(front, [keys[at]]);
    IdsConcat(front, back);
    IdsOne(keys[at]);
  }

  lemma WithoutSorted(keys: seq<UserArea>, m: Table, now: nat, key: UserArea)
    requires Distinct(keys) && Sorted(keys, m, now)
    ensures Sorted(Without(keys, key), m - {Id(key)}, now)
  {
    if Has(keys, key) {
      var at := WithoutHit(keys, key);
      SpliceSorted(keys, m, now, key, at);
    } else {
      SortedHas(keys, m, now, key);
      WithoutMiss(keys, key);
      assert m - {Id(key)} == m;
    }
  }

  lemma SpliceSorted(keys: seq<UserArea>, m: Table, now: nat, key: UserArea, at: nat)
    requires Distinct(keys) && Sorted(keys, m, now) && at < |keys| && Matches(keys[at], key)
    ensures Sorted(keys[..at] + keys[at + 1..], m - {Id(key)}, now)
  {
    WithoutIds(keys, key, at);
    SubtableSorted(keys, m, now, m - {Id(key)}, keys[..at] + keys[at + 1..], at);
  }

  /** Leaving out one entry of the list, and of the table, keeps the others in order. */
  lemma SubtableSorted(keys: seq<UserArea>, m: Table, now: nat, m': Table, rest: seq<UserArea>, at: nat)
    requires Sorted(keys, m, now) && at < |keys| && rest == keys[..at] + keys[at + 1..]
    requires m'.Keys == Ids(rest) && m'.Keys <= m.Keys && forall id :: id in m' ==> m'[id] == m[id]
    ensures Sorted(rest, m', now)
  {
    assert forall i :: 0 <= i < |rest| ==> rest[i] == keys[Shifted(at, i)];
    forall i, j | 0 <= i < j < |rest| ensures m'[Id(rest[i])].time < m'[Id(rest[j])].time {
      assert Shifted(at, i) < Shifted(at, j);
    }
  }

  lemma PushSorted(keys: seq<UserArea>, m: Table, now: nat, key: UserArea)
    requires Sorted(keys, m, now) && Id(key) !in m
    ensures Sorted(keys + [key], m[Id(key) := Stamp(now, key)], now + 1)
  {
    IdsConcat(keys, [key]);
    IdsOne(key);
  }

  lemma HeadIsOldest(keys: seq<UserArea>, m: Table, now: nat, id: Ident)
    requires Sorted(keys, m, now) && keys != []
    ensures Oldest(m, id) <==> id == Id(keys[0])
  {
    assert Id(keys[0]) in m;
    if id in m {
      var i :| 0 <= i < |keys| && Id(keys[i]) == id;
    }
  }

  lemma EvictsHead(keys: seq<UserArea>, m: Table, now: nat)
    requires Sorted(keys, m, now) && keys != []
    ensures Evict(m) == m - {Id(keys[0])}
  {
    forall id ensures Oldest(m, id) <==> id == Id(keys[0]) {
      HeadIsOldest(keys, m, now, id);
    }
  }

  lemma TailIds(keys: seq<UserArea>)
    requires Distinct(keys) && keys != []
    ensures Ids(keys[1..]) == Ids(keys) - {Id(keys[0])}
  {
    WithoutIds(keys, keys[0], 0);
    assert keys[..0] + keys[1..] == keys[1..];
  }

  lemma TailSorted(keys: seq<UserArea>, m: Table, now: nat)
    requires Distinct(keys) && Sorted(keys, m, now) && keys != []
    ensures Sorted(keys[1..], m - {Id(keys[0])}, now)
  {
    TailIds(keys);
    var rest, m' := keys[1..], m - {Id(keys[0])};
    assert m'.Keys == Ids(rest);
    forall i | 0 <= i < |rest| ensures m'[Id(rest[i])].key == rest[i] {
      assert rest[i] == keys[i + 1];
    }
  }

  lemma ShiftSorted(keys: seq<UserArea>, m: Table, now: nat)
    requires Distinct(keys) && Sorted(keys, m, now) && keys != []
    ensures Sorted(keys[1..], Evict(m), now)
  {
    EvictsHead(keys, m, now);
    TailSorted(keys, m, now);
  }

  /** Moving or adding `key` at the tail stamps it with the current time. */
  lemma TouchRefines(keys: seq<UserArea>, m: Table, now: nat, key: UserArea)
    requires Distinct(keys) && Sorted(keys, m, now)
    ensures Sorted(Without(keys, key) + [key], m[Id(key) := Stamp(now, key)], now + 1)
  {
    WithoutSorted(keys, m, now, key);
    PushSorted(Without(keys, key), m - {Id(key)}, now, key);
    assert (m - {Id(key)})[Id(key) := Stamp(now, key)] == m[Id(key) := Stamp(now, key)];
  }

  lemma TouchCount(keys: seq<UserArea>, m: Table, now: nat, key: UserArea)
    requires Distinct(keys) && Sorted(Without(keys, key) + [key], m, now)
    ensures Distinct(Without(keys, key) + [key])
    ensures |m| == |Without(keys, key) + [key]|
  {
    WithoutDistinct(keys, key);
    IdsCount(Without(keys, key) + [key]);
    assert |m| == |m.Keys|;
  }

  lemma StepRefines(limit: nat, keys: seq<UserArea>, m: Table, now: nat, op: Op)
    requires Valid(limit, keys) && Sorted(keys, m, now)
    ensures Sorted(Step(limit, keys, op), TableStep(limit, m, now, op), now + 1)
    ensures Reply(keys, op) == TableReply(m, op)
  {
    SortedHas(keys, m, now, op.key);
    match op
    case Set(key) =>
      TouchRefines(keys, m, now, key);
      TouchCount(keys, m[Id(key) := Stamp(now, key)], now + 1, key);
      ShiftSorted(Without(keys, key) + [key], m[Id(key) := Stamp(now, key)], now + 1);
    case Get(key) =>
      TouchRefines(keys, m, now, key);
    case Remove(key) =>
      WithoutSorted(keys, m, now, key);
  }

  /** Refinement over whole runs: the same keys and objects, in last-touch order, and the same replies. */
  lemma {:induction false} RunRefines(limit: nat, keys: seq<UserArea>, m: Table, now: nat, ops: seq<Op>)
    requires Valid(limit, keys) && Sorted(keys, m, now)
    ensures Valid(limit, Run(limit, keys, ops))
    ensures Sorted(Run(limit, keys, ops), TableRun(limit, m, now, ops), now + |ops|)
    decreases |ops|
  {
    if ops != [] {
      StepRefines(limit, keys, m, now, ops[0]);
      StepKeepsValid(limit, keys, ops[0]);
      RunRefines(limit, Step(limit, keys, ops[0]), TableStep(limit, m, now, ops[0]), now + 1, ops[1..]);
    }
  }

  lemma RefinesFromCreate(limit: nat, ops: seq<Op>, op: Op)
    ensures var keys, m := Run(limit, [], ops), TableRun(limit, map[], 0, ops);
            && Distinct(keys) && |keys| <= limit && Sorted(keys, m, |ops|)
            && Reply(keys, op) == TableReply(m, op)
  {
    RunRefines(limit, [], map[], 0, ops);
    StepRefines(limit, Run(limit, [], ops), TableRun(limit, map[], 0, ops), |ops|, op);
  }
}
