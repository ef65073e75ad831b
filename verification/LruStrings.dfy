/** The recency list on objects and the same list on their `userAreaKey` strings. */
module LruStrings {
  import opened Lru

  function UserAreaKey(key: UserArea): string {
    UserAreaKey2(key.area, key.uuid)
  }

  function UserAreaKey2(area: string, uuid: string): string {
    area + "|" + uuid
  }

  // ---------- when the string identifies the pair ----------

  /** No area continues another one past a bar. */
  ghost predicate BarSafe(areas: set<string>) {
    forall x, y :: x in areas && y in areas ==> !(x + "|" <= y)
  }

  ghost predicate Within(areas: set<string>, key: UserArea) {
    key.area in areas
  }

  ghost predicate KeysIdentify(areas: set<string>) {
    forall a, b :: Within(areas, a) && Within(areas, b) ==> (UserAreaKey(a) == UserAreaKey(b) <==> Matches(a, b))
  }

  /** What is read off a key when the area holds no bar: the area before the first one, and the uuid after it. */
  lemma KeyParts(key: UserArea)
    requires '|' !in key.area
    ensures var s, bar := UserAreaKey(key), |key.area|;
            bar < |s| && s[bar] == '|' && '|' !in s[..bar] && s[..bar] == key.area && s[bar + 1..] == key.uuid
  {
  }

  lemma EqualKeysNest(a: UserArea, b: UserArea)
    requires UserAreaKey(a) == UserAreaKey(b) && |a.area| <= |b.area|
    ensures Matches(a, b) || a.area + "|" <= b.area
  {
    var s := UserAreaKey(a);
    assert s[..|a.area|] == a.area && s[..|b.area|] == b.area;
    if |a.area| == |b.area| {
      assert s[|a.area| + 1..] == a.uuid && s[|b.area| + 1..] == b.uuid;
    } else {
      assert s[..|a.area| + 1] == a.area + "|";
      assert s[..|b.area|][..|a.area| + 1] == s[..|a.area| + 1];
    }
  }

  /** Two different keys with the same string, for areas that nest. */
  lemma NestedKeysCollide(x: string, y: string) returns (a: UserArea, b: UserArea)
    requires x + "|" <= y
    ensures a.area == x && b.area == y && UserAreaKey(a) == UserAreaKey(b) && !Matches(a, b)
  {
    a, b := UserArea(x, y[|x| + 1..] + "|", ""), UserArea(y, "", "");
    assert y == x + "|" + y[|x| + 1..];
    assert UserAreaKey(a) == x + "|" + y[|x| + 1..] + "|" == UserAreaKey(b);
  }

  /** The strings identify exactly the pairs that the list identifies, if and only if no area nests in another. */
  lemma KeysIdentifyWhenBarSafe(areas: set<string>)
    ensures KeysIdentify(areas) <==> BarSafe(areas)
  {
    if BarSafe(areas) {
      forall a, b | Within(areas, a) && Within(areas, b)
        ensures UserAreaKey(a) == UserAreaKey(b) <==> Matches(a, b)
      {
        if UserAreaKey(a) == UserAreaKey(b) {
          if |a.area| <= |b.area| {
            EqualKeysNest(a, b);
          } else {
            EqualKeysNest(b, a);
          }
        }
      }
    }
    if KeysIdentify(areas) {
      forall x, y | x in areas && y in areas ensures !(x + "|" <= y) {
        if x + "|" <= y {
          var a, b := NestedKeysCollide(x, y);
          assert Within(areas, a) && Within(areas, b);
        }
      }
    }
  }

  lemma BarFreeIsSafe(areas: set<string>)
    requires forall x :: x in areas ==> '|' !in x
    ensures BarSafe(areas)
  {
    forall x, y | x in areas && y in areas ensures !(x + "|" <= y) {
      NestingShowsBar(x, y);
    }
  }

  lemma NestingShowsBar(x: string, y: string)
    ensures x + "|" <= y ==> '|' in y
  {
    assert (x + "|")[|x|] == '|';
  }

  // ---------- the list on strings ----------

  /** An object that is identified by its string alone. */
  function Renamed(key: UserArea): UserArea {
    UserArea("", UserAreaKey(key), key.rest)
  }

  function RenamedKeys(keys: seq<UserArea>): (r: seq<UserArea>)
    ensures |r| == |keys|
  {
    seq(|keys|, i requires 0 <= i < |keys| => Renamed(keys[i]))
  }

  function RenamedOp(op: Op): Op {
    op.(key := Renamed(op.key))
  }

  function RenamedOps(ops: seq<Op>): (r: seq<Op>)
    ensures |r| == |ops|
  {
    seq(|ops|, i requires 0 <= i < |ops| => RenamedOp(ops[i]))
  }

  ghost predicate AllWithin(areas: set<string>, keys: seq<UserArea>) {
    forall i :: 0 <= i < |keys| ==> Within(areas, keys[i])
  }

  ghost predicate OpsWithin(areas: set<string>, ops: seq<Op>) {
    forall i :: 0 <= i < |ops| ==> Within(areas, ops[i].key)
  }

  ghost predicate Tracks(areas: set<string>) {
    forall limit: nat, ops ::
      OpsWithin(areas, ops) ==> Run(limit, [], RenamedOps(ops)) == RenamedKeys(Run(limit, [], ops))
  }

  lemma RenamedHas(areas: set<string>, keys: seq<UserArea>, key: UserArea)
    requires KeysIdentify(areas) && AllWithin(areas, keys) && Within(areas, key)
    ensures Has(RenamedKeys(keys), Renamed(key)) <==> Has(keys, key)
  {
    forall i | 0 <= i < |keys| ensures Matches(RenamedKeys(keys)[i], Renamed(key)) <==> Matches(keys[i], key) {
      assert Within(areas, keys[i]);
      assert UserAreaKey(keys[i]) == UserAreaKey(key) <==> Matches(keys[i], key);
    }
  }

  lemma {:induction false} RenamedWithout(areas: set<string>, keys: seq<UserArea>, key: UserArea)
    requires KeysIdentify(areas) && AllWithin(areas, keys) && Within(areas, key)
    ensures Without(RenamedKeys(keys), Renamed(key)) == RenamedKeys(Without(keys, key))
    ensures AllWithin(areas, Without(keys, key))
  {
    if keys != [] {
      assert Within(areas, keys[0]);
      assert UserAreaKey(keys[0]) == UserAreaKey(key) <==> Matches(keys[0], key);
      assert RenamedKeys(keys)[1..] == RenamedKeys(keys[1..]);
      RenamedWithout(areas, keys[1..], key);
    }
  }

  lemma RenamedStep(areas: set<string>, limit: nat, keys: seq<UserArea>, op: Op)
    requires KeysIdentify(areas) && AllWithin(areas, keys) && Within(areas, op.key)
    ensures Step(limit, RenamedKeys(keys), RenamedOp(op)) == RenamedKeys(Step(limit, keys, op))
    ensures AllWithin(areas, Step(limit, keys, op))
  {
    RenamedHas(areas, keys, op.key);
    RenamedWithout(areas, keys, op.key);
    var pushed := Without(keys, op.key) + [op.key];
    assert RenamedKeys(pushed) == RenamedKeys(Without(keys, op.key)) + [Renamed(op.key)];
    if |pushed| > limit {
      assert RenamedKeys(pushed)[1..] == RenamedKeys(pushed[1..]);
    }
  }

  lemma {:induction false} RenamedRun(areas: set<string>, limit: nat, keys: seq<UserArea>, ops: seq<Op>)
    requires KeysIdentify(areas) && AllWithin(areas, keys) && OpsWithin(areas, ops)
    ensures Run(limit, RenamedKeys(keys), RenamedOps(ops)) == RenamedKeys(Run(limit, keys, ops))
    decreases |ops|
  {
    if ops != [] {
      assert RenamedOps(ops)[1..] == RenamedOps(ops[1..]);
      RenamedStep(areas, limit, keys, ops[0]);
      RenamedRun(areas, limit, Step(limit, keys, ops[0]), ops[1..]);
    }
  }

  /** On keys whose areas come from `areas`, the two lists evolve identically in every run
      if and only if no area nests in another. */
  lemma StringsTrackWhenBarSafe(areas: set<string>)
    ensures Tracks(areas) <==> BarSafe(areas)
  {
    KeysIdentifyWhenBarSafe(areas);
    if BarSafe(areas) {
      forall limit: nat, ops | OpsWithin(areas, ops)
        ensures Run(limit, [], RenamedOps(ops)) == RenamedKeys(Run(limit, [], ops))
      {
        assert RenamedKeys([]) == [];
        RenamedRun(areas, limit, [], ops);
      }
    }
    forall x, y | x in areas && y in areas && x + "|" <= y ensures !Tracks(areas) {
      NestingBreaksTracking(areas, x, y);
    }
  }

  lemma NestingBreaksTracking(areas: set<string>, x: string, y: string)
    requires x in areas && y in areas && x + "|" <= y
    ensures !Tracks(areas)
  {
    var a, b := NestedKeysCollide(x, y);
    TwoCollidingSets(a, b);
    var ops := [Set(a), Set(b)];
    assert OpsWithin(areas, ops) && Run(2, [], RenamedOps(ops)) != RenamedKeys(Run(2, [], ops));
  }

  /** Two keys with one string: the list on objects keeps both, the list on strings keeps one. */
  lemma TwoCollidingSets(a: UserArea, b: UserArea)
    requires UserAreaKey(a) == UserAreaKey(b) && !Matches(a, b)
    ensures |Run(2, [], [Set(a), Set(b)])| == 2
    ensures |Run(2, [], RenamedOps([Set(a), Set(b)]))| == 1
  {
    TwoSets(a, b);
    TwoSets(Renamed(a), Renamed(b));
    assert RenamedOps([Set(a), Set(b)]) == [Set(Renamed(a)), Set(Renamed(b))];
  }

  lemma TwoSets(a: UserArea, b: UserArea)
    ensures |Run(2, [], [Set(a), Set(b)])| == if Matches(a, b) then 1 else 2
  {
    var ops := [Set(a), Set(b)];
    assert Step(2, [], Set(a)) == [a];
    assert Without([a], b) == if Matches(a, b) then [] else [a] + Without([], b);
    assert ops[1..] == [Set(b)] && ops[1..][1..] == [];
    assert Run(2, [], ops) == Run(2, [a], [Set(b)]) == Run(2, Step(2, [a], Set(b)), []);
  }
}
