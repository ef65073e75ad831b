/** What whole runs of lruSet, lruGet and lruRemove keep. */
module LruRuns {
  import opened Lru

  // ---------- the invariant of every run ----------

  predicate Valid(limit: nat, keys: seq<UserArea>) {
    Distinct(keys) && |keys| <= limit
  }

  /** Where an entry of the shortened list stood, when the removed entry stood at `at`. */
  function Shifted(at: nat, i: nat): nat {
    if i < at then i else i + 1
  }

  /** The one matching position, and what the list is without it. */
  lemma WithoutHit(keys: seq<UserArea>, key: UserArea) returns (at: nat)
    requires Distinct(keys) && Has(keys, key)
    ensures at < |keys| && Matches(keys[at], key)
    ensures Without(keys, key) == keys[..at] + keys[at + 1..]
  {
    at :| at < |keys| && Matches(keys[at], key);
    WithoutAt(keys, key, at);
  }

  lemma SpliceDistinct(keys: seq<UserArea>, key: UserArea, at: nat)
    requires Distinct(keys) && at < |keys| && Matches(keys[at], key)
    ensures var rest := keys[..at] + keys[at + 1..];
            Distinct(rest) && !Has(rest, key)
  {
    var rest := keys[..at] + keys[at + 1..];
    assert forall i :: 0 <= i < |rest| ==> rest[i] == keys[Shifted(at, i)];
    forall i | 0 <= i < |rest| ensures !Matches(rest[i], key) {
      assert Shifted(at, i) != at;
    }
    forall i, j | 0 <= i < j < |rest| ensures !Matches(rest[i], rest[j]) {
      assert Shifted(at, i) < Shifted(at, j);
    }
  }

  lemma WithoutDistinct(keys: seq<UserArea>, key: UserArea)
    requires Distinct(keys)
    ensures Distinct(Without(keys, key)) && !Has(Without(keys, key), key)
    ensures |Without(keys, key)| == |keys| - if Has(keys, key) then 1 else 0
  {
    if Has(keys, key) {
      var at := WithoutHit(keys, key);
      SpliceDistinct(keys, key, at);
    } else {
      WithoutMiss(keys, key);
    }
  }

  lemma WithoutHas(keys: seq<UserArea>, key: UserArea, k: UserArea)
    requires Distinct(keys) && !Matches(k, key)
    ensures Has(Without(keys, key), k) <==> Has(keys, k)
  {
    if Has(keys, key) {
      var at := WithoutHit(keys, key);
      var rest := Without(keys, key);
      if Has(keys, k) {
        var i :| 0 <= i < |keys| && Matches(keys[i], k);
        assert rest[if i < at then i else i - 1] == keys[i];
      }
      if Has(rest, k) {
        var i :| 0 <= i < |rest| && Matches(rest[i], k);
        assert rest[i] == keys[Shifted(at, i)];
      }
    } else {
      WithoutMiss(keys, key);
    }
  }

  lemma StepKeepsValid(limit: nat, keys: seq<UserArea>, op: Op)
    requires Valid(limit, keys)
    ensures Valid(limit, Step(limit, keys, op))
  {
    WithoutDistinct(keys, op.key);
  }

  lemma {:induction false} RunKeepsValid(limit: nat, keys: seq<UserArea>, ops: seq<Op>)
    requires Valid(limit, keys)
    ensures Valid(limit, Run(limit, keys, ops))
    decreases |ops|
  {
    if ops != [] {
      StepKeepsValid(limit, keys, ops[0]);
      RunKeepsValid(limit, Step(limit, keys, ops[0]), ops[1..]);
    }
  }

  // ---------- inclusion: a smaller cache is a subsequence of a larger one ----------

  predicate Subsequence(s: seq<UserArea>, l: seq<UserArea>) {
    s == [] || (l != [] && if s[0] == l[0] then Subsequence(s[1..], l[1..]) else Subsequence(s, l[1..]))
  }

  lemma {:induction false} SubsequenceHas(s: seq<UserArea>, l: seq<UserArea>, key: UserArea)
    requires Subsequence(s, l) && Has(s, key)
    ensures Has(l, key)
  {
    var i :| 0 <= i < |s| && Matches(s[i], key);
    if s[0] == l[0] && i == 0 {
    } else {
      if s[0] == l[0] {
        assert s[1..][i - 1] == s[i];
        SubsequenceHas(s[1..], l[1..], key);
      } else {
        SubsequenceHas(s, l[1..], key);
      }
      var j :| 0 <= j < |l[1..]| && Matches(l[1..][j], key);
      assert l[1..][j] == l[j + 1];
    }
  }

  lemma {:induction false} SubsequenceShorter(s: seq<UserArea>, l: seq<UserArea>)
    requires Subsequence(s, l)
    ensures |s| <= |l|
  {
    if s != [] {
      SubsequenceShorter(if s[0] == l[0] then s[1..] else s, l[1..]);
    }
  }

  lemma {:induction false} SubsequencePush(s: seq<UserArea>, l: seq<UserArea>, key: UserArea)
    requires Subsequence(s, l)
    ensures Subsequence(s + [key], l + [key])
  {
    if l == [] {
    } else {
      assert (l + [key])[1..] == l[1..] + [key];
      if s == [] {
        SubsequencePush([], l[1..], key);
      } else {
        assert (s + [key])[1..] == s[1..] + [key];
        SubsequencePush(if s[0] == l[0] then s[1..] else s, l[1..], key);
      }
    }
  }

  lemma {:induction false} SubsequenceTail(s: seq<UserArea>, l: seq<UserArea>)
    requires Subsequence(s, l) && s != []
    ensures Subsequence(s[1..], l)
    decreases |l|
  {
    if s[0] != l[0] {
      SubsequenceTail(s, l[1..]);
    }
    if |s| > 1 {
      SubsequenceTail(s[1..], l[1..]);
    }
  }

  lemma SubsequenceCons(s: seq<UserArea>, l: seq<UserArea>, x: UserArea)
    requires Subsequence(s, l)
    ensures Subsequence(s, [x] + l)
  {
    assert ([x] + l)[1..] == l;
    if s != [] {
      SubsequenceTail(s, l);
    }
  }

  lemma SubsequenceShift(s: seq<UserArea>, l: seq<UserArea>)
    requires Subsequence(s, l) && s != []
    ensures Subsequence(s[1..], l[1..])
  {
    if s[0] != l[0] {
      SubsequenceTail(s, l[1..]);
    }
  }

  lemma {:induction false} SubsequenceWithout(s: seq<UserArea>, l: seq<UserArea>, key: UserArea)
    requires Subsequence(s, l) && Distinct(l)
    ensures Subsequence(Without(s, key), Without(l, key))
    decreases |l|
  {
    if s == [] {
    } else if s[0] == l[0] {
      if !Matches(l[0], key) {
        SubsequenceWithout(s[1..], l[1..], key);
        assert Without(l, key)[1..] == Without(l[1..], key);
        assert Without(s, key)[1..] == Without(s[1..], key);
      }
    } else if Matches(l[0], key) {
      if Has(s, key) {
        SubsequenceHas(s, l[1..], key);
      }
      WithoutMiss(s, key);
    } else {
      SubsequenceWithout(s, l[1..], key);
      SubsequenceCons(Without(s, key), Without(l[1..], key), l[0]);
    }
  }

  /** The relation that two caches keep when the same calls reach both. */
  predicate Included(c: nat, s: seq<UserArea>, C: nat, l: seq<UserArea>) {
    && c <= C && Valid(c, s) && Valid(C, l)
    && Subsequence(s, l)
    && |l| - |s| <= C - c
  }

  lemma StepKeepsIncluded(c: nat, s: seq<UserArea>, C: nat, l: seq<UserArea>, op: Op)
    requires Included(c, s, C, l)
    ensures Included(c, Step(c, s, op), C, Step(C, l, op))
  {
    var key := op.key;
    StepKeepsValid(c, s, op);
    StepKeepsValid(C, l, op);
    WithoutDistinct(s, key);
    WithoutDistinct(l, key);
    SubsequenceWithout(s, l, key);
    SubsequencePush(Without(s, key), Without(l, key), key);
    SubsequenceShorter(s, l);
    if Has(s, key) {
      SubsequenceHas(s, l, key);
    } else {
      WithoutMiss(s, key);
    }
    if op.Set? {
      var s', l' := Without(s, key) + [key], Without(l, key) + [key];
      SubsequenceShift(s', l');
      SubsequenceTail(s', l');
    } else if op.Get? && !Has(s, key) {
      SubsequencePushRight(s, Without(l, key), key);
    }
  }

  lemma {:induction false} SubsequencePushRight(s: seq<UserArea>, l: seq<UserArea>, key: UserArea)
    requires Subsequence(s, l)
    ensures Subsequence(s, l + [key])
  {
    if s != [] {
      assert (l + [key])[1..] == l[1..] + [key];
      SubsequencePushRight(if s[0] == l[0] then s[1..] else s, l[1..], key);
    }
  }

  /** Inclusion over whole runs, with the replies: what the smaller cache answers, the larger one answers too. */
  lemma {:induction false} Inclusion(c: nat, s: seq<UserArea>, C: nat, l: seq<UserArea>, ops: seq<Op>)
    requires Included(c, s, C, l)
    ensures Included(c, Run(c, s, ops), C, Run(C, l, ops))
    ensures forall op ::
              Reply(Run(c, s, ops), op).Some? ==> Reply(Run(C, l, ops), op) == Reply(Run(c, s, ops), op)
    decreases |ops|
  {
    if ops == [] {
      forall op | Reply(s, op).Some? ensures Reply(l, op) == Reply(s, op) {
        if op.Get? {
          SubsequenceHas(s, l, op.key);
        }
      }
    } else {
      StepKeepsIncluded(c, s, C, l, ops[0]);
      Inclusion(c, Step(c, s, ops[0]), C, Step(C, l, ops[0]), ops[1..]);
    }
  }

  lemma InclusionFromCreate(c: nat, C: nat, ops: seq<Op>)
    requires c <= C
    ensures Subsequence(Run(c, [], ops), Run(C, [], ops))
    ensures |Run(C, [], ops)| - |Run(c, [], ops)| <= C - c
    ensures forall op ::
              Reply(Run(c, [], ops), op).Some? ==> Reply(Run(C, [], ops), op) == Reply(Run(c, [], ops), op)
  {
    Inclusion(c, [], C, [], ops);
  }

  // ---------- retention: how long a touched key stays ----------

  ghost function Ids(keys: seq<UserArea>): set<Ident> {
    set i | 0 <= i < |keys| :: Id(keys[i])
  }

  lemma IdsConcat(a: seq<UserArea>, b: seq<UserArea>)
    ensures Ids(a + b) == Ids(a) + Ids(b)
  {
    var c := a + b;
    forall i | 0 <= i < |a| ensures Id(a[i]) in Ids(c) {
      assert c[i] == a[i];
    }
    forall i | 0 <= i < |b| ensures Id(b[i]) in Ids(c) {
      assert c[|a| + i] == b[i];
    }
  }

  lemma IdsOne(key: UserArea)
    ensures Ids([key]) == {Id(key)}
  {
    assert [key][0] == key;
  }

  lemma {:induction false} IdsCount(keys: seq<UserArea>)
    requires Distinct(keys)
    ensures |Ids(keys)| == |keys|
  {
    if keys != [] {
      var n := |keys| - 1;
      IdsCount(keys[..n]);
      IdsConcat(keys[..n], keys[n..]);
      assert keys[..n] + keys[n..] == keys;
      assert Ids(keys[n..]) == {Id(keys[n])};
      assert Id(keys[n]) !in Ids(keys[..n]);
    }
  }

  /** Does this call move an entry for `op.key` to the tail? */
  predicate Touch(keys: seq<UserArea>, op: Op) {
    op.Set? || (op.Get? && Has(keys, op.key))
  }

  /** No call removes anything, and none touches `k`. */
  predicate Untouched(limit: nat, keys: seq<UserArea>, ops: seq<Op>, k: UserArea)
    decreases |ops|
  {
    ops == [] ||
    (&& !ops[0].Remove?
     && !(Touch(keys, ops[0]) && Matches(ops[0].key, k))
     && Untouched(limit, Step(limit, keys, ops[0]), ops[1..], k))
  }

  function TouchedBy(keys: seq<UserArea>, op: Op): set<Ident> {
    if Touch(keys, op) then {Id(op.key)} else {}
  }

  /** The distinct keys that the calls touch. */
  function Touched(limit: nat, keys: seq<UserArea>, ops: seq<Op>): set<Ident>
    decreases |ops|
  {
    if ops == [] then {}
    else TouchedBy(keys, ops[0]) + Touched(limit, Step(limit, keys, ops[0]), ops[1..])
  }

  /** `since` is what was touched after `k`: exactly the entries behind `k`, until they are too many. */
  ghost predicate Window(limit: nat, keys: seq<UserArea>, k: UserArea, since: set<Ident>) {
    if Has(keys, k) then
      |since| < limit && exists at :: 0 <= at < |keys| && Matches(keys[at], k) && Ids(keys[at + 1..]) == since
    else
      |since| >= limit
  }

  lemma WindowAbsent(limit: nat, keys: seq<UserArea>, k: UserArea, since: set<Ident>, op: Op)
    requires Valid(limit, keys) && Window(limit, keys, k, since) && !Has(keys, k)
    requires Touch(keys, op) && !Matches(op.key, k)
    ensures Window(limit, Step(limit, keys, op), k, since + {Id(op.key)})
  {
    WithoutHas(keys, op.key, k);
    if Id(op.key) in since {
      assert since + {Id(op.key)} == since;
    }
  }

  /** Touching an entry in front of `k` moves it behind `k`. */
  lemma TouchBefore(keys: seq<UserArea>, at: nat, p: nat, j: UserArea)
    requires Distinct(keys) && p < at < |keys|
    ensures var next := keys[..p] + keys[p + 1..] + [j];
            next[at - 1] == keys[at] && Ids(next[at..]) == Ids(keys[at + 1..]) + {Id(j)}
  {
    var next := keys[..p] + keys[p + 1..] + [j];
    assert next[at..] == keys[at + 1..] + [j];
    IdsConcat(keys[at + 1..], [j]);
    IdsOne(j);
  }

  /** Touching an entry behind `k` only reorders the entries behind `k`. */
  lemma TouchAfter(keys: seq<UserArea>, at: nat, p: nat, j: UserArea)
    requires Distinct(keys) && at < p < |keys| && Matches(keys[p], j)
    ensures var next := keys[..p] + keys[p + 1..] + [j];
            next[at] == keys[at] && Ids(next[at + 1..]) == Ids(keys[at + 1..])
  {
    var next, front, back := keys[..p] + keys[p + 1..] + [j], keys[at + 1..p], keys[p + 1..];
    assert next[at + 1..] == front + back + [j];
    assert keys[at + 1..] == front + [keys[p]] + back;
    IdsConcat(front + back, [j]);
    IdsConcat(front, back);
    IdsConcat(front + [keys[p]], back);
    IdsConcat(front, [keys[p]]);
    IdsOne(j);
    IdsOne(keys[p]);
  }

  lemma WindowAt(limit: nat, keys: seq<UserArea>, k: UserArea, since: set<Ident>, at: nat)
    requires at < |keys| && Matches(keys[at], k) && Ids(keys[at + 1..]) == since && |since| < limit
    ensures Window(limit, keys, k, since)
  {
  }

  lemma WindowMovedBefore(limit: nat, keys: seq<UserArea>, k: UserArea, j: UserArea, at: nat, p: nat)
    requires Valid(limit, keys) && p < at < |keys| && Matches(keys[at], k)
    ensures Window(limit, keys[..p] + keys[p + 1..] + [j], k, Ids(keys[at + 1..]) + {Id(j)})
  {
    TouchBefore(keys, at, p, j);
    IdsCount(keys[at + 1..]);
    AddOne(Ids(keys[at + 1..]), Id(j));
    WindowAt(limit, keys[..p] + keys[p + 1..] + [j], k, Ids(keys[at + 1..]) + {Id(j)}, at - 1);
  }

  lemma WindowMovedAfter(limit: nat, keys: seq<UserArea>, k: UserArea, j: UserArea, at: nat, p: nat)
    requires Valid(limit, keys) && at < p < |keys| && Matches(keys[at], k) && Matches(keys[p], j)
    ensures Window(limit, keys[..p] + keys[p + 1..] + [j], k, Ids(keys[at + 1..]) + {Id(j)})
  {
    TouchAfter(keys, at, p, j);
    assert keys[at + 1..][p - at - 1] == keys[p];
    assert Ids(keys[at + 1..]) + {Id(j)} == Ids(keys[at + 1..]);
    IdsCount(keys[at + 1..]);
    WindowAt(limit, keys[..p] + keys[p + 1..] + [j], k, Ids(keys[at + 1..]), at);
  }

  lemma AddOne(since: set<Ident>, id: Ident)
    ensures |since + {id}| <= |since| + 1
  {
    if id in since {
      assert since + {id} == since;
    }
  }

  lemma PushBehind(keys: seq<UserArea>, at: nat, j: UserArea)
    requires Distinct(keys) && at < |keys| && !Has(keys, j)
    ensures Ids((keys + [j])[at + 1..]) == Ids(keys[at + 1..]) + {Id(j)}
    ensures |Ids((keys + [j])[at + 1..])| == |keys| - at
  {
    assert (keys + [j])[at + 1..] == keys[at + 1..] + [j];
    IdsConcat(keys[at + 1..], [j]);
    IdsOne(j);
    IdsCount(keys[at + 1..] + [j]);
  }

  lemma HeadGone(keys: seq<UserArea>, k: UserArea, j: UserArea)
    requires Distinct(keys) && keys != [] && Matches(keys[0], k) && !Matches(j, k)
    ensures !Has((keys + [j])[1..], k)
  {
    var next := (keys + [j])[1..];
    forall i | 0 <= i < |next| ensures !Matches(next[i], k) {
      assert next[i] == if i + 1 < |keys| then keys[i + 1] else j;
    }
  }

  lemma WindowKept(limit: nat, keys: seq<UserArea>, k: UserArea, since: set<Ident>, j: UserArea, at: nat)
    requires Distinct(keys) && |keys| <= limit && !Has(keys, j)
    requires at < |keys| && Matches(keys[at], k) && Ids(keys[at + 1..]) == since
    ensures |keys| < limit ==> Window(limit, keys + [j], k, since + {Id(j)})
    ensures at > 0 ==> Window(limit, (keys + [j])[1..], k, since + {Id(j)})
  {
    PushBehind(keys, at, j);
    var pushed := keys + [j];
    if |keys| < limit {
      WindowAt(limit, pushed, k, since + {Id(j)}, at);
    }
    if at > 0 {
      assert pushed[1..][at..] == pushed[at + 1..];
      WindowAt(limit, pushed[1..], k, since + {Id(j)}, at - 1);
    }
  }

  /** A new key goes behind `k`, and pushes `k` out when `k` is the head of a full list. */
  lemma WindowPushed(limit: nat, keys: seq<UserArea>, k: UserArea, since: set<Ident>, j: UserArea, at: nat)
    requires Valid(limit, keys) && !Has(keys, j) && !Matches(j, k)
    requires at < |keys| && Matches(keys[at], k) && Ids(keys[at + 1..]) == since
    ensures Window(limit, Step(limit, keys, Set(j)), k, since + {Id(j)})
  {
    WithoutMiss(keys, j);
    WindowKept(limit, keys, k, since, j, at);
    if |keys| == limit && at == 0 {
      PushBehind(keys, at, j);
      HeadGone(keys, k, j);
    }
  }

  /** Touching a listed key moves it to the tail, and evicts nothing. */
  lemma StepOfHit(limit: nat, keys: seq<UserArea>, op: Op) returns (p: nat)
    requires Valid(limit, keys) && Touch(keys, op) && Has(keys, op.key)
    ensures p < |keys| && Matches(keys[p], op.key)
    ensures Step(limit, keys, op) == keys[..p] + keys[p + 1..] + [op.key]
  {
    p := WithoutHit(keys, op.key);
  }

  lemma WindowOfHit(limit: nat, keys: seq<UserArea>, k: UserArea, since: set<Ident>, op: Op, at: nat)
    requires Valid(limit, keys) && Touch(keys, op) && Has(keys, op.key) && !Matches(op.key, k)
    requires at < |keys| && Matches(keys[at], k) && Ids(keys[at + 1..]) == since
    ensures Window(limit, Step(limit, keys, op), k, since + {Id(op.key)})
  {
    var p := StepOfHit(limit, keys, op);
    if p < at {
      WindowMovedBefore(limit, keys, k, op.key, at, p);
    } else {
      WindowMovedAfter(limit, keys, k, op.key, at, p);
    }
  }

  lemma StepKeepsWindow(limit: nat, keys: seq<UserArea>, k: UserArea, since: set<Ident>, op: Op)
    requires Valid(limit, keys) && Window(limit, keys, k, since)
    requires !op.Remove? && !(Touch(keys, op) && Matches(op.key, k))
    ensures Window(limit, Step(limit, keys, op), k, since + TouchedBy(keys, op))
  {
    if !Touch(keys, op) {
      assert since + TouchedBy(keys, op) == since;
    } else if Has(keys, k) {
      var at :| 0 <= at < |keys| && Matches(keys[at], k) && Ids(keys[at + 1..]) == since;
      if Has(keys, op.key) {
        WindowOfHit(limit, keys, k, since, op, at);
      } else {
        WindowPushed(limit, keys, k, since, op.key, at);
      }
    } else {
      WindowAbsent(limit, keys, k, since, op);
    }
  }

  lemma UnionAssociates(a: set<Ident>, b: set<Ident>, c: set<Ident>)
    ensures a + b + c == a + (b + c)
  {
  }

  lemma {:induction false} RetentionFrom(limit: nat, keys: seq<UserArea>, k: UserArea, since: set<Ident>, ops: seq<Op>)
    requires Valid(limit, keys) && Window(limit, keys, k, since) && Untouched(limit, keys, ops, k)
    ensures Has(Run(limit, keys, ops), k) <==> |since + Touched(limit, keys, ops)| < limit
    decreases |ops|
  {
    if ops == [] {
      assert since + {} == since;
    } else {
      var next := Step(limit, keys, ops[0]);
      var now := since + TouchedBy(keys, ops[0]);
      StepKeepsValid(limit, keys, ops[0]);
      StepKeepsWindow(limit, keys, k, since, ops[0]);
      RetentionFrom(limit, next, k, now, ops[1..]);
      UnionAssociates(since, TouchedBy(keys, ops[0]), Touched(limit, next, ops[1..]));
    }
  }

  /** After a call that touches its key, and calls that neither touch it again nor remove anything,
      the key is still listed exactly when fewer than `limit` distinct keys have been touched since. */
  lemma Retention(limit: nat, keys: seq<UserArea>, op: Op, ops: seq<Op>)
    requires Valid(limit, keys) && Touch(keys, op)
    requires Untouched(limit, Step(limit, keys, op), ops, op.key)
    ensures var next := Step(limit, keys, op);
            Has(Run(limit, next, ops), op.key) <==> |Touched(limit, next, ops)| < limit
  {
    var k, next := op.key, Step(limit, keys, op);
    StepKeepsValid(limit, keys, op);
    if limit > 0 {
      WithoutDistinct(keys, k);
      assert next[|next| - 1] == k;
      assert Ids(next[|next|..]) == {};
    }
    RetentionFrom(limit, next, k, {}, ops);
    assert {} + Touched(limit, next, ops) == Touched(limit, next, ops);
  }
}
