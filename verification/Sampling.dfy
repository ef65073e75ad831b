/** The random choices of `pack/module/utils.js`, for an arbitrary source of numbers. */
module Sampling {
  import opened Wrappers

  // ---------- the source of numbers ----------

  /** `chance.integer`: some number between the bounds. */
  ghost predicate IntegerSource(chance: (int, int) -> int) {
    forall min, max :: min <= max ==> min <= chance(min, max) <= max
  }

  /** `chance.unique(chance.integer, n, ...)`: `n` different numbers between the bounds. */
  ghost predicate UniqueSource(chance: (int, int, int) -> seq<int>) {
    forall min, max, n :: min <= max && n <= max - min + 1 ==> UniqueDraws(chance(min, max, n), min, max, n)
  }

  predicate UniqueDraws(draws: seq<int>, min: int, max: int, n: int) {
    && |draws| == (if n < 0 then 0 else n)
    && (forall i :: 0 <= i < |draws| ==> min <= draws[i] <= max)
    && (forall i, j :: 0 <= i < j < |draws| ==> draws[i] != draws[j])
  }

  function RandomInt(chance: (int, int) -> int, min: int, max: int): int {
    if min > max then 0 else chance(min, max)
  }

  /** None stands for the 0 that the code returns in place of an array. */
  function RandomIntN(chance: (int, int, int) -> seq<int>, min: int, max: int, n: int): Option<seq<int>> {
    if min > max || max - min + 1 < n then None else Some(chance(min, max, n))
  }

  // ---------- randomScopeEx: choice by weight ----------

  function Prefix(scope: seq<int>, n: nat): int
    requires n <= |scope|
  {
    if n == 0 then 0 else Prefix(scope, n - 1) + scope[n - 1]
  }

  function Sum(scope: seq<int>): int {
    Prefix(scope, |scope|)
  }

  /** The first index, from `i` on, whose running total reaches `ret`. */
  function Select(scope: seq<int>, ret: int, i: nat): int
    requires i <= |scope|
    decreases |scope| - i
  {
    if i == |scope| then -1 else if ret <= Prefix(scope, i + 1) then i else Select(scope, ret, i + 1)
  }

  /** What `randomScopeEx` answers. */
  function Answer(chance: (int, int) -> int, scope: seq<int>): int {
    Select(scope, RandomInt(chance, 1, Sum(scope)), 0)
  }

  method RandomScopeEx(chance: (int, int) -> int, scope: seq<int>) returns (index: int)
    ensures index == Answer(chance, scope)
    ensures var drawn := if Sum(scope) >= 1 then chance(1, Sum(scope)) else 0;
            if index < 0 then index == -1 && forall j :: 0 < j <= |scope| ==> Prefix(scope, j) < drawn
            else index < |scope| && Prefix(scope, index + 1) >= drawn
                 && forall j :: 0 < j <= index ==> Prefix(scope, j) < drawn
  {
    AnswerIsFirst(chance, scope);
    var sum := 0;
    for i := 0 to |scope|
      invariant sum == Prefix(scope, i)
    {
      sum := sum + scope[i];
    }
    var ret := RandomInt(chance, 1, sum);
    var temp := 0;
    for i := 0 to |scope|
      invariant temp == Prefix(scope, i)
      invariant Select(scope, ret, 0) == Select(scope, ret, i)
    {
      temp := temp + scope[i];
      if ret <= temp {
        return i;
      }
    }
    return -1;
  }

  lemma {:induction false} SelectIsFirst(scope: seq<int>, ret: int, i: nat)
    requires i <= |scope|
    ensures var r := Select(scope, ret, i);
            if r < 0 then r == -1 && forall j :: i < j <= |scope| ==> Prefix(scope, j) < ret
            else i <= r < |scope| && ret <= Prefix(scope, r + 1) && forall j :: i < j <= r ==> Prefix(scope, j) < ret
    decreases |scope| - i
  {
    if i < |scope| && ret > Prefix(scope, i + 1) {
      SelectIsFirst(scope, ret, i + 1);
    }
  }

  /** The answer is the first index whose running total reaches what was drawn out of 1..Sum, or 0 when there is
      nothing to draw from. */
  lemma AnswerIsFirst(chance: (int, int) -> int, scope: seq<int>)
    ensures var drawn, r := if Sum(scope) >= 1 then chance(1, Sum(scope)) else 0, Answer(chance, scope);
            if r < 0 then r == -1 && forall j :: 0 < j <= |scope| ==> Prefix(scope, j) < drawn
            else r < |scope| && Prefix(scope, r + 1) >= drawn && forall j :: 0 < j <= r ==> Prefix(scope, j) < drawn
  {
    SelectIsFirst(scope, RandomInt(chance, 1, Sum(scope)), 0);
  }

  predicate NonNegative(scope: seq<int>) {
    forall i :: 0 <= i < |scope| ==> scope[i] >= 0
  }

  lemma {:induction false} PrefixGrows(scope: seq<int>, i: nat, j: nat)
    requires NonNegative(scope) && i <= j <= |scope|
    ensures Prefix(scope, i) <= Prefix(scope, j)
    decreases j
  {
    if i < j {
      PrefixGrows(scope, i, j - 1);
    }
  }

  /** A source that draws `r`. */
  function Drawing(r: int): (int, int) -> int {
    (min: int, max: int) => r
  }

  /** The draws out of 1..Sum for which `i` is answered. */
  ghost function Draws(scope: seq<int>, i: int): set<int> {
    set r | 1 <= r <= Sum(scope) && Answer(Drawing(r), scope) == i
  }

  ghost function Interval(lo: int, hi: int): (s: set<int>)
    requires lo <= hi
    ensures |s| == hi - lo
    ensures forall r :: r in s <==> lo < r <= hi
    decreases hi - lo
  {
    if lo == hi then {} else Interval(lo, hi - 1) + {hi}
  }

  lemma DrawsAreAnInterval(scope: seq<int>, i: nat)
    requires NonNegative(scope) && i < |scope| && Prefix(scope, i) <= Prefix(scope, i + 1)
    ensures Draws(scope, i) == Interval(Prefix(scope, i), Prefix(scope, i + 1))
  {
    PrefixGrows(scope, 0, i);
    PrefixGrows(scope, i + 1, |scope|);
    forall r ensures r in Draws(scope, i) <==> Prefix(scope, i) < r <= Prefix(scope, i + 1) {
      AnswerIsFirst(Drawing(r), scope);
      var s := Answer(Drawing(r), scope);
      if 0 <= s < i {
        PrefixGrows(scope, s + 1, i);
      }
    }
  }

  /** Every index is chosen by exactly as many draws as its weight says, if and only if no weight is negative. */
  lemma ProportionalWhenNonNegative(scope: seq<int>)
    ensures (forall i :: 0 <= i < |scope| ==> |Draws(scope, i)| == scope[i]) <==> NonNegative(scope)
  {
    if NonNegative(scope) {
      forall i | 0 <= i < |scope| ensures |Draws(scope, i)| == scope[i] {
        PrefixGrows(scope, i, i + 1);
        DrawsAreAnInterval(scope, i);
      }
    } else {
      var i :| 0 <= i < |scope| && scope[i] < 0;
      assert |Draws(scope, i)| >= 0;
    }
  }

  /** Nothing but the one number drawn out of 1..Sum decides what is answered. */
  lemma OneDrawDecides(chance: (int, int) -> int, scope: seq<int>, i: int)
    requires IntegerSource(chance) && Sum(scope) >= 1
    ensures Answer(chance, scope) == i <==> chance(1, Sum(scope)) in Draws(scope, i)
  {
  }

  /** -1 is answered exactly when every running total is negative. */
  lemma NoChoice(chance: (int, int) -> int, scope: seq<int>)
    requires IntegerSource(chance)
    ensures Answer(chance, scope) == -1 <==> forall i :: 0 < i <= |scope| ==> Prefix(scope, i) < 0
  {
    AnswerIsFirst(chance, scope);
  }

  /** With non-negative weights, what is chosen has a positive weight exactly when there is one. */
  lemma ChosenWeightIsPositive(chance: (int, int) -> int, scope: seq<int>)
    requires IntegerSource(chance) && NonNegative(scope) && scope != []
    ensures var i := Answer(chance, scope);
            0 <= i < |scope| && (scope[i] > 0 <==> exists j :: 0 <= j < |scope| && scope[j] > 0)
  {
    NoChoice(chance, scope);
    AnswerIsFirst(chance, scope);
    PrefixGrows(scope, 0, 1);
    var i := Answer(chance, scope);
    if exists j :: 0 <= j < |scope| && scope[j] > 0 {
      var j :| 0 <= j < |scope| && scope[j] > 0;
      PrefixGrows(scope, 0, j);
      PrefixGrows(scope, j + 1, |scope|);
    }
  }

  // ---------- randomArraySets: choice across several arrays ----------

  /** The first `n` arrays, joined. */
  function Joined<T>(arrays: seq<seq<T>>, n: nat): seq<T>
    requires n <= |arrays|
  {
    if n == 0 then [] else Joined(arrays, n - 1) + arrays[n - 1]
  }

  function Flat<T>(arrays: seq<seq<T>>): seq<T> {
    Joined(arrays, |arrays|)
  }

  /** The half-open interval of draws that fall into array `j`. */
  predicate InArray<T>(arrays: seq<seq<T>>, draw: int, j: nat)
    requires j < |arrays|
  {
    |Joined(arrays, j)| <= draw < |Joined(arrays, j + 1)|
  }

  function Gather<T>(flat: seq<T>, draws: seq<int>): (r: seq<T>)
    requires forall i :: 0 <= i < |draws| ==> 0 <= draws[i] < |flat|
    ensures |r| == |draws| && forall i :: 0 <= i < |draws| ==> r[i] == flat[draws[i]]
  {
    seq(|draws|, i requires 0 <= i < |draws| => flat[draws[i]])
  }

  function DrawsFor(chance: (int, int, int) -> seq<int>, total: nat, n: int): seq<int> {
    var drawn := RandomIntN(chance, 0, total - 1, n);
    if drawn.Some? then drawn.value else []
  }

  lemma DrawsAreIndices(chance: (int, int, int) -> seq<int>, total: nat, n: int)
    requires UniqueSource(chance) && n <= total
    ensures var draws := DrawsFor(chance, total, n);
            && |draws| == (if 0 < n then n else 0)
            && (forall i :: 0 <= i < |draws| ==> 0 <= draws[i] < total)
            && (forall i, j :: 0 <= i < j < |draws| ==> draws[i] != draws[j])
  {
    if total > 0 {
      assert UniqueDraws(chance(0, total - 1, n), 0, total - 1, n);
    }
  }

  predicate Sampled<T>(arrays: seq<seq<T>>, n: int) {
    arrays != [] && |Flat(arrays)| >= n
  }

  lemma {:induction false} JoinedGrows<T>(arrays: seq<seq<T>>, i: nat, j: nat)
    requires i <= j <= |arrays|
    ensures |Joined(arrays, i)| <= |Joined(arrays, j)| && Joined(arrays, j)[..|Joined(arrays, i)|] == Joined(arrays, i)
    decreases j
  {
    if i < j {
      JoinedGrows(arrays, i, j - 1);
    }
  }

  lemma {:induction false} FindArray<T>(arrays: seq<seq<T>>, draw: int, n: nat) returns (j: nat)
    requires n <= |arrays| && 0 <= draw < |Joined(arrays, n)|
    ensures j < n && InArray(arrays, draw, j)
    decreases n
  {
    if draw < |Joined(arrays, n - 1)| {
      j := FindArray(arrays, draw, n - 1);
    } else {
      j := n - 1;
    }
  }

  /** The intervals partition the draws: each draw falls into exactly one of them, empty arrays included. */
  lemma ExactlyOneArray<T>(arrays: seq<seq<T>>, draw: int) returns (j: nat)
    requires 0 <= draw < |Flat(arrays)|
    ensures j < |arrays| && InArray(arrays, draw, j)
    ensures forall k :: 0 <= k < |arrays| && k != j ==> !InArray(arrays, draw, k)
  {
    j := FindArray(arrays, draw, |arrays|);
    forall k | 0 <= k < |arrays| && k != j ensures !InArray(arrays, draw, k) {
      if k < j {
        JoinedGrows(arrays, k + 1, j);
      } else {
        JoinedGrows(arrays, j + 1, k);
      }
    }
  }

  lemma InArrayIsInFlat<T>(arrays: seq<seq<T>>, draw: int, j: nat)
    requires j < |arrays| && InArray(arrays, draw, j)
    ensures 0 <= draw < |Flat(arrays)| && 0 <= draw - |Joined(arrays, j)| < |arrays[j]|
    ensures Flat(arrays)[draw] == arrays[j][draw - |Joined(arrays, j)|]
  {
    JoinedGrows(arrays, j + 1, |arrays|);
    assert Flat(arrays)[draw] == Joined(arrays, j + 1)[draw];
  }

  /** What the code answers: the joined arrays at the drawn positions, or all of them when too few are there. */
  ghost function Sample<T>(chance: (int, int, int) -> seq<int>, arrays: seq<seq<T>>, n: int): seq<T>
    requires UniqueSource(chance)
  {
    if Sampled(arrays, n) then
      DrawsAreIndices(chance, |Flat(arrays)|, n);
      Gather(Flat(arrays), DrawsFor(chance, |Flat(arrays)|, n))
    else Flat(arrays)
  }

  /** The i-th element of a sample is the joined arrays' element at the i-th number drawn. */
  lemma SampleAsDrawn<T>(chance: (int, int, int) -> seq<int>, arrays: seq<seq<T>>, n: int)
    requires UniqueSource(chance)
    ensures var flat, result := Flat(arrays), Sample(chance, arrays, n);
            if n > |flat| then result == flat
            else if n <= 0 then result == []
            else
              var draws := chance(0, |flat| - 1, n);
              |draws| == n && |result| == n
              && forall i :: 0 <= i < n ==> 0 <= draws[i] < |flat| && result[i] == flat[draws[i]]
  {
    if Sampled(arrays, n) {
      DrawsAreIndices(chance, |Flat(arrays)|, n);
    }
  }

  function AlwaysDrawing(draws: seq<int>, total: int): (int, int, int) -> seq<int> {
    (min: int, max: int, n: int) =>
      if min == 0 && max == total - 1 && n == |draws| then draws else seq(if n < 0 then 0 else n, i => min + i)
  }

  lemma AlwaysDrawingIsASource(draws: seq<int>, total: int)
    requires UniqueDraws(draws, 0, total - 1, |draws|)
    ensures UniqueSource(AlwaysDrawing(draws, total))
  {
    var chance := AlwaysDrawing(draws, total);
    forall min, max, n | min <= max && n <= max - min + 1 ensures UniqueDraws(chance(min, max, n), min, max, n) {
    }
  }

  /** Whatever distinct positions there are, some source makes the sample their elements, in their order. */
  lemma AnySampleIsDrawn<T>(arrays: seq<seq<T>>, draws: seq<int>) returns (chance: (int, int, int) -> seq<int>)
    requires UniqueDraws(draws, 0, |Flat(arrays)| - 1, |draws|)
    ensures UniqueSource(chance)
    ensures var flat, sample := Flat(arrays), Sample(chance, arrays, |draws|);
            |sample| == |draws| && forall i :: 0 <= i < |draws| ==> sample[i] == flat[draws[i]]
  {
    chance := AlwaysDrawing(draws, |Flat(arrays)|);
    AlwaysDrawingIsASource(draws, |Flat(arrays)|);
    DistinctFit(Flat(arrays), draws);
    SampleAsDrawn(chance, arrays, |draws|);
  }

  predicate Bounds<T>(arrays: seq<seq<T>>, sum: seq<(int, int)>) {
    |sum| <= |arrays| &&
    forall j :: 0 <= j < |sum| ==> sum[j].0 == |Joined(arrays, j)| && sum[j].1 == |Joined(arrays, j + 1)|
  }

  /** The inner loop: what one draw pushes. */
  method FindDrawn<T>(arrays: seq<seq<T>>, sum: seq<(int, int)>, draw: int) returns (pushed: seq<T>)
    requires Bounds(arrays, sum) && |sum| == |arrays| && 0 <= draw < |Flat(arrays)|
    ensures pushed == [Flat(arrays)[draw]]
  {
    var _ := ExactlyOneArray(arrays, draw);
    for j := 0 to |sum|
      invariant forall k :: 0 <= k < j ==> !InArray(arrays, draw, k)
    {
      if sum[j].0 <= draw < sum[j].1 {
        InArrayIsInFlat(arrays, draw, j);
        return [arrays[j][draw - sum[j].0]];
      }
    }
    return [];
  }

  lemma JoinedNext<T>(arrays: seq<seq<T>>, i: nat)
    requires i < |arrays|
    ensures |Joined(arrays, i + 1)| == |Joined(arrays, i)| + |arrays[i]|
  {
  }

  lemma BoundsNext<T>(arrays: seq<seq<T>>, sum: seq<(int, int)>, num: int)
    requires |sum| < |arrays| && Bounds(arrays, sum) && num == |Joined(arrays, |sum|)|
    ensures Bounds(arrays, sum + [(num, num + |arrays[|sum|]|)])
  {
    JoinedNext(arrays, |sum|);
  }

  /** The first loop: the interval of every array, and the total. */
  method MeasureArrays<T>(arrays: seq<seq<T>>) returns (sum: seq<(int, int)>, num: int)
    ensures Bounds(arrays, sum) && |sum| == |arrays| && num == |Flat(arrays)|
  {
    sum, num := [], 0;
    for i := 0 to |arrays|
      invariant |sum| == i && num == |Joined(arrays, i)| && Bounds(arrays, sum)
    {
      BoundsNext(arrays, sum, num);
      JoinedNext(arrays, i);
      var nmax := num + |arrays[i]|;
      sum := sum + [(num, nmax)];
      num := nmax;
    }
  }

  /** The sampling loop. */
  method PickDrawn<T>(arrays: seq<seq<T>>, sum: seq<(int, int)>, tmp: seq<int>) returns (result: seq<T>)
    requires Bounds(arrays, sum) && |sum| == |arrays|
    requires forall i :: 0 <= i < |tmp| ==> 0 <= tmp[i] < |Flat(arrays)|
    ensures result == Gather(Flat(arrays), tmp)
  {
    result := [];
    for i := 0 to |tmp|
      invariant |result| == i
      invariant forall k :: 0 <= k < i ==> result[k] == Flat(arrays)[tmp[k]]
    {
      var pushed := FindDrawn(arrays, sum, tmp[i]);
      result := result + pushed;
    }
  }

  method RandomArraySets<T>(chance: (int, int, int) -> seq<int>, arrays: seq<seq<T>>, n: int) returns (result: seq<T>)
    requires UniqueSource(chance)
    ensures result == Sample(chance, arrays, n)
    ensures var flat := Flat(arrays);
            0 < n <= |flat| ==>
              var draws := chance(0, |flat| - 1, n);
              |result| == n && forall i :: 0 <= i < n ==> 0 <= draws[i] < |flat| && result[i] == flat[draws[i]]
    ensures n > |Flat(arrays)| ==> result == Flat(arrays)
    ensures n <= 0 ==> result == []
  {
    SampleAsDrawn(chance, arrays, n);
    var sum, num := MeasureArrays(arrays);
    if |sum| != 0 && num >= n {
      DrawsAreIndices(chance, num, n);
      var tmp := DrawsFor(chance, num, n);
      result := PickDrawn(arrays, sum, tmp);
      return;
    }
    result := [];
    for i := 0 to |arrays|
      invariant result == Joined(arrays, i)
    {
      result := result + arrays[i];
    }
  }

  // ---------- what a sample is ----------

  predicate Distinct(draws: seq<int>) {
    forall i, j :: 0 <= i < j < |draws| ==> draws[i] != draws[j]
  }

  predicate Indices<T>(flat: seq<T>, draws: seq<int>) {
    forall i :: 0 <= i < |draws| ==> 0 <= draws[i] < |flat|
  }

  /** The drawn positions that hold `v`. */
  ghost function Holding<T>(flat: seq<T>, draws: seq<int>, v: T): (held: set<int>)
    requires Indices(flat, draws)
    ensures forall d :: d in held <==> d in draws && flat[d] == v
  {
    if draws == [] then {}
    else
      var front, d := draws[..|draws| - 1], draws[|draws| - 1];
      assert draws == front + [d];
      Holding(flat, front, v) + if flat[d] == v then {d} else {}
  }

  lemma GatherLast<T>(flat: seq<T>, front: seq<int>, d: int, v: T)
    requires Indices(flat, front) && 0 <= d < |flat|
    ensures Indices(flat, front + [d])
    ensures multiset(Gather(flat, front + [d]))[v]
            == multiset(Gather(flat, front))[v] + if flat[d] == v then 1 else 0
  {
    assert Gather(flat, front + [d]) == Gather(flat, front) + [flat[d]];
  }

  lemma HoldingLast<T>(flat: seq<T>, front: seq<int>, d: int, v: T)
    requires Indices(flat, front) && Indices(flat, front + [d]) && d !in front && 0 <= d < |flat|
    ensures |Holding(flat, front + [d], v)| == |Holding(flat, front, v)| + if flat[d] == v then 1 else 0
  {
    assert Holding(flat, front + [d], v) == Holding(flat, front, v) + if flat[d] == v then {d} else {};
  }

  lemma {:induction false} HoldingCount<T>(flat: seq<T>, draws: seq<int>, v: T)
    requires Indices(flat, draws) && Distinct(draws)
    ensures multiset(Gather(flat, draws))[v] == |Holding(flat, draws, v)|
    decreases |draws|
  {
    if draws != [] {
      var front, d := draws[..|draws| - 1], draws[|draws| - 1];
      HoldingCount(flat, front, v);
      assert draws == front + [d];
      GatherLast(flat, front, d, v);
      HoldingLast(flat, front, d, v);
    }
  }

  function Everything(n: nat): (draws: seq<int>)
    ensures |draws| == n && forall i :: 0 <= i < n ==> draws[i] == i
  {
    seq(n, i => i)
  }

  lemma {:induction false} SubsetCount<T>(a: set<T>, b: set<T>)
    requires a <= b
    ensures |a| <= |b|
  {
    if a != {} {
      var x :| x in a;
      SubsetCount(a - {x}, b - {x});
    }
  }

  lemma GatherIsSubMultiset<T>(flat: seq<T>, draws: seq<int>)
    requires Indices(flat, draws) && Distinct(draws)
    ensures multiset(Gather(flat, draws)) <= multiset(flat)
  {
    var all := Everything(|flat|);
    assert Gather(flat, all) == flat;
    forall v ensures multiset(Gather(flat, draws))[v] <= multiset(flat)[v] {
      HoldingCount(flat, draws, v);
      HoldingCount(flat, all, v);
      forall d | d in Holding(flat, draws, v) ensures d in Holding(flat, all, v) {
        assert all[d] == d;
      }
      SubsetCount(Holding(flat, draws, v), Holding(flat, all, v));
    }
  }

  lemma DistinctFit<T>(flat: seq<T>, draws: seq<int>)
    requires Indices(flat, draws) && Distinct(draws)
    ensures |draws| <= |flat|
  {
    GatherIsSubMultiset(flat, draws);
    var gathered := multiset(Gather(flat, draws));
    assert (multiset(flat) - gathered) + gathered == multiset(flat);
  }

  /** A sample has `n` elements, or all there are; it never takes one more often than it is there. */
  lemma SampleIsSubMultiset<T>(chance: (int, int, int) -> seq<int>, arrays: seq<seq<T>>, n: int)
    requires UniqueSource(chance)
    ensures multiset(Sample(chance, arrays, n)) <= multiset(Flat(arrays))
    ensures |Sample(chance, arrays, n)| == if n <= 0 then 0 else if n <= |Flat(arrays)| then n else |Flat(arrays)|
  {
    if Sampled(arrays, n) {
      DrawsAreIndices(chance, |Flat(arrays)|, n);
      GatherIsSubMultiset(Flat(arrays), DrawsFor(chance, |Flat(arrays)|, n));
    }
  }

  lemma SameSizeSubMultiset<T>(a: multiset<T>, b: multiset<T>)
    requires a <= b
    ensures |a| == |b| <==> a == b
  {
    assert (b - a) + a == b;
  }

  /** A sample is a permutation of the joined arrays exactly when all of them were asked for. */
  lemma SampleIsPermutation<T>(chance: (int, int, int) -> seq<int>, arrays: seq<seq<T>>, n: int)
    requires UniqueSource(chance)
    ensures multiset(Sample(chance, arrays, n)) == multiset(Flat(arrays)) <==> n >= |Flat(arrays)| || Flat(arrays) == []
  {
    SampleIsSubMultiset(chance, arrays, n);
    SameSizeSubMultiset(multiset(Sample(chance, arrays, n)), multiset(Flat(arrays)));
  }
}
