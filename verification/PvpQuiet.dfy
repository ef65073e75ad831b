/** Day tournament: among new robots, and two players at most, no two robots of one row ever meet. */
module PvpQuiet {
  import opened PvpDay
  import opened PvpMembers
  import opened PvpFights
  import opened PvpField
  import opened PvpCourse

  // ---------- fights that are only partly known ----------

  /** These places hold what they held, but for `a` and `b`. */
  ghost predicate OthersKeep(at: Seating, m: map<Player, int>, m': map<Player, int>, a: nat, b: nat) {
    forall x: nat :: x != a && x != b ==> Held(m', at(x)) == Held(m, at(x))
  }

  /** Whatever the fight brings, those who go on are among the two. */
  lemma AnyFight(game: Game, at: Seating, day: Day, remain: seq<Entry>, a: nat, b: nat) returns (going: seq<nat>)
    requires Injective(at) && a != b && !Shared(game.row, at(a), at(b))
    ensures |going| <= 2 && NoPlaceTwice(going) && forall j :: 0 <= j < |going| ==> going[j] == a || going[j] == b
    ensures var next := Fight(game, day, remain, at(a), at(b));
            Players(next.1) == Players(remain) + Seats(at, going) && OthersKeep(at, day.tickets, next.0.tickets, a, b)
  {
    var (t1, t2) := Outcome(game, day, at(a), at(b));
    FightNamed(game, day, remain, at(a), at(b));
    going := (if t1 == 0 then [] else [a]) + (if t2 == 0 then [] else [b]);
    forall x: nat | x != a && x != b
      ensures Held(Fight(game, day, remain, at(a), at(b)).0.tickets, at(x)) == Held(day.tickets, at(x))
    {
      FightStores(game, day, remain, at(a), at(b), at(x));
    }
  }

  /** Of two who hold the same, one goes on with twice as much. */
  lemma EqualFight(game: Game, at: Seating, day: Day, remain: seq<Entry>, a: nat, b: nat, t: int) returns (w: nat)
    requires Injective(at) && a != b && !Shared(game.row, at(a), at(b))
    requires t > 0 && Held(day.tickets, at(a)) == Held(day.tickets, at(b)) == t
    ensures w == a || w == b
    ensures var next := Fight(game, day, remain, at(a), at(b));
            && Players(next.1) == Players(remain) + [at(w)] && Held(next.0.tickets, at(w)) == 2 * t
            && OthersKeep(at, day.tickets, next.0.tickets, a, b)
  {
    var going := AnyFight(game, at, day, remain, a, b);
    w := if game.fights(day.fought, at(a), at(b)) then a else b;
    FightNamed(game, day, remain, at(a), at(b));
    FightStores(game, day, remain, at(a), at(b), at(w));
  }

  /** These places hold `t` each. */
  ghost predicate AllHold(at: Seating, m: map<Player, int>, places: seq<nat>, t: int) {
    forall i :: 0 <= i < |places| ==> Held(m, at(places[i])) == t
  }

  predicate Unknown(row: nat -> nat, at: Seating, u1: seq<nat>, u2: seq<nat>) {
    Pairing(u1, u2) && forall i :: 0 <= i < |u1| ==> !Shared(row, at(u1[i]), at(u2[i]))
  }

  /** The i-th from the end is one of the i-th pair. */
  predicate OneOfEach(u1: seq<nat>, u2: seq<nat>, w: seq<nat>) {
    |w| == |u1| == |u2| && forall i :: 0 <= i < |u1| ==> w[|u1| - 1 - i] == u1[i] || w[|u1| - 1 - i] == u2[i]
  }

  /** Of every pair one goes on, and holds `2 * t`; nobody else's tickets have changed. */
  ghost predicate Halved(
    at: Seating, remain: seq<Entry>, m: map<Player, int>, next: State, u1: seq<nat>, u2: seq<nat>, w: seq<nat>, t: int)
  {
    && OneOfEach(u1, u2, w) && Players(next.1) == Players(remain) + Seats(at, w)
    && AllHold(at, next.0.tickets, w, 2 * t)
    && (forall x: nat :: x !in u1 && x !in u2 ==> Held(next.0.tickets, at(x)) == Held(m, at(x)))
  }

  lemma HalvedStep(
    at: Seating, remain: seq<Entry>, m: map<Player, int>, mid: State, next: State,
    u1: seq<nat>, u2: seq<nat>, first: nat, rest: seq<nat>, t: int)
    requires Pairing(u1, u2) && u1 != [] && (first == u1[|u1| - 1] || first == u2[|u1| - 1])
    requires Players(mid.1) == Players(remain) + [at(first)] && Held(mid.0.tickets, at(first)) == 2 * t
    requires OthersKeep(at, m, mid.0.tickets, u1[|u1| - 1], u2[|u1| - 1])
    requires Halved(at, mid.1, mid.0.tickets, next, u1[..|u1| - 1], u2[..|u1| - 1], rest, t)
    ensures Halved(at, remain, m, next, u1, u2, [first] + rest, t)
  {
    var n, w := |u1| - 1, [first] + rest;
    assert first !in u1[..n] && first !in u2[..n];
    SeatsConcat(at, [first], rest);
    assert Seats(at, [first]) == [at(first)];
    forall i | 0 <= i < |u1| ensures w[|u1| - 1 - i] == u1[i] || w[|u1| - 1 - i] == u2[i] {
      assert i < n ==> w[|u1| - 1 - i] == rest[n - 1 - i];
    }
    forall i | 0 <= i < |w| ensures Held(next.0.tickets, at(w[i])) == 2 * t {
      assert i > 0 ==> w[i] == rest[i - 1];
    }
  }

  lemma StillEqual(
    at: Seating, m: map<Player, int>, m': map<Player, int>, u1: seq<nat>, u2: seq<nat>, t: int)
    requires Pairing(u1, u2) && u1 != [] && OthersKeep(at, m, m', u1[|u1| - 1], u2[|u1| - 1])
    requires AllHold(at, m, u1, t) && AllHold(at, m, u2, t)
    ensures AllHold(at, m', u1[..|u1| - 1], t) && AllHold(at, m', u2[..|u1| - 1], t)
  {
  }

  lemma {:induction false} EqualPairs(
    game: Game, at: Seating, u1: seq<nat>, u2: seq<nat>, t: int, day: Day, remain: seq<Entry>) returns (w: seq<nat>)
    requires Injective(at) && Unknown(game.row, at, u1, u2) && t > 0
    requires AllHold(at, day.tickets, u1, t) && AllHold(at, day.tickets, u2, t)
    ensures Halved(at, remain, day.tickets, FightPairs(game, day, Seats(at, u1), Seats(at, u2), remain), u1, u2, w, t)
    decreases |u1|
  {
    if u1 == [] {
      w := [];
    } else {
      var n := |u1| - 1;
      var mid := Fight(game, day, remain, at(u1[n]), at(u2[n]));
      var first := EqualFight(game, at, day, remain, u1[n], u2[n], t);
      StillEqual(at, day.tickets, mid.0.tickets, u1, u2, t);
      var rest := EqualPairs(game, at, u1[..n], u2[..n], t, mid.0, mid.1);
      PairsFirst(game, at, u1, u2, day, remain);
      var next := FightPairs(game, day, Seats(at, u1), Seats(at, u2), remain);
      HalvedStep(at, remain, day.tickets, mid, next, u1, u2, first, rest, t);
      w := [first] + rest;
    }
  }

  // ---------- the fights of a round, part by part ----------

  lemma FrontOf(a: seq<Player>, b: seq<Player>)
    requires b != []
    ensures var all := a + b;
            all[..|all| - 1] == a + b[..|b| - 1] && all[|all| - 1] == b[|b| - 1]
  {
  }

  lemma PairsNext(game: Game, u1: seq<Player>, u2: seq<Player>, day: Day, remain: seq<Entry>)
    requires u1 != [] && u2 != []
    ensures var next := Fight(game, day, remain, u1[|u1| - 1], u2[|u2| - 1]);
            FightPairs(game, day, u1, u2, remain) == FightPairs(game, next.0, u1[..|u1| - 1], u2[..|u2| - 1], next.1)
  {
  }

  /** The last pairs are fought before the others. */
  lemma {:induction false} PairsAppend(
    game: Game, a1: seq<Player>, a2: seq<Player>, b1: seq<Player>, b2: seq<Player>, day: Day, remain: seq<Entry>)
    requires |a1| == |a2| && |b1| == |b2|
    ensures var mid := FightPairs(game, day, b1, b2, remain);
            FightPairs(game, day, a1 + b1, a2 + b2, remain) == FightPairs(game, mid.0, a1, a2, mid.1)
    decreases |b1|
  {
    if b1 == [] {
      assert a1 + b1 == a1 && a2 + b2 == a2;
    } else {
      var n := |b1| - 1;
      var next := Fight(game, day, remain, b1[n], b2[n]);
      FrontOf(a1, b1);
      FrontOf(a2, b2);
      PairsNext(game, a1 + b1, a2 + b2, day, remain);
      PairsNext(game, b1, b2, day, remain);
      PairsAppend(game, a1, a2, b1[..n], b2[..n], next.0, next.1);
    }
  }

  lemma SeatsParts(at: Seating, u: seq<nat>, j: nat)
    requires j <= |u|
    ensures Seats(at, u) == Seats(at, u[..j]) + Seats(at, u[j..])
  {
  }

  /** The day after the pairs from `j` on, which are fought before the others. */
  function Later(game: Game, at: Seating, u1: seq<nat>, u2: seq<nat>, j: nat, day: Day, remain: seq<Entry>): State
    requires j <= |u1| == |u2|
  {
    FightPairs(game, day, Seats(at, u1[j..]), Seats(at, u2[j..]), remain)
  }

  lemma PairsSplit(game: Game, at: Seating, u1: seq<nat>, u2: seq<nat>, j: nat, day: Day, remain: seq<Entry>)
    requires j <= |u1| == |u2|
    ensures var mid := Later(game, at, u1, u2, j, day, remain);
            FightPairs(game, day, Seats(at, u1), Seats(at, u2), remain)
            == FightPairs(game, mid.0, Seats(at, u1[..j]), Seats(at, u2[..j]), mid.1)
  {
    SeatsParts(at, u1, j);
    SeatsParts(at, u2, j);
    PairsAppend(game, Seats(at, u1[..j]), Seats(at, u2[..j]), Seats(at, u1[j..]), Seats(at, u2[j..]), day, remain);
  }

  lemma {:induction false} PairsLeaveAtMost(
    game: Game, u1: seq<Player>, u2: seq<Player>, day: Day, remain: seq<Entry>)
    requires |u1| == |u2|
    ensures |FightPairs(game, day, u1, u2, remain).1| <= |remain| + 2 * |u1|
    decreases |u1|
  {
    if u1 != [] {
      var n := |u1| - 1;
      var next := Fight(game, day, remain, u1[n], u2[n]);
      PairsLeaveAtMost(game, u1[..n], u2[..n], next.0, next.1);
    }
  }

  /** Who is not among the pairs from `j` on keeps his tickets in them. */
  lemma SeatFrame(
    game: Game, at: Seating, u1: seq<nat>, u2: seq<nat>, j: nat, x: nat, day: Day, remain: seq<Entry>)
    requires Injective(at) && j <= |u1| == |u2| && x !in u1[j..] && x !in u2[j..]
    ensures Held(Later(game, at, u1, u2, j, day, remain).0.tickets, at(x)) == Held(day.tickets, at(x))
  {
    PairsFrame(game, day, Seats(at, u1[j..]), Seats(at, u2[j..]), remain, at(x));
  }

  lemma EqualPairsCount(
    game: Game, at: Seating, u1: seq<nat>, u2: seq<nat>, t: int, day: Day, remain: seq<Entry>)
    requires Injective(at) && Unknown(game.row, at, u1, u2) && t > 0
    requires AllHold(at, day.tickets, u1, t) && AllHold(at, day.tickets, u2, t)
    ensures |FightPairs(game, day, Seats(at, u1), Seats(at, u2), remain).1| == |remain| + |u1|
  {
    var w := EqualPairs(game, at, u1, u2, t, day, remain);
    var next := FightPairs(game, day, Seats(at, u1), Seats(at, u2), remain);
    assert |Players(next.1)| == |Players(remain)| + |w|;
  }

  lemma LaterAtMost(game: Game, at: Seating, u1: seq<nat>, u2: seq<nat>, j: nat, day: Day, remain: seq<Entry>)
    requires j <= |u1| == |u2|
    ensures |Later(game, at, u1, u2, j, day, remain).1| <= |remain| + 2 * (|u1| - j)
  {
    PairsLeaveAtMost(game, Seats(at, u1[j..]), Seats(at, u2[j..]), day, remain);
  }

  /** Of the pairs from `low` to `high`, which all hold the same, just one each goes on, and of the others two at
      most. */
  lemma EqualBetween(
    game: Game, at: Seating, u1: seq<nat>, u2: seq<nat>, low: nat, high: nat, t: int, day: Day, remain: seq<Entry>)
    requires Injective(at) && Unknown(game.row, at, u1, u2) && t > 0 && low <= high <= |u1|
    requires AllHold(at, day.tickets, u1[low..high], t) && AllHold(at, day.tickets, u2[low..high], t)
    ensures |FightPairs(game, day, Seats(at, u1), Seats(at, u2), remain).1| <= |remain| + 2 * |u1| - (high - low)
  {
    var mid := Later(game, at, u1, u2, high, day, remain);
    UnknownParts(game.row, at, u1, u2, high);
    MiddleKeeps(game, at, u1, u2, low, high, t, day, remain);
    EqualFront(game, at, u1[..high], u2[..high], low, t, mid.0, mid.1);
    LaterAtMost(game, at, u1, u2, high, day, remain);
    PairsSplit(game, at, u1, u2, high, day, remain);
  }

  lemma MiddleKeeps(
    game: Game, at: Seating, u1: seq<nat>, u2: seq<nat>, low: nat, high: nat, t: int, day: Day, remain: seq<Entry>)
    requires Injective(at) && Pairing(u1, u2) && low <= high <= |u1|
    requires AllHold(at, day.tickets, u1[low..high], t) && AllHold(at, day.tickets, u2[low..high], t)
    ensures var m := Later(game, at, u1, u2, high, day, remain).0.tickets;
            AllHold(at, m, u1[..high][low..], t) && AllHold(at, m, u2[..high][low..], t)
  {
    var mid := Later(game, at, u1, u2, high, day, remain);
    forall i | low <= i < high
      ensures Held(mid.0.tickets, at(u1[i])) == t && Held(mid.0.tickets, at(u2[i])) == t
    {
      SeatFrame(game, at, u1, u2, high, u1[i], day, remain);
      SeatFrame(game, at, u1, u2, high, u2[i], day, remain);
      assert u1[low..high][i - low] == u1[i] && u2[low..high][i - low] == u2[i];
    }
  }

  lemma UnknownParts(row: nat -> nat, at: Seating, u1: seq<nat>, u2: seq<nat>, j: nat)
    requires Unknown(row, at, u1, u2) && j <= |u1|
    ensures Unknown(row, at, u1[..j], u2[..j]) && Unknown(row, at, u1[j..], u2[j..])
  {
  }

  lemma EqualFront(
    game: Game, at: Seating, u1: seq<nat>, u2: seq<nat>, low: nat, t: int, day: Day, remain: seq<Entry>)
    requires Injective(at) && Unknown(game.row, at, u1, u2) && t > 0 && low <= |u1|
    requires AllHold(at, day.tickets, u1[low..], t) && AllHold(at, day.tickets, u2[low..], t)
    ensures |FightPairs(game, day, Seats(at, u1), Seats(at, u2), remain).1| <= |remain| + |u1| + low
  {
    UnknownParts(game.row, at, u1, u2, low);
    LaterLeaves(game, at, u1, u2, low, t, day, remain);
    PairsSplit(game, at, u1, u2, low, day, remain);
    FrontAtMost(game, at, u1, u2, low, Later(game, at, u1, u2, low, day, remain));
  }

  lemma LaterLeaves(
    game: Game, at: Seating, u1: seq<nat>, u2: seq<nat>, low: nat, t: int, day: Day, remain: seq<Entry>)
    requires Injective(at) && low <= |u1| == |u2| && Unknown(game.row, at, u1[low..], u2[low..]) && t > 0
    requires AllHold(at, day.tickets, u1[low..], t) && AllHold(at, day.tickets, u2[low..], t)
    ensures |Later(game, at, u1, u2, low, day, remain).1| == |remain| + |u1| - low
  {
    EqualPairsCount(game, at, u1[low..], u2[low..], t, day, remain);
  }

  lemma FrontAtMost(game: Game, at: Seating, u1: seq<nat>, u2: seq<nat>, low: nat, mid: State)
    requires low <= |u1| == |u2|
    ensures |FightPairs(game, mid.0, Seats(at, u1[..low]), Seats(at, u2[..low]), mid.1).1| <= |mid.1| + 2 * low
  {
    PairsLeaveAtMost(game, Seats(at, u1[..low]), Seats(at, u2[..low]), mid.0, mid.1);
  }

  /** Among these places are at most two, different ones, of `a` and `b`. */
  predicate Few(v: seq<nat>, a: nat, b: nat) {
    |v| <= 2 && NoPlaceTwice(v) && forall j :: 0 <= j < |v| ==> v[j] == a || v[j] == b
  }

  lemma OnePair(game: Game, at: Seating, a: nat, b: nat, day: Day, remain: seq<Entry>)
    ensures FightPairs(game, day, Seats(at, [a]), Seats(at, [b]), remain) == Fight(game, day, remain, at(a), at(b))
  {
    var next := Fight(game, day, remain, at(a), at(b));
    assert Seats(at, [a]) == [at(a)] && Seats(at, [b]) == [at(b)];
    assert [at(a)][..0] == [] && [at(b)][..0] == [];
    assert FightPairs(game, next.0, [], [], next.1) == next;
  }

  /** A last pair that may hold anything, and before it pairs that hold `t` each. */
  lemma AnyThenEqual(
    game: Game, at: Seating, u1: seq<nat>, u2: seq<nat>, a: nat, b: nat, t: int, day: Day)
    returns (v: seq<nat>, w: seq<nat>)
    requires Injective(at) && t > 0 && Unknown(game.row, at, u1 + [a], u2 + [b])
    requires |u1| == |u2| && AllHold(at, day.tickets, u1, t) && AllHold(at, day.tickets, u2, t)
    ensures Few(v, a, b) && OneOfEach(u1, u2, w)
    ensures var next := FightPairs(game, day, Seats(at, u1 + [a]), Seats(at, u2 + [b]), []);
            Players(next.1) == Seats(at, v + w) && AllHold(at, next.0.tickets, w, 2 * t)
  {
    assert (u1 + [a])[|u1|] == a && (u2 + [b])[|u1|] == b;
    assert forall i :: 0 <= i < |u1| ==> (u1 + [a])[i] == u1[i] && (u2 + [b])[i] == u2[i];
    v := AnyFight(game, at, day, [], a, b);
    var mid := Fight(game, day, [], at(a), at(b));
    w := EqualPairs(game, at, u1, u2, t, mid.0, mid.1);
    LastFirst(game, at, u1, u2, a, b, day);
    SeatsConcat(at, v, w);
    assert Players([]) + Seats(at, v) == Seats(at, v);
  }

  lemma LastFirst(game: Game, at: Seating, u1: seq<nat>, u2: seq<nat>, a: nat, b: nat, day: Day)
    requires |u1| == |u2|
    ensures var mid := Fight(game, day, [], at(a), at(b));
            FightPairs(game, day, Seats(at, u1 + [a]), Seats(at, u2 + [b]), [])
            == FightPairs(game, mid.0, Seats(at, u1), Seats(at, u2), mid.1)
  {
    PairsFirst(game, at, u1 + [a], u2 + [b], day, []);
    assert (u1 + [a])[..|u1|] == u1 && (u2 + [b])[..|u1|] == u2;
  }

  // ---------- the course of such a day ----------

  /** Robots that are fewer than twelve places apart do not share a row. */
  ghost predicate NearUnshared(at: Seating, row: nat -> nat) {
    forall a: nat, b: nat :: a < b < a + ROWS ==> !Shared(row, at(a), at(b)) && !Shared(row, at(b), at(a))
  }

  lemma SeatedNear(area: string, uuids: seq<string>)
    ensures NearUnshared(Seated(area, uuids), TableRow())
  {
    var at := Seated(area, uuids);
    forall a: nat, b: nat | a < b < a + ROWS
      ensures !Shared(TableRow(), at(a), at(b)) && !Shared(TableRow(), at(b), at(a))
    {
      SeatedShare(area, uuids, a, b);
      SeatedShare(area, uuids, b, a);
    }
  }

  /** Everybody in the list is near the next one. */
  predicate Close(list: seq<nat>) {
    NoPlaceTwice(list) && forall j :: 0 <= j < |list| - 1 ==> list[j + 1] - ROWS < list[j] < list[j + 1] + ROWS
  }

  lemma CloseIsQuiet(at: Seating, row: nat -> nat, list: seq<nat>)
    requires NearUnshared(at, row) && Close(list)
    ensures Quiet(at, row, list) && Unknown(row, at, Evens(list), Odds(list))
  {
    EvensAndOddsPair(list);
    forall i | 0 <= i < |list| / 2 ensures !Shared(row, at(Evens(list)[i]), at(Odds(list)[i])) {
      var j := 2 * i + |list| % 2;
      assert Evens(list)[i] == list[j] && Odds(list)[i] == list[j + 1];
    }
  }

  /** The field: all but the first two hold the same. */
  ghost predicate Start(at: Seating, x: State) {
    Players(x.1) == Seats(at, AllPlaces(FIELD)) && forall i: nat :: 2 <= i < FIELD ==> Held(x.0.tickets, at(i)) == 100
  }

  /** After the first round: one of each later pair, from the back, with 200 tickets, and any of the first two. */
  ghost predicate After1(at: Seating, x: State, w: seq<nat>, v: seq<nat>) {
    && Players(x.1) == Seats(at, w + v) && |w| == 49 && AllHold(at, x.0.tickets, w, 200) && Few(v, 0, 1)
    && (forall j :: 0 <= j < 49 ==> w[j] == 98 - 2 * j || w[j] == 99 - 2 * j)
  }

  lemma PlacesClose()
    ensures Close(AllPlaces(FIELD))
  {
  }

  lemma KeepHolding(
    at: Seating, m: map<Player, int>, m': map<Player, int>, u1: seq<nat>, u2: seq<nat>, w: seq<nat>, t: int)
    requires Pairing(u1, u2) && u1 != [] && OneOfEach(u1[1..], u2[1..], w)
    requires AllHold(at, m, w, t) && OthersKeep(at, m, m', u1[0], u2[0])
    ensures AllHold(at, m', w, t)
  {
    forall i | 0 <= i < |w| ensures w[i] != u1[0] && w[i] != u2[0] {
      var n := |w| - 1 - i;
      assert w[|w| - 1 - n] == u1[1..][n] || w[|w| - 1 - n] == u2[1..][n];
    }
  }

  /** Pairs that hold `t` each, and at the front one that may hold anything. */
  lemma EqualThenAny(
    game: Game, at: Seating, u1: seq<nat>, u2: seq<nat>, t: int, day: Day) returns (w: seq<nat>, v: seq<nat>)
    requires Injective(at) && t > 0 && Unknown(game.row, at, u1, u2) && u1 != []
    requires AllHold(at, day.tickets, u1[1..], t) && AllHold(at, day.tickets, u2[1..], t)
    ensures OneOfEach(u1[1..], u2[1..], w) && Few(v, u1[0], u2[0])
    ensures var next := FightPairs(game, day, Seats(at, u1), Seats(at, u2), []);
            Players(next.1) == Seats(at, w + v) && AllHold(at, next.0.tickets, w, 2 * t)
  {
    UnknownParts(game.row, at, u1, u2, 1);
    w := EqualPairs(game, at, u1[1..], u2[1..], t, day, []);
    var mid := Later(game, at, u1, u2, 1, day, []);
    v := AnyFight(game, at, mid.0, mid.1, u1[0], u2[0]);
    KeepHolding(at, mid.0.tickets, Fight(game, mid.0, mid.1, at(u1[0]), at(u2[0])).0.tickets, u1, u2, w, 2 * t);
    FrontLast(game, at, u1, u2, day, mid);
    SeatsConcat(at, w, v);
    assert Players([]) + Seats(at, w) == Seats(at, w);
  }

  lemma FrontLast(game: Game, at: Seating, u1: seq<nat>, u2: seq<nat>, day: Day, mid: State)
    requires |u1| == |u2| > 0 && mid == Later(game, at, u1, u2, 1, day, [])
    ensures FightPairs(game, day, Seats(at, u1), Seats(at, u2), [])
            == Fight(game, mid.0, mid.1, at(u1[0]), at(u2[0]))
  {
    PairsSplit(game, at, u1, u2, 1, day, []);
    assert u1[..1] == [u1[0]] && u2[..1] == [u2[0]];
    OnePair(game, at, u1[0], u2[0], mid.0, mid.1);
  }

  /** The fights of a round, by place. */
  function RoundFights(game: Game, at: Seating, list: seq<nat>, day: Day): State {
    FightPairs(game, day, Seats(at, Evens(list)), Seats(at, Odds(list)), [])
  }

  lemma RoundSeated(game: Game, at: Seating, x: State, list: seq<nat>)
    requires Players(x.1) == Seats(at, list)
    ensures var fought, next := RoundFights(game, at, list, x.0), Round(game, x.0, x.1);
            && next.0 == fought.0 && |next.1| == |fought.1| + |list| % 2
            && Players(next.1) == Players(fought.1) + Seats(at, Sitter(list))
  {
    PairsSeated(at, x.1, list);
    PlayersConcat(RoundFights(game, at, list, x.0).1, SitsOut(x.1));
  }

  lemma Start1(at: Seating, x: State)
    requires Start(at, x)
    ensures var list := AllPlaces(FIELD);
            AllHold(at, x.0.tickets, Evens(list)[1..], 100) && AllHold(at, x.0.tickets, Odds(list)[1..], 100)
  {
  }

  lemma Winners1(w: seq<nat>)
    requires OneOfEach(Evens(AllPlaces(FIELD))[1..], Odds(AllPlaces(FIELD))[1..], w)
    ensures |w| == 49 && forall j :: 0 <= j < 49 ==> w[j] == 98 - 2 * j || w[j] == 99 - 2 * j
  {
    var u1, u2 := Evens(AllPlaces(FIELD))[1..], Odds(AllPlaces(FIELD))[1..];
    forall j | 0 <= j < 49 ensures w[j] == 98 - 2 * j || w[j] == 99 - 2 * j {
      var i := 48 - j;
      assert w[49 - 1 - i] == u1[i] || w[49 - 1 - i] == u2[i];
    }
  }

  lemma Round1(game: Game, at: Seating, x: State) returns (w: seq<nat>, v: seq<nat>)
    requires Injective(at) && NearUnshared(at, game.row) && Start(at, x)
    ensures After1(at, Round(game, x.0, x.1), w, v)
  {
    var list := AllPlaces(FIELD);
    PlacesClose();
    CloseIsQuiet(at, game.row, list);
    RoundSeated(game, at, x, list);
    Start1(at, x);
    w, v := EqualThenAny(game, at, Evens(list), Odds(list), 100, x.0);
    Winners1(w);
    assert Sitter(list) == [] && Seats(at, w + v) + [] == Seats(at, w + v);
  }

  // ---------- the second round ----------

  /** The list after the first round is close. */
  lemma CloseList1(w: seq<nat>, v: seq<nat>)
    requires |w| == 49 && Few(v, 0, 1) && forall j :: 0 <= j < 49 ==> w[j] == 98 - 2 * j || w[j] == 99 - 2 * j
    ensures Close(w + v)
  {
    var list := w + v;
    forall i, j | 0 <= i < j < |list| ensures list[i] != list[j] {
      if j < 49 {
        assert list[i] >= 98 - 2 * i && list[j] <= 99 - 2 * j;
      } else if i < 49 {
        assert list[i] >= 98 - 2 * i && list[j] == v[j - 49];
      }
    }
    forall j | 0 <= j < |list| - 1 ensures list[j + 1] - ROWS < list[j] < list[j + 1] + ROWS {
    }
  }

  /** After the second round: at most two of the first four places, and those of the later pairs in blocks of four,
      twenty-four of them with 400 tickets. */
  ghost predicate After2(at: Seating, x: State, v: seq<nat>, q: seq<nat>, shift: nat) {
    && Players(x.1) == Seats(at, v + q) && |v| <= 2 && NoPlaceTwice(v) && 24 <= |q| <= 25 && shift <= 4
    && AllHold(at, x.0.tickets, q[..24], 400)
    && (forall j :: 0 <= j < |q| ==> shift + 4 * j <= q[j] <= shift + 4 * j + 3)
    && (forall j :: 0 <= j < |v| ==> v[j] < shift)
  }

  /** Every second of these, from place `from` on: twenty-four. */
  function Second(w: seq<nat>, from: nat): (u: seq<nat>)
    requires from + 46 < |w|
    ensures |u| == 24 && forall i :: 0 <= i < 24 ==> u[i] == w[from + 2 * i]
  {
    seq(24, i requires 0 <= i < 24 => w[from + 2 * i])
  }

  lemma SecondHold(at: Seating, m: map<Player, int>, w: seq<nat>, from: nat, t: int)
    requires from + 46 < |w| && AllHold(at, m, w, t)
    ensures AllHold(at, m, Second(w, from), t)
  {
  }

  lemma Blocks(w: seq<nat>, from: nat, w2: seq<nat>)
    requires |w| == 49 && from <= 1 && OneOfEach(Second(w, from), Second(w, from + 1), w2)
    requires forall j :: 0 <= j < 49 ==> w[j] == 98 - 2 * j || w[j] == 99 - 2 * j
    ensures |w2| == 24 && forall j :: 0 <= j < 24 ==> 4 - 2 * from + 4 * j <= w2[j] <= 7 - 2 * from + 4 * j
  {
    var u1, u2 := Second(w, from), Second(w, from + 1);
    forall j | 0 <= j < 24 ensures 4 - 2 * from + 4 * j <= w2[j] <= 7 - 2 * from + 4 * j {
      var i := 23 - j;
      assert w2[24 - 1 - i] == u1[i] || w2[24 - 1 - i] == u2[i];
      assert u1[i] == w[from + 46 - 2 * j] && u2[i] == w[from + 47 - 2 * j];
    }
  }

  /** Who meets whom when the list has one, two or none of the first two places at its end. */
  lemma PairsWithOne(w: seq<nat>, v: seq<nat>)
    requires |w| == 49 && |v| == 1
    ensures Evens(w + v) == Second(w, 0) + [w[48]] && Odds(w + v) == Second(w, 1) + [v[0]] && Sitter(w + v) == []
  {
  }

  lemma PairsWithTwo(w: seq<nat>, v: seq<nat>)
    requires |w| == 49 && |v| == 2
    ensures Evens(w + v) == Second(w, 1) + [v[0]] && Odds(w + v) == Second(w, 2) + [v[1]] && Sitter(w + v) == [w[0]]
  {
  }

  lemma PairsWithNone(w: seq<nat>, v: seq<nat>)
    requires |w| == 49 && |v| == 0
    ensures Evens(w + v) == Second(w, 1) && Odds(w + v) == Second(w, 2) && Sitter(w + v) == [w[0]]
  {
  }

  /** What is known before the second round's fights. */
  lemma Ready2(game: Game, at: Seating, x: State, w: seq<nat>, v: seq<nat>)
    requires NearUnshared(at, game.row) && After1(at, x, w, v)
    ensures Unknown(game.row, at, Evens(w + v), Odds(w + v))
    ensures AllHold(at, x.0.tickets, Second(w, 0), 200) && AllHold(at, x.0.tickets, Second(w, 1), 200)
    ensures AllHold(at, x.0.tickets, Second(w, 2), 200)
  {
    CloseList1(w, v);
    CloseIsQuiet(at, game.row, w + v);
    SecondHold(at, x.0.tickets, w, 0, 200);
    SecondHold(at, x.0.tickets, w, 1, 200);
    SecondHold(at, x.0.tickets, w, 2, 200);
  }

  lemma Fights2WithOne(game: Game, at: Seating, x: State, w: seq<nat>, v: seq<nat>) returns (v2: seq<nat>, w2: seq<nat>)
    requires Injective(at) && NearUnshared(at, game.row) && After1(at, x, w, v) && |v| == 1
    ensures Few(v2, w[48], v[0]) && OneOfEach(Second(w, 0), Second(w, 1), w2)
    ensures var fought := RoundFights(game, at, w + v, x.0);
            Players(fought.1) == Seats(at, v2 + w2) && AllHold(at, fought.0.tickets, w2, 400)
  {
    Ready2(game, at, x, w, v);
    PairsWithOne(w, v);
    v2, w2 := AnyThenEqual(game, at, Second(w, 0), Second(w, 1), w[48], v[0], 200, x.0);
  }

  lemma Round2WithOne(game: Game, at: Seating, x: State, w: seq<nat>, v: seq<nat>) returns (v2: seq<nat>, w2: seq<nat>)
    requires Injective(at) && NearUnshared(at, game.row) && After1(at, x, w, v) && |v| == 1
    ensures After2(at, Round(game, x.0, x.1), v2, w2, 4)
  {
    v2, w2 := Fights2WithOne(game, at, x, w, v);
    Blocks(w, 0, w2);
    PairsWithOne(w, v);
    RoundSeated(game, at, x, w + v);
    assert w2[..24] == w2;
  }

  lemma Fights2WithTwo(game: Game, at: Seating, x: State, w: seq<nat>, v: seq<nat>) returns (v2: seq<nat>, w2: seq<nat>)
    requires Injective(at) && NearUnshared(at, game.row) && After1(at, x, w, v) && |v| == 2
    ensures Few(v2, v[0], v[1]) && OneOfEach(Second(w, 1), Second(w, 2), w2)
    ensures var fought := RoundFights(game, at, w + v, x.0);
            Players(fought.1) == Seats(at, v2 + w2) && AllHold(at, fought.0.tickets, w2, 400)
  {
    Ready2(game, at, x, w, v);
    PairsWithTwo(w, v);
    v2, w2 := AnyThenEqual(game, at, Second(w, 1), Second(w, 2), v[0], v[1], 200, x.0);
  }

  lemma Round2WithTwo(game: Game, at: Seating, x: State, w: seq<nat>, v: seq<nat>) returns (v2: seq<nat>, w2: seq<nat>)
    requires Injective(at) && NearUnshared(at, game.row) && After1(at, x, w, v) && |v| == 2
    ensures After2(at, Round(game, x.0, x.1), v2, w2 + [w[0]], 2)
  {
    v2, w2 := Fights2WithTwo(game, at, x, w, v);
    Blocks(w, 1, w2);
    PairsWithTwo(w, v);
    RoundSeated(game, at, x, w + v);
    SitterLast(at, v2, w2, w[0]);
  }

  lemma Round2WithNone(game: Game, at: Seating, x: State, w: seq<nat>, v: seq<nat>) returns (w2: seq<nat>)
    requires Injective(at) && NearUnshared(at, game.row) && After1(at, x, w, v) && |v| == 0
    ensures After2(at, Round(game, x.0, x.1), [], w2 + [w[0]], 2)
  {
    Ready2(game, at, x, w, v);
    PairsWithNone(w, v);
    w2 := EqualPairs(game, at, Second(w, 1), Second(w, 2), 200, x.0, []);
    Blocks(w, 1, w2);
    RoundSeated(game, at, x, w + v);
    assert Players([]) + Seats(at, w2) == Seats(at, [] + w2);
    SitterLast(at, [], w2, w[0]);
  }

  lemma SitterLast(at: Seating, v: seq<nat>, w: seq<nat>, sitter: nat)
    requires |w| == 24
    ensures Seats(at, v + w) + Seats(at, [sitter]) == Seats(at, v + (w + [sitter])) && (w + [sitter])[..24] == w
  {
    SeatsConcat(at, v + w, [sitter]);
    assert v + w + [sitter] == v + (w + [sitter]);
  }

  lemma Round2(game: Game, at: Seating, x: State, w: seq<nat>, v: seq<nat>)
    returns (v2: seq<nat>, q: seq<nat>, shift: nat)
    requires Injective(at) && NearUnshared(at, game.row) && After1(at, x, w, v)
    ensures After2(at, Round(game, x.0, x.1), v2, q, shift)
  {
    var w2;
    if |v| == 0 {
      w2 := Round2WithNone(game, at, x, w, v);
      v2, q, shift := [], w2 + [w[0]], 2;
    } else if |v| == 1 {
      v2, q := Round2WithOne(game, at, x, w, v);
      shift := 4;
    } else {
      v2, w2 := Round2WithTwo(game, at, x, w, v);
      q, shift := w2 + [w[0]], 2;
    }
  }

  // ---------- the third round ----------

  lemma CloseList2(at: Seating, x: State, v: seq<nat>, q: seq<nat>, shift: nat)
    requires After2(at, x, v, q, shift)
    ensures Close(v + q)
  {
    var list := v + q;
    forall i, j | 0 <= i < j < |list| ensures list[i] != list[j] {
      if i >= |v| {
        assert list[i] <= shift + 4 * (i - |v|) + 3 && list[j] >= shift + 4 * (j - |v|);
      }
    }
    forall j | 0 <= j < |list| - 1 ensures list[j + 1] - ROWS < list[j] < list[j + 1] + ROWS {
      if j >= |v| {
        assert list[j] == q[j - |v|] && list[j + 1] == q[j + 1 - |v|];
      } else if j + 1 >= |v| {
        assert list[j + 1] == q[0];
      }
    }
  }

  lemma MiddleHolds(at: Seating, x: State, v: seq<nat>, q: seq<nat>, shift: nat, low: nat, high: nat)
    requires After2(at, x, v, q, shift) && low <= high <= (|v| + |q|) / 2
    requires 2 * low + (|v| + |q|) % 2 >= |v| && 2 * high + (|v| + |q|) % 2 <= |v| + 24
    ensures AllHold(at, x.0.tickets, Evens(v + q)[low..high], 400)
    ensures AllHold(at, x.0.tickets, Odds(v + q)[low..high], 400)
  {
    var list, odd := v + q, (|v| + |q|) % 2;
    forall i | low <= i < high
      ensures Held(x.0.tickets, at(Evens(list)[i])) == 400 && Held(x.0.tickets, at(Odds(list)[i])) == 400
    {
      assert Evens(list)[i] == q[..24][2 * i + odd - |v|] && Odds(list)[i] == q[..24][2 * i + 1 + odd - |v|];
    }
  }

  lemma Round3(game: Game, at: Seating, x: State, v: seq<nat>, q: seq<nat>, shift: nat)
    requires Injective(at) && NearUnshared(at, game.row) && After2(at, x, v, q, shift)
    ensures |Round(game, x.0, x.1).1| <= ENOUGH
  {
    var list, odd := v + q, (|v| + |q|) % 2;
    var low, high := (|v| - odd + 1) / 2, (24 + |v| - odd) / 2;
    CloseList2(at, x, v, q, shift);
    CloseIsQuiet(at, game.row, list);
    MiddleHolds(at, x, v, q, shift, low, high);
    EqualBetween(game, at, Evens(list), Odds(list), low, high, 400, x.0, []);
    RoundSeated(game, at, x, list);
  }

  // ---------- the whole day ----------

  /** A run that goes through three kinds of states, none of them bad, and then ends, takes no step from a bad one. */
  lemma ThreeSteps<S(!new)>(
    step: S -> S, more: S -> bool, bad: S -> bool, p0: S -> bool, p1: S -> bool, p2: S -> bool, x: S, count: nat)
    requires p0(x) && count + 3 <= MAX_ROUNDS
    requires forall y :: p0(y) ==> !bad(y) && p1(step(y))
    requires forall y :: p1(y) ==> !bad(y) && p2(step(y))
    requires forall y :: p2(y) ==> !bad(y) && !more(step(y))
    ensures !Takes(step, more, bad, x, count)
  {
    var x1 := step(x);
    var x2 := step(x1);
    assert !Takes(step, more, bad, step(x2), count + 3);
    assert !Takes(step, more, bad, x2, count + 2);
    assert !Takes(step, more, bad, x1, count + 1);
  }

  lemma CloseDoesNotClash(game: Game, at: Seating, x: State, list: seq<nat>)
    requires NearUnshared(at, game.row) && Players(x.1) == Seats(at, list) && Close(list)
    ensures !ClashNow(game.row)(x)
  {
    CloseIsQuiet(at, game.row, list);
    NoClashIsQuiet(at, game.row, x.1, list);
  }

  /** Three rounds of neighbours, which are never twelve places apart, and no more than sixteen are left. */
  lemma QuietDay(game: Game, at: Seating, x: State, count: nat)
    requires Injective(at) && NearUnshared(at, game.row) && Start(at, x) && count + 3 <= MAX_ROUNDS
    ensures !RunClashes(game, x.0, x.1, count)
  {
    var p0 := (y: State) => Start(at, y);
    var p1 := (y: State) => exists w, v :: After1(at, y, w, v);
    var p2 := (y: State) => exists v, q, shift :: After2(at, y, v, q, shift);
    forall y | p0(y) ensures !ClashNow(game.row)(y) && p1(RoundStep(game)(y)) {
      PlacesClose();
      CloseDoesNotClash(game, at, y, AllPlaces(FIELD));
      var w, v := Round1(game, at, y);
    }
    forall y | p1(y) ensures !ClashNow(game.row)(y) && p2(RoundStep(game)(y)) {
      var w, v :| After1(at, y, w, v);
      CloseList1(w, v);
      CloseDoesNotClash(game, at, y, w + v);
      var v2, q, shift := Round2(game, at, y, w, v);
    }
    forall y | p2(y) ensures !ClashNow(game.row)(y) && !StillMany()(RoundStep(game)(y)) {
      var v, q, shift :| After2(at, y, v, q, shift);
      CloseList2(at, y, v, q, shift);
      CloseDoesNotClash(game, at, y, v + q);
      Round3(game, at, y, v, q, shift);
    }
    ThreeSteps(RoundStep(game), StillMany(), ClashNow(game.row), p0, p1, p2, x, count);
  }
}
