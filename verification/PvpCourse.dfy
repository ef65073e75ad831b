/** Day tournament: the course of a day whose fights and tickets are known, place by place. */
module PvpCourse {
  import opened Wrappers
  import opened PvpDay
  import opened PvpMembers
  import opened PvpFights
  import opened PvpField

  /** Who has which place in the list of entrants. */
  type Seating = nat -> Player

  ghost predicate Injective(at: Seating) {
    forall i: nat, j: nat :: i != j ==> at(i) != at(j)
  }

  function Seats(at: Seating, places: seq<nat>): (ps: seq<Player>)
    ensures |ps| == |places|
  {
    seq(|places|, i requires 0 <= i < |places| => at(places[i]))
  }

  /** What is stored of the players at these places. */
  ghost predicate Holds(m: map<Player, int>, at: Seating, purse: nat -> int) {
    forall i: nat :: Held(m, at(i)) == purse(i)
  }

  /** Who wins, by place, whenever they meet. */
  ghost predicate Follows(fights: Fights, at: Seating, wins: (nat, nat) -> bool) {
    forall n: nat, a: nat, b: nat :: fights(n, at(a), at(b)) == wins(a, b)
  }

  /** A fight between two places turns these tickets into those. */
  predicate Turns(wins: (nat, nat) -> bool, before: nat -> int, after: nat -> int, a: nat, b: nat) {
    (after(a), after(b)) == Stakes(before(a), before(b), wins(a, b))
  }

  /** The places that go on from a fight, by the names on the records. */
  function Going(at: Seating, row: nat -> nat, after: nat -> int, a: nat, b: nat): seq<nat> {
    (if after(a) == 0 then [] else [if Shared(row, at(a), at(b)) then b else a])
    + (if after(b) == 0 then [] else [b])
  }

  function AllGoing(at: Seating, row: nat -> nat, after: nat -> int, u1: seq<nat>, u2: seq<nat>): seq<nat>
    requires |u1| == |u2|
  {
    if u1 == [] then []
    else
      var n := |u1| - 1;
      Going(at, row, after, u1[n], u2[n]) + AllGoing(at, row, after, u1[..n], u2[..n])
  }

  // ---------- one fight, and the fights of a round ----------

  lemma PlaceNamed(day: Day, remain: seq<Entry>, p: Player, left: int)
    ensures Players(Place(day, remain, p, left).1) == Players(remain) + if left == 0 then [] else [p]
  {
    PlayersConcat(remain, [Entry(p, Some(left))]);
    assert Players([Entry(p, Some(left))]) == [p];
  }

  lemma FightNamed(game: Game, day: Day, remain: seq<Entry>, p1: Player, p2: Player)
    ensures var (t1, t2) := Outcome(game, day, p1, p2);
            Players(Fight(game, day, remain, p1, p2).1)
            == Players(remain) + (if t1 == 0 then [] else [NameOfFirst(game.row, p1, p2)])
               + (if t2 == 0 then [] else [p2])
  {
    var (t1, t2) := Outcome(game, day, p1, p2);
    var name := NameOfFirst(game.row, p1, p2);
    PlaceNamed(Fought(game, day, p1, p2), remain, name, t1);
    var (day1, remain1) := Place(Fought(game, day, p1, p2), remain, name, t1);
    PlaceNamed(day1, remain1, p2, t2);
  }

  lemma GoingNamed(at: Seating, row: nat -> nat, after: nat -> int, a: nat, b: nat)
    ensures Seats(at, Going(at, row, after, a, b))
            == (if after(a) == 0 then [] else [NameOfFirst(row, at(a), at(b))])
               + (if after(b) == 0 then [] else [at(b)])
  {
  }

  /** The purses after one fight of a round. */
  function Midway(before: nat -> int, after: nat -> int, a: nat, b: nat): nat -> int {
    (x: nat) => if x == a || x == b then after(x) else before(x)
  }

  lemma CourseFight(
    game: Game, at: Seating, wins: (nat, nat) -> bool, before: nat -> int, after: nat -> int, a: nat, b: nat,
    day: Day, remain: seq<Entry>)
    requires Injective(at) && Follows(game.fights, at, wins) && Holds(day.tickets, at, before)
    requires a != b && Turns(wins, before, after, a, b)
    ensures var next := Fight(game, day, remain, at(a), at(b));
            && Holds(next.0.tickets, at, Midway(before, after, a, b))
            && Players(next.1) == Players(remain) + Seats(at, Going(at, game.row, after, a, b))
  {
    assert Outcome(game, day, at(a), at(b)) == (after(a), after(b));
    FightNamed(game, day, remain, at(a), at(b));
    GoingNamed(at, game.row, after, a, b);
    forall x: nat
      ensures Held(Fight(game, day, remain, at(a), at(b)).0.tickets, at(x)) == Midway(before, after, a, b)(x)
    {
      FightStores(game, day, remain, at(a), at(b), at(x));
    }
  }

  /** No place twice. */
  predicate Pairing(u1: seq<nat>, u2: seq<nat>) {
    && |u1| == |u2|
    && (forall i, j :: 0 <= i < |u1| && 0 <= j < |u2| ==> u1[i] != u2[j])
    && (forall i, j :: 0 <= i < j < |u1| ==> u1[i] != u1[j] && u2[i] != u2[j])
  }

  /** All these fights turn the tickets before into those after, and leave the others alone. */
  ghost predicate AllTurn(
    wins: (nat, nat) -> bool, before: nat -> int, after: nat -> int, u1: seq<nat>, u2: seq<nat>)
  {
    && Pairing(u1, u2) && (forall i :: 0 <= i < |u1| ==> Turns(wins, before, after, u1[i], u2[i]))
    && (forall x: nat :: x !in u1 && x !in u2 ==> after(x) == before(x))
  }

  lemma MidwayTurns(
    wins: (nat, nat) -> bool, before: nat -> int, after: nat -> int, u1: seq<nat>, u2: seq<nat>)
    requires AllTurn(wins, before, after, u1, u2) && u1 != []
    ensures var n := |u1| - 1;
            AllTurn(wins, Midway(before, after, u1[n], u2[n]), after, u1[..n], u2[..n])
  {
    var n := |u1| - 1;
    var midway := Midway(before, after, u1[n], u2[n]);
    forall i | 0 <= i < n ensures Turns(wins, midway, after, u1[..n][i], u2[..n][i]) {
      assert Turns(wins, before, after, u1[i], u2[i]);
    }
    forall x: nat | x !in u1[..n] && x !in u2[..n] ensures after(x) == midway(x) {
      assert x in u1 ==> x == u1[n];
      assert x in u2 ==> x == u2[n];
    }
  }

  lemma SeatsConcat(at: Seating, a: seq<nat>, b: seq<nat>)
    ensures Seats(at, a + b) == Seats(at, a) + Seats(at, b)
  {
  }

  lemma AllGoingNamed(at: Seating, row: nat -> nat, after: nat -> int, u1: seq<nat>, u2: seq<nat>)
    requires |u1| == |u2| > 0
    ensures var n := |u1| - 1;
            Seats(at, AllGoing(at, row, after, u1, u2))
            == Seats(at, Going(at, row, after, u1[n], u2[n])) + Seats(at, AllGoing(at, row, after, u1[..n], u2[..n]))
  {
    var n := |u1| - 1;
    SeatsConcat(at, Going(at, row, after, u1[n], u2[n]), AllGoing(at, row, after, u1[..n], u2[..n]));
  }

  lemma {:induction false} CoursePairs(
    game: Game, at: Seating, wins: (nat, nat) -> bool, before: nat -> int, after: nat -> int,
    u1: seq<nat>, u2: seq<nat>, day: Day, remain: seq<Entry>)
    requires Injective(at) && Follows(game.fights, at, wins) && Holds(day.tickets, at, before)
    requires AllTurn(wins, before, after, u1, u2)
    ensures var next := FightPairs(game, day, Seats(at, u1), Seats(at, u2), remain);
            && Holds(next.0.tickets, at, after)
            && Players(next.1) == Players(remain) + Seats(at, AllGoing(at, game.row, after, u1, u2))
    decreases |u1|
  {
    if u1 != [] {
      var n := |u1| - 1;
      var next := Fight(game, day, remain, at(u1[n]), at(u2[n]));
      CourseFight(game, at, wins, before, after, u1[n], u2[n], day, remain);
      MidwayTurns(wins, before, after, u1, u2);
      CoursePairs(game, at, wins, Midway(before, after, u1[n], u2[n]), after, u1[..n], u2[..n], next.0, next.1);
      AllGoingNamed(at, game.row, after, u1, u2);
      PairsFirst(game, at, u1, u2, day, remain);
    }
  }

  lemma PairsFirst(game: Game, at: Seating, u1: seq<nat>, u2: seq<nat>, day: Day, remain: seq<Entry>)
    requires |u1| == |u2| > 0
    ensures var n := |u1| - 1;
            var next := Fight(game, day, remain, at(u1[n]), at(u2[n]));
            FightPairs(game, day, Seats(at, u1), Seats(at, u2), remain)
            == FightPairs(game, next.0, Seats(at, u1[..n]), Seats(at, u2[..n]), next.1)
  {
    var n := |u1| - 1;
    assert Seats(at, u1)[..n] == Seats(at, u1[..n]) && Seats(at, u2)[..n] == Seats(at, u2[..n]);
  }

  // ---------- a round ----------

  /** The places of the first, and of the second players of a round's pairs. */
  function Evens(list: seq<nat>): (u: seq<nat>)
    ensures |u| == |list| / 2
  {
    seq(|list| / 2, i requires 0 <= i < |list| / 2 => list[2 * i + |list| % 2])
  }

  function Odds(list: seq<nat>): (u: seq<nat>)
    ensures |u| == |list| / 2
  {
    seq(|list| / 2, i requires 0 <= i < |list| / 2 => list[2 * i + 1 + |list| % 2])
  }

  function Sitter(list: seq<nat>): seq<nat> {
    if |list| % 2 != 0 then [list[0]] else []
  }

  predicate NoPlaceTwice(list: seq<nat>) {
    forall i, j :: 0 <= i < j < |list| ==> list[i] != list[j]
  }

  lemma EvensAndOddsPair(list: seq<nat>)
    requires NoPlaceTwice(list)
    ensures Pairing(Evens(list), Odds(list))
  {
  }

  lemma FightsAt(list: seq<nat>, j: nat)
    requires |list| % 2 <= j < |list|
    ensures list[j] in Evens(list) || list[j] in Odds(list)
  {
    var i := (j - |list| % 2) / 2;
    assert Evens(list)[i] == list[j] || Odds(list)[i] == list[j];
  }

  /** Where the place of `x` in the list is, for all whose tickets change. */
  ghost predicate Listed(list: seq<nat>, x: nat, j: nat) {
    |list| % 2 <= j < |list| && list[j] == x
  }

  lemma RoundTurns(wins: (nat, nat) -> bool, before: nat -> int, after: nat -> int, list: seq<nat>)
    requires NoPlaceTwice(list)
    requires forall i :: 0 <= i < |list| / 2 ==> Turns(wins, before, after, Evens(list)[i], Odds(list)[i])
    requires forall x: nat :: after(x) != before(x) ==> exists j: nat :: Listed(list, x, j)
    ensures AllTurn(wins, before, after, Evens(list), Odds(list))
  {
    EvensAndOddsPair(list);
    forall x: nat | x !in Evens(list) && x !in Odds(list) ensures after(x) == before(x) {
      if after(x) != before(x) {
        var j: nat :| Listed(list, x, j);
        FightsAt(list, j);
      }
    }
  }

  /** The list of places after a round. */
  function NextPlaces(at: Seating, row: nat -> nat, after: nat -> int, list: seq<nat>): seq<nat> {
    AllGoing(at, row, after, Evens(list), Odds(list)) + Sitter(list)
  }

  /** The players in play sit at these places and hold these tickets. */
  ghost predicate Stands(at: Seating, x: State, list: seq<nat>, purse: nat -> int) {
    Players(x.1) == Seats(at, list) && Holds(x.0.tickets, at, purse)
  }

  lemma PairsSeated(at: Seating, entries: seq<Entry>, list: seq<nat>)
    requires Players(entries) == Seats(at, list)
    ensures Firsts(entries) == Seats(at, Evens(list)) && Seconds(entries) == Seats(at, Odds(list))
    ensures Players(SitsOut(entries)) == Seats(at, Sitter(list))
  {
    assert |entries| == |list|;
    forall i | 0 <= i < |list| / 2
      ensures Firsts(entries)[i] == Seats(at, Evens(list))[i] && Seconds(entries)[i] == Seats(at, Odds(list))[i]
    {
      PairAt(entries, i);
    }
    if |list| % 2 != 0 {
      assert Players(entries)[0] == entries[0].player;
    }
  }

  lemma CourseRound(
    game: Game, at: Seating, wins: (nat, nat) -> bool, before: nat -> int, after: nat -> int, x: State, list: seq<nat>)
    requires Injective(at) && Follows(game.fights, at, wins) && Stands(at, x, list, before)
    requires AllTurn(wins, before, after, Evens(list), Odds(list))
    ensures Stands(at, Round(game, x.0, x.1), NextPlaces(at, game.row, after, list), after)
  {
    PairsSeated(at, x.1, list);
    CoursePairs(game, at, wins, before, after, Evens(list), Odds(list), x.0, []);
    var going := AllGoing(at, game.row, after, Evens(list), Odds(list));
    var next := FightPairs(game, x.0, Firsts(x.1), Seconds(x.1), []);
    assert Players([]) + Seats(at, going) == Seats(at, going);
    PlayersConcat(next.1, SitsOut(x.1));
    SeatsConcat(at, going, Sitter(list));
  }

  /** No pair of this round shares a record. */
  predicate Quiet(at: Seating, row: nat -> nat, list: seq<nat>) {
    forall i :: 0 <= i < |list| / 2 ==> !Shared(row, at(Evens(list)[i]), at(Odds(list)[i]))
  }

  lemma NoClashIsQuiet(at: Seating, row: nat -> nat, entries: seq<Entry>, list: seq<nat>)
    requires Players(entries) == Seats(at, list)
    ensures Clash(row, entries) <==> !Quiet(at, row, list)
  {
    PairsSeated(at, entries, list);
    forall i | 0 <= i < |list| / 2
      ensures Firsts(entries)[i] == at(Evens(list)[i]) && Seconds(entries)[i] == at(Odds(list)[i])
    {
      assert Seats(at, Evens(list))[i] == at(Evens(list)[i]);
    }
  }

  // ---------- who goes on, part by part ----------

  lemma SliceFront(u: seq<nat>, j: nat)
    requires j < |u|
    ensures var n := |u| - 1;
            u[..n][j..] == u[j..][..n - j] && u[..n][..j] == u[..j] && u[j..][n - j] == u[n] && |u[j..]| == n - j + 1
  {
  }

  lemma {:induction false} GoingSplit(
    at: Seating, row: nat -> nat, after: nat -> int, u1: seq<nat>, u2: seq<nat>, j: nat)
    requires j <= |u1| == |u2|
    ensures AllGoing(at, row, after, u1, u2)
            == AllGoing(at, row, after, u1[j..], u2[j..]) + AllGoing(at, row, after, u1[..j], u2[..j])
    decreases |u1|
  {
    var n := |u1| - 1;
    if j == |u1| {
      assert u1[..j] == u1 && u2[..j] == u2;
    } else {
      SliceFront(u1, j);
      SliceFront(u2, j);
      GoingSplit(at, row, after, u1[..n], u2[..n], j);
    }
  }

  /** The pairs before the k-th, of which those before the j-th are fought last. */
  lemma GoingUpTo(at: Seating, row: nat -> nat, after: nat -> int, u1: seq<nat>, u2: seq<nat>, j: nat, k: nat)
    requires j <= k <= |u1| == |u2|
    ensures AllGoing(at, row, after, u1[..k], u2[..k])
            == AllGoing(at, row, after, u1[j..k], u2[j..k]) + AllGoing(at, row, after, u1[..j], u2[..j])
  {
    GoingSplit(at, row, after, u1[..k], u2[..k], j);
    assert u1[..k][..j] == u1[..j] && u2[..k][..j] == u2[..j];
    assert u1[..k][j..] == u1[j..k] && u2[..k][j..] == u2[j..k];
  }

  lemma GoingOne(at: Seating, row: nat -> nat, after: nat -> int, u1: seq<nat>, u2: seq<nat>, j: nat)
    requires j < |u1| == |u2|
    ensures AllGoing(at, row, after, u1[..j + 1], u2[..j + 1])
            == Going(at, row, after, u1[j], u2[j]) + AllGoing(at, row, after, u1[..j], u2[..j])
  {
    assert u1[..j + 1][..j] == u1[..j] && u2[..j + 1][..j] == u2[..j];
  }

  function Backwards(u: seq<nat>): (r: seq<nat>)
    ensures |r| == |u| && forall i :: 0 <= i < |u| ==> r[i] == u[|u| - 1 - i]
  {
    seq(|u|, i requires 0 <= i < |u| => u[|u| - 1 - i])
  }

  lemma BackwardsStep(u: seq<nat>)
    requires u != []
    ensures Backwards(u) == [u[|u| - 1]] + Backwards(u[..|u| - 1])
  {
  }

  lemma {:induction false} OneGoes(
    at: Seating, row: nat -> nat, after: nat -> int, u1: seq<nat>, u2: seq<nat>, going: seq<nat>)
    requires |u1| == |u2| == |going|
    requires forall i :: 0 <= i < |u1| ==> Going(at, row, after, u1[i], u2[i]) == [going[i]]
    ensures AllGoing(at, row, after, u1, u2) == Backwards(going)
    decreases |u1|
  {
    if u1 != [] {
      var n := |u1| - 1;
      OneGoes(at, row, after, u1[..n], u2[..n], going[..n]);
      BackwardsStep(going);
    }
  }

  /** Both of the last pair, then both of the one before, and so on. */
  function Both(u1: seq<nat>, u2: seq<nat>): (r: seq<nat>)
    requires |u1| == |u2|
    ensures |r| == 2 * |u1|
    ensures forall i :: 0 <= i < |u1| ==> r[2 * i] == u1[|u1| - 1 - i] && r[2 * i + 1] == u2[|u1| - 1 - i]
  {
    seq(2 * |u1|, i requires 0 <= i < 2 * |u1| => if i % 2 == 0 then u1[|u1| - 1 - i / 2] else u2[|u1| - 1 - i / 2])
  }

  lemma BothStep(u1: seq<nat>, u2: seq<nat>)
    requires |u1| == |u2| > 0
    ensures var n := |u1| - 1;
            Both(u1, u2) == [u1[n], u2[n]] + Both(u1[..n], u2[..n])
  {
    var n := |u1| - 1;
    var rest, all := Both(u1[..n], u2[..n]), Both(u1, u2);
    forall j | 0 <= j < 2 * n ensures all[j + 2] == rest[j] {
      assert j == 2 * (j / 2) || j == 2 * (j / 2) + 1;
      assert all[2 * (j / 2 + 1)] == u1[n - 1 - j / 2] && all[2 * (j / 2 + 1) + 1] == u2[n - 1 - j / 2];
    }
    assert all[2 * 0] == u1[n] && all[2 * 0 + 1] == u2[n];
  }

  lemma {:induction false} BothGo(at: Seating, row: nat -> nat, after: nat -> int, u1: seq<nat>, u2: seq<nat>)
    requires |u1| == |u2|
    requires forall i :: 0 <= i < |u1| ==> Going(at, row, after, u1[i], u2[i]) == [u1[i], u2[i]]
    ensures AllGoing(at, row, after, u1, u2) == Both(u1, u2)
    decreases |u1|
  {
    if u1 != [] {
      var n := |u1| - 1;
      BothGo(at, row, after, u1[..n], u2[..n]);
      BothStep(u1, u2);
    }
  }

  lemma {:induction false} NoneGoes(at: Seating, row: nat -> nat, after: nat -> int, u1: seq<nat>, u2: seq<nat>)
    requires |u1| == |u2|
    requires forall i :: 0 <= i < |u1| ==> Going(at, row, after, u1[i], u2[i]) == []
    ensures AllGoing(at, row, after, u1, u2) == []
    decreases |u1|
  {
    if u1 != [] {
      var n := |u1| - 1;
      NoneGoes(at, row, after, u1[..n], u2[..n]);
    }
  }

  // ---------- the entrants of a day ----------

  /** The place of every entrant; places behind the field go to robots that are not there. */
  function Seated(area: string, uuids: seq<string>): Seating {
    (i: nat) => if i < |uuids| then Person(area, uuids[i]) else Robot(i - |uuids| + 1)
  }

  lemma SeatedDiffer(area: string, uuids: seq<string>)
    requires Distinct(uuids)
    ensures Injective(Seated(area, uuids))
  {
    var at := Seated(area, uuids);
    forall i: nat, j: nat | i != j ensures at(i) != at(j) {
      if i < |uuids| && j < |uuids| {
        assert i < j ==> uuids[i] != uuids[j];
        assert j < i ==> uuids[j] != uuids[i];
      }
    }
  }

  /** All places, in order. */
  function AllPlaces(n: nat): (list: seq<nat>)
    ensures |list| == n && forall i :: 0 <= i < n ==> list[i] == i
  {
    seq(n, i requires 0 <= i => i)
  }

  lemma PlacesInPairs(i: nat)
    requires i < FIELD / 2
    ensures Evens(AllPlaces(FIELD))[i] == 2 * i && Odds(AllPlaces(FIELD))[i] == 2 * i + 1
  {
  }

  lemma EntrantsSeated(area: string, uuids: seq<string>)
    ensures var entries := Entrants(area, uuids);
            Players(entries) == Seats(Seated(area, uuids), AllPlaces(|entries|))
  {
    forall i | 0 <= i < |Entrants(area, uuids)|
      ensures Players(Entrants(area, uuids))[i] == Seated(area, uuids)(i)
    {
      EntrantAt(area, uuids, i);
    }
  }

  lemma SameRemainder(x: int, y: int)
    ensures x % ROWS == y % ROWS <==> (x - y) % ROWS == 0
  {
  }

  /** Robots share a row when their places are a multiple of twelve apart. */
  lemma SeatedShare(area: string, uuids: seq<string>, a: nat, b: nat)
    ensures var at := Seated(area, uuids);
            Shared(TableRow(), at(a), at(b)) <==> a >= |uuids| && b >= |uuids| && a % ROWS == b % ROWS
  {
    SameRemainder(a, b);
    SameRemainder(a - |uuids| + 1, b - |uuids| + 1);
  }

  /** A store in which these places hold these tickets, and nobody else any. */
  function Stored(at: Seating, purse: nat -> int, n: nat): map<Player, int> {
    if n == 0 then map[] else Stored(at, purse, n - 1)[at(n - 1) := purse(n - 1)]
  }

  lemma {:induction false} StoredAt(at: Seating, purse: nat -> int, n: nat, i: nat)
    requires Injective(at)
    ensures Held(Stored(at, purse, n), at(i)) == if i < n then purse(i) else 0
    decreases n
  {
    if n > 0 {
      StoredAt(at, purse, n - 1, i);
    }
  }
}
