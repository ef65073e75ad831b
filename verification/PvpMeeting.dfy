/** Day tournament: for every field in which two robots share a row, a course of a day on which two of one row meet. */
module PvpMeeting {
  import opened PvpDay
  import opened PvpRounds
  import opened PvpField
  import opened PvpCourse

  // ---------- the course, place by place ----------

  // The two robots to meet sit at places 86 + s and 98 + s, where `s` is 0 or 1.

  /** The first player wins, unless the second is one of the two. */
  function TwoWin(s: nat): (nat, nat) -> bool {
    (a: nat, b: nat) => b != 86 + s && b != 98 + s
  }

  /** Everybody holds what a new robot holds, except for the first three. */
  function Purse0(): nat -> int {
    (x: nat) => if x == 0 then 10 else if x == 2 then 1000 else if x < FIELD then 100 else 0
  }

  /** Who wins the i-th pair of the first round, from pair 1 on; of pair 0 both go on. */
  function Winner1(s: nat, i: nat): nat {
    if i == 43 then 86 + s else if i == 49 then 98 + s else 2 * i
  }

  function Purse1(s: nat): nat -> int {
    (x: nat) =>
      if x == 0 then 20 else if x == 1 then 90 else if x == 2 then 1100
      else if x == 86 + s || x == 98 + s || (x % 2 == 0 && 4 <= x < 98 && x != 86) then 200 else 0
  }

  /** The places after the first round. */
  function List1(s: nat): (list: seq<nat>)
    ensures |list| == 51 && list[49] == 0 && list[50] == 1
    ensures forall j :: 0 <= j < 49 ==> list[j] == Winner1(s, 49 - j)
  {
    seq(51, j requires 0 <= j => if j < 49 then Winner1(s, 49 - j) else j - 49)
  }

  /** Who wins the i-th pair of the second round, up to pair 22; of pairs 23 and 24 both go on. */
  function Winner2(s: nat, i: nat): nat
    requires i < 23
  {
    if i == 2 then 86 + s else 96 - 4 * i
  }

  function Purse2(s: nat): nat -> int {
    (x: nat) =>
      if x == 0 then 40 else if x == 1 then 70 else if x == 2 then 900 else if x == 98 + s then 200
      else if x == 86 + s || (x % 4 == 0 && 4 <= x <= 96 && x != 88) then 400 else 0
  }

  function List2(s: nat): (list: seq<nat>)
    ensures |list| == 28 && list[0] == 0 && list[1] == 1 && list[2] == 4 && list[3] == 2 && list[27] == 98 + s
    ensures forall j :: 4 <= j < 27 ==> list[j] == Winner2(s, 26 - j)
  {
    [0, 1, 4, 2] + seq(23, j requires 0 <= j < 23 => Winner2(s, 22 - j)) + [98 + s]
  }

  function Purse3(s: nat): nat -> int {
    (x: nat) =>
      if x == 0 then 80 else if x == 1 then 30 else if x == 2 then 500 else if x == 98 + s then 400
      else if x == 96 then 200 else if x == 86 + s || x == 4 || (x % 8 == 0 && 8 <= x <= 80) then 800 else 0
  }

  // ---------- its rounds ----------

  lemma Round1Pair(s: nat, i: nat)
    requires s <= 1 && i < FIELD / 2
    ensures Turns(TwoWin(s), Purse0(), Purse1(s), 2 * i, 2 * i + 1)
  {
    assert (2 * i) % 2 == 0 && (2 * i + 1) % 2 == 1;
  }

  lemma Round1Turns(s: nat)
    requires s <= 1
    ensures var list := AllPlaces(FIELD);
            AllTurn(TwoWin(s), Purse0(), Purse1(s), Evens(list), Odds(list))
  {
    var list := AllPlaces(FIELD);
    forall i | 0 <= i < |list| / 2 ensures Turns(TwoWin(s), Purse0(), Purse1(s), Evens(list)[i], Odds(list)[i]) {
      PlacesInPairs(i);
      Round1Pair(s, i);
    }
    forall x: nat | Purse1(s)(x) != Purse0()(x) ensures exists j: nat :: Listed(list, x, j) {
      assert Listed(list, x, x);
    }
    RoundTurns(TwoWin(s), Purse0(), Purse1(s), list);
  }

  lemma Round1Goes(at: Seating, row: nat -> nat, s: nat, i: nat)
    requires s <= 1 && Quiet(at, row, AllPlaces(FIELD)) && i < FIELD / 2
    ensures Going(at, row, Purse1(s), 2 * i, 2 * i + 1) == if i == 0 then [0, 1] else [Winner1(s, i)]
  {
    PlacesInPairs(i);
    Round1Pair(s, i);
  }

  function Winners1(s: nat): (winners: seq<nat>)
    ensures |winners| == 49 && forall i :: 0 <= i < 49 ==> winners[i] == Winner1(s, i + 1)
  {
    seq(49, i requires 0 <= i => Winner1(s, i + 1))
  }

  lemma Round1Singles(at: Seating, row: nat -> nat, s: nat)
    requires s <= 1 && Quiet(at, row, AllPlaces(FIELD))
    ensures var u1, u2 := Evens(AllPlaces(FIELD)), Odds(AllPlaces(FIELD));
            AllGoing(at, row, Purse1(s), u1[1..], u2[1..]) == Backwards(Winners1(s))
  {
    var u1, u2 := Evens(AllPlaces(FIELD)), Odds(AllPlaces(FIELD));
    forall i | 0 <= i < 49 ensures Going(at, row, Purse1(s), u1[1..][i], u2[1..][i]) == [Winners1(s)[i]] {
      PlacesInPairs(i + 1);
      Round1Goes(at, row, s, i + 1);
    }
    OneGoes(at, row, Purse1(s), u1[1..], u2[1..], Winners1(s));
  }

  lemma List1Parts(s: nat)
    ensures Backwards(Winners1(s)) + [0, 1] + Sitter(AllPlaces(FIELD)) == List1(s)
  {
    assert Sitter(AllPlaces(FIELD)) == [];
  }

  lemma Round1Last(at: Seating, row: nat -> nat, s: nat)
    requires s <= 1 && Quiet(at, row, AllPlaces(FIELD))
    ensures AllGoing(at, row, Purse1(s), Evens(AllPlaces(FIELD))[..1], Odds(AllPlaces(FIELD))[..1]) == [0, 1]
  {
    PlacesInPairs(0);
    Round1Goes(at, row, s, 0);
    LastGoes(at, row, Purse1(s), Evens(AllPlaces(FIELD)), Odds(AllPlaces(FIELD)));
  }

  lemma Round1Going(at: Seating, row: nat -> nat, s: nat)
    requires s <= 1 && Quiet(at, row, AllPlaces(FIELD))
    ensures NextPlaces(at, row, Purse1(s), AllPlaces(FIELD)) == List1(s)
  {
    GoingSplit(at, row, Purse1(s), Evens(AllPlaces(FIELD)), Odds(AllPlaces(FIELD)), 1);
    Round1Singles(at, row, s);
    Round1Last(at, row, s);
    List1Parts(s);
  }

  /** The pair that is fought last. */
  lemma LastGoes(at: Seating, row: nat -> nat, after: nat -> int, u1: seq<nat>, u2: seq<nat>)
    requires |u1| == |u2| > 0
    ensures AllGoing(at, row, after, u1[..1], u2[..1]) == Going(at, row, after, u1[0], u2[0])
  {
    assert u1[..1][..0] == [];
  }

  // ---------- the second round ----------

  lemma Round2At(s: nat, i: nat)
    requires s <= 1 && i < 25
    ensures Evens(List1(s))[i] == if i == 24 then 0 else Winner1(s, 48 - 2 * i)
    ensures Odds(List1(s))[i] == if i == 24 then 1 else Winner1(s, 47 - 2 * i)
  {
  }

  /** The i-th pair meets at these places. */
  lemma Round2Pair(s: nat, i: nat, a: nat, b: nat)
    requires s <= 1 && i < 25
    requires a == (if i == 24 then 0 else Winner1(s, 48 - 2 * i))
    requires b == (if i == 24 then 1 else Winner1(s, 47 - 2 * i))
    ensures Turns(TwoWin(s), Purse1(s), Purse2(s), a, b)
  {
    assert (96 - 4 * i) % 4 == 0 && (96 - 4 * i) % 2 == 0 && (94 - 4 * i) % 4 == 2 && (94 - 4 * i) % 2 == 0;
  }

  lemma Round2Turns(s: nat)
    requires s <= 1
    ensures AllTurn(TwoWin(s), Purse1(s), Purse2(s), Evens(List1(s)), Odds(List1(s)))
  {
    var list := List1(s);
    forall i | 0 <= i < |list| / 2 ensures Turns(TwoWin(s), Purse1(s), Purse2(s), Evens(list)[i], Odds(list)[i]) {
      Round2At(s, i);
      Round2Pair(s, i, Evens(list)[i], Odds(list)[i]);
    }
    forall x: nat | Purse2(s)(x) != Purse1(s)(x) ensures exists j: nat :: Listed(list, x, j) {
      assert Listed(list, x, if x < 2 then 49 + x else if x == 86 + s then 6 else 49 - x / 2);
    }
    RoundTurns(TwoWin(s), Purse1(s), Purse2(s), list);
  }

  lemma Round2Goes(at: Seating, row: nat -> nat, s: nat, i: nat)
    requires s <= 1 && Quiet(at, row, List1(s)) && i < 25
    ensures var a, b := Evens(List1(s))[i], Odds(List1(s))[i];
            Going(at, row, Purse2(s), a, b) == if i >= 23 then [a, b] else [Winner2(s, i)]
  {
    Round2At(s, i);
    Round2Pair(s, i, Evens(List1(s))[i], Odds(List1(s))[i]);
    assert (96 - 4 * i) % 4 == 0 && (94 - 4 * i) % 4 == 2;
  }

  function Winners2(s: nat): (winners: seq<nat>)
    ensures |winners| == 23 && forall i :: 0 <= i < 23 ==> winners[i] == Winner2(s, i)
  {
    seq(23, i requires 0 <= i < 23 => Winner2(s, i))
  }

  lemma Round2Singles(at: Seating, row: nat -> nat, s: nat)
    requires s <= 1 && Quiet(at, row, List1(s))
    ensures AllGoing(at, row, Purse2(s), Evens(List1(s))[..23], Odds(List1(s))[..23]) == Backwards(Winners2(s))
  {
    var u1, u2 := Evens(List1(s)), Odds(List1(s));
    forall i | 0 <= i < 23 ensures Going(at, row, Purse2(s), u1[..23][i], u2[..23][i]) == [Winners2(s)[i]] {
      Round2Goes(at, row, s, i);
    }
    OneGoes(at, row, Purse2(s), u1[..23], u2[..23], Winners2(s));
  }

  lemma Round2Ends(at: Seating, row: nat -> nat, s: nat)
    requires s <= 1 && Quiet(at, row, List1(s))
    ensures var u1, u2 := Evens(List1(s)), Odds(List1(s));
            && Going(at, row, Purse2(s), u1[23], u2[23]) == [4, 2]
            && Going(at, row, Purse2(s), u1[24], u2[24]) == [0, 1]
  {
    Round2At(s, 23);
    Round2At(s, 24);
    Round2Goes(at, row, s, 23);
    Round2Goes(at, row, s, 24);
  }

  lemma TwoLast(at: Seating, row: nat -> nat, after: nat -> int, u1: seq<nat>, u2: seq<nat>)
    requires |u1| == |u2| == 25
    ensures AllGoing(at, row, after, u1, u2)
            == Going(at, row, after, u1[24], u2[24])
               + (Going(at, row, after, u1[23], u2[23]) + AllGoing(at, row, after, u1[..23], u2[..23]))
  {
    GoingOne(at, row, after, u1, u2, 23);
    GoingOne(at, row, after, u1, u2, 24);
    assert u1[..25] == u1 && u2[..25] == u2;
  }

  lemma Round2Doubles(at: Seating, row: nat -> nat, s: nat)
    requires s <= 1 && Quiet(at, row, List1(s))
    ensures var u1, u2 := Evens(List1(s)), Odds(List1(s));
            AllGoing(at, row, Purse2(s), u1, u2) == [0, 1] + ([4, 2] + AllGoing(at, row, Purse2(s), u1[..23], u2[..23]))
  {
    TwoLast(at, row, Purse2(s), Evens(List1(s)), Odds(List1(s)));
    Round2Ends(at, row, s);
  }

  lemma List2Parts(s: nat)
    ensures [0, 1] + ([4, 2] + Backwards(Winners2(s))) + [98 + s] == List2(s)
  {
  }

  lemma Round2Going(at: Seating, row: nat -> nat, s: nat)
    requires s <= 1 && Quiet(at, row, List1(s))
    ensures NextPlaces(at, row, Purse2(s), List1(s)) == List2(s)
  {
    Round2Singles(at, row, s);
    Round2Doubles(at, row, s);
    List2Parts(s);
  }

  // ---------- the third round ----------

  lemma Round3At(s: nat, i: nat)
    requires s <= 1 && i < 14
    ensures Evens(List2(s))[i] == [0, 4, 8, 16, 24, 32, 40, 48, 56, 64, 72, 80, 86 + s, 96][i]
    ensures Odds(List2(s))[i] == [1, 2, 12, 20, 28, 36, 44, 52, 60, 68, 76, 84, 92, 98 + s][i]
  {
  }

  lemma Round3Pair(s: nat, i: nat)
    requires s <= 1 && i < 14
    ensures Turns(TwoWin(s), Purse2(s), Purse3(s), Evens(List2(s))[i], Odds(List2(s))[i])
  {
    Round3At(s, i);
  }

  lemma Round3Turns(s: nat)
    requires s <= 1
    ensures AllTurn(TwoWin(s), Purse2(s), Purse3(s), Evens(List2(s)), Odds(List2(s)))
  {
    var list := List2(s);
    forall i | 0 <= i < |list| / 2 ensures Turns(TwoWin(s), Purse2(s), Purse3(s), Evens(list)[i], Odds(list)[i]) {
      Round3Pair(s, i);
    }
    forall x: nat | Purse3(s)(x) != Purse2(s)(x) ensures exists j: nat :: Listed(list, x, j) {
      assert Listed(list, x, if x < 2 then x else if x == 2 then 3 else if x == 4 then 2 else if x == 86 + s then 24
                             else if x == 98 + s then 27 else 2 + x / 4);
    }
    RoundTurns(TwoWin(s), Purse2(s), Purse3(s), list);
  }

  lemma Round3Goes(at: Seating, row: nat -> nat, s: nat, i: nat)
    requires s <= 1 && Quiet(at, row, List2(s)) && i < 14
    ensures var a, b := Evens(List2(s))[i], Odds(List2(s))[i];
            Going(at, row, Purse3(s), a, b) == if i < 2 || i == 13 then [a, b] else [a]
  {
    Round3At(s, i);
  }

  lemma Round3Most(at: Seating, row: nat -> nat, s: nat)
    requires s <= 1 && Quiet(at, row, List2(s))
    ensures |AllGoing(at, row, Purse3(s), Evens(List2(s))[..12], Odds(List2(s))[..12])| == 14
  {
    var u1, u2 := Evens(List2(s))[..12], Odds(List2(s))[..12];
    forall i | 0 <= i < 12
      ensures Going(at, row, Purse3(s), u1[i], u2[i]) == if i < 2 then [u1[i], u2[i]] else [u1[i]]
    {
      Round3Goes(at, row, s, i);
    }
    GoingSplit(at, row, Purse3(s), u1, u2, 2);
    OneGoes(at, row, Purse3(s), u1[2..], u2[2..], u1[2..]);
    BothGo(at, row, Purse3(s), u1[..2], u2[..2]);
  }

  lemma Round3First(at: Seating, row: nat -> nat, s: nat)
    requires s <= 1 && Quiet(at, row, List2(s))
    ensures AllGoing(at, row, Purse3(s), Evens(List2(s))[12..], Odds(List2(s))[12..]) == [96, 98 + s, 86 + s]
  {
    var u1, u2 := Evens(List2(s))[12..], Odds(List2(s))[12..];
    Round3At(s, 12);
    Round3At(s, 13);
    Round3Goes(at, row, s, 12);
    Round3Goes(at, row, s, 13);
    LastGoes(at, row, Purse3(s), u1, u2);
    assert u1 == [86 + s, 96] && u2 == [92, 98 + s];
  }

  /** After the third round seventeen are in play: the two meet, and whoever comes before them sits out. */
  lemma Round3Going(at: Seating, row: nat -> nat, s: nat)
    requires s <= 1 && Quiet(at, row, List2(s))
    ensures var list := NextPlaces(at, row, Purse3(s), List2(s));
            |list| == 17 && list[1] == 98 + s && list[2] == 86 + s
  {
    GoingSplit(at, row, Purse3(s), Evens(List2(s)), Odds(List2(s)), 12);
    Round3Most(at, row, s);
    Round3First(at, row, s);
  }

  // ---------- the whole course ----------

  /** The two share a row, and the fights and tickets are those of the course. */
  ghost predicate Set(game: Game, at: Seating, s: nat) {
    && s <= 1 && Injective(at) && Follows(game.fights, at, TwoWin(s)) && Shared(game.row, at(98 + s), at(86 + s))
  }

  lemma ClashNowOrNext(game: Game, x: State, count: nat)
    requires |x.1| > ENOUGH && count < MAX_ROUNDS
    requires Clash(game.row, x.1)
             || RunClashes(game, Round(game, x.0, x.1).0, Round(game, x.0, x.1).1, count + 1)
    ensures RunClashes(game, x.0, x.1, count)
  {
    NextRound(game, x.0, x.1, count);
  }

  lemma ClashInRound4(game: Game, at: Seating, s: nat, x: State, list: seq<nat>, count: nat)
    requires Set(game, at, s) && Players(x.1) == Seats(at, list) && count < MAX_ROUNDS
    requires |list| == 17 && list[1] == 98 + s && list[2] == 86 + s
    ensures RunClashes(game, x.0, x.1, count)
  {
    assert Evens(list)[0] == list[1] && Odds(list)[0] == list[2];
    assert !Quiet(at, game.row, list);
    NoClashIsQuiet(at, game.row, x.1, list);
    ClashNowOrNext(game, x, count);
  }

  lemma Round3Stands(game: Game, at: Seating, s: nat, x: State)
    requires Set(game, at, s) && Stands(at, x, List2(s), Purse2(s)) && Quiet(at, game.row, List2(s))
    ensures var next := NextPlaces(at, game.row, Purse3(s), List2(s));
            && Players(Round(game, x.0, x.1).1) == Seats(at, next)
            && |next| == 17 && next[1] == 98 + s && next[2] == 86 + s
  {
    Round3Turns(s);
    CourseRound(game, at, TwoWin(s), Purse2(s), Purse3(s), x, List2(s));
    Round3Going(at, game.row, s);
  }

  lemma ClashFromRound3(game: Game, at: Seating, s: nat, x: State, count: nat)
    requires Set(game, at, s) && Stands(at, x, List2(s), Purse2(s)) && count + 2 <= MAX_ROUNDS
    ensures RunClashes(game, x.0, x.1, count)
  {
    NoClashIsQuiet(at, game.row, x.1, List2(s));
    if Quiet(at, game.row, List2(s)) {
      Round3Stands(game, at, s, x);
      var list := NextPlaces(at, game.row, Purse3(s), List2(s));
      ClashInRound4(game, at, s, Round(game, x.0, x.1), list, count + 1);
    }
    ClashNowOrNext(game, x, count);
  }

  lemma Round2Stands(game: Game, at: Seating, s: nat, x: State)
    requires Set(game, at, s) && Stands(at, x, List1(s), Purse1(s)) && Quiet(at, game.row, List1(s))
    ensures Stands(at, Round(game, x.0, x.1), List2(s), Purse2(s))
  {
    Round2Turns(s);
    CourseRound(game, at, TwoWin(s), Purse1(s), Purse2(s), x, List1(s));
    Round2Going(at, game.row, s);
  }

  lemma ClashFromRound2(game: Game, at: Seating, s: nat, x: State, count: nat)
    requires Set(game, at, s) && Stands(at, x, List1(s), Purse1(s)) && count + 3 <= MAX_ROUNDS
    ensures RunClashes(game, x.0, x.1, count)
  {
    NoClashIsQuiet(at, game.row, x.1, List1(s));
    if Quiet(at, game.row, List1(s)) {
      Round2Stands(game, at, s, x);
      ClashFromRound3(game, at, s, Round(game, x.0, x.1), count + 1);
    }
    ClashNowOrNext(game, x, count);
  }

  lemma Round1Stands(game: Game, at: Seating, s: nat, x: State)
    requires Set(game, at, s) && Stands(at, x, AllPlaces(FIELD), Purse0()) && Quiet(at, game.row, AllPlaces(FIELD))
    ensures Stands(at, Round(game, x.0, x.1), List1(s), Purse1(s))
  {
    Round1Turns(s);
    CourseRound(game, at, TwoWin(s), Purse0(), Purse1(s), x, AllPlaces(FIELD));
    Round1Going(at, game.row, s);
  }

  /** On this course two robots of one row meet in the fourth round, unless some have met before. */
  lemma ClashOnCourse(game: Game, at: Seating, s: nat, x: State, count: nat)
    requires Set(game, at, s) && Stands(at, x, AllPlaces(FIELD), Purse0()) && count + 4 <= MAX_ROUNDS
    ensures RunClashes(game, x.0, x.1, count)
  {
    NoClashIsQuiet(at, game.row, x.1, AllPlaces(FIELD));
    if Quiet(at, game.row, AllPlaces(FIELD)) {
      Round1Stands(game, at, s, x);
      ClashFromRound2(game, at, s, Round(game, x.0, x.1), count + 1);
    }
    ClashNowOrNext(game, x, count);
  }

  // ---------- tickets and fights for every field ----------

  /** Fights by place. */
  function FightsAt(at: Seating, s: nat): Fights {
    (n: nat, p: Player, q: Player) => q != at(86 + s) && q != at(98 + s)
  }

  /** The two places that are to meet, for so many enrolled players. */
  function Shift(enrolled: nat): nat {
    if enrolled < FIELD - ROWS - 1 then 0 else 1
  }

  function MeetingTickets(area: string, uuids: seq<string>): map<Player, int> {
    Stored(Seated(area, uuids), Purse0(), FIELD)
  }

  function MeetingFights(area: string, uuids: seq<string>): Fights {
    FightsAt(Seated(area, uuids), Shift(|uuids|))
  }

  lemma MeetingHolds(at: Seating)
    requires Injective(at)
    ensures Holds(Stored(at, Purse0(), FIELD), at, Purse0())
  {
    forall i: nat ensures Held(Stored(at, Purse0(), FIELD), at(i)) == Purse0()(i) {
      StoredAt(at, Purse0(), FIELD, i);
    }
  }

  lemma MeetingIsSet(area: string, uuids: seq<string>)
    requires Distinct(uuids) && |uuids| < FIELD - ROWS
    ensures Set(Game(MeetingFights(area, uuids), TableRow()), Seated(area, uuids), Shift(|uuids|))
  {
    var at, s := Seated(area, uuids), Shift(|uuids|);
    SeatedDiffer(area, uuids);
    SeatedShare(area, uuids, 98 + s, 86 + s);
    forall n: nat, a: nat, b: nat ensures MeetingFights(area, uuids)(n, at(a), at(b)) == TwoWin(s)(a, b) {
    }
  }

  /** For every field with fewer than eighty-eight players there are tickets and fights that bring two robots of one
      row together. */
  lemma RowsMeet(area: string, uuids: seq<string>)
    requires Distinct(uuids) && |uuids| < FIELD - ROWS
    ensures RunClashes(Game(MeetingFights(area, uuids), TableRow()), Morning(MeetingTickets(area, uuids)),
                       Entrants(area, uuids), 0)
  {
    var at := Seated(area, uuids);
    MeetingIsSet(area, uuids);
    MeetingHolds(at);
    EntrantsSeated(area, uuids);
    ClashOnCourse(Game(MeetingFights(area, uuids), TableRow()), at, Shift(|uuids|),
                  (Morning(MeetingTickets(area, uuids)), Entrants(area, uuids)), 0);
  }
}
