/** Day tournament: a day that starts with more than nine sure places and leaves eight, too few for the finals. */
module PvpDrain {
  import opened PvpDay
  import opened PvpField
  import opened PvpCourse
  import opened PvpQuiet

  // ---------- the course, place by place ----------

  function FirstWins(): (nat, nat) -> bool {
    (a: nat, b: nat) => true
  }

  /** The eight pairs of places 68 to 83 keep both their players for three rounds: `low` and `high` are what they
      hold. The others with tickets are at places 84, 86, 87, 98 and 99. */
  function Purse(low: int, high: int, at84: int, at86: int, at87: int, at98: int, at99: int): nat -> int {
    (x: nat) =>
      if 68 <= x < 84 then (if x % 2 == 0 then low else high)
      else if x == 84 then at84 else if x == 86 then at86 else if x == 87 then at87
      else if x == 98 then at98 else if x == 99 then at99 else 0
  }

  function Purse0(): nat -> int {
    Purse(1, 10, 1, 10, 30, 1, 2)
  }

  function Purse1(): nat -> int {
    Purse(2, 9, 1, 20, 20, 2, 1)
  }

  function Purse2(): nat -> int {
    Purse(4, 7, 0, 19, 21, 2, 2)
  }

  /** The robots of places 98 and 99 are in play, and hold nothing. */
  function Purse3(): nat -> int {
    Purse(8, 3, 0, 21, 23, 0, 0)
  }

  function Purse4(): nat -> int {
    Purse(11, 0, 0, 21, 23, 0, 0)
  }

  /** Places 82 and 83, then 80 and 81, down to 68 and 69. */
  function Downwards(): (list: seq<nat>)
    ensures |list| == 16 && forall i :: 0 <= i < 8 ==> list[2 * i] == 82 - 2 * i && list[2 * i + 1] == 83 - 2 * i
  {
    [82, 83, 80, 81, 78, 79, 76, 77, 74, 75, 72, 73, 70, 71, 68, 69]
  }

  function Upwards(): (list: seq<nat>)
    ensures |list| == 16 && forall i :: 0 <= i < 16 ==> list[i] == 68 + i
  {
    seq(16, i requires 0 <= i => 68 + i)
  }

  function List1(): seq<nat> {
    [98, 99, 86, 87, 84] + Downwards()
  }

  function List2(): seq<nat> {
    Upwards() + [87, 99, 86, 98]
  }

  function List3(): seq<nat> {
    [98, 99] + Downwards()
  }

  /** Who shares a row with whom. */
  ghost predicate Rows(at: Seating, row: nat -> nat) {
    && NearUnshared(at, row) && !Shared(row, at(99), at(86))
    && Shared(row, at(86), at(98)) && Shared(row, at(87), at(99))
  }

  // ---------- its first round ----------

  lemma Round1Pair(a: nat, b: nat)
    requires a % 2 == 0 && b == a + 1 && a < FIELD
    ensures Turns(FirstWins(), Purse0(), Purse1(), a, b)
  {
  }

  lemma Round1Turns()
    ensures AllTurn(FirstWins(), Purse0(), Purse1(), Evens(AllPlaces(FIELD)), Odds(AllPlaces(FIELD)))
  {
    var list := AllPlaces(FIELD);
    forall i | 0 <= i < |list| / 2 ensures Turns(FirstWins(), Purse0(), Purse1(), Evens(list)[i], Odds(list)[i]) {
      PlacesInPairs(i);
      Round1Pair(2 * i, 2 * i + 1);
    }
    forall x: nat | Purse1()(x) != Purse0()(x) ensures exists j: nat :: Listed(list, x, j) {
      assert Listed(list, x, x);
    }
    RoundTurns(FirstWins(), Purse0(), Purse1(), list);
  }

  lemma Round1Goes(at: Seating, row: nat -> nat, i: nat)
    requires Rows(at, row) && i < FIELD / 2
    ensures Going(at, row, Purse1(), 2 * i, 2 * i + 1)
         == if 34 <= i < 42 || i == 43 || i == 49 then [2 * i, 2 * i + 1] else if i == 42 then [84] else []
  {
    assert (2 * i) % 2 == 0;
  }

  /** The pairs of the first round are neighbours. */
  predicate Neighbours(u1: seq<nat>, u2: seq<nat>) {
    |u1| == |u2| == FIELD / 2 && forall i :: 0 <= i < |u1| ==> u1[i] == 2 * i && u2[i] == 2 * i + 1
  }

  lemma Round1None(at: Seating, row: nat -> nat, u1: seq<nat>, u2: seq<nat>, j: nat, k: nat)
    requires Rows(at, row) && Neighbours(u1, u2) && j <= k <= FIELD / 2 && (k <= 34 || (44 <= j && k <= 49))
    ensures AllGoing(at, row, Purse1(), u1[j..k], u2[j..k]) == []
  {
    forall i | 0 <= i < k - j ensures Going(at, row, Purse1(), u1[j..k][i], u2[j..k][i]) == [] {
      Round1Goes(at, row, j + i);
    }
    NoneGoes(at, row, Purse1(), u1[j..k], u2[j..k]);
  }

  lemma Round1Both(at: Seating, row: nat -> nat, u1: seq<nat>, u2: seq<nat>)
    requires Rows(at, row) && Neighbours(u1, u2)
    ensures AllGoing(at, row, Purse1(), u1[34..42], u2[34..42]) == Downwards()
  {
    forall i | 0 <= i < 8
      ensures Going(at, row, Purse1(), u1[34..42][i], u2[34..42][i]) == [u1[34..42][i], u2[34..42][i]]
    {
      Round1Goes(at, row, 34 + i);
    }
    BothGo(at, row, Purse1(), u1[34..42], u2[34..42]);
    DownwardsIs(Both(u1[34..42], u2[34..42]));
  }

  lemma DownwardsIs(list: seq<nat>)
    requires |list| == 16 && forall i :: 0 <= i < 8 ==> list[2 * i] == 82 - 2 * i && list[2 * i + 1] == 83 - 2 * i
    ensures list == Downwards()
  {
    forall j | 0 <= j < 16 ensures list[j] == Downwards()[j] {
      assert list[2 * (j / 2)] == Downwards()[2 * (j / 2)] && list[2 * (j / 2) + 1] == Downwards()[2 * (j / 2) + 1];
    }
  }

  lemma Round1To42(at: Seating, row: nat -> nat, u1: seq<nat>, u2: seq<nat>)
    requires Rows(at, row) && Neighbours(u1, u2)
    ensures AllGoing(at, row, Purse1(), u1[..42], u2[..42]) == Downwards()
  {
    Round1None(at, row, u1, u2, 0, 34);
    assert u1[0..34] == u1[..34] && u2[0..34] == u2[..34];
    Round1Both(at, row, u1, u2);
    GoingUpTo(at, row, Purse1(), u1, u2, 34, 42);
  }

  lemma Round1To43(at: Seating, row: nat -> nat, u1: seq<nat>, u2: seq<nat>)
    requires Rows(at, row) && Neighbours(u1, u2)
    ensures AllGoing(at, row, Purse1(), u1[..43], u2[..43]) == [84] + Downwards()
  {
    Round1To42(at, row, u1, u2);
    GoingOne(at, row, Purse1(), u1, u2, 42);
    Round1Goes(at, row, 42);
  }

  lemma Round1To44(at: Seating, row: nat -> nat, u1: seq<nat>, u2: seq<nat>)
    requires Rows(at, row) && Neighbours(u1, u2)
    ensures AllGoing(at, row, Purse1(), u1[..44], u2[..44]) == [86, 87] + ([84] + Downwards())
  {
    Round1To43(at, row, u1, u2);
    GoingOne(at, row, Purse1(), u1, u2, 43);
    Round1Goes(at, row, 43);
  }

  lemma Round1To49(at: Seating, row: nat -> nat, u1: seq<nat>, u2: seq<nat>)
    requires Rows(at, row) && Neighbours(u1, u2)
    ensures AllGoing(at, row, Purse1(), u1[..49], u2[..49]) == [86, 87] + ([84] + Downwards())
  {
    Round1To44(at, row, u1, u2);
    Round1None(at, row, u1, u2, 44, 49);
    GoingUpTo(at, row, Purse1(), u1, u2, 44, 49);
  }

  lemma Round1To50(at: Seating, row: nat -> nat, u1: seq<nat>, u2: seq<nat>)
    requires Rows(at, row) && Neighbours(u1, u2)
    ensures AllGoing(at, row, Purse1(), u1[..50], u2[..50]) == [98, 99] + ([86, 87] + ([84] + Downwards()))
  {
    Round1To49(at, row, u1, u2);
    GoingOne(at, row, Purse1(), u1, u2, 49);
    Round1Goes(at, row, 49);
  }

  lemma Round1Going(at: Seating, row: nat -> nat, u1: seq<nat>, u2: seq<nat>)
    requires Rows(at, row) && Neighbours(u1, u2)
    ensures AllGoing(at, row, Purse1(), u1, u2) == List1()
  {
    Round1To50(at, row, u1, u2);
    assert u1[..50] == u1 && u2[..50] == u2;
    List1Parts();
  }

  lemma List1Parts()
    ensures List1() == [98, 99] + ([86, 87] + ([84] + Downwards()))
  {
  }

  // ---------- the later rounds ----------

  lemma Round2At(i: nat)
    requires i < 10
    ensures Evens(List1())[i] == [99, 87, 82, 80, 78, 76, 74, 72, 70, 68][i]
    ensures Odds(List1())[i] == [86, 84, 83, 81, 79, 77, 75, 73, 71, 69][i]
  {
  }

  /** The eight pairs keep both their players for three rounds. */
  lemma EightTurn(a: nat, b: nat)
    requires 68 <= a < 84 && a % 2 == 0 && b == a + 1
    ensures Turns(FirstWins(), Purse1(), Purse2(), a, b) && Turns(FirstWins(), Purse2(), Purse3(), a, b)
    ensures Turns(FirstWins(), Purse3(), Purse4(), a, b)
  {
  }

  lemma Round2Pair(i: nat)
    requires i < 10
    ensures Turns(FirstWins(), Purse1(), Purse2(), Evens(List1())[i], Odds(List1())[i])
  {
    Round2At(i);
    if i >= 2 {
      EightTurn(86 - 2 * i, 87 - 2 * i);
    }
  }

  lemma DownwardsAt(x: nat)
    requires 68 <= x < 84
    ensures Downwards()[if x % 2 == 0 then 82 - x else 84 - x] == x
  {
    var i := 41 - x / 2;
    assert Downwards()[2 * i] == 82 - 2 * i && Downwards()[2 * i + 1] == 83 - 2 * i;
  }

  lemma Round2Listed(list: seq<nat>, x: nat)
    requires list == List1() && Purse2()(x) != Purse1()(x)
    ensures exists j: nat :: Listed(list, x, j)
  {
    if 68 <= x < 84 {
      DownwardsAt(x);
      assert Listed(list, x, if x % 2 == 0 then 5 + 82 - x else 5 + 84 - x);
    } else {
      assert Listed(list, x, if x == 99 then 1 else if x == 86 then 2 else if x == 87 then 3 else 4);
    }
  }

  lemma NoPlaceTwice1()
    ensures NoPlaceTwice(List1())
  {
  }

  lemma NoPlaceTwice2()
    ensures NoPlaceTwice(List2())
  {
  }

  lemma NoPlaceTwice3()
    ensures NoPlaceTwice(List3())
  {
  }

  lemma Round2Turns(list: seq<nat>)
    requires list == List1()
    ensures AllTurn(FirstWins(), Purse1(), Purse2(), Evens(list), Odds(list))
  {
    forall i | 0 <= i < |list| / 2 ensures Turns(FirstWins(), Purse1(), Purse2(), Evens(list)[i], Odds(list)[i]) {
      Round2Pair(i);
    }
    forall x: nat | Purse2()(x) != Purse1()(x) ensures exists j: nat :: Listed(list, x, j) {
      Round2Listed(list, x);
    }
    NoPlaceTwice1();
    RoundTurns(FirstWins(), Purse1(), Purse2(), list);
  }

  lemma Round3At(i: nat)
    requires i < 10
    ensures Evens(List2())[i] == [68, 70, 72, 74, 76, 78, 80, 82, 87, 86][i]
    ensures Odds(List2())[i] == [69, 71, 73, 75, 77, 79, 81, 83, 99, 98][i]
  {
  }

  lemma Round3Pair(i: nat)
    requires i < 10
    ensures Turns(FirstWins(), Purse2(), Purse3(), Evens(List2())[i], Odds(List2())[i])
  {
    Round3At(i);
  }

  lemma Round3Turns(list: seq<nat>)
    requires list == List2()
    ensures AllTurn(FirstWins(), Purse2(), Purse3(), Evens(list), Odds(list))
  {
    forall i | 0 <= i < |list| / 2 ensures Turns(FirstWins(), Purse2(), Purse3(), Evens(list)[i], Odds(list)[i]) {
      Round3Pair(i);
    }
    forall x: nat | Purse3()(x) != Purse2()(x) ensures exists j: nat :: Listed(list, x, j) {
      assert Listed(list, x, if x == 87 then 16 else if x == 99 then 17 else if x == 86 then 18
                             else if x == 98 then 19 else x - 68);
    }
    NoPlaceTwice2();
    RoundTurns(FirstWins(), Purse2(), Purse3(), list);
  }

  lemma Round4At(i: nat)
    requires i < 9
    ensures Evens(List3())[i] == [98, 82, 80, 78, 76, 74, 72, 70, 68][i]
    ensures Odds(List3())[i] == [99, 83, 81, 79, 77, 75, 73, 71, 69][i]
  {
  }

  lemma Round4Pair(i: nat)
    requires i < 9
    ensures Turns(FirstWins(), Purse3(), Purse4(), Evens(List3())[i], Odds(List3())[i])
  {
    Round4At(i);
  }

  lemma Round4Turns(list: seq<nat>)
    requires list == List3()
    ensures AllTurn(FirstWins(), Purse3(), Purse4(), Evens(list), Odds(list))
  {
    forall i | 0 <= i < |list| / 2 ensures Turns(FirstWins(), Purse3(), Purse4(), Evens(list)[i], Odds(list)[i]) {
      Round4Pair(i);
    }
    forall x: nat | Purse4()(x) != Purse3()(x) ensures exists j: nat :: Listed(list, x, j) {
      DownwardsAt(x);
      assert Listed(list, x, if x % 2 == 0 then 2 + 82 - x else 2 + 84 - x);
    }
    NoPlaceTwice3();
    RoundTurns(FirstWins(), Purse3(), Purse4(), list);
  }

  lemma Round2Goes(at: Seating, row: nat -> nat, i: nat)
    requires Rows(at, row) && i < 10
    ensures var a, b := Evens(List1())[i], Odds(List1())[i];
            Going(at, row, Purse2(), a, b) == if i == 1 then [a] else [a, b]
  {
    Round2At(i);
  }

  /** Both of a pair of neighbours go on when they hold something. */
  lemma NeighboursGo(at: Seating, row: nat -> nat, after: nat -> int, a: nat, b: nat)
    requires Rows(at, row) && b == a + 1 && after(a) != 0 && after(b) != 0
    ensures Going(at, row, after, a, b) == [a, b]
  {
  }

  /** Eight pairs of neighbours, from 82 down, or from 68 up. */
  predicate EightPairs(u1: seq<nat>, u2: seq<nat>, down: bool) {
    |u1| == |u2| == 8
    && forall i :: 0 <= i < 8 ==> u1[i] == (if down then 82 - 2 * i else 68 + 2 * i) && u2[i] == u1[i] + 1
  }

  lemma BothUp(u1: seq<nat>, u2: seq<nat>)
    requires EightPairs(u1, u2, true)
    ensures Both(u1, u2) == Upwards()
  {
    forall i | 0 <= i < 8 ensures Both(u1, u2)[2 * i] == 68 + 2 * i && Both(u1, u2)[2 * i + 1] == 69 + 2 * i {
      assert u1[7 - i] == 82 - 2 * (7 - i);
    }
    Ascending(Both(u1, u2));
  }

  lemma BothDown(u1: seq<nat>, u2: seq<nat>)
    requires EightPairs(u1, u2, false)
    ensures Both(u1, u2) == Downwards()
  {
    forall i | 0 <= i < 8 ensures Both(u1, u2)[2 * i] == 82 - 2 * i && Both(u1, u2)[2 * i + 1] == 83 - 2 * i {
      assert u1[7 - i] == 68 + 2 * (7 - i);
    }
    DownwardsIs(Both(u1, u2));
  }

  lemma EightPairsGo(at: Seating, row: nat -> nat, after: nat -> int, u1: seq<nat>, u2: seq<nat>, down: bool)
    requires Rows(at, row) && EightPairs(u1, u2, down)
    requires forall x: nat :: 68 <= x < 84 ==> after(x) != 0
    ensures AllGoing(at, row, after, u1, u2) == if down then Upwards() else Downwards()
  {
    forall i | 0 <= i < 8 ensures Going(at, row, after, u1[i], u2[i]) == [u1[i], u2[i]] {
      NeighboursGo(at, row, after, u1[i], u2[i]);
    }
    BothGo(at, row, after, u1, u2);
    if down {
      BothUp(u1, u2);
    } else {
      BothDown(u1, u2);
    }
  }

  lemma EightPairs2(u1: seq<nat>, u2: seq<nat>)
    requires u1 == Evens(List1()) && u2 == Odds(List1())
    ensures EightPairs(u1[2..], u2[2..], true)
  {
    forall i | 0 <= i < 8 ensures u1[2..][i] == 82 - 2 * i && u2[2..][i] == 83 - 2 * i {
      Round2At(i + 2);
    }
  }

  lemma Round2Doubles(at: Seating, row: nat -> nat, u1: seq<nat>, u2: seq<nat>)
    requires Rows(at, row) && u1 == Evens(List1()) && u2 == Odds(List1())
    ensures AllGoing(at, row, Purse2(), u1[2..], u2[2..]) == Upwards()
  {
    EightPairs2(u1, u2);
    EightPairsGo(at, row, Purse2(), u1[2..], u2[2..], true);
  }

  lemma Round2Front(at: Seating, row: nat -> nat, u1: seq<nat>, u2: seq<nat>)
    requires Rows(at, row) && u1 == Evens(List1()) && u2 == Odds(List1())
    ensures AllGoing(at, row, Purse2(), u1[..2], u2[..2]) == [87, 99, 86]
  {
    Round2Goes(at, row, 0);
    Round2Goes(at, row, 1);
    Round2At(0);
    Round2At(1);
    GoingOne(at, row, Purse2(), u1, u2, 0);
    GoingOne(at, row, Purse2(), u1, u2, 1);
  }

  lemma Round2Going(at: Seating, row: nat -> nat, list: seq<nat>)
    requires Rows(at, row) && list == List1()
    ensures NextPlaces(at, row, Purse2(), list) == List2()
  {
    GoingSplit(at, row, Purse2(), Evens(list), Odds(list), 2);
    Round2Doubles(at, row, Evens(list), Odds(list));
    Round2Front(at, row, Evens(list), Odds(list));
    List2Parts();
  }

  lemma List2Parts()
    ensures List2() == Upwards() + [87, 99, 86] + [98]
  {
  }

  lemma Ascending(list: seq<nat>)
    requires |list| == 16 && forall i :: 0 <= i < 8 ==> list[2 * i] == 68 + 2 * i && list[2 * i + 1] == 69 + 2 * i
    ensures list == Upwards()
  {
    forall j | 0 <= j < 16 ensures list[j] == Upwards()[j] {
      assert list[2 * (j / 2)] == 68 + 2 * (j / 2) && list[2 * (j / 2) + 1] == 69 + 2 * (j / 2);
    }
  }

  /** The two robots whose purses are emptied take both places. */
  lemma Round3Goes(at: Seating, row: nat -> nat, i: nat)
    requires Rows(at, row) && i < 10
    ensures var a, b := Evens(List2())[i], Odds(List2())[i];
            Going(at, row, Purse3(), a, b) == if i >= 8 then [b] else [a, b]
  {
    Round3At(i);
  }

  lemma EightPairs3(u1: seq<nat>, u2: seq<nat>)
    requires u1 == Evens(List2()) && u2 == Odds(List2())
    ensures EightPairs(u1[..8], u2[..8], false)
  {
    forall i | 0 <= i < 8 ensures u1[..8][i] == 68 + 2 * i && u2[..8][i] == 69 + 2 * i {
      Round3At(i);
    }
  }

  lemma Round3Doubles(at: Seating, row: nat -> nat, u1: seq<nat>, u2: seq<nat>)
    requires Rows(at, row) && u1 == Evens(List2()) && u2 == Odds(List2())
    ensures AllGoing(at, row, Purse3(), u1[..8], u2[..8]) == Downwards()
  {
    EightPairs3(u1, u2);
    EightPairsGo(at, row, Purse3(), u1[..8], u2[..8], false);
  }

  lemma Round3Front(at: Seating, row: nat -> nat, u1: seq<nat>, u2: seq<nat>)
    requires Rows(at, row) && u1 == Evens(List2()) && u2 == Odds(List2())
    ensures AllGoing(at, row, Purse3(), u1, u2) == [98] + ([99] + AllGoing(at, row, Purse3(), u1[..8], u2[..8]))
  {
    Round3At(8);
    Round3At(9);
    Round3Goes(at, row, 8);
    Round3Goes(at, row, 9);
    GoingOne(at, row, Purse3(), u1, u2, 8);
    GoingOne(at, row, Purse3(), u1, u2, 9);
    assert u1[..10] == u1 && u2[..10] == u2;
  }

  lemma Round3Going(at: Seating, row: nat -> nat, list: seq<nat>)
    requires Rows(at, row) && list == List2()
    ensures NextPlaces(at, row, Purse3(), list) == List3()
  {
    Round3Doubles(at, row, Evens(list), Odds(list));
    Round3Front(at, row, Evens(list), Odds(list));
    List3Parts();
  }

  lemma List3Parts()
    ensures List3() == [98] + ([99] + Downwards()) + []
  {
  }

  lemma EightPairs4(u1: seq<nat>, u2: seq<nat>)
    requires u1 == Evens(List3()) && u2 == Odds(List3())
    ensures EightPairs(u1[1..], u2[1..], true)
  {
    forall i | 0 <= i < 8 ensures u1[1..][i] == 82 - 2 * i && u2[1..][i] == 83 - 2 * i {
      Round4At(i + 1);
    }
  }

  lemma FirstGoes(at: Seating, row: nat -> nat, a: nat, b: nat)
    requires Rows(at, row) && b == a + 1 && a % 2 == 0 && 68 <= a < 84
    ensures Going(at, row, Purse4(), a, b) == [a]
  {
  }

  lemma Round4Singles(at: Seating, row: nat -> nat, u1: seq<nat>, u2: seq<nat>)
    requires Rows(at, row) && u1 == Evens(List3()) && u2 == Odds(List3())
    ensures |AllGoing(at, row, Purse4(), u1[1..], u2[1..])| == 8
  {
    EightPairs4(u1, u2);
    forall i | 0 <= i < 8 ensures Going(at, row, Purse4(), u1[1..][i], u2[1..][i]) == [u1[1..][i]] {
      FirstGoes(at, row, u1[1..][i], u2[1..][i]);
    }
    OneGoes(at, row, Purse4(), u1[1..], u2[1..], u1[1..]);
  }

  lemma Round4Front(at: Seating, row: nat -> nat, u1: seq<nat>, u2: seq<nat>)
    requires Rows(at, row) && u1 == Evens(List3()) && u2 == Odds(List3())
    ensures AllGoing(at, row, Purse4(), u1[..1], u2[..1]) == []
  {
    Round4At(0);
    GoingOne(at, row, Purse4(), u1, u2, 0);
  }

  /** Both purses are empty: the pair leaves nobody. */
  lemma Round4Going(at: Seating, row: nat -> nat, list: seq<nat>)
    requires Rows(at, row) && list == List3()
    ensures |NextPlaces(at, row, Purse4(), list)| == 8
  {
    GoingSplit(at, row, Purse4(), Evens(list), Odds(list), 1);
    Round4Singles(at, row, Evens(list), Odds(list));
    Round4Front(at, row, Evens(list), Odds(list));
  }

  // ---------- the whole course ----------

  /** The rows, and that the first player always wins. */
  ghost predicate Set(game: Game, at: Seating) {
    Injective(at) && Follows(game.fights, at, FirstWins()) && Rows(at, game.row)
  }

  lemma PlacesAreNeighbours()
    ensures Neighbours(Evens(AllPlaces(FIELD)), Odds(AllPlaces(FIELD))) && Sitter(AllPlaces(FIELD)) == []
  {
    forall i | 0 <= i < FIELD / 2
      ensures Evens(AllPlaces(FIELD))[i] == 2 * i && Odds(AllPlaces(FIELD))[i] == 2 * i + 1
    {
      PlacesInPairs(i);
    }
  }

  lemma Round1Next(at: Seating, row: nat -> nat)
    requires Rows(at, row)
    ensures NextPlaces(at, row, Purse1(), AllPlaces(FIELD)) == List1()
  {
    PlacesAreNeighbours();
    Round1Going(at, row, Evens(AllPlaces(FIELD)), Odds(AllPlaces(FIELD)));
    assert List1() + [] == List1();
  }

  lemma Round1Stands(game: Game, at: Seating, x: State)
    requires Set(game, at) && Stands(at, x, AllPlaces(FIELD), Purse0())
    ensures Stands(at, Round(game, x.0, x.1), List1(), Purse1())
  {
    Round1Turns();
    CourseRound(game, at, FirstWins(), Purse0(), Purse1(), x, AllPlaces(FIELD));
    Round1Next(at, game.row);
  }

  lemma Round2Stands(game: Game, at: Seating, x: State, list: seq<nat>)
    requires Set(game, at) && Stands(at, x, list, Purse1()) && list == List1()
    ensures Stands(at, Round(game, x.0, x.1), List2(), Purse2())
  {
    Round2Turns(list);
    CourseRound(game, at, FirstWins(), Purse1(), Purse2(), x, list);
    Round2Going(at, game.row, list);
  }

  lemma Round3Stands(game: Game, at: Seating, x: State, list: seq<nat>)
    requires Set(game, at) && Stands(at, x, list, Purse2()) && list == List2()
    ensures Stands(at, Round(game, x.0, x.1), List3(), Purse3())
  {
    Round3Turns(list);
    CourseRound(game, at, FirstWins(), Purse2(), Purse3(), x, list);
    Round3Going(at, game.row, list);
  }

  lemma Round4Stands(game: Game, at: Seating, x: State, list: seq<nat>)
    requires Set(game, at) && Stands(at, x, list, Purse3()) && list == List3()
    ensures |Round(game, x.0, x.1).1| == 8
  {
    Round4Turns(list);
    CourseRound(game, at, FirstWins(), Purse3(), Purse4(), x, list);
    Round4Going(at, game.row, list);
  }

  /** A run that goes through four kinds of states ends in the last of them. */
  lemma FourSteps<S(!new)>(
    step: S -> S, more: S -> bool, p0: S -> bool, p1: S -> bool, p2: S -> bool, p3: S -> bool, p4: S -> bool,
    x: S, count: nat)
    requires p0(x) && count + 4 <= MAX_ROUNDS
    requires forall y :: p0(y) ==> more(y) && p1(step(y))
    requires forall y :: p1(y) ==> more(y) && p2(step(y))
    requires forall y :: p2(y) ==> more(y) && p3(step(y))
    requires forall y :: p3(y) ==> more(y) && p4(step(y))
    requires forall y :: p4(y) ==> !more(y)
    ensures p4(Repeat(step, more, x, count))
  {
    var x1 := step(x);
    var x2 := step(x1);
    var x3 := step(x2);
    assert Repeat(step, more, x3, count + 3) == Repeat(step, more, step(x3), count + 4) == step(x3);
    assert Repeat(step, more, x2, count + 2) == Repeat(step, more, x3, count + 3);
    assert Repeat(step, more, x1, count + 1) == Repeat(step, more, x2, count + 2);
  }

  lemma EightAreLeft(game: Game, at: Seating, x: State, count: nat)
    requires Set(game, at) && Stands(at, x, AllPlaces(FIELD), Purse0()) && count + 4 <= MAX_ROUNDS
    ensures |Rounds(game, x.0, x.1, count).1| == 8
  {
    var p0 := (y: State) => Stands(at, y, AllPlaces(FIELD), Purse0());
    var p1 := (y: State) => Stands(at, y, List1(), Purse1());
    var p2 := (y: State) => Stands(at, y, List2(), Purse2());
    var p3 := (y: State) => Stands(at, y, List3(), Purse3());
    var p4 := (y: State) => |y.1| == 8;
    forall y | p0(y) ensures StillMany()(y) && p1(RoundStep(game)(y)) {
      Round1Stands(game, at, y);
      assert |Players(y.1)| == |AllPlaces(FIELD)|;
    }
    forall y | p1(y) ensures StillMany()(y) && p2(RoundStep(game)(y)) {
      Round2Stands(game, at, y, List1());
      assert |Players(y.1)| == |List1()|;
    }
    forall y | p2(y) ensures StillMany()(y) && p3(RoundStep(game)(y)) {
      Round3Stands(game, at, y, List2());
      assert |Players(y.1)| == |List2()|;
    }
    forall y | p3(y) ensures StillMany()(y) && p4(RoundStep(game)(y)) {
      Round4Stands(game, at, y, List3());
      assert |Players(y.1)| == |List3()|;
    }
    FourSteps(RoundStep(game), StillMany(), p0, p1, p2, p3, p4, x, count);
  }
}
