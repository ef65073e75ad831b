/** The day tournament as `pack/module/pvp/pvp_imp.js` runs it: lists that are popped, pushed and spliced. */
module PvpArena {
  import opened Wrappers
  import opened PvpDay
  import opened PvpField
  import opened PvpFinals
  import opened PvpRanking

  lemma {:induction false} InsertAt(first: map<Player, int>, out: seq<Player>, p: Player, i: nat)
    requires i <= |out|
    requires forall j :: 0 <= j < i ==> Held(first, p) < Held(first, out[j])
    requires i < |out| ==> Held(first, p) >= Held(first, out[i])
    ensures Insert(first, out, p) == out[..i] + [p] + out[i..]
  {
    if i > 0 {
      InsertAt(first, out[1..], p, i - 1);
      assert out[..i] == [out[0]] + out[1..][..i - 1];
    }
  }

  /** What is loaded of a player's tickets. One robot, loaded twice, is one object. */
  class PvpInfo {
    var ticketDay: int

    constructor (ticketDay: int)
      ensures this.ticketDay == ticketDay
    {
      this.ticketDay := ticketDay;
    }
  }

  /** The tickets of calFightResult; both names may stand for one object. */
  method MoveTickets(pvpInfo1: PvpInfo, pvpInfo2: PvpInfo, winner: bool)
    modifies pvpInfo1, pvpInfo2
    ensures (pvpInfo1.ticketDay, pvpInfo2.ticketDay)
            == if pvpInfo1 == pvpInfo2 then (old(pvpInfo1.ticketDay), old(pvpInfo1.ticketDay))
               else Stakes(old(pvpInfo1.ticketDay), old(pvpInfo2.ticketDay), winner)
  {
    var reward;
    if winner {
      if pvpInfo1.ticketDay >= pvpInfo2.ticketDay {
        reward := pvpInfo2.ticketDay;
        pvpInfo2.ticketDay := 0;
      } else {
        reward := pvpInfo1.ticketDay;
        pvpInfo2.ticketDay := pvpInfo2.ticketDay - reward;
      }
      pvpInfo1.ticketDay := pvpInfo1.ticketDay + reward;
    } else {
      if pvpInfo2.ticketDay >= pvpInfo1.ticketDay {
        reward := pvpInfo1.ticketDay;
        pvpInfo1.ticketDay := 0;
      } else {
        reward := pvpInfo2.ticketDay;
        pvpInfo1.ticketDay := pvpInfo1.ticketDay - reward;
      }
      pvpInfo2.ticketDay := pvpInfo2.ticketDay + reward;
    }
  }

  function PlaceBoth(day: Day, remain: seq<Entry>, name1: Player, t1: int, name2: Player, t2: int): State {
    var (day1, remain1) := Place(day, remain, name1, t1);
    Place(day1, remain1, name2, t2)
  }

  /** Saving the tickets before or after the players are placed makes no difference. */
  lemma PlacesIgnoreTickets(
    day: Day, remain: seq<Entry>, name1: Player, t1: int, name2: Player, t2: int, tickets: map<Player, int>)
    ensures var (day', remain') := PlaceBoth(day, remain, name1, t1, name2, t2);
            PlaceBoth(day.(tickets := tickets), remain, name1, t1, name2, t2) == (day'.(tickets := tickets), remain')
  {
  }

  lemma FightPlacesBoth(game: Game, day: Day, remain: seq<Entry>, p1: Player, p2: Player)
    ensures var (t1, t2) := Outcome(game, day, p1, p2);
            Fight(game, day, remain, p1, p2)
            == PlaceBoth(Fought(game, day, p1, p2), remain, NameOfFirst(game.row, p1, p2), t1, p2, t2)
  {
  }

  class Arena {
    /** Each player's stored `ticketDay`. */
    var tickets: map<Player, int>
    /** The names on the records of the robot table. */
    var names: map<nat, Player>
    /** `sortResult.map` */
    var first: map<Player, int>
    /** `sortResult.userArea` */
    var out: seq<Player>
    var fought: nat

    function Value(): Day
      reads this
    {
      Day(tickets, first, out, fought)
    }

    /** insertEltToSortResult */
    method InsertElt(p: Player)
      modifies this`out
      ensures out == Insert(first, old(out), p)
    {
      for i := 0 to |out|
        invariant out == old(out)
        invariant forall j :: 0 <= j < i ==> Held(first, p) < Held(first, out[j])
      {
        if Held(first, p) >= Held(first, out[i]) {
          InsertAt(first, out, p, i);
          out := out[..i] + [p] + out[i..];
          return;
        }
      }
      InsertAt(first, out, p, |out|);
      out := out + [p];
    }

    /** The end of calFightResult: back among those in play, or out. */
    method PutBack(p: Player, ticketDay: int, remain: seq<Entry>) returns (remain': seq<Entry>)
      modifies this`out
      ensures (Value(), remain') == Place(old(Value()), remain, p, ticketDay)
    {
      remain' := remain;
      if ticketDay != 0 {
        remain' := remain' + [Entry(p, Some(ticketDay))];
      } else {
        InsertElt(p);
      }
    }

    /** getPvpPlayerInfo: loading a robot writes its name on the record of its row. */
    method Load(row: nat -> nat, p: Player)
      modifies this`names
      ensures names == if p.Robot? then old(names)[row(p.number) := p] else old(names)
    {
      if p.Robot? {
        names := names[row(p.number) := p];
      }
    }

    /** The name on the record that was loaded for `p`. */
    function NameOn(row: nat -> nat, p: Player): Player
      reads this
      requires p.Robot? ==> row(p.number) in names
    {
      if p.Robot? then names[row(p.number)] else p
    }

    /** get1V1PlayerInfo: both records are loaded before either name is read. */
    method LoadBoth(row: nat -> nat, p1: Player, p2: Player) returns (name1: Player, name2: Player)
      modifies this`names
      ensures name1 == NameOfFirst(row, p1, p2) && name2 == p2
    {
      Load(row, p1);
      Load(row, p2);
      name1, name2 := NameOn(row, p1), NameOn(row, p2);
    }

    /** calFightResult */
    method CalFightResult(
      name1: Player, pvpInfo1: PvpInfo, name2: Player, pvpInfo2: PvpInfo, winner: bool, remain: seq<Entry>)
      returns (remain': seq<Entry>)
      modifies this`out, pvpInfo1, pvpInfo2
      ensures (pvpInfo1.ticketDay, pvpInfo2.ticketDay)
              == if pvpInfo1 == pvpInfo2 then (old(pvpInfo1.ticketDay), old(pvpInfo1.ticketDay))
                 else Stakes(old(pvpInfo1.ticketDay), old(pvpInfo2.ticketDay), winner)
      ensures (Value(), remain')
              == PlaceBoth(old(Value()), remain, name1, pvpInfo1.ticketDay, name2, pvpInfo2.ticketDay)
    {
      MoveTickets(pvpInfo1, pvpInfo2, winner);
      remain' := PutBack(name1, pvpInfo1.ticketDay, remain);
      remain' := PutBack(name2, pvpInfo2.ticketDay, remain');
    }

    /** getPvpInfo, for both players: a robot that meets itself is loaded from the cache, one object twice. */
    method LoadPurses(p1: Player, p2: Player) returns (pvpInfo1: PvpInfo, pvpInfo2: PvpInfo)
      ensures fresh(pvpInfo1) && fresh(pvpInfo2) && (pvpInfo1 == pvpInfo2 <==> p1 == p2 && p1.Robot?)
      ensures pvpInfo1.ticketDay == Held(tickets, p1) && pvpInfo2.ticketDay == Held(tickets, p2)
    {
      pvpInfo1 := new PvpInfo(Held(tickets, p1));
      pvpInfo2 := pvpInfo1;
      if p1 != p2 || p1.Person? {
        pvpInfo2 := new PvpInfo(Held(tickets, p2));
      }
    }

    /** Keep the tickets that a player starts the day with. */
    method NoteFirst(p: Player, ticketDay: int)
      modifies this`first
      ensures first == Note(old(first), p, ticketDay)
    {
      if p !in first {
        first := first[p := ticketDay];
      }
    }

    /** One fight of fight2Array: load, note the starting tickets, fight, settle, save. */
    method FightOnce(game: Game, p1: Player, p2: Player, remain: seq<Entry>) returns (remain': seq<Entry>)
      modifies this
      ensures (Value(), remain') == Fight(game, old(Value()), remain, p1, p2)
    {
      ghost var day := Value();
      var name1, name2 := LoadBoth(game.row, p1, p2);
      var pvpInfo1, pvpInfo2 := LoadPurses(p1, p2);
      NoteFirst(p1, pvpInfo1.ticketDay);
      NoteFirst(p2, pvpInfo2.ticketDay);
      var winner := game.fights(fought, p1, p2);
      fought := fought + 1;
      ghost var noted := Value();
      remain' := CalFightResult(name1, pvpInfo1, name2, pvpInfo2, winner, remain);
      tickets := tickets[p1 := pvpInfo1.ticketDay];
      tickets := tickets[p2 := pvpInfo2.ticketDay];
      assert Outcome(game, day, p1, p2) == (pvpInfo1.ticketDay, pvpInfo2.ticketDay);
      PlacesIgnoreTickets(noted, remain, name1, pvpInfo1.ticketDay, name2, pvpInfo2.ticketDay, tickets);
      FightPlacesBoth(game, day, remain, p1, p2);
    }

    /** fight2Array */
    method Fight2Array(game: Game, userArea1: seq<Player>, userArea2: seq<Player>) returns (remain: seq<Entry>)
      modifies this
      ensures (Value(), remain) == FightPairs(game, old(Value()), userArea1, userArea2, [])
    {
      var u1, u2 := userArea1, userArea2;
      remain := [];
      while u1 != [] && u2 != []
        invariant FightPairs(game, Value(), u1, u2, remain)
               == FightPairs(game, old(Value()), userArea1, userArea2, [])
        decreases |u1|
      {
        var p1, p2 := u1[|u1| - 1], u2[|u2| - 1];
        u1, u2 := u1[..|u1| - 1], u2[..|u2| - 1];
        remain := FightOnce(game, p1, p2, remain);
      }
    }

    /** One pass of fightOne. */
    method PlayRound(game: Game, userArea: seq<Entry>) returns (remain: seq<Entry>)
      modifies this
      ensures (Value(), remain) == Round(game, old(Value()), userArea)
    {
      var paired, sOne := userArea, None;
      if |userArea| % 2 != 0 {
        sOne := Some(userArea[0]);
        paired := userArea[1..];
      }
      var userArea1, userArea2 := SplitField(paired);
      assert userArea1 == Firsts(userArea) && userArea2 == Seconds(userArea);
      // as long as each other, so the code's check for unequal lists never fails
      assert |userArea1| == |userArea2|;
      remain := Fight2Array(game, userArea1, userArea2);
      if sOne.Some? {
        remain := remain + [sOne.value];
      } else {
        assert remain + SitsOut(userArea) == remain;
      }
    }

    /** fightOne */
    method FightOne(game: Game, userArea: seq<Entry>) returns (remain: seq<Entry>)
      modifies this
      ensures (Value(), remain) == Rounds(game, old(Value()), userArea, 0)
    {
      var count := 0;
      remain := userArea;
      while !(count >= MAX_ROUNDS || |remain| <= ENOUGH)
        invariant Rounds(game, Value(), remain, count) == Rounds(game, old(Value()), userArea, 0)
        decreases MAX_ROUNDS - count
      {
        ghost var before := (Value(), remain);
        remain := PlayRound(game, remain);
        assert RoundStep(game)(before) == (Value(), remain) && StillMany()(before);
        count := count + 1;
      }
      assert count >= MAX_ROUNDS || !StillMany()((Value(), remain));
    }
  }

  /** Every second player, from `from` on, of the first `count`. */
  function Dealt(entries: seq<Entry>, from: nat, count: nat): seq<Player>
    requires count <= |entries|
  {
    Alternate(entries[..count], from)
  }

  lemma {:induction false} DealtNext(entries: seq<Entry>, from: nat, count: nat)
    requires from <= count < |entries|
    ensures Dealt(entries, from, count + 1)
            == Dealt(entries, from, count) + if (count - from) % 2 == 0 then [entries[count].player] else []
    decreases count - from
  {
    if count - from >= 2 {
      DealtNext(entries, from + 2, count);
    }
  }

  /** The loop of fightOne that deals the players to two lists in turn. */
  method SplitField(paired: seq<Entry>) returns (userArea1: seq<Player>, userArea2: seq<Player>)
    ensures userArea1 == Alternate(paired, 0) && userArea2 == Alternate(paired, 1)
  {
    userArea1, userArea2 := [], [];
    for i := 0 to |paired|
      invariant userArea1 == Dealt(paired, 0, i) && userArea2 == Dealt(paired, 1, i)
    {
      DealtNext(paired, 0, i);
      if i > 0 {
        DealtNext(paired, 1, i);
      }
      if i % 2 == 0 {
        userArea1 := userArea1 + [paired[i].player];
      } else {
        userArea2 := userArea2 + [paired[i].player];
      }
    }
    assert paired[..|paired|] == paired;
  }

  /** The start of _fightPvpDay: the entrants, and robots up to one hundred. */
  method DrawUpField(area: string, uuids: seq<string>) returns (userArea: seq<Entry>)
    ensures userArea == Entrants(area, uuids)
  {
    userArea := [];
    for i := 0 to |uuids|
      invariant userArea == Entrants(area, uuids)[..i]
    {
      userArea := userArea + [Entry(Person(area, uuids[i]), None)];
    }
    if |userArea| < FIELD {
      var size := FIELD - |userArea|;
      for i := 0 to size
        invariant userArea == Entrants(area, uuids)[..|uuids| + i]
      {
        userArea := userArea + [Entry(Robot(i + 1), None)];
      }
    }
  }

  /** One stage of fightF8, by popping. */
  method PlayStage(fights: Fights, userArea1: seq<Player>, userArea2: seq<Player>, fought: nat) returns (s: Stage)
    ensures s == Battle(fights, userArea1, userArea2, Stage([], [], fought))
  {
    var u1, u2 := userArea1, userArea2;
    s := Stage([], [], fought);
    while u1 != [] && u2 != []
      invariant Battle(fights, u1, u2, s) == Battle(fights, userArea1, userArea2, Stage([], [], fought))
      decreases |u1|
    {
      var p1, p2 := u1[|u1| - 1], u2[|u2| - 1];
      u1, u2 := u1[..|u1| - 1], u2[..|u2| - 1];
      var firstWins := fights(s.fought, p1, p2);
      s := Stage(s.win + [if firstWins then p1 else p2], s.fail + [if firstWins then p2 else p1], s.fought + 1);
    }
  }

  /** fightF8, with fight4 to fight1 */
  method FightF8(fights: Fights, f8: seq<Player>, fought: nat) returns (final8: seq<Player>)
    requires |f8| == 8
    ensures final8 == Final8(fights, f8, fought)
  {
    var s8 := PlayStage(fights, [f8[0], f8[2], f8[4], f8[6]], [f8[1], f8[3], f8[5], f8[7]], fought);
    assert s8 == Stage8(fights, f8, fought);
    var s4 := PlayStage(fights, Left4(s8), Right4(s8), s8.fought);
    assert s4 == Stage4(fights, s8);
    var s2 := PlayStage(fights, Left2(s4), Right2(s4), s4.fought);
    assert s2 == Stage2(fights, s4);
    var s1 := PlayStage(fights, Left1(s2), Right1(s2), s2.fought);
    assert s1 == Stage1(fights, s2);
    final8 := Ranked(s1);
  }

  lemma ReversedSnoc(s: seq<Player>, p: Player)
    ensures Reversed(s + [p]) == [p] + Reversed(s)
  {
  }

  lemma PlayersSnoc(entries: seq<Entry>, from: nat, i: nat)
    requires from <= i < |entries|
    ensures Players(entries[from..i + 1]) == Players(entries[from..i]) + [entries[i].player]
  {
  }

  /** _fightPvpDay: the first eight go to the finals, the others are spliced in before those out. */
  method DrawFinals(arena: Arena, sorted: seq<Entry>) returns (f8: seq<Player>)
    requires |sorted| > 8
    modifies arena`out
    ensures f8 == Players(sorted[..8])
    ensures arena.out == Reversed(Players(sorted[8..])) + old(arena.out)
  {
    f8 := [];
    for i := 0 to |sorted|
      invariant i <= 8 ==> f8 == Players(sorted[0..i]) && arena.out == old(arena.out)
      invariant i >= 8 ==> f8 == Players(sorted[0..8]) && arena.out == Reversed(Players(sorted[8..i])) + old(arena.out)
    {
      if i < 8 {
        PlayersSnoc(sorted, 0, i);
        f8 := f8 + [sorted[i].player];
      } else {
        PlayersSnoc(sorted, 8, i);
        ReversedSnoc(Players(sorted[8..i]), sorted[i].player);
        arena.out := [sorted[i].player] + arena.out;
      }
    }
    assert sorted[8..|sorted|] == sorted[8..] && sorted[0..8] == sorted[..8];
  }

  /** _fightPvpDay, once the players left are sorted: the finals, and the ranking. */
  method FinishDay(fights: Fights, arena: Arena, sorted: seq<Entry>) returns (ranking: Option<seq<Player>>)
    modifies arena`out
    ensures ranking == FinalSort(fights, old(arena.Value()), sorted)
  {
    if |sorted| < 8 {
      return None;
    }
    var f8: seq<Player> := [];
    if |sorted| > 8 {
      f8 := DrawFinals(arena, sorted);
    }
    if |f8| != 8 {
      return None;  // fightF8 reads players that are not there, and fails
    }
    var final8 := FightF8(fights, f8, arena.fought);
    arena.out := final8 + arena.out;
    ranking := Some(arena.out);
    AssembledInOrder(final8, Reversed(Players(sorted[8..])), old(arena.out));
  }

  lemma AssembledInOrder(a: seq<Player>, b: seq<Player>, c: seq<Player>)
    ensures a + (b + c) == a + b + c
  {
  }
}
