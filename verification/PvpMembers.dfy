/** Day tournament: who is lost and who is doubled when two robots share a record, and that nobody else ever is. */
module PvpMembers {
  import opened Wrappers
  import opened PvpDay

  lemma {:induction false} InsertAdds(first: map<Player, int>, out: seq<Player>, p: Player)
    ensures multiset(Insert(first, out, p)) == multiset(out) + multiset{p}
  {
    if out != [] && Held(first, p) < Held(first, out[0]) {
      InsertAdds(first, out[1..], p);
      assert out == [out[0]] + out[1..];
    }
  }

  lemma PlayersConcat(a: seq<Entry>, b: seq<Entry>)
    ensures Players(a + b) == Players(a) + Players(b)
  {
  }

  /** Everybody who is in play or out, with multiplicity. */
  ghost function Everyone(day: Day, entries: seq<Entry>): multiset<Player> {
    multiset(day.out) + multiset(Players(entries))
  }

  /** The same, of a state of the day. */
  ghost function Present(x: State): multiset<Player> {
    Everyone(x.0, x.1)
  }

  lemma EveryoneEnds(day: Day, entries: seq<Entry>, e: Entry)
    ensures Everyone(day, entries + [e]) == Everyone(day, entries) + multiset{e.player} == Everyone(day, [e] + entries)
  {
    PlayersConcat(entries, [e]);
    PlayersConcat([e], entries);
    assert Players([e]) == [e.player];
  }

  lemma PlaceAdds(day: Day, remain: seq<Entry>, p: Player, left: int)
    ensures var (day', remain') := Place(day, remain, p, left);
            Everyone(day', remain') == Everyone(day, remain) + multiset{p}
  {
    InsertAdds(day.first, day.out, p);
    EveryoneEnds(day, remain, Entry(p, Some(left)));
  }

  lemma FightAdds(game: Game, day: Day, remain: seq<Entry>, p1: Player, p2: Player)
    ensures var (day', remain') := Fight(game, day, remain, p1, p2);
            Everyone(day', remain') == Everyone(day, remain) + multiset{NameOfFirst(game.row, p1, p2)} + multiset{p2}
  {
    var (t1, t2) := Outcome(game, day, p1, p2);
    var name, day0 := NameOfFirst(game.row, p1, p2), Fought(game, day, p1, p2);
    PlaceAdds(day0, remain, name, t1);
    var (day1, remain1) := Place(day0, remain, name, t1);
    PlaceAdds(day1, remain1, p2, t2);
  }

  // ---------- the pairs of a round ----------

  /** The first players of the pairs that share a record. */
  function Lost(row: nat -> nat, u1: seq<Player>, u2: seq<Player>): multiset<Player>
    requires |u1| == |u2|
  {
    if u1 == [] then multiset{}
    else
      var n := |u1| - 1;
      Lost(row, u1[..n], u2[..n]) + if Shared(row, u1[n], u2[n]) then multiset{u1[n]} else multiset{}
  }

  lemma TakeLast<T>(u: seq<T>)
    requires u != []
    ensures multiset(u) == multiset(u[..|u| - 1]) + multiset{u[|u| - 1]}
  {
    assert u == u[..|u| - 1] + [u[|u| - 1]];
  }

  lemma LostStep(row: nat -> nat, u1: seq<Player>, u2: seq<Player>, p: Player)
    requires |u1| == |u2| > 0
    ensures var n := |u1| - 1;
            Lost(row, u1, u2)[p]
            == Lost(row, u1[..n], u2[..n])[p] + if Shared(row, u1[n], u2[n]) && u1[n] == p then 1 else 0
  {
  }

  /** The pairs of a round, whatever the lists: from each shared record the first player is lost, and the second
      is there twice. */
  lemma {:induction false} PairsAdd(
    game: Game, day: Day, u1: seq<Player>, u2: seq<Player>, remain: seq<Entry>, p: Player)
    requires |u1| == |u2|
    ensures Present(FightPairs(game, day, u1, u2, remain))[p] + Lost(game.row, u1, u2)[p]
            == Everyone(day, remain)[p] + multiset(u1)[p] + multiset(u2)[p] + Lost(game.row, u2, u1)[p]
    decreases |u1|
  {
    if u1 != [] {
      var n := |u1| - 1;
      FightAdds(game, day, remain, u1[n], u2[n]);
      var next := Fight(game, day, remain, u1[n], u2[n]);
      PairsAdd(game, next.0, u1[..n], u2[..n], next.1, p);
      TakeLast(u1);
      TakeLast(u2);
      LostStep(game.row, u1, u2, p);
      LostStep(game.row, u2, u1, p);
    }
  }

  predicate LostAt(row: nat -> nat, u1: seq<Player>, u2: seq<Player>, p: Player, i: nat)
    requires i < |u1| == |u2|
  {
    u1[i] == p && Shared(row, u1[i], u2[i])
  }

  lemma {:induction false} LostIsShared(row: nat -> nat, u1: seq<Player>, u2: seq<Player>, p: Player)
    requires |u1| == |u2|
    ensures p in Lost(row, u1, u2) <==> exists i :: 0 <= i < |u1| && LostAt(row, u1, u2, p, i)
  {
    if u1 != [] {
      var n := |u1| - 1;
      LostIsShared(row, u1[..n], u2[..n], p);
      LostStep(row, u1, u2, p);
      assert forall i :: 0 <= i < n ==> LostAt(row, u1[..n], u2[..n], p, i) == LostAt(row, u1, u2, p, i);
      assert Shared(row, u1[n], u2[n]) && u1[n] == p <==> LostAt(row, u1, u2, p, n);
    }
  }

  // ---------- a round ----------

  lemma FirstApart<T>(x: T, rest: seq<T>, y: T)
    ensures multiset([x] + rest)[y] == multiset(rest)[y] + if x == y then 1 else 0
  {
  }

  lemma AlternateStep(entries: seq<Entry>, from: nat, p: Player)
    requires from < |entries|
    ensures multiset(Alternate(entries, from))[p]
            == multiset(Alternate(entries, from + 2))[p] + if entries[from].player == p then 1 else 0
  {
    FirstApart(entries[from].player, Alternate(entries, from + 2), p);
  }

  lemma PlayersStep(entries: seq<Entry>, from: nat, p: Player)
    requires from < |entries|
    ensures multiset(Players(entries[from..]))[p]
            == multiset(Players(entries[from + 1..]))[p] + if entries[from].player == p then 1 else 0
  {
    assert Players(entries[from..]) == [entries[from].player] + Players(entries[from + 1..]);
    FirstApart(entries[from].player, Players(entries[from + 1..]), p);
  }

  lemma {:induction false} AlternateCounts(entries: seq<Entry>, from: nat, p: Player)
    requires from <= |entries|
    ensures multiset(Alternate(entries, from))[p] + multiset(Alternate(entries, from + 1))[p]
            == multiset(Players(entries[from..]))[p]
    decreases |entries| - from
  {
    if from < |entries| {
      AlternateCounts(entries, from + 1, p);
      AlternateStep(entries, from, p);
      PlayersStep(entries, from, p);
    }
  }

  lemma AlternateSplits(entries: seq<Entry>, p: Player)
    ensures multiset(Alternate(entries, 0))[p] + multiset(Alternate(entries, 1))[p] == multiset(Players(entries))[p]
  {
    assert entries[0..] == entries;
    AlternateCounts(entries, 0, p);
  }

  lemma PairedSplits(day: Day, entries: seq<Entry>)
    ensures Everyone(day, entries) == Everyone(day, Paired(entries)) + multiset(Players(SitsOut(entries)))
  {
    if |entries| % 2 != 0 {
      EveryoneEnds(day, entries[1..], entries[0]);
      assert entries == [entries[0]] + entries[1..];
      assert Players([entries[0]]) == [entries[0].player];
    } else {
      assert Players([]) == [];
    }
  }

  lemma EveryoneConcat(day: Day, a: seq<Entry>, b: seq<Entry>)
    ensures Everyone(day, a + b) == Everyone(day, a) + multiset(Players(b))
  {
    PlayersConcat(a, b);
  }

  lemma FieldSplits(day: Day, entries: seq<Entry>, p: Player)
    ensures Everyone(day, entries)[p]
            == multiset(day.out)[p] + multiset(Firsts(entries))[p] + multiset(Seconds(entries))[p]
               + multiset(Players(SitsOut(entries)))[p]
  {
    AlternateSplits(Paired(entries), p);
    PairedSplits(day, entries);
  }

  /** One round, whatever the list: the first players of pairs that share a record are lost, the second doubled. */
  lemma RoundAdds(game: Game, day: Day, entries: seq<Entry>, p: Player)
    ensures Present(Round(game, day, entries))[p] + Lost(game.row, Firsts(entries), Seconds(entries))[p]
            == Everyone(day, entries)[p] + Lost(game.row, Seconds(entries), Firsts(entries))[p]
  {
    PairsAdd(game, day, Firsts(entries), Seconds(entries), [], p);
    FieldSplits(day, entries, p);
    var (day', remain) := FightPairs(game, day, Firsts(entries), Seconds(entries), []);
    EveryoneConcat(day', remain, SitsOut(entries));
    assert Everyone(day, [])[p] == multiset(day.out)[p];
  }

  /** A round brings nobody in who was not there. */
  lemma NoNewcomers(game: Game, day: Day, entries: seq<Entry>, p: Player)
    requires p in Present(Round(game, day, entries))
    ensures p in Everyone(day, entries)
  {
    RoundAdds(game, day, entries, p);
    FieldSplits(day, entries, p);
    LostIsShared(game.row, Seconds(entries), Firsts(entries), p);
  }

  /** However often a player enrolled, a round leaves him as many places. */
  lemma RoundKeepsPersons(game: Game, day: Day, entries: seq<Entry>, p: Player)
    requires p.Person?
    ensures Present(Round(game, day, entries))[p] == Everyone(day, entries)[p]
  {
    RoundAdds(game, day, entries, p);
    LostIsShared(game.row, Firsts(entries), Seconds(entries), p);
    LostIsShared(game.row, Seconds(entries), Firsts(entries), p);
  }

  ghost predicate RobotsOnce(all: multiset<Player>) {
    forall p: Player :: p.Robot? ==> all[p] <= 1
  }

  lemma UnsharedKeepsEach(game: Game, day: Day, entries: seq<Entry>, p: Player)
    requires !Clash(game.row, entries)
    ensures Present(Round(game, day, entries))[p] == Everyone(day, entries)[p]
  {
    RoundAdds(game, day, entries, p);
    LostIsShared(game.row, Firsts(entries), Seconds(entries), p);
    LostIsShared(game.row, Seconds(entries), Firsts(entries), p);
  }

  lemma UnsharedKeeps(game: Game, day: Day, entries: seq<Entry>)
    requires !Clash(game.row, entries)
    ensures Present(Round(game, day, entries)) == Everyone(day, entries)
  {
    forall p ensures Present(Round(game, day, entries))[p] == Everyone(day, entries)[p] {
      UnsharedKeepsEach(game, day, entries, p);
    }
  }

  lemma AtIsIn(u: seq<Player>, i: nat)
    requires i < |u|
    ensures multiset(u)[u[i]] > 0
  {
    assert u[i] in u;
  }

  lemma OthersAreNotLost(row: nat -> nat, u1: seq<Player>, u2: seq<Player>, p: Player)
    requires |u1| == |u2| && multiset(u1)[p] == 0
    ensures Lost(row, u1, u2)[p] == 0
  {
    LostIsShared(row, u1, u2, p);
    assert p !in u1;
  }

  /** Of two robots that share a record, the first is gone after the round. */
  lemma FirstIsLost(game: Game, day: Day, entries: seq<Entry>, i: nat)
    requires i < |entries| / 2 && Shared(game.row, Firsts(entries)[i], Seconds(entries)[i])
    requires Everyone(day, entries)[Firsts(entries)[i]] <= 1
    ensures var p := Firsts(entries)[i]; p in Everyone(day, entries) && p !in Present(Round(game, day, entries))
  {
    var p, u1, u2 := Firsts(entries)[i], Firsts(entries), Seconds(entries);
    RoundAdds(game, day, entries, p);
    FieldSplits(day, entries, p);
    AtIsIn(u1, i);
    OthersAreNotLost(game.row, u2, u1, p);
    LostIsShared(game.row, u1, u2, p);
    assert LostAt(game.row, u1, u2, p, i);
  }

  lemma SharedLoses(game: Game, day: Day, entries: seq<Entry>) returns (p: Player)
    requires RobotsOnce(Everyone(day, entries)) && Clash(game.row, entries)
    ensures p in Everyone(day, entries) && p !in Present(Round(game, day, entries))
  {
    var i :| 0 <= i < |entries| / 2 && Shared(game.row, Firsts(entries)[i], Seconds(entries)[i]);
    p := Firsts(entries)[i];
    FirstIsLost(game, day, entries, i);
  }

  /** When no robot is listed twice: a round loses and doubles nobody if and only if no pair shares a record. */
  lemma RoundKeepsEverybody(game: Game, day: Day, entries: seq<Entry>)
    requires RobotsOnce(Everyone(day, entries))
    ensures Present(Round(game, day, entries)) == Everyone(day, entries) <==> !Clash(game.row, entries)
  {
    if Clash(game.row, entries) {
      var p := SharedLoses(game, day, entries);
    } else {
      UnsharedKeeps(game, day, entries);
    }
  }

  // ---------- all rounds ----------

  /** What every step but a bad one keeps, holds at the end of a run without bad steps. */
  lemma {:induction false} RepeatKeeps<S(!new)>(
    step: S -> S, more: S -> bool, bad: S -> bool, kept: S -> bool, state: S, count: nat)
    requires kept(state) && !Takes(step, more, bad, state, count)
    requires forall x :: kept(x) && more(x) && !bad(x) ==> kept(step(x))
    ensures kept(Repeat(step, more, state, count))
    decreases MAX_ROUNDS - count
  {
    if count < MAX_ROUNDS && more(state) {
      RepeatKeeps(step, more, bad, kept, step(state), count + 1);
    }
  }

  /** What every step keeps holds at the end of every run. */
  lemma {:induction false} RepeatKeepsAlways<S(!new)>(
    step: S -> S, more: S -> bool, kept: S -> bool, state: S, count: nat)
    requires kept(state)
    requires forall x :: kept(x) && more(x) ==> kept(step(x))
    ensures kept(Repeat(step, more, state, count))
    decreases MAX_ROUNDS - count
  {
    if count < MAX_ROUNDS && more(state) {
      RepeatKeepsAlways(step, more, kept, step(state), count + 1);
    }
  }

  /** What a bad step breaks for good is broken at the end of a run with a bad step. */
  lemma {:induction false} RepeatBreaks<S(!new)>(
    step: S -> S, more: S -> bool, bad: S -> bool, kept: S -> bool, broken: S -> bool, state: S, count: nat)
    requires kept(state) && Takes(step, more, bad, state, count)
    requires forall x :: kept(x) && more(x) && !bad(x) ==> kept(step(x))
    requires forall x :: kept(x) && more(x) && bad(x) ==> broken(step(x))
    requires forall x :: broken(x) && more(x) ==> broken(step(x))
    ensures broken(Repeat(step, more, state, count))
    decreases MAX_ROUNDS - count
  {
    if bad(state) {
      RepeatKeepsAlways(step, more, broken, step(state), count + 1);
    } else {
      RepeatBreaks(step, more, bad, kept, broken, step(state), count + 1);
    }
  }

  /** Players of flesh and blood are never lost or doubled, whatever records the robots share. */
  lemma RoundsKeepPersons(game: Game, day: Day, entries: seq<Entry>, count: nat, p: Player)
    requires p.Person?
    ensures Present(Rounds(game, day, entries, count))[p] == Everyone(day, entries)[p]
  {
    var times := Everyone(day, entries)[p];
    var kept := (x: State) => Present(x)[p] == times;
    forall x | kept(x) ensures kept(RoundStep(game)(x)) {
      RoundKeepsPersons(game, x.0, x.1, p);
    }
    RepeatKeepsAlways(RoundStep(game), StillMany(), kept, (day, entries), count);
  }

  lemma RoundKeepsAll(game: Game, x: State, all: multiset<Player>)
    requires Present(x) == all && !Clash(game.row, x.1)
    ensures Present(RoundStep(game)(x)) == all
  {
    UnsharedKeeps(game, x.0, x.1);
  }

  ghost predicate Misses(x: State, all: multiset<Player>) {
    exists p :: p in all && p !in Present(x)
  }

  lemma ClashMisses(game: Game, x: State, all: multiset<Player>)
    requires RobotsOnce(all) && Present(x) == all && Clash(game.row, x.1)
    ensures Misses(RoundStep(game)(x), all)
  {
    var p := SharedLoses(game, x.0, x.1);
    assert p in all && p !in Present(RoundStep(game)(x));
  }

  lemma StillMisses(game: Game, x: State, all: multiset<Player>)
    requires Misses(x, all)
    ensures Misses(RoundStep(game)(x), all)
  {
    var p :| p in all && p !in Present(x);
    if p in Present(RoundStep(game)(x)) {
      NoNewcomers(game, x.0, x.1, p);
    }
  }

  lemma ClashingRunMisses(game: Game, state: State, count: nat)
    requires RobotsOnce(Present(state)) && RunClashes(game, state.0, state.1, count)
    ensures Misses(Rounds(game, state.0, state.1, count), Present(state))
  {
    var all, bad := Present(state), ClashNow(game.row);
    var kept, broken := (x: State) => Present(x) == all, (x: State) => Misses(x, all);
    forall x | kept(x) ensures if bad(x) then broken(RoundStep(game)(x)) else kept(RoundStep(game)(x)) {
      if bad(x) {
        ClashMisses(game, x, all);
      } else {
        RoundKeepsAll(game, x, all);
      }
    }
    forall x | broken(x) ensures broken(RoundStep(game)(x)) {
      StillMisses(game, x, all);
    }
    RepeatBreaks(RoundStep(game), StillMany(), bad, kept, broken, state, count);
  }

  /** All rounds lose and double nobody if and only if no round that is fought pairs two robots of one record. */
  lemma RoundsKeepEverybody(game: Game, day: Day, entries: seq<Entry>, count: nat)
    requires RobotsOnce(Everyone(day, entries))
    ensures Present(Rounds(game, day, entries, count)) == Everyone(day, entries)
            <==> !RunClashes(game, day, entries, count)
  {
    var all := Everyone(day, entries);
    if RunClashes(game, day, entries, count) {
      ClashingRunMisses(game, (day, entries), count);
    } else {
      var kept := (x: State) => Present(x) == all;
      forall x | kept(x) && !ClashNow(game.row)(x) ensures kept(RoundStep(game)(x)) {
        RoundKeepsAll(game, x, all);
      }
      RepeatKeeps(RoundStep(game), StillMany(), ClashNow(game.row), kept, (day, entries), count);
    }
  }
}
