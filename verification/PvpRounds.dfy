/** Day tournament: what whole rounds, and all of them, keep and guarantee while no pair shares a record. */
module PvpRounds {
  import opened PvpDay
  import opened PvpMembers
  import opened PvpFights

  // ---------- one round ----------

  /** Nobody is listed twice, and nobody owes tickets. */
  ghost predicate RoundReady(day: Day, entries: seq<Entry>) {
    && OutDone(day) && Once(Everyone(day, entries))
    && (forall p :: p in Players(entries) ==> Held(day.tickets, p) >= 0)
  }

  lemma FieldOfRound(day: Day, entries: seq<Entry>, p: Player)
    ensures Everyone(day, entries)[p]
            == Field(day, [], Firsts(entries), Seconds(entries))[p] + multiset(Players(SitsOut(entries)))[p]
  {
    FieldSplits(day, entries, p);
  }

  lemma FightersPlay(entries: seq<Entry>, p: Player)
    ensures p in Firsts(entries) || p in Seconds(entries) ==> p in Players(entries)
  {
    var day := Day(map[], map[], [], 0);
    FieldSplits(day, entries, p);
    assert Everyone(day, entries)[p] == multiset(Players(entries))[p];
  }

  lemma PairedReady(row: nat -> nat, day: Day, entries: seq<Entry>)
    requires RoundReady(day, entries) && !Clash(row, entries)
    ensures PairsReady(row, day, Firsts(entries), Seconds(entries), [])
  {
    forall p ensures Field(day, [], Firsts(entries), Seconds(entries))[p] <= 1 {
      FieldOfRound(day, entries, p);
    }
    forall p | p in Firsts(entries) || p in Seconds(entries) ensures Held(day.tickets, p) >= 0 {
      FightersPlay(entries, p);
    }
  }

  lemma PairedLined(day: Day, entries: seq<Entry>)
    requires RoundReady(day, entries)
    ensures Lined(day.tickets, day.tickets, Firsts(entries), Seconds(entries))
  {
    forall p ensures (multiset(Firsts(entries)) + multiset(Seconds(entries)))[p] <= 1 {
      FieldOfRound(day, entries, p);
      assert Everyone(day, entries)[p] <= 1;
    }
    forall p | p in Firsts(entries) || p in Seconds(entries) ensures Held(day.tickets, p) >= 0 {
      FightersPlay(entries, p);
    }
  }

  /** Whatever records are shared, a round leaves as many as there are pairs with tickets, and who sat out. */
  lemma RoundLeaves(game: Game, day: Day, entries: seq<Entry>)
    requires RoundReady(day, entries)
    ensures |Round(game, day, entries).1|
            >= LivePairs(day.tickets, Firsts(entries), Seconds(entries)) + |entries| % 2
  {
    PairedLined(day, entries);
    PairsLeave(day.tickets, game, day, Firsts(entries), Seconds(entries), []);
  }

  lemma SitterFightsNot(day: Day, entries: seq<Entry>)
    requires Once(Everyone(day, entries)) && |entries| % 2 != 0
    ensures entries[0].player !in Firsts(entries) && entries[0].player !in Seconds(entries)
  {
    var p := entries[0].player;
    FieldSplits(day, entries, p);
    assert Players(SitsOut(entries)) == [p];
    assert Everyone(day, entries)[p] <= 1;
  }

  /** Whoever fought and goes on holds tickets, and his entry says how many; who sat out keeps what he had. */
  lemma RoundKeeps(game: Game, day: Day, entries: seq<Entry>)
    requires RoundReady(day, entries) && !Clash(game.row, entries)
    ensures var (day', next) := Round(game, day, entries);
            var odd := |entries| % 2;
            && OutDone(day') && |next| >= LivePairs(day.tickets, Firsts(entries), Seconds(entries)) + odd
            && AllInPlay(day', next[..|next| - odd]) && next[|next| - odd..] == SitsOut(entries)
            && (odd == 1 ==> Held(day'.tickets, entries[0].player) == Held(day.tickets, entries[0].player))
  {
    PairedReady(game.row, day, entries);
    PairsKeep(game, day, Firsts(entries), Seconds(entries), []);
    RoundLeaves(game, day, entries);
    var remain := FightPairs(game, day, Firsts(entries), Seconds(entries), []).1;
    assert (remain + SitsOut(entries))[..|remain|] == remain;
    if |entries| % 2 != 0 {
      SitterFightsNot(day, entries);
      PairsFrame(game, day, Firsts(entries), Seconds(entries), [], entries[0].player);
    }
  }

  /** Whoever is in play after a round holds no less than nothing. */
  lemma RoundOwesNothing(game: Game, day: Day, entries: seq<Entry>, i: nat)
    requires RoundReady(day, entries) && !Clash(game.row, entries)
    requires i < |Round(game, day, entries).1|
    ensures Held(Round(game, day, entries).0.tickets, Round(game, day, entries).1[i].player) >= 0
  {
    RoundKeeps(game, day, entries);
    var (day', next) := Round(game, day, entries);
    var fought := |next| - |entries| % 2;
    if i < fought {
      assert next[..fought][i] == next[i];
    } else {
      assert next[fought..][0] == next[i] && next[i] == entries[0];
      assert Players(entries)[0] == entries[0].player;
    }
  }

  lemma RoundStaysReady(game: Game, day: Day, entries: seq<Entry>)
    requires RoundReady(day, entries) && !Clash(game.row, entries)
    ensures var next := Round(game, day, entries);
            RoundReady(next.0, next.1)
  {
    RoundKeeps(game, day, entries);
    UnsharedKeeps(game, day, entries);
    var (day', next) := Round(game, day, entries);
    forall p | p in Players(next) ensures Held(day'.tickets, p) >= 0 {
      var i :| 0 <= i < |next| && Players(next)[i] == p;
      RoundOwesNothing(game, day, entries, i);
    }
  }

  /** All rounds: those out hold nothing and are ranked by the tickets they started with, and nobody owes any. */
  lemma RoundsStayReady(game: Game, day: Day, entries: seq<Entry>, count: nat)
    requires RoundReady(day, entries) && !RunClashes(game, day, entries, count)
    ensures var (day', rest) := Rounds(game, day, entries, count);
            RoundReady(day', rest)
  {
    var kept := (x: State) => RoundReady(x.0, x.1);
    forall x | kept(x) && !ClashNow(game.row)(x) ensures kept(RoundStep(game)(x)) {
      RoundStaysReady(game, x.0, x.1);
    }
    RepeatKeeps(RoundStep(game), StillMany(), ClashNow(game.row), kept, (day, entries), count);
  }

  // ---------- enough players for the finals ----------

  /** More than eight are in play, and with more than sixteen all but one of them hold tickets. */
  ghost predicate Enough(x: State) {
    |x.1| > 8 && (|x.1| > ENOUGH ==> Backed(x.0.tickets, Players(x.1)) >= |x.1| - 1)
  }

  lemma {:induction false} BackedAll(day: Day, entries: seq<Entry>)
    requires AllInPlay(day, entries)
    ensures Backed(day.tickets, Players(entries)) == |entries|
  {
    if entries != [] {
      var front := entries[..|entries| - 1];
      BackedAll(day, front);
      assert Players(entries)[..|entries| - 1] == Players(front);
    }
  }

  lemma BackedButLast(day: Day, entries: seq<Entry>)
    requires entries != [] && AllInPlay(day, entries[..|entries| - 1])
    ensures Backed(day.tickets, Players(entries)) >= |entries| - 1
  {
    BackedAll(day, entries[..|entries| - 1]);
    assert Players(entries)[..|entries| - 1] == Players(entries[..|entries| - 1]);
  }

  /** After a round, everybody in play but the last holds tickets. */
  lemma RoundBacks(game: Game, day: Day, entries: seq<Entry>)
    requires RoundReady(day, entries) && !Clash(game.row, entries)
    ensures var (day', next) := Round(game, day, entries);
            Backed(day'.tickets, Players(next)) >= |next| - 1
  {
    RoundKeeps(game, day, entries);
    var (day', next) := Round(game, day, entries);
    if |entries| % 2 == 0 {
      assert next[..|next|] == next;
      BackedAll(day', next);
    } else {
      BackedButLast(day', next);
    }
  }

  lemma BackedPaired(m: map<Player, int>, entries: seq<Entry>)
    ensures Backed(m, Players(Paired(entries))) + |entries| % 2 >= Backed(m, Players(entries))
  {
    if |entries| % 2 != 0 {
      BackedCons(m, entries[0].player, Players(entries[1..]));
      assert Players(entries) == [entries[0].player] + Players(entries[1..]);
    }
  }

  lemma BackedPairs(m: map<Player, int>, entries: seq<Entry>)
    ensures 2 * LivePairs(m, Firsts(entries), Seconds(entries)) + |entries| % 2 >= Backed(m, Players(entries))
  {
    LivePairsBacked(m, Firsts(entries), Seconds(entries));
    BackedSplits(m, Paired(entries));
    BackedPaired(m, entries);
  }

  lemma BackedSplits(m: map<Player, int>, entries: seq<Entry>)
    ensures Backed(m, Alternate(entries, 0)) + Backed(m, Alternate(entries, 1)) == Backed(m, Players(entries))
  {
    AlternateBacked(m, entries, 0);
    assert entries[0..] == entries;
  }

  lemma RoundLeavesEnough(game: Game, x: State)
    requires RoundReady(x.0, x.1) && !Clash(game.row, x.1) && |x.1| > ENOUGH && Enough(x)
    ensures Enough(Round(game, x.0, x.1))
  {
    RoundKeeps(game, x.0, x.1);
    BackedPairs(x.0.tickets, x.1);
    RoundBacks(game, x.0, x.1);
  }

  lemma RoundsLeaveEnough(game: Game, day: Day, entries: seq<Entry>, count: nat)
    requires RoundReady(day, entries) && !RunClashes(game, day, entries, count) && Enough((day, entries))
    ensures |Rounds(game, day, entries, count).1| > 8
  {
    var kept := (x: State) => RoundReady(x.0, x.1) && Enough(x);
    forall x | kept(x) && StillMany()(x) && !ClashNow(game.row)(x) ensures kept(RoundStep(game)(x)) {
      RoundStaysReady(game, x.0, x.1);
      RoundLeavesEnough(game, x);
    }
    RepeatKeeps(RoundStep(game), StillMany(), ClashNow(game.row), kept, (day, entries), count);
  }

  lemma NextRound(game: Game, day: Day, entries: seq<Entry>, count: nat)
    requires |entries| > ENOUGH && count < MAX_ROUNDS
    ensures var next := Round(game, day, entries);
            && Rounds(game, day, entries, count) == Rounds(game, next.0, next.1, count + 1)
            && (RunClashes(game, day, entries, count)
                <==> Clash(game.row, entries) || RunClashes(game, next.0, next.1, count + 1))
  {
    assert StillMany()((day, entries));
    assert RoundStep(game)((day, entries)) == Round(game, day, entries);
    assert ClashNow(game.row)((day, entries)) == Clash(game.row, entries);
  }

  /** Enough pairs of the first round hold tickets: known before any fight. */
  predicate EnoughPairs(m: map<Player, int>, entries: seq<Entry>, least: nat) {
    LivePairs(m, Firsts(entries), Seconds(entries)) + |entries| % 2 >= least
  }

  /** Nine players are left for the finals, whatever the fights bring. */
  lemma FieldSuffices(game: Game, day: Day, entries: seq<Entry>)
    requires RoundReady(day, entries) && !RunClashes(game, day, entries, 0)
    requires if |entries| <= ENOUGH then |entries| > 8 else EnoughPairs(day.tickets, entries, 9)
    ensures |Rounds(game, day, entries, 0).1| > 8
  {
    if |entries| > ENOUGH {
      NextRound(game, day, entries, 0);
      var next := Round(game, day, entries);
      RoundKeeps(game, day, entries);
      RoundBacks(game, day, entries);
      RoundStaysReady(game, day, entries);
      RoundsLeaveEnough(game, next.0, next.1, 1);
    }
  }

  // ---------- the fights that leave fewest ----------

  /** Whoever holds more tickets wins. */
  function RicherWins(m: map<Player, int>): Fights {
    (n: nat, p: Player, q: Player) => Held(m, p) >= Held(m, q)
  }

  lemma RicherTakesAll(m: map<Player, int>, game: Game, day: Day, remain: seq<Entry>, p1: Player, p2: Player)
    requires game.fights == RicherWins(m) && p1 != p2
    requires Held(m, p1) == Held(day.tickets, p1) >= 0 && Held(m, p2) == Held(day.tickets, p2) >= 0
    ensures |Fight(game, day, remain, p1, p2).1|
            == |remain| + if Held(day.tickets, p1) > 0 || Held(day.tickets, p2) > 0 then 1 else 0
  {
  }

  lemma {:induction false} RicherPairs(
    m: map<Player, int>, game: Game, day: Day, u1: seq<Player>, u2: seq<Player>, remain: seq<Entry>)
    requires |u1| == |u2| && game.fights == RicherWins(m) && Lined(m, day.tickets, u1, u2)
    ensures |FightPairs(game, day, u1, u2, remain).1| == |remain| + LivePairs(m, u1, u2)
    decreases |u1|
  {
    if u1 != [] {
      var n := |u1| - 1;
      LastApart(u1, u2);
      RicherTakesAll(m, game, day, remain, u1[n], u2[n]);
      LinedStep(m, game, day, u1, u2, remain);
      var next := Fight(game, day, remain, u1[n], u2[n]);
      RicherPairs(m, game, next.0, u1[..n], u2[..n], next.1);
    }
  }

  /** When the richer player always wins, a round leaves one player of each pair with tickets, and who sat out. */
  lemma RicherRound(row: nat -> nat, day: Day, entries: seq<Entry>)
    requires RoundReady(day, entries)
    ensures |Round(Game(RicherWins(day.tickets), row), day, entries).1|
            == LivePairs(day.tickets, Firsts(entries), Seconds(entries)) + |entries| % 2
  {
    PairedLined(day, entries);
    RicherPairs(day.tickets, Game(RicherWins(day.tickets), row), day, Firsts(entries), Seconds(entries), []);
  }

  /** A first round that leaves no more than sixteen is the last. */
  lemma LastRound(game: Game, day: Day, entries: seq<Entry>)
    requires |entries| > ENOUGH && |Round(game, day, entries).1| <= ENOUGH
    ensures Rounds(game, day, entries, 0) == Round(game, day, entries)
    ensures RunClashes(game, day, entries, 0) <==> Clash(game.row, entries)
  {
    NextRound(game, day, entries, 0);
    assert !StillMany()(Round(game, day, entries));
  }

  lemma FieldFails(row: nat -> nat, day: Day, entries: seq<Entry>)
    requires RoundReady(day, entries) && (|entries| > ENOUGH ==> !Clash(row, entries))
    requires !(if |entries| <= ENOUGH then |entries| > 8 else EnoughPairs(day.tickets, entries, 9))
    ensures var game := Game(RicherWins(day.tickets), row);
            !RunClashes(game, day, entries, 0) && |Rounds(game, day, entries, 0).1| <= 8
  {
    if |entries| > ENOUGH {
      RicherRound(row, day, entries);
      LastRound(Game(RicherWins(day.tickets), row), day, entries);
    } else {
      assert !StillMany()((day, entries));
    }
  }

  /** The finals get their players whatever the fights bring, while no pair shares a record, if and only if nine
      places of the first round are sure: a pair with tickets counts for one, and so does whoever sits out. */
  lemma FinalsGetTheirEight(row: nat -> nat, day: Day, entries: seq<Entry>)
    requires RoundReady(day, entries) && (|entries| > ENOUGH ==> !Clash(row, entries))
    ensures (forall fights: Fights ::
               RunClashes(Game(fights, row), day, entries, 0) || |Rounds(Game(fights, row), day, entries, 0).1| > 8)
            <==> if |entries| <= ENOUGH then |entries| > 8 else EnoughPairs(day.tickets, entries, 9)
  {
    if if |entries| <= ENOUGH then |entries| > 8 else EnoughPairs(day.tickets, entries, 9) {
      forall fights: Fights | !RunClashes(Game(fights, row), day, entries, 0)
        ensures |Rounds(Game(fights, row), day, entries, 0).1| > 8
      {
        FieldSuffices(Game(fights, row), day, entries);
      }
    } else {
      FieldFails(row, day, entries);
    }
  }

  // ---------- who meets whom ----------

  /** The fights of these pairs, one after the other. */
  function InTurn(game: Game, day: Day, pairs: seq<(Player, Player)>, remain: seq<Entry>): State
    decreases |pairs|
  {
    if pairs == [] then (day, remain)
    else
      var (day', remain') := Fight(game, day, remain, pairs[0].0, pairs[0].1);
      InTurn(game, day', pairs[1..], remain')
  }

  /** Neighbours meet, from the end of the list on. With an odd number the first of the list sits out and comes last. */
  lemma NeighboursMeet(game: Game, day: Day, entries: seq<Entry>) returns (pairs: seq<(Player, Player)>)
    ensures var n := |entries|;
            |pairs| == n / 2
            && forall k :: 0 <= k < n / 2 ==>
                 pairs[k] == (entries[n - 2 - 2 * k].player, entries[n - 1 - 2 * k].player)
    ensures var (day', remain) := InTurn(game, day, pairs, []);
            Round(game, day, entries) == (day', remain + entries[..|entries| % 2])
  {
    pairs := Neighbours(entries);
    PairsInTurn(game, day, Firsts(entries), Seconds(entries), []);
    RoundIs(game, day, entries);
  }

  lemma Neighbours(entries: seq<Entry>) returns (pairs: seq<(Player, Player)>)
    ensures pairs == FromTheEnd(Firsts(entries), Seconds(entries))
    ensures forall k :: 0 <= k < |entries| / 2 ==>
              pairs[k] == (entries[|entries| - 2 - 2 * k].player, entries[|entries| - 1 - 2 * k].player)
  {
    pairs := FromTheEnd(Firsts(entries), Seconds(entries));
    var paired, n, odd := Paired(entries), |entries| / 2, |entries| % 2;
    forall k | 0 <= k < n
      ensures pairs[k] == (entries[|entries| - 2 - 2 * k].player, entries[|entries| - 1 - 2 * k].player)
    {
      assert paired[2 * (n - 1 - k)] == entries[odd + 2 * (n - 1 - k)];
      assert paired[2 * (n - 1 - k) + 1] == entries[odd + 2 * (n - 1 - k) + 1];
    }
  }

  lemma RoundIs(game: Game, day: Day, entries: seq<Entry>)
    ensures var (day', remain) := FightPairs(game, day, Firsts(entries), Seconds(entries), []);
            Round(game, day, entries) == (day', remain + entries[..|entries| % 2])
  {
    FirstSitsOut(entries);
  }

  lemma FirstSitsOut(entries: seq<Entry>)
    ensures SitsOut(entries) == entries[..|entries| % 2]
  {
  }

  function FromTheEnd(u1: seq<Player>, u2: seq<Player>): (pairs: seq<(Player, Player)>)
    requires |u1| == |u2|
    ensures |pairs| == |u1| && forall k :: 0 <= k < |u1| ==> pairs[k] == (u1[|u1| - 1 - k], u2[|u1| - 1 - k])
  {
    seq(|u1|, k requires 0 <= k < |u1| => (u1[|u1| - 1 - k], u2[|u1| - 1 - k]))
  }

  lemma {:induction false} PairsInTurn(
    game: Game, day: Day, u1: seq<Player>, u2: seq<Player>, remain: seq<Entry>)
    requires |u1| == |u2|
    ensures FightPairs(game, day, u1, u2, remain) == InTurn(game, day, FromTheEnd(u1, u2), remain)
    decreases |u1|
  {
    if u1 != [] {
      var n := |u1| - 1;
      var (day', remain') := Fight(game, day, remain, u1[n], u2[n]);
      assert FromTheEnd(u1, u2)[1..] == FromTheEnd(u1[..n], u2[..n]);
      PairsInTurn(game, day', u1[..n], u2[..n], remain');
    }
  }

  // ---------- when the rounds end ----------

  function Iterate<S>(step: S -> S, x: S, n: nat): S
    decreases n
  {
    if n == 0 then x else Iterate(step, step(x), n - 1)
  }

  /** The day after so many rounds. */
  function AfterRounds(game: Game, day: Day, entries: seq<Entry>, n: nat): State {
    Iterate((x: State) => Round(game, x.0, x.1), (day, entries), n)
  }

  lemma {:induction false} RepeatEnds<S>(step: S -> S, more: S -> bool, x: S, count: nat) returns (n: nat)
    requires count <= 10
    ensures n <= 10 - count && Repeat(step, more, x, count) == Iterate(step, x, n)
    ensures forall k: nat :: k < n ==> more(Iterate(step, x, k))
    ensures n < 10 - count ==> !more(Iterate(step, x, n))
    decreases 10 - count
  {
    n := 0;
    if count < 10 && more(x) {
      var m := RepeatEnds(step, more, step(x), count + 1);
      n := m + 1;
      forall k: nat | k < n ensures more(Iterate(step, x, k)) {
        if k > 0 {
          assert Iterate(step, x, k) == Iterate(step, step(x), k - 1);
        }
      }
    }
  }

  /** The preliminaries end after the first round that leaves sixteen players or fewer, and after ten at the latest. */
  lemma RoundsEnd(game: Game, day: Day, entries: seq<Entry>) returns (n: nat)
    ensures n <= 10 && Rounds(game, day, entries, 0) == AfterRounds(game, day, entries, n)
    ensures forall k: nat :: k < n ==> |AfterRounds(game, day, entries, k).1| > 16
    ensures n < 10 ==> |AfterRounds(game, day, entries, n).1| <= 16
  {
    n := RepeatEnds(RoundStep(game), StillMany(), (day, entries), 0);
    assert forall k :: AfterRounds(game, day, entries, k) == Iterate(RoundStep(game), (day, entries), k) by {
      forall k ensures AfterRounds(game, day, entries, k) == Iterate(RoundStep(game), (day, entries), k) {
        SameIterate((x: State) => Round(game, x.0, x.1), RoundStep(game), (day, entries), k);
      }
    }
    forall k: nat | k < n ensures |AfterRounds(game, day, entries, k).1| > 16 {
      assert StillMany()(Iterate(RoundStep(game), (day, entries), k));
    }
  }

  lemma {:induction false} SameIterate<S>(step: S -> S, step': S -> S, x: S, n: nat)
    requires forall y :: step(y) == step'(y)
    ensures Iterate(step, x, n) == Iterate(step', x, n)
    decreases n
  {
    if n > 0 {
      SameIterate(step, step', step(x), n - 1);
    }
  }
}
