/** Day tournament: what happens to the tickets when a player is listed twice. */
module PvpRepeats {
  import opened Wrappers
  import opened PvpDay
  import opened PvpMembers
  import opened PvpFights
  import opened PvpRounds

  /** Somebody who meets himself is in play with twice his tickets and out at once; stored is twice as much when
      his second self wins, and nothing when his first self does. */
  lemma AgainstHimself(game: Game, day: Day, remain: seq<Entry>, p: Player)
    requires MeetsHimself(day.tickets, p, p) && Held(day.tickets, p) >= 0
    ensures var (day', remain') := Fight(game, day, remain, p, p);
            && remain' == remain + [Entry(p, Some(2 * Held(day.tickets, p)))]
            && multiset(day'.out) == multiset(day.out) + multiset{p}
            && Held(day'.tickets, p) == if game.fights(day.fought, p, p) then 0 else 2 * Held(day.tickets, p)
  {
    InsertAdds(Fought(game, day, p, p).first, day.out, p);
  }

  // ---------- one round ----------

  /** Player `a` wins against everybody, and whoever is named first beats himself. */
  function Favours(a: Player): Fights {
    (n: nat, p: Player, q: Player) => p == a || q != a
  }

  lemma TotalOfOne(m: map<Player, int>, m': map<Player, int>, s: set<Player>, p: Player)
    requires p in s && forall q :: q in s && q != p ==> Held(m, q) == Held(m', q)
    ensures Total(m', s) - Total(m, s) == Held(m', p) - Held(m, p)
  {
    TotalRemove(m, s, p);
    TotalRemove(m', s, p);
    TotalFrame(m, m', s - {p});
  }

  /** A fight then makes no tickets, loses some when `a` meets himself, and takes none from `a` otherwise. */
  lemma FavourFight(a: Player, game: Game, day: Day, remain: seq<Entry>, p1: Player, p2: Player, s: set<Player>)
    requires game.fights == Favours(a) && a.Person? && p1 in s && p2 in s
    requires Held(day.tickets, p1) >= 0 && Held(day.tickets, p2) >= 0
    ensures var m := Fight(game, day, remain, p1, p2).0.tickets;
            && Total(m, s) <= Total(day.tickets, s)
            && (p1 == p2 == a ==> Total(m, s) == Total(day.tickets, s) - Held(day.tickets, a))
            && (!(p1 == p2 == a) ==> Held(m, a) >= Held(day.tickets, a))
  {
    var m := Fight(game, day, remain, p1, p2).0.tickets;
    if MeetsHimself(day.tickets, p1, p2) {
      TotalOfOne(day.tickets, m, s, p1);
    } else {
      FightConserves(game, day, remain, p1, p2, s);
    }
  }

  lemma {:induction false} FavourMakesNone(
    a: Player, game: Game, day: Day, u1: seq<Player>, u2: seq<Player>, remain: seq<Entry>, s: set<Player>)
    requires game.fights == Favours(a) && a.Person?
    requires |u1| == |u2| && Solvent(day.tickets, u1, u2, s)
    ensures Total(FightPairs(game, day, u1, u2, remain).0.tickets, s) <= Total(day.tickets, s)
    decreases |u1|
  {
    if u1 != [] {
      var n := |u1| - 1;
      FavourFight(a, game, day, remain, u1[n], u2[n], s);
      StaysSolvent(game, day, u1, u2, remain, s);
      var next := Fight(game, day, remain, u1[n], u2[n]);
      FavourMakesNone(a, game, next.0, u1[..n], u2[..n], next.1, s);
    }
  }

  lemma FavourMeets(
    a: Player, game: Game, day: Day, u1: seq<Player>, u2: seq<Player>, remain: seq<Entry>, s: set<Player>)
    requires game.fights == Favours(a) && a.Person? && Held(day.tickets, a) > 0
    requires |u1| == |u2| > 0 && Solvent(day.tickets, u1, u2, s) && u1[|u1| - 1] == u2[|u2| - 1] == a
    ensures Total(FightPairs(game, day, u1, u2, remain).0.tickets, s) < Total(day.tickets, s)
  {
    var n := |u1| - 1;
    FavourFight(a, game, day, remain, u1[n], u2[n], s);
    StaysSolvent(game, day, u1, u2, remain, s);
    var next := Fight(game, day, remain, u1[n], u2[n]);
    FavourMakesNone(a, game, next.0, u1[..n], u2[..n], next.1, s);
    assert FightPairs(game, day, u1, u2, remain) == FightPairs(game, next.0, u1[..n], u2[..n], next.1);
  }

  lemma {:induction false} FavourLosesSome(
    a: Player, game: Game, day: Day, u1: seq<Player>, u2: seq<Player>, remain: seq<Entry>, s: set<Player>, i: nat)
    requires game.fights == Favours(a) && a.Person? && Held(day.tickets, a) > 0
    requires |u1| == |u2| && Solvent(day.tickets, u1, u2, s)
    requires i < |u1| && u1[i] == u2[i] == a
    ensures Total(FightPairs(game, day, u1, u2, remain).0.tickets, s) < Total(day.tickets, s)
    decreases |u1|
  {
    var n := |u1| - 1;
    if u1[n] == u2[n] == a {
      FavourMeets(a, game, day, u1, u2, remain, s);
    } else {
      FavourFight(a, game, day, remain, u1[n], u2[n], s);
      StaysSolvent(game, day, u1, u2, remain, s);
      var next := Fight(game, day, remain, u1[n], u2[n]);
      FavourLosesSome(a, game, next.0, u1[..n], u2[..n], next.1, s, i);
    }
  }

  predicate SelfMeeting(m: map<Player, int>, entries: seq<Entry>) {
    exists i :: 0 <= i < |entries| / 2 && MeetsHimself(m, Firsts(entries)[i], Seconds(entries)[i])
  }

  /** A round makes and loses no tickets, whatever the fights bring, if and only if nobody of flesh and blood who
      holds any meets himself. Shared records make no difference. */
  lemma RoundConservesTickets(row: nat -> nat, day: Day, entries: seq<Entry>, s: set<Player>)
    requires Solvent(day.tickets, Firsts(entries), Seconds(entries), s)
    ensures (forall fights: Fights ::
               Total(Round(Game(fights, row), day, entries).0.tickets, s) == Total(day.tickets, s))
            <==> !SelfMeeting(day.tickets, entries)
  {
    var u1, u2 := Firsts(entries), Seconds(entries);
    if SelfMeeting(day.tickets, entries) {
      var i :| 0 <= i < |entries| / 2 && MeetsHimself(day.tickets, u1[i], u2[i]);
      var game := Game(Favours(u1[i]), row);
      FavourLosesSome(u1[i], game, day, u1, u2, [], s, i);
      assert Total(Round(game, day, entries).0.tickets, s) != Total(day.tickets, s);
    } else {
      forall fights: Fights
        ensures Total(Round(Game(fights, row), day, entries).0.tickets, s) == Total(day.tickets, s)
      {
        PairsConserve(Game(fights, row), day, u1, u2, [], s);
      }
    }
  }

  // ---------- all rounds ----------

  ghost predicate PersonsOnce(all: multiset<Player>) {
    forall p: Player :: p.Person? ==> all[p] <= 1
  }

  /** Everybody is in `s`, nobody in it owes tickets, and together they hold `total`. */
  ghost predicate Balanced(x: State, s: set<Player>, total: int) {
    && PersonsOnce(Present(x)) && (forall p :: p in Present(x) ==> p in s)
    && (forall p :: p in s ==> Held(x.0.tickets, p) >= 0) && Total(x.0.tickets, s) == total
  }

  lemma OncePersonsMeetOthers(day: Day, entries: seq<Entry>, i: nat)
    requires PersonsOnce(Everyone(day, entries)) && i < |entries| / 2
    ensures Firsts(entries)[i] != Seconds(entries)[i] || Firsts(entries)[i].Robot?
  {
    var p := Firsts(entries)[i];
    FieldSplits(day, entries, p);
    AtIsIn(Firsts(entries), i);
    AtIsIn(Seconds(entries), i);
  }

  lemma FightersAreSolvent(x: State, s: set<Player>, total: int)
    requires Balanced(x, s, total)
    ensures Solvent(x.0.tickets, Firsts(x.1), Seconds(x.1), s)
  {
    forall i | 0 <= i < |x.1| / 2 ensures Firsts(x.1)[i] in s && Seconds(x.1)[i] in s {
      FightersPlay(x.1, Firsts(x.1)[i]);
      FightersPlay(x.1, Seconds(x.1)[i]);
      assert Firsts(x.1)[i] in Present(x) && Seconds(x.1)[i] in Present(x);
    }
  }

  lemma {:induction false} PairsStaySolvent(
    game: Game, day: Day, u1: seq<Player>, u2: seq<Player>, remain: seq<Entry>, s: set<Player>)
    requires |u1| == |u2| && Solvent(day.tickets, u1, u2, s)
    ensures forall p :: p in s ==> Held(FightPairs(game, day, u1, u2, remain).0.tickets, p) >= 0
    decreases |u1|
  {
    if u1 != [] {
      var n := |u1| - 1;
      StaysSolvent(game, day, u1, u2, remain, s);
      var next := Fight(game, day, remain, u1[n], u2[n]);
      PairsStaySolvent(game, next.0, u1[..n], u2[..n], next.1, s);
    }
  }

  lemma RoundStaysBalanced(game: Game, x: State, s: set<Player>, total: int)
    requires Balanced(x, s, total)
    ensures Balanced(Round(game, x.0, x.1), s, total)
  {
    FightersAreSolvent(x, s, total);
    forall i | 0 <= i < |x.1| / 2 ensures !MeetsHimself(x.0.tickets, Firsts(x.1)[i], Seconds(x.1)[i]) {
      OncePersonsMeetOthers(x.0, x.1, i);
    }
    PairsConserve(game, x.0, Firsts(x.1), Seconds(x.1), [], s);
    PairsStaySolvent(game, x.0, Firsts(x.1), Seconds(x.1), [], s);
    var next := Round(game, x.0, x.1);
    forall p: Player | p.Person? ensures Present(next)[p] <= 1 {
      RoundKeepsPersons(game, x.0, x.1, p);
    }
    forall p | p in Present(next) ensures p in s {
      NoNewcomers(game, x.0, x.1, p);
    }
  }

  /** All rounds: when nobody of flesh and blood is listed twice, no ticket is made or lost, even when robots share
      records. */
  lemma RoundsConserveTickets(game: Game, day: Day, entries: seq<Entry>, count: nat, s: set<Player>)
    requires Balanced((day, entries), s, Total(day.tickets, s))
    ensures Balanced(Rounds(game, day, entries, count), s, Total(day.tickets, s))
  {
    var total := Total(day.tickets, s);
    var kept := (x: State) => Balanced(x, s, total);
    forall x | kept(x) ensures kept(RoundStep(game)(x)) {
      RoundStaysBalanced(game, x, s, total);
    }
    RepeatKeepsAlways(RoundStep(game), StillMany(), kept, (day, entries), count);
  }
}
