/** Day tournament: when only two robots can share a row, doubling one of them uses up nobody else's place. */
module PvpDoubles {
  import opened PvpDay
  import opened PvpMembers
  import opened PvpFights
  import opened PvpRounds
  import opened PvpField
  import opened PvpCourse

  /** Everybody once, with tickets. */
  ghost predicate Single(m: map<Player, int>, all: multiset<Player>) {
    forall p :: p in all ==> all[p] == 1 && Held(m, p) > 0
  }

  /** Robot `q` twice at most, and once at most when its purse is empty; everybody else once, with tickets. */
  ghost predicate Doubled(m: map<Player, int>, all: multiset<Player>, q: Player) {
    && q.Robot? && Held(m, q) >= 0 && all[q] <= 2 && (Held(m, q) == 0 ==> all[q] <= 1)
    && (forall p :: p in all && p != q ==> all[p] == 1 && Held(m, p) > 0)
  }

  /** No two but `r` and `s` share a row. */
  ghost predicate OnlyShare(row: nat -> nat, all: multiset<Player>, r: Player, s: Player) {
    forall p, q :: p in all && q in all && p != q && Shared(row, p, q) ==> (p == r && q == s) || (p == s && q == r)
  }

  ghost predicate NoneShare(row: nat -> nat, all: multiset<Player>) {
    forall p, q :: p in all && q in all && p != q ==> !Shared(row, p, q)
  }

  /** Before the two have met everybody is single; afterwards one of them is gone, and the other may be doubled. */
  ghost predicate Phase(row: nat -> nat, m: map<Player, int>, all: multiset<Player>, r: Player, s: Player) {
    || (Single(m, all) && OnlyShare(row, all, r, s))
    || (NoneShare(row, all) && (Doubled(m, all, r) || Doubled(m, all, s)))
  }

  // ---------- one fight ----------

  /** Who goes on, counted. */
  lemma FightCounts(game: Game, day: Day, remain: seq<Entry>, a: Player, b: Player, p: Player)
    ensures var (t1, t2) := Outcome(game, day, a, b);
            multiset(Players(Fight(game, day, remain, a, b).1))[p]
            == multiset(Players(remain))[p] + (if t1 != 0 && NameOfFirst(game.row, a, b) == p then 1 else 0)
               + if t2 != 0 && b == p then 1 else 0
  {
    FightNamed(game, day, remain, a, b);
  }

  lemma FightGrows(game: Game, day: Day, remain: seq<Entry>, a: Player, b: Player)
    ensures var (t1, t2) := Outcome(game, day, a, b);
            |Fight(game, day, remain, a, b).1|
            == |remain| + (if t1 != 0 then 1 else 0) + if t2 != 0 then 1 else 0
  {
    FightNamed(game, day, remain, a, b);
    assert |Players(Fight(game, day, remain, a, b).1)| == |Fight(game, day, remain, a, b).1|;
  }

  /** Everybody in play in the middle of a round, before and after a fight. */
  ghost function Before(remain: seq<Entry>, a: Player, b: Player, rest: multiset<Player>): multiset<Player> {
    multiset(Players(remain)) + rest + multiset{a} + multiset{b}
  }

  ghost function After(next: State, rest: multiset<Player>): multiset<Player> {
    multiset(Players(next.1)) + rest
  }

  lemma PositiveOutcome(game: Game, day: Day, a: Player, b: Player)
    requires a != b && Held(day.tickets, a) >= 0 && Held(day.tickets, b) >= 0
    requires Held(day.tickets, a) > 0 || Held(day.tickets, b) > 0
    ensures var (t1, t2) := Outcome(game, day, a, b);
            t1 >= 0 && t2 >= 0 && t1 + t2 > 0
  {
  }

  lemma SingleUnshared(game: Game, day: Day, remain: seq<Entry>, a: Player, b: Player, rest: multiset<Player>)
    requires Single(day.tickets, Before(remain, a, b, rest)) && a != b && !Shared(game.row, a, b)
    ensures var next := Fight(game, day, remain, a, b);
            && Single(next.0.tickets, After(next, rest)) && After(next, rest) <= Before(remain, a, b, rest)
            && |next.1| > |remain|
  {
    var next, all := Fight(game, day, remain, a, b), Before(remain, a, b, rest);
    assert all[a] == 1 && all[b] == 1;
    PositiveOutcome(game, day, a, b);
    FightGrows(game, day, remain, a, b);
    forall p ensures After(next, rest)[p] <= all[p] && (p in After(next, rest) ==> Held(next.0.tickets, p) > 0) {
      FightCounts(game, day, remain, a, b, p);
      FightStores(game, day, remain, a, b, p);
    }
  }

  lemma SingleShared(game: Game, day: Day, remain: seq<Entry>, a: Player, b: Player, rest: multiset<Player>)
    requires Single(day.tickets, Before(remain, a, b, rest)) && a != b && Shared(game.row, a, b)
    ensures var next := Fight(game, day, remain, a, b);
            && Doubled(next.0.tickets, After(next, rest), b) && After(next, rest)[a] == 0
            && (forall p :: p in After(next, rest) ==> p in Before(remain, a, b, rest))
            && |next.1| > |remain|
  {
    var next, all := Fight(game, day, remain, a, b), Before(remain, a, b, rest);
    assert all[a] == 1 && all[b] == 1;
    PositiveOutcome(game, day, a, b);
    FightGrows(game, day, remain, a, b);
    forall p
      ensures p != a && p != b ==> After(next, rest)[p] == all[p] && Held(next.0.tickets, p) == Held(day.tickets, p)
    {
      FightCounts(game, day, remain, a, b, p);
      FightStores(game, day, remain, a, b, p);
    }
    FightCounts(game, day, remain, a, b, a);
    FightCounts(game, day, remain, a, b, b);
    FightStores(game, day, remain, a, b, b);
  }

  lemma DoubledMeetsItself(game: Game, day: Day, remain: seq<Entry>, q: Player, rest: multiset<Player>)
    requires Doubled(day.tickets, Before(remain, q, q, rest), q)
    ensures var next := Fight(game, day, remain, q, q);
            && Doubled(next.0.tickets, After(next, rest), q) && After(next, rest) == Before(remain, q, q, rest)
            && |next.1| > |remain|
  {
    var next, all := Fight(game, day, remain, q, q), Before(remain, q, q, rest);
    assert all[q] == 2;
    FightGrows(game, day, remain, q, q);
    forall p ensures After(next, rest)[p] == all[p] && Held(next.0.tickets, p) == Held(day.tickets, p) {
      FightCounts(game, day, remain, q, q, p);
      FightStores(game, day, remain, q, q, p);
    }
  }

  lemma DoubledMeetsOther(
    game: Game, day: Day, remain: seq<Entry>, a: Player, b: Player, rest: multiset<Player>, q: Player)
    requires Doubled(day.tickets, Before(remain, a, b, rest), q) && a != b && !Shared(game.row, a, b)
    ensures var next := Fight(game, day, remain, a, b);
            && Doubled(next.0.tickets, After(next, rest), q) && After(next, rest) <= Before(remain, a, b, rest)
            && |next.1| > |remain|
  {
    var next, all := Fight(game, day, remain, a, b), Before(remain, a, b, rest);
    assert all[a] >= 1 && all[b] >= 1;
    PositiveOutcome(game, day, a, b);
    FightGrows(game, day, remain, a, b);
    forall p
      ensures After(next, rest)[p] <= all[p]
      ensures p in After(next, rest) && p != q ==> Held(next.0.tickets, p) > 0
      ensures p == q ==> Held(next.0.tickets, p) >= 0 && (Held(next.0.tickets, p) == 0 ==> After(next, rest)[p] <= 1)
    {
      FightCounts(game, day, remain, a, b, p);
      FightStores(game, day, remain, a, b, p);
    }
  }

  lemma FewerShare(row: nat -> nat, all: multiset<Player>, fewer: multiset<Player>, r: Player, s: Player)
    requires OnlyShare(row, all, r, s) && forall p :: p in fewer ==> p in all
    ensures OnlyShare(row, fewer, r, s)
    ensures r !in fewer || s !in fewer ==> NoneShare(row, fewer)
  {
  }

  lemma SingleStep(
    game: Game, day: Day, remain: seq<Entry>, a: Player, b: Player, rest: multiset<Player>, r: Player, s: Player)
    requires var all := Before(remain, a, b, rest); Single(day.tickets, all) && OnlyShare(game.row, all, r, s)
    ensures var next := Fight(game, day, remain, a, b);
            Phase(game.row, next.0.tickets, After(next, rest), r, s) && |next.1| > |remain|
  {
    var all, next := Before(remain, a, b, rest), Fight(game, day, remain, a, b);
    assert a in all && b in all;
    assert a == b ==> all[a] >= 2;
    if Shared(game.row, a, b) {
      SingleShared(game, day, remain, a, b, rest);
    } else {
      SingleUnshared(game, day, remain, a, b, rest);
    }
    FewerShare(game.row, all, After(next, rest), r, s);
  }

  lemma DoubledStep(
    game: Game, day: Day, remain: seq<Entry>, a: Player, b: Player, rest: multiset<Player>, q: Player)
    requires var all := Before(remain, a, b, rest); Doubled(day.tickets, all, q) && NoneShare(game.row, all)
    ensures var next := Fight(game, day, remain, a, b);
            && Doubled(next.0.tickets, After(next, rest), q) && NoneShare(game.row, After(next, rest))
            && |next.1| > |remain|
  {
    var all := Before(remain, a, b, rest);
    assert a in all && b in all;
    if a == b {
      assert all[a] >= 2;
      DoubledMeetsItself(game, day, remain, q, rest);
    } else {
      DoubledMeetsOther(game, day, remain, a, b, rest, q);
    }
  }

  lemma PhaseStep(
    game: Game, day: Day, remain: seq<Entry>, a: Player, b: Player, rest: multiset<Player>, r: Player, s: Player)
    requires Phase(game.row, day.tickets, Before(remain, a, b, rest), r, s)
    ensures var next := Fight(game, day, remain, a, b);
            Phase(game.row, next.0.tickets, After(next, rest), r, s) && |next.1| > |remain|
  {
    var all := Before(remain, a, b, rest);
    if Single(day.tickets, all) && OnlyShare(game.row, all, r, s) {
      SingleStep(game, day, remain, a, b, rest, r, s);
    } else {
      DoubledStep(game, day, remain, a, b, rest, if Doubled(day.tickets, all, r) then r else s);
    }
  }

  // ---------- the fights of a round ----------

  lemma {:induction false} PairsPhase(
    game: Game, day: Day, u1: seq<Player>, u2: seq<Player>, remain: seq<Entry>, rest: multiset<Player>,
    r: Player, s: Player)
    requires |u1| == |u2|
    requires Phase(game.row, day.tickets, multiset(Players(remain)) + rest + multiset(u1) + multiset(u2), r, s)
    ensures var next := FightPairs(game, day, u1, u2, remain);
            Phase(game.row, next.0.tickets, After(next, rest), r, s) && |next.1| >= |remain| + |u1|
    decreases |u1|
  {
    if u1 == [] {
      assert multiset(Players(remain)) + rest + multiset(u1) + multiset(u2) == multiset(Players(remain)) + rest;
    } else {
      var n := |u1| - 1;
      var others := rest + multiset(u1[..n]) + multiset(u2[..n]);
      TakeLast(u1);
      TakeLast(u2);
      assert multiset(Players(remain)) + rest + multiset(u1) + multiset(u2) == Before(remain, u1[n], u2[n], others);
      PhaseStep(game, day, remain, u1[n], u2[n], others, r, s);
      var next := Fight(game, day, remain, u1[n], u2[n]);
      assert After(next, others) == multiset(Players(next.1)) + rest + multiset(u1[..n]) + multiset(u2[..n]);
      PairsPhase(game, next.0, u1[..n], u2[..n], next.1, rest, r, s);
    }
  }

  /** Everybody in play. */
  ghost predicate InPhase(row: nat -> nat, x: State, r: Player, s: Player) {
    Phase(row, x.0.tickets, multiset(Players(x.1)), r, s)
  }

  lemma FieldInPairs(entries: seq<Entry>)
    ensures multiset(Players(entries))
            == multiset(Players([])) + multiset(Players(SitsOut(entries))) + multiset(Firsts(entries))
               + multiset(Seconds(entries))
  {
    var day := Morning(map[]);
    forall p ensures multiset(Players(entries))[p]
                  == (multiset(Players([])) + multiset(Players(SitsOut(entries))) + multiset(Firsts(entries))
                      + multiset(Seconds(entries)))[p] {
      FieldSplits(day, entries, p);
      assert Everyone(day, entries)[p] == multiset(Players(entries))[p];
    }
  }

  /** A round keeps the phase, and leaves somebody of every pair. */
  lemma RoundInPhase(game: Game, x: State, r: Player, s: Player)
    requires InPhase(game.row, x, r, s)
    ensures InPhase(game.row, Round(game, x.0, x.1), r, s)
    ensures |Round(game, x.0, x.1).1| >= |x.1| / 2 + |x.1| % 2
  {
    var rest := multiset(Players(SitsOut(x.1)));
    FieldInPairs(x.1);
    PairsPhase(game, x.0, Firsts(x.1), Seconds(x.1), [], rest, r, s);
    var fought := FightPairs(game, x.0, Firsts(x.1), Seconds(x.1), []);
    PlayersConcat(fought.1, SitsOut(x.1));
    assert multiset(Players(fought.1 + SitsOut(x.1))) == After(fought, rest);
  }

  lemma RoundsInPhase(game: Game, day: Day, entries: seq<Entry>, count: nat, r: Player, s: Player)
    requires InPhase(game.row, (day, entries), r, s) && |entries| > 8
    ensures |Rounds(game, day, entries, count).1| > 8
  {
    var kept := (x: State) => InPhase(game.row, x, r, s) && |x.1| > 8;
    forall x | kept(x) && StillMany()(x) ensures kept(RoundStep(game)(x)) {
      RoundInPhase(game, x, r, s);
    }
    RepeatKeepsAlways(RoundStep(game), StillMany(), kept, (day, entries), count);
  }

  // ---------- a field in which two robots share a row ----------

  lemma SingleWhenInPlay(day: Day, entries: seq<Entry>)
    requires AllInPlay(day, entries) && Once(Everyone(day, entries))
    ensures Single(day.tickets, multiset(Players(entries)))
  {
    forall p | p in multiset(Players(entries)) ensures multiset(Players(entries))[p] == 1 && Held(day.tickets, p) > 0 {
      assert Everyone(day, entries)[p] <= 1;
      var i :| 0 <= i < |entries| && Players(entries)[i] == p;
      assert InPlay(day, entries[i]);
    }
  }

  /** Nine sure places are enough for an even field in which only two robots share a row, whatever the fights. */
  lemma TwoOfOneRowSuffice(game: Game, day: Day, entries: seq<Entry>, r: Player, s: Player)
    requires RoundReady(day, entries) && day.out == [] && |entries| > ENOUGH && |entries| % 2 == 0
    requires !Clash(game.row, entries) && OnlyShare(game.row, multiset(Players(entries)), r, s)
    requires EnoughPairs(day.tickets, entries, 9)
    ensures |Rounds(game, day, entries, 0).1| > 8
  {
    var next := Round(game, day, entries);
    RoundKeeps(game, day, entries);
    RoundStaysReady(game, day, entries);
    assert next.1[..|next.1|] == next.1;
    SingleWhenInPlay(next.0, next.1);
    forall p | p in Players(next.1) ensures p in multiset(Players(entries)) {
      assert p in Present(next);
      NoNewcomers(game, day, entries, p);
    }
    NextRound(game, day, entries, 0);
    RoundsInPhase(game, next.0, next.1, 1, r, s);
  }

  lemma EightySevenShare(area: string, uuids: seq<string>)
    requires |uuids| == FIELD - ROWS - 1
    ensures OnlyShare(TableRow(), multiset(Players(Entrants(area, uuids))), Robot(1), Robot(13))
  {
    var ps := Players(Entrants(area, uuids));
    forall p, q | p in ps && q in ps && p != q && Shared(TableRow(), p, q)
      ensures (p == Robot(1) && q == Robot(13)) || (p == Robot(13) && q == Robot(1))
    {
      var i :| 0 <= i < |ps| && ps[i] == p;
      var j :| 0 <= j < |ps| && ps[j] == q;
      EntrantAt(area, uuids, i);
      EntrantAt(area, uuids, j);
    }
  }

  /** So nine sure places are enough with eighty-seven players. */
  lemma EightySevenSuffice(fights: Fights, area: string, uuids: seq<string>, tickets: map<Player, int>)
    requires |uuids| == FIELD - ROWS - 1 && RoundReady(Morning(tickets), Entrants(area, uuids))
    requires EnoughPairs(tickets, Entrants(area, uuids), 9)
    ensures |Rounds(Game(fights, TableRow()), Morning(tickets), Entrants(area, uuids), 0).1| > 8
  {
    FirstRoundIsSafe(area, uuids);
    EightySevenShare(area, uuids);
    TwoOfOneRowSuffice(Game(fights, TableRow()), Morning(tickets), Entrants(area, uuids), Robot(1), Robot(13));
  }
}
