/** Day tournament: the field of entrants, filled up with robots, and when two robots of one record can meet. */
module PvpField {
  import opened Wrappers
  import opened PvpDay
  import opened PvpMembers
  import opened PvpFights
  import opened PvpRounds

  /** So many entrants at least: robots fill up. */
  const FIELD: nat := 100
  /** Tickets that enrolment asks for. */
  const ENROL_TICKETS: int := 10
  /** Rows of the robot table. */
  const ROWS: nat := 12

  function Missing(uuids: seq<string>): nat {
    if |uuids| < FIELD then FIELD - |uuids| else 0
  }

  /** The entrants of a day: the enrolled players of one area, and numbered robots. */
  function Entrants(area: string, uuids: seq<string>): (entries: seq<Entry>)
    ensures |entries| == if |uuids| < FIELD then FIELD else |uuids|
  {
    seq(|uuids|, i requires 0 <= i < |uuids| => Entry(Person(area, uuids[i]), None))
    + seq(Missing(uuids), i requires 0 <= i => Entry(Robot(i + 1), None))
  }

  /** getRobotPlayerInfo: the remainder picks the row. */
  function TableRow(): nat -> nat {
    (n: nat) => n % ROWS
  }

  /** No tickets noted, nobody out: the day before the first round. */
  function Morning(tickets: map<Player, int>): Day {
    Day(tickets, map[], [], 0)
  }

  // ---------- who is listed how often ----------

  lemma {:induction false} ListedOnce(ps: seq<Player>, p: Player)
    requires forall i, j :: 0 <= i < j < |ps| && ps[i] == p ==> ps[j] != p
    ensures multiset(ps)[p] <= 1
  {
    if ps != [] {
      ListedOnce(ps[1..], p);
      assert ps == [ps[0]] + ps[1..];
      if ps[0] == p {
        assert p !in ps[1..];
      }
    }
  }

  /** The field, place by place: a hundred at least, those enrolled in front, and robots numbered from 1 behind them,
      none with tickets to show. */
  lemma EntrantAt(area: string, uuids: seq<string>, i: nat)
    requires i < |Entrants(area, uuids)|
    ensures |Entrants(area, uuids)| == if |uuids| < 100 then 100 else |uuids|
    ensures Players(Entrants(area, uuids))[i]
            == if i < |uuids| then Person(area, uuids[i]) else Robot(i - |uuids| + 1)
    ensures Entrants(area, uuids)[i] == Entry(Players(Entrants(area, uuids))[i], None)
  {
  }

  /** Whatever the enrolment, no robot is listed twice. */
  lemma RobotsListedOnce(area: string, uuids: seq<string>, tickets: map<Player, int>)
    ensures RobotsOnce(Everyone(Morning(tickets), Entrants(area, uuids)))
  {
    var ps := Players(Entrants(area, uuids));
    forall p: Player | p.Robot? ensures multiset(ps)[p] <= 1 {
      forall i, j | 0 <= i < j < |ps| && ps[i] == p ensures ps[j] != p {
        EntrantAt(area, uuids, i);
        EntrantAt(area, uuids, j);
      }
      ListedOnce(ps, p);
    }
    assert Everyone(Morning(tickets), Entrants(area, uuids)) == multiset(ps);
  }

  predicate Distinct(uuids: seq<string>) {
    forall i, j :: 0 <= i < j < |uuids| ==> uuids[i] != uuids[j]
  }

  lemma EntrantsListedOnce(area: string, uuids: seq<string>, p: Player)
    requires Distinct(uuids)
    ensures multiset(Players(Entrants(area, uuids)))[p] <= 1
  {
    var ps := Players(Entrants(area, uuids));
    forall i, j | 0 <= i < j < |ps| && ps[i] == p ensures ps[j] != p {
      EntrantAt(area, uuids, i);
      EntrantAt(area, uuids, j);
    }
    ListedOnce(ps, p);
  }

  lemma {:induction false} ListedTwice(ps: seq<Player>, i: nat, j: nat)
    requires i < j < |ps| && ps[i] == ps[j]
    ensures multiset(ps)[ps[i]] >= 2
  {
    assert ps == ps[..j] + ps[j..];
    assert ps[..j][i] == ps[i] && ps[j..][0] == ps[j];
    AtIsIn(ps[..j], i);
    AtIsIn(ps[j..], 0);
  }

  /** The first round finds its players ready if and only if nobody enrolled twice and nobody owes tickets. */
  lemma MorningIsReady(area: string, uuids: seq<string>, tickets: map<Player, int>)
    ensures RoundReady(Morning(tickets), Entrants(area, uuids))
            <==> Distinct(uuids) && forall p :: p in Players(Entrants(area, uuids)) ==> Held(tickets, p) >= 0
  {
    var entries := Entrants(area, uuids);
    assert Everyone(Morning(tickets), entries) == multiset(Players(entries));
    if Distinct(uuids) {
      forall p ensures multiset(Players(entries))[p] <= 1 {
        EntrantsListedOnce(area, uuids, p);
      }
    } else {
      var i, j :| 0 <= i < j < |uuids| && uuids[i] == uuids[j];
      EntrantAt(area, uuids, i);
      EntrantAt(area, uuids, j);
      ListedTwice(Players(entries), i, j);
    }
  }

  // ---------- records that are not shared ----------

  /** A round pairs neighbours. */
  lemma PairAt(entries: seq<Entry>, i: nat)
    requires i < |entries| / 2
    ensures var ps, k := Players(entries), 2 * i + |entries| % 2;
            Firsts(entries)[i] == ps[k] && Seconds(entries)[i] == ps[k + 1]
  {
  }

  lemma NeighboursDiffer(n: nat)
    ensures !Shared(TableRow(), Robot(n), Robot(n + 1))
  {
  }

  lemma NeighbourEntrants(area: string, uuids: seq<string>, i: nat)
    requires i + 1 < |Entrants(area, uuids)|
    ensures !Shared(TableRow(), Players(Entrants(area, uuids))[i], Players(Entrants(area, uuids))[i + 1])
  {
    EntrantAt(area, uuids, i);
    EntrantAt(area, uuids, i + 1);
    if i >= |uuids| {
      NeighboursDiffer(i - |uuids| + 1);
    }
  }

  lemma FirstPairsDiffer(area: string, uuids: seq<string>, i: nat)
    requires i < |Entrants(area, uuids)| / 2
    ensures !Shared(TableRow(), Firsts(Entrants(area, uuids))[i], Seconds(Entrants(area, uuids))[i])
  {
    PairAt(Entrants(area, uuids), i);
    NeighbourEntrants(area, uuids, 2 * i + |Entrants(area, uuids)| % 2);
  }

  /** The first round of a day never pairs two robots of one row: it pairs neighbours. */
  lemma FirstRoundIsSafe(area: string, uuids: seq<string>)
    ensures !Clash(TableRow(), Entrants(area, uuids))
  {
    forall i | 0 <= i < |Entrants(area, uuids)| / 2
      ensures !Shared(TableRow(), Firsts(Entrants(area, uuids))[i], Seconds(Entrants(area, uuids))[i])
    {
      FirstPairsDiffer(area, uuids, i);
    }
  }

  /** All robots of this field are loaded from different rows. */
  ghost predicate RowsApart(row: nat -> nat, all: multiset<Player>) {
    forall p, q :: p in all && q in all && Shared(row, p, q) ==> p == q
  }

  lemma ApartDoNotClash(row: nat -> nat, day: Day, entries: seq<Entry>)
    requires RobotsOnce(Everyone(day, entries)) && RowsApart(row, Everyone(day, entries))
    ensures !Clash(row, entries)
  {
    if Clash(row, entries) {
      var i :| 0 <= i < |entries| / 2 && Shared(row, Firsts(entries)[i], Seconds(entries)[i]);
      var p, q := Firsts(entries)[i], Seconds(entries)[i];
      FieldSplits(day, entries, p);
      FieldSplits(day, entries, q);
      AtIsIn(Firsts(entries), i);
      AtIsIn(Seconds(entries), i);
    }
  }

  lemma {:induction false} TakesNone<S(!new)>(
    step: S -> S, more: S -> bool, bad: S -> bool, kept: S -> bool, state: S, count: nat)
    requires kept(state)
    requires forall x :: kept(x) && more(x) ==> !bad(x) && kept(step(x))
    ensures !Takes(step, more, bad, state, count)
    decreases MAX_ROUNDS - count
  {
    if count < MAX_ROUNDS && more(state) {
      TakesNone(step, more, bad, kept, step(state), count + 1);
    }
  }

  /** Robots of different rows never share a record, whatever the fights and the tickets. */
  lemma ApartRunDoesNotClash(game: Game, day: Day, entries: seq<Entry>, count: nat)
    requires RobotsOnce(Everyone(day, entries)) && RowsApart(game.row, Everyone(day, entries))
    ensures !RunClashes(game, day, entries, count)
  {
    var all := Everyone(day, entries);
    var kept := (x: State) => Present(x) == all;
    forall x | kept(x) ensures !ClashNow(game.row)(x) && kept(RoundStep(game)(x)) {
      ApartDoNotClash(game.row, x.0, x.1);
      RoundKeepsAll(game, x, all);
    }
    TakesNone(RoundStep(game), StillMany(), ClashNow(game.row), kept, (day, entries), count);
  }

  lemma FewRobotsApart(area: string, uuids: seq<string>, tickets: map<Player, int>)
    requires |uuids| >= FIELD - ROWS
    ensures RowsApart(TableRow(), Everyone(Morning(tickets), Entrants(area, uuids)))
  {
    var ps := Players(Entrants(area, uuids));
    forall p, q | p in ps && q in ps && Shared(TableRow(), p, q) ensures p == q {
      var i :| 0 <= i < |ps| && ps[i] == p;
      var j :| 0 <= j < |ps| && ps[j] == q;
      EntrantAt(area, uuids, i);
      EntrantAt(area, uuids, j);
    }
  }

  /** With at least eighty-eight enrolled players, the robots that fill up are all of different rows. */
  lemma FewRobotsAreSafe(fights: Fights, area: string, uuids: seq<string>, tickets: map<Player, int>)
    requires |uuids| >= FIELD - ROWS
    ensures !RunClashes(Game(fights, TableRow()), Morning(tickets), Entrants(area, uuids), 0)
  {
    RobotsListedOnce(area, uuids, tickets);
    FewRobotsApart(area, uuids, tickets);
    ApartRunDoesNotClash(Game(fights, TableRow()), Morning(tickets), Entrants(area, uuids), 0);
  }

  // ---------- fields that leave too few for the finals ----------

  lemma {:induction false} LivePairsAtMost(m: map<Player, int>, u1: seq<Player>, u2: seq<Player>, k: nat)
    requires |u1| == |u2| && forall i :: k <= i < |u1| ==> Held(m, u1[i]) <= 0 && Held(m, u2[i]) <= 0
    ensures LivePairs(m, u1, u2) <= k
  {
    if |u1| > k {
      LivePairsAtMost(m, u1[..|u1| - 1], u2[..|u2| - 1], k);
    } else {
      LivePairsInAll(m, u1, u2);
    }
  }

  lemma {:induction false} LivePairsInAll(m: map<Player, int>, u1: seq<Player>, u2: seq<Player>)
    requires |u1| == |u2|
    ensures LivePairs(m, u1, u2) <= |u1|
  {
    if u1 != [] {
      LivePairsInAll(m, u1[..|u1| - 1], u2[..|u2| - 1]);
    }
  }

  /** A hundred distinct names. */
  function Names(): (uuids: seq<string>)
    ensures |uuids| == FIELD && forall i :: 0 <= i < FIELD ==> |uuids[i]| == i
  {
    seq(FIELD, i requires 0 <= i => seq(i, _ => '1'))
  }

  /** The first sixteen hold what enrolment asks for; the others have lost theirs since. */
  function SixteenPurses(): map<Player, int> {
    map p | p in Players(Entrants("1", Names())) :: if p.Person? && |p.uuid| < 16 then ENROL_TICKETS else 0
  }

  /** When only the first sixteen can hold tickets, at most eight pairs do. */
  lemma SixteenLivePairs(m: map<Player, int>, entries: seq<Entry>)
    requires |entries| % 2 == 0 && forall i :: 16 <= i < |entries| ==> Held(m, Players(entries)[i]) <= 0
    ensures !EnoughPairs(m, entries, 9)
  {
    var u1, u2 := Firsts(entries), Seconds(entries);
    forall i | 8 <= i < |u1| ensures Held(m, u1[i]) <= 0 && Held(m, u2[i]) <= 0 {
      PairAt(entries, i);
    }
    LivePairsAtMost(m, u1, u2, 8);
  }

  lemma PurseOf(entries: seq<Entry>, i: nat)
    requires entries == Entrants("1", Names()) && i < FIELD
    ensures Held(SixteenPurses(), Players(entries)[i]) == if i < 16 then ENROL_TICKETS else 0
  {
    EntrantAt("1", Names(), i);
    assert Players(entries)[i] in Players(entries);
  }

  /** The first sixteen players hold what enrolment asks for, and the others nothing. */
  predicate SixteenHold(m: map<Player, int>, ps: seq<Player>) {
    forall i :: 0 <= i < |ps| ==> Held(m, ps[i]) == if i < 16 then ENROL_TICKETS else 0
  }

  lemma SixteenAreTooFew(m: map<Player, int>, uuids: seq<string>)
    requires Distinct(uuids) && |uuids| == FIELD && SixteenHold(m, Players(Entrants("1", uuids)))
    ensures var entries := Entrants("1", uuids);
            && RoundReady(Morning(m), entries)
            && |Rounds(Game(RicherWins(m), TableRow()), Morning(m), entries, 0).1| <= 8
  {
    var entries := Entrants("1", uuids);
    MorningIsReady("1", uuids, m);
    SixteenLivePairs(m, entries);
    FirstRoundIsSafe("1", uuids);
    FieldFails(TableRow(), Morning(m), entries);
  }

  /** Sixteen of a hundred players with tickets are not enough: in eight even pairs they leave the finals no nine. */
  lemma SixteenAreNotEnough()
    ensures var day, entries := Morning(SixteenPurses()), Entrants("1", Names());
            && RoundReady(day, entries)
            && |Rounds(Game(RicherWins(SixteenPurses()), TableRow()), day, entries, 0).1| <= 8
  {
    var entries := Entrants("1", Names());
    forall i | 0 <= i < FIELD
      ensures Held(SixteenPurses(), Players(entries)[i]) == if i < 16 then ENROL_TICKETS else 0
    {
      PurseOf(entries, i);
    }
    SixteenAreTooFew(SixteenPurses(), Names());
  }
}
