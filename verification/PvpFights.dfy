/** Day tournament: what single fights, and the fights of one round, do to the tickets and to those out. */
module PvpFights {
  import opened Wrappers
  import opened PvpDay
  import opened PvpMembers

  // ---------- tickets are conserved ----------

  ghost function Total(m: map<Player, int>, s: set<Player>): int {
    if s == {} then 0 else var p :| p in s; Held(m, p) + Total(m, s - {p})
  }

  lemma {:induction false} TotalRemove(m: map<Player, int>, s: set<Player>, p: Player)
    requires p in s
    ensures Total(m, s) == Held(m, p) + Total(m, s - {p})
    decreases |s|
  {
    var q :| q in s && Total(m, s) == Held(m, q) + Total(m, s - {q});
    if q != p {
      TotalRemove(m, s - {q}, p);
      TotalRemove(m, s - {p}, q);
      assert s - {q} - {p} == s - {p} - {q};
    }
  }

  lemma {:induction false} TotalFrame(m: map<Player, int>, m': map<Player, int>, s: set<Player>)
    requires forall p :: p in s ==> Held(m, p) == Held(m', p)
    ensures Total(m, s) == Total(m', s)
    decreases |s|
  {
    if s != {} {
      var p :| p in s;
      TotalRemove(m, s, p);
      TotalRemove(m', s, p);
      TotalFrame(m, m', s - {p});
    }
  }

  /** What is stored after a fight; the second player's tickets are saved last. */
  lemma FightStores(game: Game, day: Day, remain: seq<Entry>, p1: Player, p2: Player, p: Player)
    ensures var (t1, t2) := Outcome(game, day, p1, p2);
            Held(Fight(game, day, remain, p1, p2).0.tickets, p)
            == if p == p2 then t2 else if p == p1 then t1 else Held(day.tickets, p)
  {
  }

  /** A fight moves tickets between its players only, unless somebody who is no robot meets himself. */
  lemma FightTickets(game: Game, day: Day, remain: seq<Entry>, p1: Player, p2: Player)
    requires p1 != p2 || p1.Robot? || Held(day.tickets, p1) == 0
    ensures var tickets := Fight(game, day, remain, p1, p2).0.tickets;
            && Held(tickets, p1) + Held(tickets, p2) == Held(day.tickets, p1) + Held(day.tickets, p2)
            && (forall p :: p != p1 && p != p2 ==> Held(tickets, p) == Held(day.tickets, p))
  {
    FightStores(game, day, remain, p1, p2, p1);
    FightStores(game, day, remain, p1, p2, p2);
    forall p | p != p1 && p != p2
      ensures Held(Fight(game, day, remain, p1, p2).0.tickets, p) == Held(day.tickets, p)
    {
      FightStores(game, day, remain, p1, p2, p);
    }
  }

  /** The winner takes from the loser as many tickets as the poorer of the two holds. Whoever has tickets left is seated
      behind those in play, the first player before the second. */
  lemma WinnerTakes(game: Game, day: Day, remain: seq<Entry>, p1: Player, p2: Player)
    requires p1 != p2
    ensures var (day', remain') := Fight(game, day, remain, p1, p2);
            var (winner, loser) := if game.fights(day.fought, p1, p2) then (p1, p2) else (p2, p1);
            var stake := if Held(day.tickets, p1) <= Held(day.tickets, p2) then Held(day.tickets, p1)
                         else Held(day.tickets, p2);
            && Held(day'.tickets, winner) == Held(day.tickets, winner) + stake
            && Held(day'.tickets, loser) == Held(day.tickets, loser) - stake
            && (forall p :: p != p1 && p != p2 ==> Held(day'.tickets, p) == Held(day.tickets, p))
            && day'.fought == day.fought + 1
            && (!Shared(game.row, p1, p2) ==>
                  remain' == remain + Seat(p1, Held(day'.tickets, p1)) + Seat(p2, Held(day'.tickets, p2)))
  {
    FightTickets(game, day, remain, p1, p2);
    FightStores(game, day, remain, p1, p2, p1);
    FightStores(game, day, remain, p1, p2, p2);
  }

  function Seat(p: Player, tickets: int): seq<Entry> {
    if tickets == 0 then [] else [Entry(p, Some(tickets))]
  }

  lemma FightConserves(game: Game, day: Day, remain: seq<Entry>, p1: Player, p2: Player, s: set<Player>)
    requires p1 != p2 || p1.Robot? || Held(day.tickets, p1) == 0
    requires p1 in s && p2 in s
    ensures Total(Fight(game, day, remain, p1, p2).0.tickets, s) == Total(day.tickets, s)
  {
    FightTickets(game, day, remain, p1, p2);
    var m, m' := day.tickets, Fight(game, day, remain, p1, p2).0.tickets;
    if p1 == p2 {
      TotalFrame(m, m', s);
    } else {
      TotalRemove(m, s, p1);
      TotalRemove(m, s - {p1}, p2);
      TotalRemove(m', s, p1);
      TotalRemove(m', s - {p1}, p2);
      TotalFrame(m, m', s - {p1} - {p2});
    }
  }

  // ---------- who is out, and who goes on ----------

  predicate Descending(first: map<Player, int>, out: seq<Player>) {
    forall i, j :: 0 <= i < j < |out| ==> Held(first, out[i]) >= Held(first, out[j])
  }

  /** Whoever is out has no tickets, and those out are ranked by the tickets they started with. */
  predicate OutDone(day: Day) {
    && Descending(day.first, day.out)
    && forall p :: p in day.out ==> p in day.first && Held(day.tickets, p) == 0
  }

  /** Whoever has fought and goes on has tickets, and his entry says how many. */
  predicate InPlay(day: Day, e: Entry) {
    Held(day.tickets, e.player) > 0 && e.ticketDay == Some(Held(day.tickets, e.player))
  }

  predicate AllInPlay(day: Day, entries: seq<Entry>) {
    forall i :: 0 <= i < |entries| ==> InPlay(day, entries[i])
  }

  lemma {:induction false} InsertDescends(first: map<Player, int>, out: seq<Player>, p: Player)
    requires Descending(first, out)
    ensures Descending(first, Insert(first, out, p))
    ensures forall q :: q in Insert(first, out, p) <==> q == p || q in out
  {
    if out != [] && Held(first, p) < Held(first, out[0]) {
      InsertDescends(first, out[1..], p);
      var rest := Insert(first, out[1..], p);
      forall q | q in rest ensures Held(first, q) <= Held(first, out[0]) {
        if q != p {
          var i :| 0 <= i < |out[1..]| && out[1..][i] == q;
          assert out[i + 1] == q;
        }
      }
    }
  }

  lemma PlaceKeeps(day: Day, remain: seq<Entry>, p: Player)
    requires OutDone(day) && AllInPlay(day, remain) && Held(day.tickets, p) >= 0 && p in day.first
    ensures var (day', remain') := Place(day, remain, p, Held(day.tickets, p));
            && OutDone(day') && AllInPlay(day', remain')
            && day'.tickets == day.tickets && day'.first == day.first
  {
    InsertDescends(day.first, day.out, p);
  }

  predicate Apart(day: Day, remain: seq<Entry>, p: Player) {
    p !in day.out && p !in Players(remain)
  }

  /** A fight between two players who are not yet placed, and who do not share a record, keeps the order. */
  lemma FightKeeps(game: Game, day: Day, remain: seq<Entry>, p1: Player, p2: Player)
    requires OutDone(day) && AllInPlay(day, remain)
    requires p1 != p2 && Apart(day, remain, p1) && Apart(day, remain, p2) && !Shared(game.row, p1, p2)
    requires Held(day.tickets, p1) >= 0 && Held(day.tickets, p2) >= 0
    ensures var (day', remain') := Fight(game, day, remain, p1, p2);
            OutDone(day') && AllInPlay(day', remain')
  {
    var (t1, t2) := Outcome(game, day, p1, p2);
    var day0 := Fought(game, day, p1, p2);
    forall i | 0 <= i < |remain| ensures remain[i].player != p1 && remain[i].player != p2 {
      assert Players(remain)[i] == remain[i].player;
    }
    UntouchedKeep(day, day0, remain);
    PlaceKeeps(day0, remain, p1);
    var (day1, remain1) := Place(day0, remain, p1, t1);
    PlaceKeeps(day1, remain1, p2);
  }

  /** Whatever records are shared: of a pair that holds tickets at least one side goes on. */
  lemma FightLeaves(game: Game, day: Day, remain: seq<Entry>, p1: Player, p2: Player)
    requires p1 != p2 && Held(day.tickets, p1) >= 0 && Held(day.tickets, p2) >= 0
    ensures |Fight(game, day, remain, p1, p2).1|
            >= |remain| + if Held(day.tickets, p1) > 0 || Held(day.tickets, p2) > 0 then 1 else 0
  {
  }

  lemma UntouchedKeep(day: Day, day0: Day, remain: seq<Entry>)
    requires OutDone(day) && AllInPlay(day, remain) && day0.out == day.out
    requires forall p :: p in day.out ==> Held(day0.tickets, p) == Held(day.tickets, p)
    requires forall p :: p in day.out ==> p in day0.first && Held(day0.first, p) == Held(day.first, p)
    requires forall i :: 0 <= i < |remain| ==>
               Held(day0.tickets, remain[i].player) == Held(day.tickets, remain[i].player)
    ensures OutDone(day0) && AllInPlay(day0, remain)
  {
  }

  /** How many of these players hold tickets. */
  function Backed(tickets: map<Player, int>, ps: seq<Player>): nat {
    if ps == [] then 0
    else Backed(tickets, ps[..|ps| - 1]) + if Held(tickets, ps[|ps| - 1]) > 0 then 1 else 0
  }

  lemma {:induction false} BackedFrame(m: map<Player, int>, m': map<Player, int>, ps: seq<Player>)
    requires forall p :: p in ps ==> Held(m, p) == Held(m', p)
    ensures Backed(m, ps) == Backed(m', ps)
  {
    if ps != [] {
      BackedFrame(m, m', ps[..|ps| - 1]);
    }
  }

  ghost predicate Once(all: multiset<Player>) {
    forall p :: all[p] <= 1
  }

  /** Who fights in these pairs, who has fought, and who is out. */
  ghost function Field(day: Day, remain: seq<Entry>, u1: seq<Player>, u2: seq<Player>): multiset<Player> {
    Everyone(day, remain) + (multiset(u1) + multiset(u2))
  }

  predicate Unshared(row: nat -> nat, u1: seq<Player>, u2: seq<Player>)
    requires |u1| == |u2|
  {
    forall i :: 0 <= i < |u1| ==> !Shared(row, u1[i], u2[i])
  }

  /** Nobody is listed twice, nobody owes tickets, and no pair shares a record. */
  ghost predicate PairsReady(row: nat -> nat, day: Day, u1: seq<Player>, u2: seq<Player>, remain: seq<Entry>) {
    && |u1| == |u2| && Unshared(row, u1, u2)
    && OutDone(day) && AllInPlay(day, remain) && Once(Field(day, remain, u1, u2))
    && (forall p :: p in u1 || p in u2 ==> Held(day.tickets, p) >= 0)
  }

  lemma LastPairApart(day: Day, u1: seq<Player>, u2: seq<Player>, remain: seq<Entry>)
    requires |u1| == |u2| > 0 && Once(Field(day, remain, u1, u2))
    ensures var n := |u1| - 1;
            var p1, p2 := u1[n], u2[n];
            && p1 != p2 && Apart(day, remain, p1) && Apart(day, remain, p2)
            && p1 !in u1[..n] && p2 !in u1[..n] && p1 !in u2[..n] && p2 !in u2[..n]
  {
    var all := Field(day, remain, u1, u2);
    TakeLast(u1);
    TakeLast(u2);
    assert all[u1[|u1| - 1]] <= 1 && all[u2[|u2| - 1]] <= 1;
  }

  lemma FieldStep(game: Game, day: Day, u1: seq<Player>, u2: seq<Player>, remain: seq<Entry>, p: Player)
    requires |u1| == |u2| > 0 && !Shared(game.row, u1[|u1| - 1], u2[|u2| - 1])
    ensures var n := |u1| - 1;
            var next := Fight(game, day, remain, u1[n], u2[n]);
            Field(next.0, next.1, u1[..n], u2[..n])[p] == Field(day, remain, u1, u2)[p]
  {
    FightAdds(game, day, remain, u1[|u1| - 1], u2[|u2| - 1]);
    TakeLast(u1);
    TakeLast(u2);
  }

  lemma PairsStep(game: Game, day: Day, u1: seq<Player>, u2: seq<Player>, remain: seq<Entry>)
    requires PairsReady(game.row, day, u1, u2, remain) && u1 != []
    ensures var n := |u1| - 1;
            var next := Fight(game, day, remain, u1[n], u2[n]);
            PairsReady(game.row, next.0, u1[..n], u2[..n], next.1)
  {
    var n := |u1| - 1;
    LastPairApart(day, u1, u2, remain);
    FightKeeps(game, day, remain, u1[n], u2[n]);
    FightTickets(game, day, remain, u1[n], u2[n]);
    var next := Fight(game, day, remain, u1[n], u2[n]);
    forall p ensures Field(next.0, next.1, u1[..n], u2[..n])[p] <= 1 {
      FieldStep(game, day, u1, u2, remain, p);
    }
  }

  /** How many of these pairs hold tickets between them. */
  function LivePairs(m: map<Player, int>, u1: seq<Player>, u2: seq<Player>): nat
    requires |u1| == |u2|
  {
    if u1 == [] then 0
    else
      var n := |u1| - 1;
      LivePairs(m, u1[..n], u2[..n]) + if Held(m, u1[n]) > 0 || Held(m, u2[n]) > 0 then 1 else 0
  }

  lemma {:induction false} LivePairsBacked(m: map<Player, int>, u1: seq<Player>, u2: seq<Player>)
    requires |u1| == |u2|
    ensures 2 * LivePairs(m, u1, u2) >= Backed(m, u1) + Backed(m, u2)
  {
    if u1 != [] {
      LivePairsBacked(m, u1[..|u1| - 1], u2[..|u2| - 1]);
    }
  }

  /** Nobody is in these pairs twice, and all hold what they held at first, and owe nothing. */
  ghost predicate Lined(m: map<Player, int>, tickets: map<Player, int>, u1: seq<Player>, u2: seq<Player>) {
    && |u1| == |u2| && Once(multiset(u1) + multiset(u2))
    && (forall p :: p in u1 || p in u2 ==> Held(m, p) == Held(tickets, p) >= 0)
  }

  lemma LastApart(u1: seq<Player>, u2: seq<Player>)
    requires |u1| == |u2| > 0 && Once(multiset(u1) + multiset(u2))
    ensures var n := |u1| - 1;
            && u1[n] != u2[n] && Once(multiset(u1[..n]) + multiset(u2[..n]))
            && u1[n] !in u1[..n] && u2[n] !in u1[..n] && u1[n] !in u2[..n] && u2[n] !in u2[..n]
  {
    TakeLast(u1);
    TakeLast(u2);
    var all, n := multiset(u1) + multiset(u2), |u1| - 1;
    assert all[u1[n]] <= 1 && all[u2[n]] <= 1;
    forall p ensures (multiset(u1[..n]) + multiset(u2[..n]))[p] <= 1 {
      assert all[p] <= 1;
    }
  }

  lemma LinedStep(m: map<Player, int>, game: Game, day: Day, u1: seq<Player>, u2: seq<Player>, remain: seq<Entry>)
    requires Lined(m, day.tickets, u1, u2) && u1 != []
    ensures var n := |u1| - 1;
            Lined(m, Fight(game, day, remain, u1[n], u2[n]).0.tickets, u1[..n], u2[..n])
  {
    var n := |u1| - 1;
    LastApart(u1, u2);
    forall p | p in u1[..n] || p in u2[..n]
      ensures Held(Fight(game, day, remain, u1[n], u2[n]).0.tickets, p) == Held(day.tickets, p)
    {
      FightStores(game, day, remain, u1[n], u2[n], p);
    }
  }

  /** Whatever records are shared: somebody is left of every pair that holds tickets. */
  lemma {:induction false} PairsLeave(
    m: map<Player, int>, game: Game, day: Day, u1: seq<Player>, u2: seq<Player>, remain: seq<Entry>)
    requires |u1| == |u2| && Lined(m, day.tickets, u1, u2)
    ensures |FightPairs(game, day, u1, u2, remain).1| >= |remain| + LivePairs(m, u1, u2)
    decreases |u1|
  {
    if u1 != [] {
      var n := |u1| - 1;
      LastApart(u1, u2);
      FightLeaves(game, day, remain, u1[n], u2[n]);
      LinedStep(m, game, day, u1, u2, remain);
      var next := Fight(game, day, remain, u1[n], u2[n]);
      PairsLeave(m, game, next.0, u1[..n], u2[..n], next.1);
    }
  }

  /** The fights of one round, among pairs that share no record, keep those out and those in play in order. */
  lemma {:induction false} PairsKeep(game: Game, day: Day, u1: seq<Player>, u2: seq<Player>, remain: seq<Entry>)
    requires PairsReady(game.row, day, u1, u2, remain)
    ensures var next := FightPairs(game, day, u1, u2, remain);
            OutDone(next.0) && AllInPlay(next.0, next.1)
    decreases |u1|
  {
    if u1 != [] {
      var n := |u1| - 1;
      LastPairApart(day, u1, u2, remain);
      PairsStep(game, day, u1, u2, remain);
      var next := Fight(game, day, remain, u1[n], u2[n]);
      PairsKeep(game, next.0, u1[..n], u2[..n], next.1);
    }
  }

  /** Somebody of flesh and blood meets himself, with tickets. */
  predicate MeetsHimself(m: map<Player, int>, p1: Player, p2: Player) {
    p1 == p2 && p1.Person? && Held(m, p1) != 0
  }

  lemma OutcomeOwesNothing(game: Game, day: Day, p1: Player, p2: Player)
    requires Held(day.tickets, p1) >= 0 && Held(day.tickets, p2) >= 0
    ensures var (t1, t2) := Outcome(game, day, p1, p2);
            && t1 >= 0 && t2 >= 0
            && (Held(day.tickets, p1) == 0 ==> t1 == 0) && (Held(day.tickets, p2) == 0 ==> t2 == 0)
  {
  }

  /** Nobody comes to owe tickets, and who holds nothing gains nothing. */
  lemma NobodyOwes(game: Game, day: Day, remain: seq<Entry>, p1: Player, p2: Player, p: Player)
    requires Held(day.tickets, p1) >= 0 && Held(day.tickets, p2) >= 0 && Held(day.tickets, p) >= 0
    ensures Held(Fight(game, day, remain, p1, p2).0.tickets, p) >= 0
    ensures Held(day.tickets, p) == 0 ==> Held(Fight(game, day, remain, p1, p2).0.tickets, p) == 0
  {
    OutcomeOwesNothing(game, day, p1, p2);
    FightStores(game, day, remain, p1, p2, p);
  }

  /** The players of these pairs are in `s`, and nobody in `s` owes tickets. */
  predicate Solvent(m: map<Player, int>, u1: seq<Player>, u2: seq<Player>, s: set<Player>)
    requires |u1| == |u2|
  {
    (forall i :: 0 <= i < |u1| ==> u1[i] in s && u2[i] in s) && (forall p :: p in s ==> Held(m, p) >= 0)
  }

  lemma StaysSolvent(game: Game, day: Day, u1: seq<Player>, u2: seq<Player>, remain: seq<Entry>, s: set<Player>)
    requires |u1| == |u2| > 0 && Solvent(day.tickets, u1, u2, s)
    ensures var n := |u1| - 1;
            Solvent(Fight(game, day, remain, u1[n], u2[n]).0.tickets, u1[..n], u2[..n], s)
  {
    forall p | p in s ensures Held(Fight(game, day, remain, u1[|u1| - 1], u2[|u2| - 1]).0.tickets, p) >= 0 {
      NobodyOwes(game, day, remain, u1[|u1| - 1], u2[|u2| - 1], p);
    }
  }

  /** The pairs are solvent, and none of them is somebody of flesh and blood with tickets who meets himself. */
  predicate Fair(m: map<Player, int>, u1: seq<Player>, u2: seq<Player>, s: set<Player>)
    requires |u1| == |u2|
  {
    Solvent(m, u1, u2, s) && forall i :: 0 <= i < |u1| ==> !MeetsHimself(m, u1[i], u2[i])
  }

  lemma StaysFair(game: Game, day: Day, u1: seq<Player>, u2: seq<Player>, remain: seq<Entry>, s: set<Player>)
    requires |u1| == |u2| > 0 && Fair(day.tickets, u1, u2, s)
    ensures var n := |u1| - 1;
            Fair(Fight(game, day, remain, u1[n], u2[n]).0.tickets, u1[..n], u2[..n], s)
  {
    var n := |u1| - 1;
    StaysSolvent(game, day, u1, u2, remain, s);
    forall i | 0 <= i < n
      ensures !MeetsHimself(Fight(game, day, remain, u1[n], u2[n]).0.tickets, u1[..n][i], u2[..n][i])
    {
      NobodyOwes(game, day, remain, u1[n], u2[n], u1[i]);
    }
  }

  /** The fights of one round, whatever records are shared, conserve tickets unless somebody meets himself. */
  lemma {:induction false} PairsConserve(
    game: Game, day: Day, u1: seq<Player>, u2: seq<Player>, remain: seq<Entry>, s: set<Player>)
    requires |u1| == |u2| && Fair(day.tickets, u1, u2, s)
    ensures Total(FightPairs(game, day, u1, u2, remain).0.tickets, s) == Total(day.tickets, s)
    decreases |u1|
  {
    if u1 != [] {
      var n := |u1| - 1;
      FightConserves(game, day, remain, u1[n], u2[n], s);
      StaysFair(game, day, u1, u2, remain, s);
      var next := Fight(game, day, remain, u1[n], u2[n]);
      PairsConserve(game, next.0, u1[..n], u2[..n], next.1, s);
    }
  }

  lemma {:induction false} PairsFrame(
    game: Game, day: Day, u1: seq<Player>, u2: seq<Player>, remain: seq<Entry>, p: Player)
    requires p !in u1 && p !in u2
    ensures Held(FightPairs(game, day, u1, u2, remain).0.tickets, p) == Held(day.tickets, p)
    decreases |u1|
  {
    if u1 != [] && u2 != [] {
      var next := Fight(game, day, remain, u1[|u1| - 1], u2[|u2| - 1]);
      PairsFrame(game, next.0, u1[..|u1| - 1], u2[..|u2| - 1], next.1, p);
    }
  }

  lemma {:induction false} BackedCons(m: map<Player, int>, p: Player, ps: seq<Player>)
    ensures Backed(m, [p] + ps) == (if Held(m, p) > 0 then 1 else 0) + Backed(m, ps)
  {
    var all := [p] + ps;
    if ps == [] {
      assert all[..0] == [];
    } else {
      assert all[..|ps|] == [p] + ps[..|ps| - 1];
      BackedCons(m, p, ps[..|ps| - 1]);
    }
  }

  lemma BackedStep(m: map<Player, int>, entries: seq<Entry>, from: nat)
    requires from < |entries|
    ensures Backed(m, Players(entries[from..]))
            == (if Held(m, entries[from].player) > 0 then 1 else 0) + Backed(m, Players(entries[from + 1..]))
  {
    BackedCons(m, entries[from].player, Players(entries[from + 1..]));
    assert Players(entries[from..]) == [entries[from].player] + Players(entries[from + 1..]);
  }

  lemma {:induction false} AlternateBacked(m: map<Player, int>, entries: seq<Entry>, from: nat)
    requires from <= |entries|
    ensures Backed(m, Alternate(entries, from)) + Backed(m, Alternate(entries, from + 1))
            == Backed(m, Players(entries[from..]))
    decreases |entries| - from
  {
    if from < |entries| {
      AlternateBacked(m, entries, from + 1);
      BackedCons(m, entries[from].player, Alternate(entries, from + 2));
      BackedStep(m, entries, from);
    }
  }
}
