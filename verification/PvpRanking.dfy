/** The day tournament from the first round to the final ranking. */
module PvpRanking {
  import opened Wrappers
  import opened PvpDay
  import opened PvpMembers
  import opened PvpFights
  import opened PvpRounds
  import opened PvpRepeats
  import opened PvpFinals

  function Reversed<T>(s: seq<T>): (r: seq<T>)
    ensures |r| == |s| && forall i :: 0 <= i < |s| ==> r[i] == s[|s| - 1 - i]
  {
    if s == [] then [] else Reversed(s[1..]) + [s[0]]
  }

  /** The final eight, the rest of those in play, each spliced in before the one sorted ahead of him, and those out. */
  function Assembled(final8: seq<Player>, sorted: seq<Entry>, out: seq<Player>): seq<Player>
    requires |sorted| > 8
  {
    final8 + Reversed(Players(sorted[8..])) + out
  }

  /** The ranking, from the players left in play in the order that sorting gave them. With eight of them the code
      holds the finals without players, and with fewer it gives up: no ranking either way. */
  function FinalSort(fights: Fights, day: Day, sorted: seq<Entry>): Option<seq<Player>> {
    if |sorted| <= 8 then None
    else Some(Assembled(Final8(fights, Players(sorted[..8]), day.fought), sorted, day.out))
  }

  /** What sorting by `b.ticketDay - a.ticketDay` gives: the same entries, by falling tickets. */
  ghost predicate SortedByTickets(entries: seq<Entry>, sorted: seq<Entry>) {
    && multiset(sorted) == multiset(entries)
    && (forall i :: 0 <= i < |sorted| ==> sorted[i].ticketDay.Some?)
    && (forall i, j :: 0 <= i < j < |sorted| ==> sorted[i].ticketDay.value >= sorted[j].ticketDay.value)
  }

  // ---------- nobody is lost ----------

  lemma TakeOut<T>(s: seq<T>, i: nat)
    requires i < |s|
    ensures multiset(s) == multiset(s[..i] + s[i + 1..]) + multiset{s[i]}
  {
    assert s == s[..i] + [s[i]] + s[i + 1..];
  }

  lemma TakeOutPlayer(s: seq<Entry>, i: nat)
    requires i < |s|
    ensures multiset(Players(s)) == multiset(Players(s[..i] + s[i + 1..])) + multiset{s[i].player}
  {
    TakeOut(Players(s), i);
    assert Players(s)[..i] + Players(s)[i + 1..] == Players(s[..i] + s[i + 1..]);
  }

  lemma Cancel<T>(a: multiset<T>, b: multiset<T>, c: multiset<T>)
    requires a + c == b + c
    ensures a == b
  {
    assert a == (a + c) - c && b == (b + c) - c;
  }

  lemma {:induction false} PlayersCount(entries: seq<Entry>, sorted: seq<Entry>)
    requires multiset(sorted) == multiset(entries)
    ensures multiset(Players(sorted)) == multiset(Players(entries))
    decreases |entries|
  {
    if entries == [] {
      assert |multiset(sorted)| == 0;
    } else {
      var e := entries[0];
      assert entries[0] in entries;
      assert e in multiset(sorted);
      var i :| 0 <= i < |sorted| && sorted[i] == e;
      TakeOut(sorted, i);
      TakeOut(entries, 0);
      TakeOutPlayer(sorted, i);
      TakeOutPlayer(entries, 0);
      Cancel(multiset(sorted[..i] + sorted[i + 1..]), multiset(entries[..0] + entries[1..]), multiset{e});
      PlayersCount(entries[..0] + entries[1..], sorted[..i] + sorted[i + 1..]);
    }
  }

  lemma {:induction false} ReversedKeeps(s: seq<Player>)
    ensures multiset(Reversed(s)) == multiset(s)
  {
    if s != [] {
      ReversedKeeps(s[1..]);
      assert s == [s[0]] + s[1..];
    }
  }

  lemma ThreeParts(a: seq<Player>, b: seq<Player>, c: seq<Player>)
    ensures multiset(a + b + c) == multiset(a) + multiset(b) + multiset(c)
  {
  }

  lemma SplitEight(sorted: seq<Entry>)
    requires |sorted| > 8
    ensures multiset(Players(sorted)) == multiset(Players(sorted[..8])) + multiset(Players(sorted[8..]))
  {
    assert Players(sorted) == Players(sorted[..8]) + Players(sorted[8..]);
  }

  /** What the ranking is made of, for any order of the final eight. */
  lemma AssembledKeeps(final8: seq<Player>, day: Day, rest: seq<Entry>, sorted: seq<Entry>)
    requires multiset(sorted) == multiset(rest) && |sorted| > 8
    requires multiset(final8) == multiset(Players(sorted[..8]))
    ensures var ranking := Assembled(final8, sorted, day.out);
            && multiset(ranking) == Everyone(day, rest)
            && |ranking| >= |day.out| && ranking[|ranking| - |day.out|..] == day.out
  {
    var middle := Players(sorted[8..]);
    PlayersCount(rest, sorted);
    ReversedKeeps(middle);
    SplitEight(sorted);
    ThreeParts(final8, Reversed(middle), day.out);
  }

  // ---------- the tickets that sorting sees ----------

  lemma RoundStaysInPlay(game: Game, day: Day, entries: seq<Entry>)
    requires RoundReady(day, entries) && !Clash(game.row, entries)
    requires |entries| % 2 == 1 ==> InPlay(day, entries[0])
    ensures AllInPlay(Round(game, day, entries).0, Round(game, day, entries).1)
  {
    RoundKeeps(game, day, entries);
    var (day', next) := Round(game, day, entries);
    var fought := |next| - |entries| % 2;
    forall i | 0 <= i < |next| ensures InPlay(day', next[i]) {
      assert i < fought ==> next[..fought][i] == next[i];
      assert i >= fought ==> next[fought..][i - fought] == next[i];
    }
  }

  lemma RoundsStayInPlay(game: Game, day: Day, entries: seq<Entry>, count: nat)
    requires RoundReady(day, entries) && AllInPlay(day, entries) && !RunClashes(game, day, entries, count)
    ensures AllInPlay(Rounds(game, day, entries, count).0, Rounds(game, day, entries, count).1)
  {
    var kept := (x: State) => RoundReady(x.0, x.1) && AllInPlay(x.0, x.1);
    forall x | kept(x) && !ClashNow(game.row)(x) ensures kept(RoundStep(game)(x)) {
      RoundStaysReady(game, x.0, x.1);
      RoundStaysInPlay(game, x.0, x.1);
    }
    RepeatKeeps(RoundStep(game), StillMany(), ClashNow(game.row), kept, (day, entries), count);
  }

  /** Before the first round nobody's entry shows tickets. */
  predicate Fresh(entries: seq<Entry>) {
    forall i :: 0 <= i < |entries| ==> entries[i].ticketDay.None?
  }

  /** Known before any fight: either nobody is left over in the first round, or a second round is sure. */
  predicate SecondRoundIfOdd(day: Day, entries: seq<Entry>) {
    |entries| > ENOUGH && (|entries| % 2 == 0 || EnoughPairs(day.tickets, entries, ENOUGH + 1))
  }

  /** After a first round that an odd player sat out, a second one, with that player, makes all of them fighters. */
  lemma SecondRoundFights(game: Game, day: Day, entries: seq<Entry>)
    requires |entries| > ENOUGH && |entries| % 2 == 1 && EnoughPairs(day.tickets, entries, ENOUGH + 1)
    requires RoundReady(day, entries) && !RunClashes(game, day, entries, 0)
    ensures AllInPlay(Rounds(game, day, entries, 0).0, Rounds(game, day, entries, 0).1)
  {
    NextRound(game, day, entries, 0);
    RoundKeeps(game, day, entries);
    RoundStaysReady(game, day, entries);
    var (day1, next1) := Round(game, day, entries);
    NextRound(game, day1, next1, 1);
    assert next1[..|next1| - 1][0] == next1[0];
    RoundStaysInPlay(game, day1, next1);
    RoundStaysReady(game, day1, next1);
    var (day2, next2) := Round(game, day1, next1);
    RoundsStayInPlay(game, day2, next2, 2);
  }

  lemma SorterSeesTickets(game: Game, day: Day, entries: seq<Entry>)
    requires RoundReady(day, entries) && !RunClashes(game, day, entries, 0) && SecondRoundIfOdd(day, entries)
    ensures AllInPlay(Rounds(game, day, entries, 0).0, Rounds(game, day, entries, 0).1)
  {
    if |entries| % 2 == 0 {
      NextRound(game, day, entries, 0);
      RoundStaysReady(game, day, entries);
      RoundStaysInPlay(game, day, entries);
      var next := Round(game, day, entries);
      RoundsStayInPlay(game, next.0, next.1, 1);
    } else {
      SecondRoundFights(game, day, entries);
    }
  }

  /** When the richer player always wins, somebody reaches the sort without having fought. */
  lemma SorterMissesTickets(row: nat -> nat, day: Day, entries: seq<Entry>)
    requires RoundReady(day, entries) && Fresh(entries) && entries != [] && !SecondRoundIfOdd(day, entries)
    requires |entries| > ENOUGH ==> !Clash(row, entries)
    ensures var game := Game(RicherWins(day.tickets), row);
            var (end, rest) := Rounds(game, day, entries, 0);
            !RunClashes(game, day, entries, 0) && !AllInPlay(end, rest)
  {
    var game := Game(RicherWins(day.tickets), row);
    if |entries| <= ENOUGH {
      assert !StillMany()((day, entries));
      assert !InPlay(day, entries[0]);
    } else {
      RicherRound(row, day, entries);
      RoundKeeps(game, day, entries);
      LastRound(game, day, entries);
      var (end, rest) := Round(game, day, entries);
      assert rest[|rest| - 1..][0] == rest[|rest| - 1] == entries[0];
      assert !InPlay(end, rest[|rest| - 1]);
    }
  }

  /** Everybody left at the end has fought and shows what he holds, whatever the fights bring and while no pair
      shares a record, if and only if nobody entered, or a round is fought and nobody sits it out for good. */
  lemma RestIsInPlay(row: nat -> nat, day: Day, entries: seq<Entry>)
    requires RoundReady(day, entries) && Fresh(entries) && (|entries| > ENOUGH ==> !Clash(row, entries))
    ensures (forall fights: Fights ::
               RunClashes(Game(fights, row), day, entries, 0)
               || AllInPlay(Rounds(Game(fights, row), day, entries, 0).0, Rounds(Game(fights, row), day, entries, 0).1))
            <==> entries == [] || SecondRoundIfOdd(day, entries)
  {
    if entries == [] {
      assert !StillMany()((day, entries));
    } else if SecondRoundIfOdd(day, entries) {
      forall fights: Fights | !RunClashes(Game(fights, row), day, entries, 0)
        ensures AllInPlay(Rounds(Game(fights, row), day, entries, 0).0, Rounds(Game(fights, row), day, entries, 0).1)
      {
        SorterSeesTickets(Game(fights, row), day, entries);
      }
    } else {
      SorterMissesTickets(row, day, entries);
    }
  }

  /** Every entry shows tickets, as sorting needs. */
  predicate AllShow(entries: seq<Entry>) {
    forall i :: 0 <= i < |entries| ==> entries[i].ticketDay.Some?
  }

  lemma {:induction false} PairsShow(
    game: Game, day: Day, u1: seq<Player>, u2: seq<Player>, remain: seq<Entry>)
    requires AllShow(remain)
    ensures AllShow(FightPairs(game, day, u1, u2, remain).1)
    decreases |u1|
  {
    if u1 != [] && u2 != [] {
      var next := Fight(game, day, remain, u1[|u1| - 1], u2[|u2| - 1]);
      PairsShow(game, next.0, u1[..|u1| - 1], u2[..|u2| - 1], next.1);
    }
  }

  /** Whoever fought shows tickets, whatever records are shared; who sat out comes last, and shows what he did. */
  lemma RoundShows(game: Game, day: Day, entries: seq<Entry>)
    ensures var next := Round(game, day, entries).1;
            && |next| >= |entries| % 2 && AllShow(next[..|next| - |entries| % 2])
            && (|entries| % 2 == 1 ==> next[|next| - 1] == entries[0])
  {
    PairsShow(game, day, Firsts(entries), Seconds(entries), []);
    var remain := FightPairs(game, day, Firsts(entries), Seconds(entries), []).1;
    assert (remain + SitsOut(entries))[..|remain|] == remain;
  }

  lemma RoundShowsAll(game: Game, day: Day, entries: seq<Entry>)
    requires |entries| % 2 == 1 ==> entries[0].ticketDay.Some?
    ensures AllShow(Round(game, day, entries).1)
  {
    RoundShows(game, day, entries);
    var next, odd := Round(game, day, entries).1, |entries| % 2;
    forall i | 0 <= i < |next| ensures next[i].ticketDay.Some? {
      assert i < |next| - odd ==> next[..|next| - odd][i] == next[i];
    }
  }

  lemma RoundsShow(game: Game, day: Day, entries: seq<Entry>, count: nat)
    requires AllShow(entries)
    ensures AllShow(Rounds(game, day, entries, count).1)
  {
    var kept := (x: State) => AllShow(x.1);
    forall x | kept(x) ensures kept(RoundStep(game)(x)) {
      RoundShowsAll(game, x.0, x.1);
    }
    RepeatKeepsAlways(RoundStep(game), StillMany(), kept, (day, entries), count);
  }

  lemma EvenShows(game: Game, day: Day, entries: seq<Entry>, count: nat)
    requires |entries| > ENOUGH && |entries| % 2 == 0 && count < MAX_ROUNDS
    ensures AllShow(Rounds(game, day, entries, count).1)
  {
    RoundShowsAll(game, day, entries);
    var next := Round(game, day, entries);
    RoundsShow(game, next.0, next.1, count + 1);
    NextRound(game, day, entries, count);
  }

  lemma ManyAfterOdd(game: Game, day: Day, entries: seq<Entry>)
    requires RoundReady(day, entries) && SecondRoundIfOdd(day, entries) && |entries| % 2 == 1
    ensures |Round(game, day, entries).1| > ENOUGH
  {
    RoundLeaves(game, day, entries);
  }

  /** A run that goes through two kinds of states and then stays in a third. */
  lemma TwoSteps<S(!new)>(
    step: S -> S, more: S -> bool, p0: S -> bool, p1: S -> bool, p2: S -> bool, x: S, count: nat)
    requires p0(x) && count + 2 <= MAX_ROUNDS
    requires forall y :: p0(y) ==> more(y) && p1(step(y))
    requires forall y :: p1(y) ==> more(y) && p2(step(y))
    requires forall y :: p2(y) ==> p2(step(y))
    ensures p2(Repeat(step, more, x, count))
  {
    var x1 := step(x);
    RepeatKeepsAlways(step, more, p2, step(x1), count + 2);
    assert Repeat(step, more, x1, count + 1) == Repeat(step, more, step(x1), count + 2);
  }

  /** After a first round that an odd player sat out, and that leaves enough, he fights in the second. */
  lemma OddShows(game: Game, day: Day, entries: seq<Entry>, count: nat)
    requires RoundReady(day, entries) && SecondRoundIfOdd(day, entries) && |entries| % 2 == 1 && count + 2 <= MAX_ROUNDS
    ensures AllShow(Rounds(game, day, entries, count).1)
  {
    var p0 := (y: State) => y == (day, entries);
    var p1 := (y: State) => |y.1| > ENOUGH && y.1[0].ticketDay.Some?;
    var p2 := (y: State) => AllShow(y.1);
    forall y | p0(y) ensures StillMany()(y) && p1(RoundStep(game)(y)) {
      ManyAfterOdd(game, day, entries);
      RoundShows(game, day, entries);
      var next := Round(game, day, entries).1;
      assert next[..|next| - 1][0] == next[0];
    }
    forall y | p1(y) ensures StillMany()(y) && p2(RoundStep(game)(y)) {
      RoundShowsAll(game, y.0, y.1);
    }
    forall y | p2(y) ensures p2(RoundStep(game)(y)) {
      RoundShowsAll(game, y.0, y.1);
    }
    TwoSteps(RoundStep(game), StillMany(), p0, p1, p2, (day, entries), count);
  }

  lemma AllShowAtTheEnd(game: Game, day: Day, entries: seq<Entry>, count: nat)
    requires RoundReady(day, entries) && SecondRoundIfOdd(day, entries) && count + 2 <= MAX_ROUNDS
    ensures AllShow(Rounds(game, day, entries, count).1)
  {
    if |entries| % 2 == 0 {
      EvenShows(game, day, entries, count);
    } else {
      OddShows(game, day, entries, count);
    }
  }

  lemma SomebodyDoesNotShow(row: nat -> nat, day: Day, entries: seq<Entry>)
    requires RoundReady(day, entries) && Fresh(entries) && entries != [] && !SecondRoundIfOdd(day, entries)
    ensures !AllShow(Rounds(Game(RicherWins(day.tickets), row), day, entries, 0).1)
  {
    var game := Game(RicherWins(day.tickets), row);
    if |entries| <= ENOUGH {
      assert !StillMany()((day, entries));
      assert entries[0].ticketDay.None?;
    } else {
      RicherRound(row, day, entries);
      RoundShows(game, day, entries);
      LastRound(game, day, entries);
    }
  }

  /** Everybody left at the end shows tickets to sort by, whatever the fights bring and whatever records are shared, if
      and only if nobody entered, or a round is fought and nobody sits it out for good. */
  lemma RestShowsTickets(row: nat -> nat, day: Day, entries: seq<Entry>)
    requires RoundReady(day, entries) && Fresh(entries)
    ensures (forall fights: Fights :: AllShow(Rounds(Game(fights, row), day, entries, 0).1))
            <==> entries == [] || SecondRoundIfOdd(day, entries)
  {
    if entries == [] {
      assert !StillMany()((day, entries));
    } else if SecondRoundIfOdd(day, entries) {
      forall fights: Fights ensures AllShow(Rounds(Game(fights, row), day, entries, 0).1) {
        AllShowAtTheEnd(Game(fights, row), day, entries, 0);
      }
    } else {
      SomebodyDoesNotShow(row, day, entries);
    }
  }

  // ---------- the tickets that those out are ranked by ----------

  /** Every noted player is noted with what he held on the morning `m`, and who is not noted still holds it. */
  ghost predicate NotesTrue(m: map<Player, int>, day: Day) {
    && (forall p :: p in day.first ==> day.first[p] == Held(m, p))
    && (forall p :: p !in day.first ==> Held(day.tickets, p) == Held(m, p))
  }

  /** A fight notes its two players, with what they held, and nobody else: whatever records are shared, and even when
      a player meets himself. */
  lemma FightNotes(m: map<Player, int>, game: Game, day: Day, remain: seq<Entry>, p1: Player, p2: Player)
    requires NotesTrue(m, day)
    ensures var day' := Fight(game, day, remain, p1, p2).0;
            NotesTrue(m, day') && day'.first.Keys == day.first.Keys + {p1, p2}
  {
    var day' := Fight(game, day, remain, p1, p2).0;
    FightFirst(game, day, remain, p1, p2);
    forall p | p !in day'.first ensures Held(day'.tickets, p) == Held(m, p) {
      FightStores(game, day, remain, p1, p2, p);
    }
  }

  lemma FightFirst(game: Game, day: Day, remain: seq<Entry>, p1: Player, p2: Player)
    ensures Fight(game, day, remain, p1, p2).0.first
            == Note(Note(day.first, p1, Held(day.tickets, p1)), p2, Held(day.tickets, p2))
  {
  }

  lemma {:induction false} PairsNote(
    m: map<Player, int>, game: Game, day: Day, u1: seq<Player>, u2: seq<Player>, remain: seq<Entry>)
    requires NotesTrue(m, day)
    ensures NotesTrue(m, FightPairs(game, day, u1, u2, remain).0)
    decreases |u1|
  {
    if u1 != [] && u2 != [] {
      var next := Fight(game, day, remain, u1[|u1| - 1], u2[|u2| - 1]);
      FightNotes(m, game, day, remain, u1[|u1| - 1], u2[|u2| - 1]);
      PairsNote(m, game, next.0, u1[..|u1| - 1], u2[..|u2| - 1], next.1);
    }
  }

  /** Over all rounds of any list, everybody is noted with the tickets of the morning. */
  lemma RoundsNote(game: Game, day: Day, entries: seq<Entry>, count: nat)
    requires day.first == map[]
    ensures NotesTrue(day.tickets, Rounds(game, day, entries, count).0)
  {
    var kept := (x: State) => NotesTrue(day.tickets, x.0);
    forall x | kept(x) ensures kept(RoundStep(game)(x)) {
      PairsNote(day.tickets, game, x.0, Firsts(x.1), Seconds(x.1), []);
    }
    RepeatKeepsAlways(RoundStep(game), StillMany(), kept, (day, entries), count);
  }

  /** Those out are ranked by what they held in the morning. */
  lemma OutByFirstTickets(game: Game, day: Day, entries: seq<Entry>, count: nat)
    requires day.first == map[] && RoundReady(day, entries) && !RunClashes(game, day, entries, count)
    ensures Descending(day.tickets, Rounds(game, day, entries, count).0.out)
  {
    RoundsNote(game, day, entries, count);
    RoundsStayReady(game, day, entries, count);
  }

  // ---------- main results ----------

  /** With more than eight left the ranking holds everybody who is in play or out, and those out come last. */
  lemma FinalSortRanks(fights: Fights, end: Day, rest: seq<Entry>, sorted: seq<Entry>)
    requires |sorted| > 8 && multiset(sorted) == multiset(rest)
    ensures FinalSort(fights, end, sorted).Some?
    ensures var ranking := FinalSort(fights, end, sorted).value;
            && multiset(ranking) == Everyone(end, rest)
            && |ranking| >= |end.out| && ranking[|ranking| - |end.out|..] == end.out
  {
    FinalsArePermutation(fights, Players(sorted[..8]), end.fought);
    AssembledKeeps(Final8(fights, Players(sorted[..8]), end.fought), end, rest, sorted);
  }

  /** There is a ranking exactly when more than eight are left. */
  lemma RankingWithMoreThanEight(fights: Fights, day: Day, sorted: seq<Entry>)
    ensures FinalSort(fights, day, sorted).Some? <==> |sorted| > 8
  {
  }

  /** Of the ranking itself: its first eight places carry the records of the ranks one to eight, and whoever wins the
      last three stages of the finals is third. */
  lemma RankingTellsRecords(fights: Fights, day: Day, sorted: seq<Entry>)
    requires |sorted| > 8
    ensures var f8 := Players(sorted[..8]);
            var f, ranking := Play(fights, f8, day.fought), FinalSort(fights, day, sorted).value;
            && |ranking| >= |sorted| && RecordsByRank(f, ranking[..8]) && multiset(ranking[..8]) == multiset(f8)
            && (Different(f8) ==> forall p :: Record(f, p, true, true, true) <==> p == ranking[2])
  {
    var f8 := Players(sorted[..8]);
    var f, ranking := Play(fights, f8, day.fought), FinalSort(fights, day, sorted).value;
    assert ranking[..8] == Final8(fights, f8, day.fought);
    RanksShowRecords(fights, f);
    FinalsArePermutation(fights, f8, day.fought);
    if Different(f8) {
      forall p ensures Record(f, p, true, true, true) <==> p == ranking[2] {
        UnbeatenIsThird(fights, f8, day.fought, p);
      }
    }
  }

  /** Of the ranking itself: places nine to the number of players left are those players from the last sorted on, so
      the tickets there rise. */
  lemma RankingRisesInTheMiddle(fights: Fights, day: Day, rest: seq<Entry>, sorted: seq<Entry>)
    requires |sorted| > 8
    ensures var ranking, n := FinalSort(fights, day, sorted).value, |sorted|;
            && |ranking| >= n
            && (forall k :: 8 <= k < n ==> ranking[k] == sorted[n + 7 - k].player)
            && (AllInPlay(day, rest) && SortedByTickets(rest, sorted)
                ==> forall j, k :: 8 <= j < k < n ==> Held(day.tickets, ranking[j]) <= Held(day.tickets, ranking[k]))
  {
    var ranking, n := FinalSort(fights, day, sorted).value, |sorted|;
    var middle := Reversed(Players(sorted[8..]));
    forall k | 8 <= k < n ensures ranking[k] == middle[k - 8] == sorted[n + 7 - k].player {
      assert Players(sorted[8..])[n - 1 - k] == sorted[8..][n - 1 - k].player;
    }
    if AllInPlay(day, rest) && SortedByTickets(rest, sorted) {
      MiddleIsUpsideDown(day, rest, sorted);
      forall j, k | 8 <= j < k < n ensures Held(day.tickets, ranking[j]) <= Held(day.tickets, ranking[k]) {
        assert ranking[j] == middle[j - 8] && ranking[k] == middle[k - 8];
      }
    }
  }

  /** Whenever a day ends with a ranking: every player of flesh and blood is ranked as often as he entered, and the
      ranking lists the entrants exactly if and only if no round paired two robots of one record. */
  lemma DayRanksEntrants(game: Game, day: Day, entries: seq<Entry>, sorted: seq<Entry>)
    requires day.out == [] && RobotsOnce(multiset(Players(entries)))
    requires var (end, rest) := Rounds(game, day, entries, 0); multiset(sorted) == multiset(rest) && |sorted| > 8
    ensures var ranking := FinalSort(game.fights, Rounds(game, day, entries, 0).0, sorted);
            && ranking.Some?
            && (forall p: Player :: p.Person? ==> multiset(ranking.value)[p] == multiset(Players(entries))[p])
            && (multiset(ranking.value) == multiset(Players(entries)) <==> !RunClashes(game, day, entries, 0))
  {
    var (end, rest) := Rounds(game, day, entries, 0);
    assert Everyone(day, entries) == multiset(Players(entries));
    FinalSortRanks(game.fights, end, rest, sorted);
    RoundsKeepEverybody(game, day, entries, 0);
    forall p: Player | p.Person? ensures Everyone(end, rest)[p] == multiset(Players(entries))[p] {
      RoundsKeepPersons(game, day, entries, 0, p);
    }
  }

  /** A day that starts with nine sure places, with distinct entrants, and on which no pair shares a record ends with
      a ranking of all entrants, each once; no ticket is made or lost; and the last part of the ranking are those who
      lost all their tickets, by what they held before the first round. */
  lemma DayRanksEverybody(game: Game, day: Day, entries: seq<Entry>, sorted: seq<Entry>, s: set<Player>)
    requires day.out == [] && RoundReady(day, entries) && !RunClashes(game, day, entries, 0)
    requires (forall p :: p in Players(entries) ==> p in s) && (forall p :: p in s ==> Held(day.tickets, p) >= 0)
    requires if |entries| <= ENOUGH then |entries| > 8 else EnoughPairs(day.tickets, entries, 9)
    requires multiset(sorted) == multiset(Rounds(game, day, entries, 0).1)
    ensures var end := Rounds(game, day, entries, 0).0;
            var ranking := FinalSort(game.fights, end, sorted);
            && ranking.Some? && multiset(ranking.value) == multiset(Players(entries)) && Once(multiset(ranking.value))
            && OutDone(end) && |ranking.value| >= |end.out| && ranking.value[|ranking.value| - |end.out|..] == end.out
            && Total(end.tickets, s) == Total(day.tickets, s)
            && (day.first == map[] ==> Descending(day.tickets, end.out))
  {
    var (end, rest) := Rounds(game, day, entries, 0);
    if day.first == map[] {
      OutByFirstTickets(game, day, entries, 0);
    }
    assert Everyone(day, entries) == multiset(Players(entries));
    FieldSuffices(game, day, entries);
    assert |multiset(sorted)| == |multiset(rest)|;
    FinalSortRanks(game.fights, end, rest, sorted);
    RoundsStayReady(game, day, entries, 0);
    RoundsKeepEverybody(game, day, entries, 0);
    RoundsConserveTickets(game, day, entries, 0, s);
  }

  /** Between the final eight and those who are out, the ranking runs upwards: nobody holds more tickets than the
      player ranked behind him. So it runs down, as the rest does, exactly when all of them hold the same. */
  lemma MiddleIsUpsideDown(day: Day, rest: seq<Entry>, sorted: seq<Entry>)
    requires AllInPlay(day, rest) && SortedByTickets(rest, sorted) && |sorted| > 8
    ensures var middle := Reversed(Players(sorted[8..]));
            && (forall i, j :: 0 <= i < j < |middle| ==> Held(day.tickets, middle[i]) <= Held(day.tickets, middle[j]))
            && (Descending(day.tickets, middle)
                <==> Held(day.tickets, middle[0]) == Held(day.tickets, middle[|middle| - 1]))
  {
    var middle, n := Reversed(Players(sorted[8..])), |sorted| - 8;
    forall i | 0 <= i < n
      ensures sorted[|sorted| - 1 - i].ticketDay == Some(Held(day.tickets, middle[i]))
    {
      var e := sorted[|sorted| - 1 - i];
      assert middle[i] == Players(sorted[8..])[n - 1 - i] == sorted[8..][n - 1 - i].player == e.player;
      assert e in multiset(sorted) && e in multiset(rest);
    }
  }
}
