/** The preliminary rounds of the day tournament of `pack/module/pvp/pvp_imp.js`. */
module PvpDay {
  import opened Wrappers

  /** A player who enrolled, or one of the numbered robots that fill up the field. */
  datatype Player = Person(area: string, uuid: string) | Robot(number: nat)

  /** An entry of the list of players still in play; `ticketDay` is None before the first fight. */
  datatype Entry = Entry(player: Player, ticketDay: Option<int>)

  /** Who wins the n-th fight, given the two players: `winner === 1`. */
  type Fights = (nat, Player, Player) -> bool

  /** The fights, and in which row of the robot table a robot is looked up. */
  datatype Game = Game(fights: Fights, row: nat -> nat)

  /** `tickets` is each player's stored `ticketDay`; `first` and `out` are `sortResult.map` and
      `sortResult.userArea`: the tickets before the first fight, and who is out. */
  datatype Day = Day(tickets: map<Player, int>, first: map<Player, int>, out: seq<Player>, fought: nat)

  /** The day so far, and the players in play. */
  type State = (Day, seq<Entry>)

  function Held(m: map<Player, int>, p: Player): int {
    if p in m then m[p] else 0
  }

  // ---------- one fight ----------

  /** The tickets of both players after a fight: the winner takes as many as he holds, and at most all. */
  function Stakes(t1: int, t2: int, firstWins: bool): (int, int) {
    if firstWins then
      if t1 >= t2 then (t1 + t2, 0) else (t1 + t1, t2 - t1)
    else
      if t2 >= t1 then (0, t2 + t1) else (t1 - t2, t2 + t2)
  }

  /** insertEltToSortResult: in front of the first player who started with no more tickets. */
  function Insert(first: map<Player, int>, out: seq<Player>, p: Player): seq<Player> {
    if out == [] then [p]
    else if Held(first, p) >= Held(first, out[0]) then [p] + out
    else [out[0]] + Insert(first, out[1..], p)
  }

  function Note(first: map<Player, int>, p: Player, tickets: int): map<Player, int> {
    if p in first then first else first[p := tickets]
  }

  /** A player with tickets left goes on; one without is out. */
  function Place(day: Day, remain: seq<Entry>, p: Player, left: int): State {
    if left != 0 then (day, remain + [Entry(p, Some(left))])
    else (day.(out := Insert(day.first, day.out, p)), remain)
  }

  /** Both robots are loaded into one object of the table, which is named after the one loaded last. */
  predicate Shared(row: nat -> nat, p1: Player, p2: Player) {
    p1.Robot? && p2.Robot? && row(p1.number) == row(p2.number)
  }

  /** The name that the first player's record carries once both are loaded. */
  function NameOfFirst(row: nat -> nat, p1: Player, p2: Player): Player {
    if Shared(row, p1, p2) then p2 else p1
  }

  /** The stored tickets of two players as they fight. A robot that meets itself has one purse for both sides. */
  function Outcome(game: Game, day: Day, p1: Player, p2: Player): (int, int) {
    var t1, t2 := Held(day.tickets, p1), Held(day.tickets, p2);
    if p1 == p2 && p1.Robot? then (t1, t2) else Stakes(t1, t2, game.fights(day.fought, p1, p2))
  }

  /** A fight: the tickets go to the players asked for, the places to the names in the loaded records. */
  function Fight(game: Game, day: Day, remain: seq<Entry>, p1: Player, p2: Player): State {
    var (t1, t2) := Outcome(game, day, p1, p2);
    var (day1, remain1) := Place(Fought(game, day, p1, p2), remain, NameOfFirst(game.row, p1, p2), t1);
    Place(day1, remain1, p2, t2)
  }

  /** The day after a fight, with nobody placed yet. */
  function Fought(game: Game, day: Day, p1: Player, p2: Player): Day {
    var (t1, t2) := Outcome(game, day, p1, p2);
    var first := Note(Note(day.first, p1, Held(day.tickets, p1)), p2, Held(day.tickets, p2));
    Day(day.tickets[p1 := t1][p2 := t2], first, day.out, day.fought + 1)
  }

  // ---------- one round, and all rounds ----------

  /** fight2Array: the last of one list against the last of the other, until one list is empty. */
  function FightPairs(game: Game, day: Day, u1: seq<Player>, u2: seq<Player>, remain: seq<Entry>): State
    decreases |u1|
  {
    if u1 == [] || u2 == [] then (day, remain)
    else
      var (day', remain') := Fight(game, day, remain, u1[|u1| - 1], u2[|u2| - 1]);
      FightPairs(game, day', u1[..|u1| - 1], u2[..|u2| - 1], remain')
  }

  function Players(entries: seq<Entry>): (ps: seq<Player>)
    ensures |ps| == |entries|
  {
    seq(|entries|, i requires 0 <= i < |entries| => entries[i].player)
  }

  /** Every second player, from `from` on. */
  function Alternate(entries: seq<Entry>, from: nat): (ps: seq<Player>)
    ensures |ps| == if from >= |entries| then 0 else (|entries| - from + 1) / 2
    ensures forall i :: 0 <= i < |ps| ==> ps[i] == entries[from + 2 * i].player
    decreases |entries| - from
  {
    if from >= |entries| then [] else [entries[from].player] + Alternate(entries, from + 2)
  }

  /** Whoever fights in a round: with an odd number of players the first sits out. */
  function Paired(entries: seq<Entry>): (paired: seq<Entry>)
    ensures |paired| % 2 == 0
  {
    if |entries| % 2 != 0 then entries[1..] else entries
  }

  function SitsOut(entries: seq<Entry>): seq<Entry> {
    if |entries| % 2 != 0 then [entries[0]] else []
  }

  /** The first and the second players of the pairs of a round. */
  function Firsts(entries: seq<Entry>): (u: seq<Player>)
    ensures |u| == |entries| / 2
  {
    Alternate(Paired(entries), 0)
  }

  function Seconds(entries: seq<Entry>): (u: seq<Player>)
    ensures |u| == |entries| / 2
  {
    Alternate(Paired(entries), 1)
  }

  function Round(game: Game, day: Day, entries: seq<Entry>): State {
    var (day', remain) := FightPairs(game, day, Firsts(entries), Seconds(entries), []);
    (day', remain + SitsOut(entries))
  }

  const MAX_ROUNDS: nat := 10
  const ENOUGH: nat := 16

  function RoundStep(game: Game): State -> State {
    (x: State) => Round(game, x.0, x.1)
  }

  function StillMany(): State -> bool {
    (x: State) => |x.1| > ENOUGH
  }

  function Repeat<S>(step: S -> S, more: S -> bool, state: S, count: nat): S
    decreases MAX_ROUNDS - count
  {
    if count >= MAX_ROUNDS || !more(state) then state else Repeat(step, more, step(state), count + 1)
  }

  /** fightOne, from round `count` on: at most ten rounds, and none among sixteen players or fewer. */
  function Rounds(game: Game, day: Day, entries: seq<Entry>, count: nat): State {
    Repeat(RoundStep(game), StillMany(), (day, entries), count)
  }

  // ---------- shared records ----------

  /** Some pair of this round shares a record. */
  predicate Clash(row: nat -> nat, entries: seq<Entry>) {
    exists i :: 0 <= i < |entries| / 2 && Shared(row, Firsts(entries)[i], Seconds(entries)[i])
  }

  function ClashNow(row: nat -> nat): State -> bool {
    (x: State) => Clash(row, x.1)
  }

  /** Some step is taken from a state that `bad` holds of. */
  predicate Takes<S>(step: S -> S, more: S -> bool, bad: S -> bool, state: S, count: nat)
    decreases MAX_ROUNDS - count
  {
    count < MAX_ROUNDS && more(state) && (bad(state) || Takes(step, more, bad, step(state), count + 1))
  }

  /** Some round that is fought, from round `count` on, has such a pair. */
  predicate RunClashes(game: Game, day: Day, entries: seq<Entry>, count: nat) {
    Takes(RoundStep(game), StillMany(), ClashNow(game.row), (day, entries), count)
  }
}
