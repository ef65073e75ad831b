/** Idle-reward settlement of `pack/module/afk/afk.js`. Times are milliseconds. */
module Afk {
  import opened Wrappers

  /** A row of the `Afkreward` table. */
  datatype Reward = Reward(offlineinterval: int, offlinegold: int, offlineexp: int, onlinegold: int, onlineexp: int)

  /** `Const.AFK_MAX_TIME`, with which the code compares a number of seconds. */
  const AFK_MAX_TIME: int := 12 * 60 * 60 * 1000

  datatype Profit = Profit(gold: Option<int>, exp: Option<int>, offTime: Option<int>)

  const NO_PROFIT := Profit(None, None, None)

  datatype Node = Node(fightTime: int, victoryTime: int, proAfkTime: int)

  class Result {
    var gold: Option<int>
    var exp: Option<int>
    var offTime: Option<int>

    function Value(): Profit
      reads this
    {
      Profit(gold, exp, offTime)
    }

    constructor ()
      ensures Value() == NO_PROFIT
    {
      gold, exp, offTime := None, None, None;
    }
  }

  class NodeInfo {
    var fightTime: int
    var victoryTime: int
    var proAfkTime: int

    function Value(): Node
      reads this
    {
      Node(fightTime, victoryTime, proAfkTime)
    }
  }

  // ---------- one settlement ----------

  /** Whole seconds, truncated toward zero. */
  function Seconds(milliseconds: int): int {
    if milliseconds >= 0 then milliseconds / 1000 else -(-milliseconds / 1000)
  }

  /** The capped absence. */
  function OffTime(since: int, now: int): int {
    if Seconds(now - since) >= AFK_MAX_TIME then AFK_MAX_TIME else Seconds(now - since)
  }

  /** The whole intervals that an absence is paid for. */
  function Intervals(interval: int, since: int, now: int): int
    requires interval > 0
  {
    OffTime(since, now) / interval
  }

  function OfflineProfit(row: Reward, offTime: int): Profit
    requires row.offlineinterval > 0
  {
    var num := offTime / row.offlineinterval;
    Profit(Some(num * row.offlinegold), Some(num * row.offlineexp), Some(offTime))
  }

  datatype Visit = Offline(time: int) | Online(time: int, win: int)

  /** The node and the answer after one call of calProfit. */
  function Settle(row: Reward, node: Node, visit: Visit): (Node, Profit)
    requires visit.Offline? ==> row.offlineinterval > 0
  {
    match visit
    case Online(now, win) =>
      (Node(node.fightTime + 1, node.victoryTime + (if win == 1 then 1 else 0), now),
       if win == 1 then Profit(Some(row.onlinegold), Some(row.onlineexp), None) else NO_PROFIT)
    case Offline(now) =>
      (node.(proAfkTime := now), OfflineProfit(row, OffTime(node.proAfkTime, now)))
  }

  method CalOfflineProfit(rewards: map<string, Reward>, akfrewardid: string, offTime: int, result: Result)
    requires akfrewardid in rewards && rewards[akfrewardid].offlineinterval > 0
    modifies result
    ensures result.Value() == OfflineProfit(rewards[akfrewardid], offTime)
  {
    var num := offTime / rewards[akfrewardid].offlineinterval;
    var gold := num * rewards[akfrewardid].offlinegold;
    var exp := num * rewards[akfrewardid].offlineexp;
    result.gold := Some(gold);
    result.exp := Some(exp);
    result.offTime := Some(offTime);
  }

  method CalOnlineProfit(rewards: map<string, Reward>, akfrewardid: string, result: Result)
    requires akfrewardid in rewards
    modifies result
    ensures result.Value()
            == Profit(Some(rewards[akfrewardid].onlinegold), Some(rewards[akfrewardid].onlineexp), old(result.offTime))
  {
    result.gold := Some(rewards[akfrewardid].onlinegold);
    result.exp := Some(rewards[akfrewardid].onlineexp);
  }

  method CalProfit(
    worldMap: map<string, string>, rewards: map<string, Reward>,
    isOffline: bool, nodeinfo: NodeInfo, curAfkNode: string, win: int, now: int)
    returns (result: Result)
    requires curAfkNode in worldMap
    requires isOffline || win == 1 ==> worldMap[curAfkNode] in rewards
    requires isOffline ==> rewards[worldMap[curAfkNode]].offlineinterval > 0
    modifies nodeinfo
    ensures fresh(result)
    ensures isOffline || win == 1 ==>
              (nodeinfo.Value(), result.Value())
              == Settle(rewards[worldMap[curAfkNode]], old(nodeinfo.Value()),
                        if isOffline then Offline(now) else Online(now, win))
    ensures !isOffline && win != 1 ==>
              forall row :: (nodeinfo.Value(), result.Value()) == Settle(row, old(nodeinfo.Value()), Online(now, win))
  {
    result := new Result();
    var akfrewardid := worldMap[curAfkNode];
    if !isOffline {
      nodeinfo.fightTime := nodeinfo.fightTime + 1;
      if win == 1 {
        nodeinfo.victoryTime := nodeinfo.victoryTime + 1;
        CalOnlineProfit(rewards, akfrewardid, result);
      }
    } else {
      var offTime := Seconds(now - nodeinfo.proAfkTime);
      if offTime >= AFK_MAX_TIME {
        offTime := AFK_MAX_TIME;
      }
      CalOfflineProfit(rewards, akfrewardid, offTime, result);
    }
    nodeinfo.proAfkTime := now;
  }

  // ---------- runs of settlements ----------

  function Run(row: Reward, node: Node, visits: seq<Visit>): Node
    requires row.offlineinterval > 0
    decreases |visits|
  {
    if visits == [] then node else Run(row, Settle(row, node, visits[0]).0, visits[1..])
  }

  /** What the visits of one kind pay out: gold and experience. */
  function Earned(row: Reward, node: Node, visits: seq<Visit>, offline: bool): (int, int)
    requires row.offlineinterval > 0
    decreases |visits|
  {
    if visits == [] then (0, 0)
    else
      var (next, profit) := Settle(row, node, visits[0]);
      var (gold, exp) := Earned(row, next, visits[1..], offline);
      if visits[0].Offline? == offline then (Amount(profit.gold) + gold, Amount(profit.exp) + exp) else (gold, exp)
  }

  function Amount(paid: Option<int>): int {
    if paid.Some? then paid.value else 0
  }

  function Paid(interval: int, since: int, visits: seq<Visit>): int
    requires interval > 0
    decreases |visits|
  {
    if visits == [] then 0
    else (if visits[0].Offline? then Intervals(interval, since, visits[0].time) else 0)
         + Paid(interval, visits[0].time, visits[1..])
  }

  function Wins(visits: seq<Visit>): int {
    if visits == [] then 0 else (if visits[0].Online? && visits[0].win == 1 then 1 else 0) + Wins(visits[1..])
  }

  function Fights(visits: seq<Visit>): int {
    if visits == [] then 0 else (if visits[0].Online? then 1 else 0) + Fights(visits[1..])
  }

  function LastTime(since: int, visits: seq<Visit>): int {
    if visits == [] then since else visits[|visits| - 1].time
  }

  /** The clock does not go backwards. */
  predicate Rising(since: int, visits: seq<Visit>)
    decreases |visits|
  {
    visits == [] || (since <= visits[0].time && Rising(visits[0].time, visits[1..]))
  }

  /** Every visit settles an absence that the cap does not cut. */
  predicate Uncapped(since: int, visits: seq<Visit>)
    decreases |visits|
  {
    visits == [] ||
    (&& visits[0].Offline? && Seconds(visits[0].time - since) <= AFK_MAX_TIME
     && Uncapped(visits[0].time, visits[1..]))
  }

  /** What a run does to the node, and what it pays: by interval offline, by win online. */
  lemma {:induction false} RunPays(row: Reward, node: Node, visits: seq<Visit>)
    requires row.offlineinterval > 0
    ensures Run(row, node, visits)
            == Node(node.fightTime + Fights(visits), node.victoryTime + Wins(visits), LastTime(node.proAfkTime, visits))
    ensures var paid := Paid(row.offlineinterval, node.proAfkTime, visits);
            Earned(row, node, visits, true) == (paid * row.offlinegold, paid * row.offlineexp)
    ensures Earned(row, node, visits, false) == (Wins(visits) * row.onlinegold, Wins(visits) * row.onlineexp)
    decreases |visits|
  {
    if visits != [] {
      var next := Settle(row, node, visits[0]).0;
      RunPays(row, next, visits[1..]);
      var here := if visits[0].Offline? then Intervals(row.offlineinterval, node.proAfkTime, visits[0].time) else 0;
      var later := Paid(row.offlineinterval, next.proAfkTime, visits[1..]);
      Distribute(here, later, row.offlinegold);
      Distribute(here, later, row.offlineexp);
      var won := if visits[0].Online? && visits[0].win == 1 then 1 else 0;
      Distribute(won, Wins(visits[1..]), row.onlinegold);
      Distribute(won, Wins(visits[1..]), row.onlineexp);
    }
  }

  lemma Distribute(x: int, y: int, z: int)
    ensures (x + y) * z == x * z + y * z
  {
  }
}
