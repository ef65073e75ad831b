/** What lies at an index of the bag: whose it is, and how it got there. */
module BagContents {
  import opened Wrappers
  import opened Bag
  import opened BagRuns

  function EquipAt(b: BagList, index: string): Option<EquipInfo> {
    if index in b.equipList then Some(b.equipList[index]) else None
  }

  function ItemAt(b: BagList, id: string): Option<int> {
    if id in b.itemList then Some(b.itemList[id]) else None
  }

  /** What deletions of `num` leave of a number. */
  function Remainder(num: int): Option<int> {
    if num == 0 then None else Some(num)
  }

  /** A deletion that meets the equipment at `index`: items of that name are taken first. */
  ghost predicate Takes(b: BagList, op: Op, index: string) {
    && op.Del? && op.index == index && index !in b.itemList && index in b.equipList
    && 0 <= op.num <= b.equipList[index].num
  }

  /** One call, seen at one index of the equipment: it holds what was handed in, down to the last property; a
      deletion lowers its number only, and drops it at 0; no call at another index touches it. */
  lemma StepOnEquip(table: ItemTable, b: BagList, op: Op, index: string)
    ensures var (next, ok) := Step(table, b, op);
            EquipAt(next, index)
            == if ok && op.Equip? && op.index == index then Some(op.info)
               else if Takes(b, op, index) then
                 var left := b.equipList[index].num - op.num;
                 if left == 0 then None
                 else Some(EquipInfo(b.equipList[index].id, left, b.equipList[index].rest))
               else EquipAt(b, index)
    ensures Step(table, b, op).1 && op.Equip? ==> op.index !in b.equipList
  {
  }

  /** One call, seen at one id of the items. */
  lemma StepOnItem(table: ItemTable, b: BagList, op: Op, id: string)
    ensures var (next, ok) := Step(table, b, op);
            ItemAt(next, id)
            == if ok && op.Add? && op.id == id then Some(ItemCount(b, id) + op.num)
               else if op.Del? && op.index == id && id in b.itemList && 0 <= op.num <= b.itemList[id] then
                 Remainder(b.itemList[id] - op.num)
               else ItemAt(b, id)
  {
  }

  /** The index holds something before and after every call. */
  ghost predicate NeverEmpty(table: ItemTable, b: BagList, ops: seq<Op>, index: string)
    decreases |ops|
  {
    index in b.equipList && (ops != [] ==> NeverEmpty(table, Step(table, b, ops[0]).0, ops[1..], index))
  }

  /** What the run's deletions took from the equipment at `index`. */
  ghost function Taken(table: ItemTable, b: BagList, ops: seq<Op>, index: string): int
    decreases |ops|
  {
    if ops == [] then 0
    else (if Takes(b, ops[0], index) then ops[0].num else 0) + Taken(table, Step(table, b, ops[0]).0, ops[1..], index)
  }

  /** As long as an index is not emptied, its equipment stays what it was, but for the number that was taken. */
  lemma {:induction false} EquipStays(table: ItemTable, b: BagList, ops: seq<Op>, index: string)
    requires NeverEmpty(table, b, ops, index)
    ensures EquipAt(Run(table, b, ops), index)
            == Some(EquipInfo(b.equipList[index].id,
                              b.equipList[index].num - Taken(table, b, ops, index),
                              b.equipList[index].rest))
    decreases |ops|
  {
    if ops != [] {
      StepOnEquip(table, b, ops[0], index);
      EquipStays(table, Step(table, b, ops[0]).0, ops[1..], index);
    }
  }

  /** The call `ops[k]` put equipment in at `index`, and the index was not emptied since. */
  ghost predicate PutIn(table: ItemTable, b: BagList, ops: seq<Op>, k: nat, index: string) {
    && k < |ops| && ops[k].Equip? && ops[k].index == index
    && var before := Run(table, b, ops[..k]);
       Step(table, before, ops[k]).1 && NeverEmpty(table, Step(table, before, ops[k]).0, ops[k + 1..], index)
  }

  /** Equipment that a call puts in is still there as it was handed in, less what was taken since. */
  lemma PutInStays(table: ItemTable, b: BagList, ops: seq<Op>, k: nat, index: string)
    requires PutIn(table, b, ops, k, index)
    ensures var info, since := ops[k].info, Step(table, Run(table, b, ops[..k]), ops[k]).0;
            EquipAt(Run(table, b, ops), index)
            == Some(EquipInfo(info.id, info.num - Taken(table, since, ops[k + 1..], index), info.rest))
  {
    var before := Run(table, b, ops[..k]);
    StepOnEquip(table, before, ops[k], index);
    EquipStays(table, Step(table, before, ops[k]).0, ops[k + 1..], index);
    RunSplits(table, b, ops, k);
  }

  /** A run leaves equipment at an index exactly when it lay there all the time, or one call put it in for good. */
  lemma EquipHasAnOrigin(table: ItemTable, b: BagList, ops: seq<Op>, index: string)
    ensures index in Run(table, b, ops).equipList
            <==> NeverEmpty(table, b, ops, index) || exists k: nat :: PutIn(table, b, ops, k, index)
  {
    if NeverEmpty(table, b, ops, index) {
      EquipStays(table, b, ops, index);
    } else if k: nat :| PutIn(table, b, ops, k, index) {
      PutInStays(table, b, ops, k, index);
    } else if index in Run(table, b, ops).equipList {
      var k := Origin(table, b, ops, index);
    }
  }

  lemma {:induction false} RunSplits(table: ItemTable, b: BagList, ops: seq<Op>, k: nat)
    requires k < |ops|
    ensures Run(table, b, ops) == Run(table, Step(table, Run(table, b, ops[..k]), ops[k]).0, ops[k + 1..])
    decreases k
  {
    if k > 0 {
      RunSplits(table, Step(table, b, ops[0]).0, ops[1..], k - 1);
      assert ops[..k][1..] == ops[1..][..k - 1];
      assert ops[1..][k..] == ops[k + 1..];
    }
  }

  lemma {:induction false} Origin(table: ItemTable, b: BagList, ops: seq<Op>, index: string) returns (k: nat)
    requires index in Run(table, b, ops).equipList && !NeverEmpty(table, b, ops, index)
    ensures PutIn(table, b, ops, k, index)
    decreases |ops|
  {
    var next := Step(table, b, ops[0]).0;
    if NeverEmpty(table, next, ops[1..], index) {
      k := 0;
      StepOnEquip(table, b, ops[0], index);
      assert Run(table, b, ops[..0]) == b;
    } else {
      var j := Origin(table, next, ops[1..], index);
      k := j + 1;
      assert ops[..k][0] == ops[0] && ops[..k][1..] == ops[1..][..j];
      assert ops[1..][j + 1..] == ops[k + 1..];
    }
  }

  /** No later call put anything in at the index: it was taken. So the origin is the last success there. */
  lemma OriginIsLast(table: ItemTable, b: BagList, ops: seq<Op>, k: nat, later: nat, index: string)
    requires PutIn(table, b, ops, k, index) && k < later < |ops| && ops[later].Equip? && ops[later].index == index
    ensures !Step(table, Run(table, b, ops[..later]), ops[later]).1
  {
    var since := Step(table, Run(table, b, ops[..k]), ops[k]).0;
    NeverEmptyBefore(table, since, ops[k + 1..], later - k - 1, index);
    assert ops[k + 1..][..later - k - 1] == ops[..later][k + 1..];
    assert ops[..later][..k] == ops[..k];
    RunSplits(table, b, ops[..later], k);
  }

  lemma {:induction false} NeverEmptyBefore(table: ItemTable, b: BagList, ops: seq<Op>, i: nat, index: string)
    requires NeverEmpty(table, b, ops, index) && i <= |ops|
    ensures index in Run(table, b, ops[..i]).equipList
    decreases i
  {
    if i > 0 {
      NeverEmptyBefore(table, Step(table, b, ops[0]).0, ops[1..], i - 1, index);
      assert ops[..i][1..] == ops[1..][..i - 1];
    }
  }
}
