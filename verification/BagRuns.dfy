/** What single calls and whole runs on a bag keep, undo and conserve. */
module BagRuns {
  import opened Wrappers
  import opened Slots
  import opened Bag

  datatype Op =
    | Add(id: string, num: int)
    | Equip(index: string, info: EquipInfo)
    | Del(index: string, num: int)

  ghost function Step(table: ItemTable, b: BagList, op: Op): (BagList, bool) {
    match op
    case Add(id, num) => AddItem(table, id, num, b)
    case Equip(index, info) => AddEquip(table, index, info, b)
    case Del(index, num) => DelItem(index, num, b)
  }

  ghost function Run(table: ItemTable, b: BagList, ops: seq<Op>): BagList
    decreases |ops|
  {
    if ops == [] then b else Run(table, Step(table, b, ops[0]).0, ops[1..])
  }

  // ---------- slots taken and freed by one call ----------

  /** The room for `id` in its last, partly filled stack. */
  function FreeInStack(table: ItemTable, b: BagList, id: string): int
    requires Stackable(table, id)
  {
    Free(ItemCount(b, id), table[id].stackMax.value)
  }

  /** Does the incomplete stack of `num` fit into the one that is already there? */
  predicate FitsLastStack(table: ItemTable, b: BagList, id: string, num: int)
    requires Stackable(table, id)
  {
    0 < num % table[id].stackMax.value <= FreeInStack(table, b, id)
  }

  /** The bag with `num` more of `id`, whether or not the guard would allow it. */
  function Grown(b: BagList, id: string, num: int): BagList {
    b.(itemList := b.itemList[id := ItemCount(b, id) + num])
  }

  lemma UsedWith(table: ItemTable, b: BagList, id: string, num: int)
    requires Stackable(table, id)
    ensures Used(table, b.(itemList := b.itemList[id := num]))
            == Used(table, b) - SlotsFor(table, id, ItemCount(b, id)) + SlotsFor(table, id, num)
  {
    SlotSumChange(table, b.itemList, id, num);
    CeilDivZero(table[id].stackMax.value);
  }

  lemma UsedWithout(table: ItemTable, b: BagList, id: string)
    requires id in b.itemList
    ensures Used(table, b.(itemList := b.itemList - {id}))
            == Used(table, b) - SlotsFor(table, id, b.itemList[id])
  {
    SlotSumChange(table, b.itemList, id, 0);
    assert (b.itemList - {id}).Keys == b.itemList.Keys - {id};
  }

  /** Exactly what an addition takes: the slots asked for, less one when the last stack absorbs the rest. */
  lemma AdditionTakes(table: ItemTable, b: BagList, id: string, num: int)
    requires Stackable(table, id)
    ensures Used(table, Grown(b, id, num))
            == Used(table, b) + SlotsFor(table, id, num) - if FitsLastStack(table, b, id, num) then 1 else 0
  {
    UsedWith(table, b, id, ItemCount(b, id) + num);
    SlotsTaken(ItemCount(b, id), num, table[id].stackMax.value);
  }

  /** So an addition takes the floor or the ceiling of `num / stackMax`, and the guard over-reserves by at most one. */
  lemma AdditionTakesFloorOrCeiling(table: ItemTable, b: BagList, id: string, num: int)
    requires Stackable(table, id)
    ensures var s, taken := table[id].stackMax.value, Used(table, Grown(b, id, num)) - Used(table, b);
            taken == num / s || taken == CeilDiv(num, s)
  {
    AdditionTakes(table, b, id, num);
    CeilDivParts(num, table[id].stackMax.value);
  }

  /** The guard refuses an addition that would have fit exactly when one more slot was asked for than
      the addition takes, and just that slot is missing. */
  lemma RefusedThoughItFits(table: ItemTable, b: BagList, id: string, num: int)
    requires Good(table, b) && Used(table, b) <= b.max && num > 0 && Stackable(table, id)
    ensures !TryAddItem(table, id, num, b) && Used(table, Grown(b, id, num)) <= b.max
            <==> FitsLastStack(table, b, id, num) && SlotsFor(table, id, num) == LeftRoom(table, b) + 1
  {
    AdditionTakes(table, b, id, num);
  }

  lemma DeletionUsed(table: ItemTable, b: BagList, id: string, num: int)
    requires id in b.itemList && Stackable(table, id) && DelItem(id, num, b).1
    ensures Used(table, b) - Used(table, DelItem(id, num, b).0)
            == SlotsFor(table, id, b.itemList[id]) - SlotsFor(table, id, b.itemList[id] - num)
  {
    if b.itemList[id] == num {
      UsedWithout(table, b, id);
      CeilDivZero(table[id].stackMax.value);
    } else {
      UsedWith(table, b, id, b.itemList[id] - num);
    }
  }

  /** A deletion of items frees the floor or the ceiling of `num / stackMax` slots. */
  lemma DeletionFrees(table: ItemTable, b: BagList, id: string, num: int)
    requires id in b.itemList && Stackable(table, id) && DelItem(id, num, b).1
    ensures var s, freed := table[id].stackMax.value, Used(table, b) - Used(table, DelItem(id, num, b).0);
            freed >= 0 && (freed == num / s || freed == CeilDiv(num, s))
  {
    DeletionUsed(table, b, id, num);
    SlotsFreed(b.itemList[id], num, table[id].stackMax.value);
  }

  lemma DeletingEquipFrees(table: ItemTable, b: BagList, index: string, num: int)
    requires index !in b.itemList && index in b.equipList && DelItem(index, num, b).1
    ensures Used(table, DelItem(index, num, b).0)
            == Used(table, b) - if b.equipList[index].num == num then 1 else 0
  {
    var equips := b.equipList;
    assert (equips - {index}).Keys == equips.Keys - {index};
    assert |equips.Keys| == |equips| && |(equips - {index}).Keys| == |equips - {index}|;
    var changed := equips[index := equips[index].(num := equips[index].num - num)];
    assert changed.Keys == equips.Keys && |changed.Keys| == |changed|;
  }

  lemma DelFrees(table: ItemTable, b: BagList, index: string, num: int)
    requires GoodItems(table, b.itemList)
    ensures Used(table, DelItem(index, num, b).0) <= Used(table, b)
  {
    if DelItem(index, num, b).1 {
      if index in b.itemList {
        assert GoodItem(table, index, b.itemList[index]);
        DeletionFrees(table, b, index, num);
      } else {
        DeletingEquipFrees(table, b, index, num);
      }
    }
  }

  lemma DelKeepsGood(table: ItemTable, b: BagList, index: string, num: int)
    ensures GoodItems(table, b.itemList) ==> GoodItems(table, DelItem(index, num, b).0.itemList)
    ensures GoodEquips(table, b.equipList) ==> GoodEquips(table, DelItem(index, num, b).0.equipList)
    ensures KnownEquips(table, b.equipList) ==> KnownEquips(table, DelItem(index, num, b).0.equipList)
  {
  }

  /** No deletion ever lowers the room left, whatever the bag. */
  lemma DelNeverLowersRoom(table: ItemTable, b: BagList, index: string, num: int)
    ensures LeftRoom(table, DelItem(index, num, b).0) >= LeftRoom(table, b)
  {
    DelKeepsGood(table, b, index, num);
    if Good(table, b) {
      DelFrees(table, b, index, num);
    }
  }

  // ---------- the guard ----------

  lemma EquipTakes(table: ItemTable, b: BagList, index: string, info: EquipInfo)
    requires index !in b.equipList
    ensures Used(table, b.(equipList := b.equipList[index := info])) == Used(table, b) + 1
  {
    var more := b.equipList[index := info];
    assert more.Keys == b.equipList.Keys + {index};
    assert |more.Keys| == |more| && |b.equipList.Keys| == |b.equipList|;
  }

  /** Whatever bag is handed in, an addition that succeeds found it well-formed and leaves it so, within `max`. */
  lemma AddIsGuarded(table: ItemTable, b: BagList, id: string, num: int)
    requires AddItem(table, id, num, b).1
    ensures var after := AddItem(table, id, num, b).0;
            Good(table, b) && Good(table, after) && Used(table, after) <= b.max == after.max
  {
    CeilDivPositive(num, table[id].stackMax.value);
    AdditionTakes(table, b, id, num);
  }

  /** An addition succeeds exactly for a positive number of a stackable item, in a well-formed bag, that fits into the
      free slots when each of them takes a whole stack. */
  lemma AddSucceeds(table: ItemTable, b: BagList, id: string, num: int)
    ensures AddItem(table, id, num, b).1 <==>
              && num > 0 && id in table && table[id].stackMax.Some? && table[id].stackMax.value > 0
              && Good(table, b) && num <= table[id].stackMax.value * (b.max - Used(table, b))
  {
    if num > 0 && Stackable(table, id) {
      var s, free := table[id].stackMax.value, b.max - Used(table, b);
      CeilDivPositive(num, s);
      CeilDivFits(num, s, free);
    }
  }

  /** Equipment goes in exactly when its id is a known equip, its index is free, and the bag is well-formed and
      has room for it. */
  lemma EquipSucceeds(table: ItemTable, b: BagList, index: string, info: EquipInfo)
    ensures AddEquip(table, index, info, b).1 <==>
              && info.id.Some? && info.id.value in table && table[info.id.value].itemTepy == EQUIP
              && index !in b.equipList && Good(table, b)
              && Used(table, b.(equipList := b.equipList[index := info])) <= b.max
  {
    if index !in b.equipList {
      EquipTakes(table, b, index, info);
    }
  }

  /** The guard of equipment is self-protecting too, except that an empty id passes it and spoils the bag. */
  lemma EquipIsGuarded(table: ItemTable, b: BagList, index: string, info: EquipInfo)
    requires AddEquip(table, index, info, b).1
    ensures var after := AddEquip(table, index, info, b).0;
            && Good(table, b) && Used(table, after) <= b.max == after.max
            && (Good(table, after) <==> info.id.value != "")
            && (info.id.value == "" ==> LeftRoom(table, after) == 0)
  {
    EquipTakes(table, b, index, info);
    assert b.equipList[index := info][index] == info;
  }

  // ---------- whole runs ----------

  predicate KnownEquips(table: ItemTable, equips: map<string, EquipInfo>) {
    forall index :: index in equips ==> equips[index].id.Some? && equips[index].id.value in table
  }

  /** Every item countable, every equip id known, and no more slots used than there are. */
  ghost predicate Sound(table: ItemTable, b: BagList) {
    GoodItems(table, b.itemList) && KnownEquips(table, b.equipList) && Used(table, b) <= b.max
  }

  lemma StepKeepsSound(table: ItemTable, b: BagList, op: Op)
    requires Sound(table, b)
    ensures Sound(table, Step(table, b, op).0)
  {
    if !Step(table, b, op).1 {
      FailureChangesNothing(table, b, op);
    } else {
      match op
      case Add(id, num) => AddIsGuarded(table, b, id, num);
      case Equip(index, info) => EquipIsGuarded(table, b, index, info);
      case Del(index, num) =>
        DelKeepsGood(table, b, index, num);
        DelFrees(table, b, index, num);
    }
  }

  /** Capacity over whole runs. */
  lemma {:induction false} RunKeepsSound(table: ItemTable, b: BagList, ops: seq<Op>)
    requires Sound(table, b)
    ensures Sound(table, Run(table, b, ops)) && Run(table, b, ops).max == b.max
    decreases |ops|
  {
    if ops != [] {
      StepKeepsSound(table, b, ops[0]);
      RunKeepsSound(table, Step(table, b, ops[0]).0, ops[1..]);
    }
  }

  lemma FailureChangesNothing(table: ItemTable, b: BagList, op: Op)
    ensures !Step(table, b, op).1 ==> Step(table, b, op).0 == b
  {
  }

  /** The table holds equipment under the empty id. */
  predicate EmptyEquip(table: ItemTable) {
    "" in table && table[""].itemTepy == EQUIP
  }

  lemma StepKeepsGood(table: ItemTable, b: BagList, op: Op)
    requires Good(table, b) && !EmptyEquip(table)
    ensures Good(table, Step(table, b, op).0)
  {
    if Step(table, b, op).1 {
      match op
      case Add(id, num) => AddIsGuarded(table, b, id, num);
      case Equip(index, info) => EquipIsGuarded(table, b, index, info);
      case Del(index, num) => DelKeepsGood(table, b, index, num);
    }
  }

  lemma {:induction false} RunKeepsGood(table: ItemTable, b: BagList, ops: seq<Op>)
    requires Good(table, b) && !EmptyEquip(table)
    ensures Good(table, Run(table, b, ops))
    decreases |ops|
  {
    if ops != [] {
      StepKeepsGood(table, b, ops[0]);
      RunKeepsGood(table, Step(table, b, ops[0]).0, ops[1..]);
    }
  }

  /** A bag that a run leaves well-formed, with used and free slots making up `max`. */
  ghost predicate AddsUp(table: ItemTable, b: BagList, ops: seq<Op>) {
    var after := Run(table, b, ops);
    Good(table, after) && LeftRoom(table, after) + Used(table, after) == b.max
  }

  lemma RunAddsUp(table: ItemTable, b: BagList, ops: seq<Op>)
    requires Good(table, b) && Used(table, b) <= b.max && !EmptyEquip(table)
    ensures AddsUp(table, b, ops)
  {
    RunKeepsGood(table, b, ops);
    RunKeepsSound(table, b, ops);
  }

  function EmptyBag(): BagList {
    BagList(1, map[], map[])
  }

  /** Equipment with an empty id goes into an empty bag, and spoils it. */
  lemma EmptyEquipSpoils(table: ItemTable)
    requires EmptyEquip(table)
    ensures var after := Run(table, EmptyBag(), [Equip("1", EquipInfo(Some(""), 1, ""))]);
            |after.equipList| == 1 && !Good(table, after) && LeftRoom(table, after) == 0
  {
    var info := EquipInfo(Some(""), 1, "");
    var ops := [Equip("1", info)];
    EquipTakes(table, EmptyBag(), "1", info);
    EquipSucceeds(table, EmptyBag(), "1", info);
    EquipIsGuarded(table, EmptyBag(), "1", info);
    assert Run(table, EmptyBag(), ops) == Step(table, EmptyBag(), ops[0]).0;
  }

  /** Every run keeps every well-formed bag well-formed, with used and free slots making up `max`, if and only if the
      table holds no equipment under the empty id. */
  lemma GoodForever(table: ItemTable)
    ensures (forall b, ops :: Good(table, b) && Used(table, b) <= b.max ==> AddsUp(table, b, ops))
            <==> !EmptyEquip(table)
  {
    if EmptyEquip(table) {
      EmptyEquipSpoils(table);
      assert !AddsUp(table, EmptyBag(), [Equip("1", EquipInfo(Some(""), 1, ""))]);
    } else {
      forall b, ops | Good(table, b) && Used(table, b) <= b.max ensures AddsUp(table, b, ops) {
        RunAddsUp(table, b, ops);
      }
    }
  }

  // ---------- ledger ----------

  function EquipCount(b: BagList, index: string): int {
    if index in b.equipList then b.equipList[index].num else 0
  }

  function Count(b: BagList, index: string): int {
    ItemCount(b, index) + EquipCount(b, index)
  }

  /** What a call says it does to `index`. */
  function Change(op: Op, index: string): int {
    match op
    case Add(id, num) => if id == index then num else 0
    case Equip(at, info) => if at == index then info.num else 0
    case Del(at, num) => if at == index then -num else 0
  }

  /** The changes of the calls that succeeded. */
  ghost function Ledger(table: ItemTable, b: BagList, ops: seq<Op>, index: string): int
    decreases |ops|
  {
    if ops == [] then 0
    else var (next, ok) := Step(table, b, ops[0]);
         (if ok then Change(ops[0], index) else 0) + Ledger(table, next, ops[1..], index)
  }

  lemma StepBooks(table: ItemTable, b: BagList, op: Op, index: string)
    ensures var (next, ok) := Step(table, b, op);
            Count(next, index) == Count(b, index) + if ok then Change(op, index) else 0
  {
  }

  /** Conservation over whole runs, on any bag: the count of an index changes by its successful calls only. */
  lemma {:induction false} RunBooks(table: ItemTable, b: BagList, ops: seq<Op>, index: string)
    ensures Count(Run(table, b, ops), index) == Count(b, index) + Ledger(table, b, ops, index)
    decreases |ops|
  {
    if ops != [] {
      StepBooks(table, b, ops[0], index);
      RunBooks(table, Step(table, b, ops[0]).0, ops[1..], index);
    }
  }

  /** The count that callers see is the one the ledger keeps, for an index in one map only. */
  lemma CountIsSeen(b: BagList, index: string)
    requires index !in b.itemList || index !in b.equipList
    ensures GetItemNum(index, b) == Count(b, index) <==> Count(b, index) >= 0
  {
  }

  predicate Present(b: BagList, index: string) {
    index in b.itemList || index in b.equipList
  }

  /** The number that deletions are checked against: the item's when there is one, else the equip's. */
  function Stored(b: BagList, index: string): int {
    if index in b.itemList then b.itemList[index] else EquipCount(b, index)
  }

  /** Deletion succeeds exactly for what `GetItemNum` reports, which is the number stored or 0, unless the bag stores
      a negative number. */
  lemma DelSucceedsForWhatIsCounted(b: BagList, index: string)
    ensures GetItemNum(index, b) == if Stored(b, index) < 0 then 0 else Stored(b, index)
    ensures forall num :: DelItem(index, num, b).1 <==> 0 <= num <= Stored(b, index) && Present(b, index)
    ensures (forall num :: DelItem(index, num, b).1
                           <==> num >= 0 && Present(b, index) && GetItemNum(index, b) >= num)
            <==> Stored(b, index) >= 0
  {
    if Stored(b, index) < 0 {
      assert !DelItem(index, 0, b).1 && Present(b, index) && GetItemNum(index, b) >= 0;
    }
  }

  // ---------- round trips ----------

  lemma AddThenDelete(table: ItemTable, b: BagList, id: string, num: int)
    requires AddItem(table, id, num, b).1
    ensures DelItem(id, num, AddItem(table, id, num, b).0) == (b, true)
  {
    AddIsGuarded(table, b, id, num);
    var after := AddItem(table, id, num, b).0;
    if id in b.itemList {
      assert GoodItem(table, id, b.itemList[id]);
      assert after.itemList[id := after.itemList[id] - num] == b.itemList;
    } else {
      assert after.itemList - {id} == b.itemList;
    }
  }

  /** Equipment comes back out exactly, unless an item hides its index or its number is negative. */
  lemma EquipThenDelete(table: ItemTable, b: BagList, index: string, info: EquipInfo)
    requires AddEquip(table, index, info, b).1
    ensures DelItem(index, info.num, AddEquip(table, index, info, b).0) == (b, true)
            <==> index !in b.itemList && info.num >= 0
  {
    var after := AddEquip(table, index, info, b).0;
    assert after.equipList - {index} == b.equipList;
    assert index in after.equipList && index !in b.equipList;
  }

  lemma DeleteThenGrow(b: BagList, id: string, num: int)
    requires id in b.itemList && DelItem(id, num, b).1
    ensures Grown(DelItem(id, num, b).0, id, num) == b
  {
    assert Grown(DelItem(id, num, b).0, id, num).itemList == b.itemList;
  }

  lemma RoomAfterDeletion(table: ItemTable, b: BagList, id: string, num: int)
    requires Good(table, b) && Used(table, b) <= b.max && id in b.itemList && DelItem(id, num, b).1
    requires Stackable(table, id)
    ensures var after := DelItem(id, num, b).0;
            LeftRoom(table, after)
            == LeftRoom(table, b) + SlotsFor(table, id, num) - if FitsLastStack(table, after, id, num) then 1 else 0
  {
    DelKeepsGood(table, b, id, num);
    DelFrees(table, b, id, num);
    DeleteThenGrow(b, id, num);
    AdditionTakes(table, DelItem(id, num, b).0, id, num);
  }

  /** Deleted items go back, and restore the bag, unless no slot was free and the guard over-reserves. */
  lemma DeleteThenAdd(table: ItemTable, b: BagList, id: string, num: int)
    requires Good(table, b) && Used(table, b) <= b.max && id in b.itemList && num > 0
    requires DelItem(id, num, b).1
    ensures Stackable(table, id)
    ensures var after := DelItem(id, num, b).0;
            AddItem(table, id, num, after)
            == if LeftRoom(table, b) >= 1 || !FitsLastStack(table, after, id, num) then (b, true) else (after, false)
  {
    assert GoodItem(table, id, b.itemList[id]);
    DeleteThenGrow(b, id, num);
    RoomAfterDeletion(table, b, id, num);
  }
}
