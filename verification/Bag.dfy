/** The bag of `pack/module/bag/bag.js`: stackable items, one-slot equipment, and a bound on the slots used. */
module Bag {
  import opened Wrappers
  import opened Slots

  /** A row of the item table. `stackMax` is None when it is not a number. */
  datatype Item = Item(stackMax: Option<int>, itemTepy: int)

  type ItemTable = map<string, Item>

  /** `Const.ITEM.MAIN_TYPE.EQUIP` */
  const EQUIP := 1

  /** `id` is None when the property is missing; `rest` is whatever else the object carries. */
  datatype EquipInfo = EquipInfo(id: Option<string>, num: int, rest: string)

  datatype BagList = BagList(max: int, itemList: map<string, int>, equipList: map<string, EquipInfo>)

  // ---------- what the bag holds ----------

  predicate Stackable(table: ItemTable, id: string) {
    id in table && table[id].stackMax.Some? && table[id].stackMax.value > 0
  }

  /** The slots of one item; an item that the table cannot stack has no defined size. */
  function SlotsFor(table: ItemTable, id: string, num: int): int {
    if Stackable(table, id) then CeilDiv(num, table[id].stackMax.value) else 0
  }

  ghost function SlotSum(table: ItemTable, items: map<string, int>, ids: set<string>): int
    requires ids <= items.Keys
  {
    if ids == {} then 0
    else var id :| id in ids; SlotsFor(table, id, items[id]) + SlotSum(table, items, ids - {id})
  }

  ghost function Used(table: ItemTable, b: BagList): int {
    SlotSum(table, b.itemList, b.itemList.Keys) + |b.equipList|
  }

  predicate GoodItem(table: ItemTable, id: string, num: int) {
    num > 0 && Stackable(table, id)
  }

  /** JavaScript's `!id` holds of a missing id and of the empty string. */
  predicate GoodEquip(table: ItemTable, info: EquipInfo) {
    info.id.Some? && info.id.value != "" && info.id.value in table
  }

  predicate GoodItems(table: ItemTable, items: map<string, int>) {
    forall id :: id in items ==> GoodItem(table, id, items[id])
  }

  predicate GoodEquips(table: ItemTable, equips: map<string, EquipInfo>) {
    forall index :: index in equips ==> GoodEquip(table, equips[index])
  }

  predicate Good(table: ItemTable, b: BagList) {
    GoodItems(table, b.itemList) && GoodEquips(table, b.equipList)
  }

  /** Free slots: what is left of `max` in a well-formed bag, nothing in a malformed one. */
  ghost function LeftRoom(table: ItemTable, b: BagList): int {
    if Good(table, b) && Used(table, b) <= b.max then b.max - Used(table, b) else 0
  }

  function GetItemNum(index: string, b: BagList): int {
    if index in b.itemList then
      if b.itemList[index] <= 0 then 0 else b.itemList[index]
    else if index in b.equipList then
      if b.equipList[index].num <= 0 then 0 else b.equipList[index].num
    else 0
  }

  // ---------- one call: the bag after it, and whether it succeeded ----------

  function DelItem(index: string, num: int, b: BagList): (BagList, bool) {
    if num < 0 then (b, false)
    else if index in b.itemList then
      var left := b.itemList[index] - num;
      if left < 0 then (b, false)
      else (b.(itemList := if left == 0 then b.itemList - {index} else b.itemList[index := left]), true)
    else if index in b.equipList then
      var left := b.equipList[index].num - num;
      if left < 0 then (b, false)
      else (b.(equipList := if left == 0 then b.equipList - {index}
                            else b.equipList[index := b.equipList[index].(num := left)]), true)
    else (b, false)
  }

  ghost predicate TryAddItem(table: ItemTable, id: string, num: int, b: BagList) {
    num > 0 && Stackable(table, id) && SlotsFor(table, id, num) <= LeftRoom(table, b)
  }

  function ItemCount(b: BagList, id: string): int {
    if id in b.itemList then b.itemList[id] else 0
  }

  ghost function AddItem(table: ItemTable, id: string, num: int, b: BagList): (BagList, bool) {
    if TryAddItem(table, id, num, b) then
      (b.(itemList := b.itemList[id := ItemCount(b, id) + num]), true)
    else (b, false)
  }

  ghost predicate TryAddEquip(table: ItemTable, index: string, info: EquipInfo, b: BagList) {
    && info.id.Some? && info.id.value in table && table[info.id.value].itemTepy == EQUIP
    && LeftRoom(table, b) >= 1
    && index !in b.equipList
  }

  ghost function AddEquip(table: ItemTable, index: string, info: EquipInfo, b: BagList): (BagList, bool) {
    if TryAddEquip(table, index, info, b) then (b.(equipList := b.equipList[index := info]), true)
    else (b, false)
  }

  // ---------- sums over the item map ----------

  lemma {:induction false} SlotSumRemove(table: ItemTable, items: map<string, int>, ids: set<string>, id: string)
    requires ids <= items.Keys && id in ids
    ensures SlotSum(table, items, ids) == SlotsFor(table, id, items[id]) + SlotSum(table, items, ids - {id})
    decreases |ids|
  {
    var first :| first in ids && SlotSum(table, items, ids)
                                 == SlotsFor(table, first, items[first]) + SlotSum(table, items, ids - {first});
    if first != id {
      SlotSumRemove(table, items, ids - {first}, id);
      SlotSumRemove(table, items, ids - {id}, first);
      assert ids - {first} - {id} == ids - {id} - {first};
    }
  }

  lemma {:induction false} SlotSumFrame(
    table: ItemTable, items: map<string, int>, items': map<string, int>, ids: set<string>)
    requires ids <= items.Keys && ids <= items'.Keys
    requires forall id :: id in ids ==> items[id] == items'[id]
    ensures SlotSum(table, items, ids) == SlotSum(table, items', ids)
    decreases |ids|
  {
    if ids != {} {
      var id :| id in ids;
      SlotSumRemove(table, items, ids, id);
      SlotSumRemove(table, items', ids, id);
      SlotSumFrame(table, items, items', ids - {id});
    }
  }

  /** Changing one entry, or dropping it, changes the sum by that entry's slots. */
  lemma SlotSumChange(table: ItemTable, items: map<string, int>, id: string, num: int)
    ensures SlotSum(table, items - {id}, items.Keys - {id})
            == SlotSum(table, items, items.Keys) - if id in items then SlotsFor(table, id, items[id]) else 0
    ensures SlotSum(table, items[id := num], items[id := num].Keys)
            == SlotSum(table, items - {id}, items.Keys - {id}) + SlotsFor(table, id, num)
  {
    var less, more := items - {id}, items[id := num];
    SlotSumFrame(table, items, less, items.Keys - {id});
    SlotSumFrame(table, more, less, items.Keys - {id});
    SlotSumRemove(table, more, more.Keys, id);
    assert more.Keys - {id} == items.Keys - {id};
    if id in items {
      SlotSumRemove(table, items, items.Keys, id);
    } else {
      assert items.Keys - {id} == items.Keys;
    }
  }

  // ---------- the code ----------

  class Bag {
    var max: int
    var itemList: map<string, int>
    var equipList: map<string, EquipInfo>

    function State(): BagList
      reads this
    {
      BagList(max, itemList, equipList)
    }

    constructor (max: int, itemList: map<string, int>, equipList: map<string, EquipInfo>)
      ensures State() == BagList(max, itemList, equipList)
    {
      this.max := max;
      this.itemList := itemList;
      this.equipList := equipList;
    }

    /** getLeftRoom: the keys of both maps are visited in any order. */
    method GetLeftRoom(table: ItemTable) returns (leftRoom: int)
      ensures leftRoom == LeftRoom(table, State())
    {
      leftRoom := max;
      if max == 0 {
        UsedNonNegative(table, State());
        return 0;
      }
      var todo := itemList.Keys;
      while todo != {}
        invariant todo <= itemList.Keys
        invariant forall id :: id in itemList && id !in todo ==> GoodItem(table, id, itemList[id])
        invariant leftRoom - SlotSum(table, itemList, todo) == max - SlotSum(table, itemList, itemList.Keys)
        decreases |todo|
      {
        var index :| index in todo;
        SlotSumRemove(table, itemList, todo, index);
        todo := todo - {index};
        var itemNum := itemList[index];
        if index !in table {
          return 0;
        }
        if itemNum <= 0 {
          return 0;
        }
        var stackMax := table[index].stackMax;
        if stackMax.None? || stackMax.value <= 0 {
          return 0;
        }
        leftRoom := leftRoom - CeilDiv(itemNum, stackMax.value);
      }
      var equips := equipList.Keys;
      assert |equips| == |equipList|;
      while equips != {}
        invariant equips <= equipList.Keys
        invariant forall index :: index in equipList && index !in equips ==> GoodEquip(table, equipList[index])
        invariant leftRoom - |equips| == max - SlotSum(table, itemList, itemList.Keys) - |equipList|
        decreases |equips|
      {
        var index :| index in equips;
        equips := equips - {index};
        var id := equipList[index].id;
        if id.None? || id.value == "" {
          return 0;
        }
        if id.value !in table {
          return 0;
        }
        leftRoom := leftRoom - 1;
      }
      if leftRoom < 0 {
        leftRoom := 0;
      }
    }

    method Delete(index: string, num: int) returns (ok: bool)
      modifies this
      ensures (State(), ok) == DelItem(index, num, old(State()))
    {
      if num < 0 {
        return false;
      }
      if index in itemList {
        if itemList[index] < num {
          return false;
        }
        itemList := itemList[index := itemList[index] - num];
        if itemList[index] <= 0 {
          itemList := itemList - {index};
          assert itemList == old(itemList) - {index};
        }
        return true;
      }
      if index in equipList {
        if equipList[index].num < num {
          return false;
        }
        equipList := equipList[index := equipList[index].(num := equipList[index].num - num)];
        if equipList[index].num <= 0 {
          equipList := equipList - {index};
          assert equipList == old(equipList) - {index};
        }
        return true;
      }
      return false;
    }

    method TryAdd(table: ItemTable, id: string, num: int) returns (ok: bool)
      ensures ok == TryAddItem(table, id, num, State())
    {
      if num <= 0 {
        return false;
      }
      if id !in table {
        return false;
      }
      var room := GetLeftRoom(table);
      var stackMax := table[id].stackMax;
      if stackMax.None? || stackMax.value <= 0 {
        return false;
      }
      var needRoom := CeilDiv(num, stackMax.value);
      if room < needRoom {
        return false;
      }
      return true;
    }

    method Add(table: ItemTable, id: string, num: int) returns (ok: bool)
      modifies this
      ensures (State(), ok) == AddItem(table, id, num, old(State()))
    {
      ok := TryAdd(table, id, num);
      if ok {
        if id in itemList {
          itemList := itemList[id := itemList[id] + num];
        } else {
          itemList := itemList[id := num];
        }
      }
    }

    method Equip(table: ItemTable, index: string, info: EquipInfo) returns (ok: bool)
      modifies this
      ensures (State(), ok) == AddEquip(table, index, info, old(State()))
    {
      if info.id.None? {
        return false;
      }
      if info.id.value !in table {
        return false;
      }
      if table[info.id.value].itemTepy != EQUIP {
        return false;
      }
      var room := GetLeftRoom(table);
      if room < 1 {
        return false;
      }
      if index in equipList {
        return false;
      }
      equipList := equipList[index := info];
      return true;
    }
  }

  lemma {:induction false} SlotSumNonNegative(table: ItemTable, items: map<string, int>, ids: set<string>)
    requires ids <= items.Keys && forall id :: id in ids ==> GoodItem(table, id, items[id])
    ensures SlotSum(table, items, ids) >= |ids|
    decreases |ids|
  {
    if ids != {} {
      var id :| id in ids;
      SlotSumRemove(table, items, ids, id);
      CeilDivPositive(items[id], table[id].stackMax.value);
      SlotSumNonNegative(table, items, ids - {id});
    }
  }

  lemma UsedNonNegative(table: ItemTable, b: BagList)
    ensures Good(table, b) ==> Used(table, b) >= |b.itemList| + |b.equipList|
  {
    if Good(table, b) {
      SlotSumNonNegative(table, b.itemList, b.itemList.Keys);
      assert |b.itemList.Keys| == |b.itemList|;
    }
  }
}
