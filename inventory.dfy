/**
 * The garden inventory (`src/persistence/inventory.ts`): consumable counts,
 * four dictionaries of owned items, the selected backpack and the bag
 * capacity. The IndexedDB store holding the single inventory record is an
 * `InventoryStore` object whose `stored` field is that record, or `None`
 * before anything was written.
 */
module Inventory {
  import opened Wrappers
  import opened Records

  const DEFAULT_CAPACITY := 5
  const STARTER_SEED := "pink_flower"

  /** `InventoryRecord`; the optional fields of older records are `Option`s. */
  datatype InventoryRecord = InventoryRecord(
    water: int,
    fertilizerBasic: int,
    fertilizerPremium: int,
    insecticide: Option<int>,
    seeds: Record<int>,
    tools: Option<Record<int>>,
    wateringCans: Option<Record<int>>,
    backpacks: Option<Record<int>>,
    selectedBackpackId: Option<string>,
    capacity: Option<int>)

  /** The three counted consumables. */
  datatype Consumable = Water | FertilizerBasic | FertilizerPremium

  /** The four dictionaries of items counted by id. */
  datatype Bag = Seeds | Tools | WateringCans | Backpacks

  /** The record `getInventory` writes when none is stored. */
  function DefaultInventory(): InventoryRecord {
    InventoryRecord(0, 0, 0, None, [Entry(STARTER_SEED, 1)],
                    Some([]), Some([]), Some([]), None, Some(DEFAULT_CAPACITY))
  }

  /** Every optional dictionary and the capacity are present. */
  predicate IsNormal(inv: InventoryRecord) {
    inv.tools.Some? && inv.wateringCans.Some? && inv.backpacks.Some? && inv.capacity.Some?
  }

  /** `normalizeInv`: a missing dictionary becomes `{}`, a missing capacity 5. */
  function Normalize(inv: InventoryRecord): (n: InventoryRecord)
    ensures IsNormal(n)
    ensures inv.tools.Some? ==> n.tools == inv.tools
    ensures inv.wateringCans.Some? ==> n.wateringCans == inv.wateringCans
    ensures inv.backpacks.Some? ==> n.backpacks == inv.backpacks
    ensures inv.capacity.Some? ==> n.capacity == inv.capacity
    ensures inv.tools.None? ==> n.tools == Some([])
    ensures inv.wateringCans.None? ==> n.wateringCans == Some([])
    ensures inv.backpacks.None? ==> n.backpacks == Some([])
    ensures inv.capacity.None? ==> n.capacity == Some(DEFAULT_CAPACITY)
    ensures n == inv.(tools := n.tools, wateringCans := n.wateringCans,
                      backpacks := n.backpacks, capacity := n.capacity)
  {
    inv.(tools := Some(inv.tools.GetOr([])),
         wateringCans := Some(inv.wateringCans.GetOr([])),
         backpacks := Some(inv.backpacks.GetOr([])),
         capacity := Some(inv.capacity.GetOr(DEFAULT_CAPACITY)))
  }

  /** Normalizing twice is normalizing once, and a normal record is left as it is. */
  lemma NormalizeIdempotent(inv: InventoryRecord)
    ensures Normalize(Normalize(inv)) == Normalize(inv)
    ensures IsNormal(inv) <==> Normalize(inv) == inv
  {
  }

  /** The record `getInventory` returns for what is stored. */
  function Loaded(stored: Option<InventoryRecord>): (inv: InventoryRecord)
    ensures IsNormal(inv)
    ensures stored.None? ==> inv == DefaultInventory()
    ensures stored.Some? ==> inv == Normalize(stored.value)
  {
    if stored.None? then DefaultInventory() else Normalize(stored.value)
  }

  /** What is stored after `getInventory`: a missing record is replaced by the default one. */
  function AfterRead(stored: Option<InventoryRecord>): (s: Option<InventoryRecord>)
    ensures s.Some?
    ensures stored.Some? ==> s == stored
  {
    Some(stored.GetOr(DefaultInventory()))
  }

  /** Reading again after a read sees the same record and writes nothing new. */
  lemma LoadedAfterRead(stored: Option<InventoryRecord>)
    ensures Loaded(AfterRead(stored)) == Loaded(stored)
    ensures AfterRead(AfterRead(stored)) == AfterRead(stored)
  {
    NormalizeIdempotent(DefaultInventory());
  }

  /** `inv.capacity ?? 5`. */
  function Capacity(inv: InventoryRecord): int {
    inv.capacity.GetOr(DEFAULT_CAPACITY)
  }

  function CountOf(inv: InventoryRecord, c: Consumable): int {
    match c
    case Water => inv.water
    case FertilizerBasic => inv.fertilizerBasic
    case FertilizerPremium => inv.fertilizerPremium
  }

  function WithCount(inv: InventoryRecord, c: Consumable, n: int): (r: InventoryRecord)
    ensures CountOf(r, c) == n
    ensures forall d :: d != c ==> CountOf(r, d) == CountOf(inv, d)
    ensures r.seeds == inv.seeds && r.tools == inv.tools && r.wateringCans == inv.wateringCans
    ensures r.backpacks == inv.backpacks && r.capacity == inv.capacity
    ensures r.selectedBackpackId == inv.selectedBackpackId && r.insecticide == inv.insecticide
  {
    match c
    case Water => inv.(water := n)
    case FertilizerBasic => inv.(fertilizerBasic := n)
    case FertilizerPremium => inv.(fertilizerPremium := n)
  }

  /** A dictionary of the record, `{}` when it is missing. */
  function BagOf(inv: InventoryRecord, b: Bag): Record<int> {
    match b
    case Seeds => inv.seeds
    case Tools => inv.tools.GetOr([])
    case WateringCans => inv.wateringCans.GetOr([])
    case Backpacks => inv.backpacks.GetOr([])
  }

  function WithBag(inv: InventoryRecord, b: Bag, m: Record<int>): (r: InventoryRecord)
    ensures BagOf(r, b) == m
    ensures forall d :: d != b ==> BagOf(r, d) == BagOf(inv, d)
    ensures forall c :: CountOf(r, c) == CountOf(inv, c)
    ensures r.capacity == inv.capacity && r.selectedBackpackId == inv.selectedBackpackId
    ensures r.insecticide == inv.insecticide
    ensures IsNormal(inv) ==> IsNormal(r)
  {
    match b
    case Seeds => inv.(seeds := m)
    case Tools => inv.(tools := Some(m))
    case WateringCans => inv.(wateringCans := Some(m))
    case Backpacks => inv.(backpacks := Some(m))
  }

  /** Counts never negative, dictionaries without repeated keys. */
  predicate Sound(inv: InventoryRecord) {
    && inv.water >= 0 && inv.fertilizerBasic >= 0 && inv.fertilizerPremium >= 0
    && (forall b :: NonNegative(BagOf(inv, b)) && Valid(BagOf(inv, b)))
  }

  /** `totalItemCount`: the consumables plus the sums of the four dictionaries (insecticide is not counted). */
  function TotalItemCount(inv: InventoryRecord): (n: int)
    ensures Sound(inv) ==> n >= 0
  {
    var invN := Normalize(inv);
    SumsNonNegative(inv);
    invN.water + invN.fertilizerBasic + invN.fertilizerPremium
      + Sum(BagOf(invN, Seeds)) + Sum(BagOf(invN, Tools))
      + Sum(BagOf(invN, WateringCans)) + Sum(BagOf(invN, Backpacks))
  }

  /** Normalizing does not change what a dictionary reads as. */
  lemma NormalizeBags(inv: InventoryRecord)
    ensures forall b :: BagOf(Normalize(inv), b) == BagOf(inv, b)
  {
  }

  lemma SumsNonNegative(inv: InventoryRecord)
    ensures Sound(inv) ==> forall b :: Sum(BagOf(Normalize(inv), b)) >= 0
  {
    NormalizeBags(inv);
    if Sound(inv) {
      forall b | true ensures Sum(BagOf(inv, b)) >= 0 {
        SumNonNegative(BagOf(inv, b));
      }
    }
  }

  /** The total, written over the consumables and the bags. */
  lemma TotalIsCountsPlusBags(inv: InventoryRecord)
    ensures TotalItemCount(inv)
         == CountOf(inv, Water) + CountOf(inv, FertilizerBasic) + CountOf(inv, FertilizerPremium)
          + Sum(BagOf(inv, Seeds)) + Sum(BagOf(inv, Tools))
          + Sum(BagOf(inv, WateringCans)) + Sum(BagOf(inv, Backpacks))
  {
    NormalizeBags(inv);
  }

  /** The default inventory is sound and holds one pink-flower seed in a bag of five. */
  lemma DefaultInventoryFacts()
    ensures Sound(DefaultInventory()) && IsNormal(DefaultInventory())
    ensures TotalItemCount(DefaultInventory()) == 1
    ensures Capacity(DefaultInventory()) == DEFAULT_CAPACITY
    ensures Get(DefaultInventory().seeds, STARTER_SEED) == Some(1)
  {
  }

  /** A loaded record is sound whenever what is stored is. */
  lemma LoadedSound(stored: Option<InventoryRecord>)
    requires stored.Some? ==> Sound(stored.value)
    ensures Sound(Loaded(stored))
  {
    if stored.Some? {
      NormalizeBags(stored.value);
    }
  }

  // ---------------------------------------------------------------- updates

  /** `m[id] = Math.max(0, (m[id] ?? 0) + count)`. */
  function Bumped(m: Record<int>, id: string, count: int): Record<int> {
    Put(m, id, Max(0, Get(m, id).GetOr(0) + count))
  }

  /** `addTool`, `addWateringCan`, `addBackpack`, `addSeed`. */
  function AddToBag(inv: InventoryRecord, b: Bag, id: string, count: int): InventoryRecord {
    WithBag(inv, b, Bumped(BagOf(inv, b), id, count))
  }

  /** `addWater`, `addFertilizerBasic`, `addFertilizerPremium`. */
  function AddConsumable(inv: InventoryRecord, c: Consumable, count: int): InventoryRecord {
    WithCount(inv, c, Max(0, CountOf(inv, c) + count))
  }

  /** `useWater`, `useFertilizerBasic`, `useFertilizerPremium`: `None` for the `false` result. */
  function UseConsumable(inv: InventoryRecord, c: Consumable): (r: Option<InventoryRecord>)
    ensures r.None? <==> CountOf(inv, c) < 1
  {
    if CountOf(inv, c) < 1 then None else Some(WithCount(inv, c, CountOf(inv, c) - 1))
  }

  /** `useSeed`: a count that reaches zero is deleted from the dictionary. */
  function UseSeedIn(inv: InventoryRecord, id: string): (r: Option<InventoryRecord>)
    ensures r.None? <==> Get(inv.seeds, id).GetOr(0) < 1
  {
    if Get(inv.seeds, id).GetOr(0) < 1 then None
    else Some(inv.(seeds := Decremented(inv.seeds, id)))
  }

  /**
   * One fewer of `id`, the key deleted when its count reaches zero. The
   * source assigns `n - 1` and then deletes a zero; `DecrementedSetThenDelete`
   * shows that this is the same record.
   */
  function Decremented(m: Record<int>, id: string): Record<int> {
    var n := Get(m, id).GetOr(0);
    if n - 1 == 0 then Remove(m, id) else Put(m, id, n - 1)
  }

  /** `seeds[id] = n - 1`, then `delete seeds[id]` when that is 0, gives `Decremented`. */
  lemma DecrementedSetThenDelete(m: Record<int>, id: string)
    ensures var n := Get(m, id).GetOr(0);
      var s := Put(m, id, n - 1);
      Decremented(m, id) == if n - 1 == 0 then Remove(s, id) else s
  {
    RemovePut(m, id, Get(m, id).GetOr(0) - 1);
  }

  /** `expandCapacity`. */
  function Expand(inv: InventoryRecord, amount: int): InventoryRecord {
    inv.(capacity := Some(Max(Capacity(inv), Capacity(inv) + amount)))
  }

  /** `setSelectedBackpack`. */
  function SelectBackpack(inv: InventoryRecord, id: string): InventoryRecord {
    inv.(selectedBackpackId := Some(id))
  }

  /** `hasTool`. */
  predicate HasToolIn(inv: InventoryRecord, id: string) {
    Get(BagOf(inv, Tools), id).GetOr(0) > 0
  }

  // ---------------------------------------------------------------- properties

  /**
   * Adding to a dictionary stores `max(0, old + count)` under `id` and
   * leaves every other key as it was.
   */
  lemma AddToBagGet(inv: InventoryRecord, b: Bag, id: string, count: int, j: string)
    ensures Get(BagOf(AddToBag(inv, b, id, count), b), j)
         == if j == id then Some(Max(0, Get(BagOf(inv, b), id).GetOr(0) + count))
            else Get(BagOf(inv, b), j)
  {
    BumpedGet(BagOf(inv, b), id, count, j);
  }

  /** Bumping a count stores `max(0, old + count)` under `id` and leaves every other key as it was. */
  lemma BumpedGet(m: Record<int>, id: string, count: int, j: string)
    ensures Get(Bumped(m, id, count), j)
         == if j == id then Some(Max(0, Get(m, id).GetOr(0) + count)) else Get(m, j)
  {
    var v := Max(0, Get(m, id).GetOr(0) + count);
    assert Bumped(m, id, count) == Put(m, id, v);
    GetPut(m, id, v, j);
  }

  /** Adding to a dictionary keeps the record sound. */
  lemma AddToBagSound(inv: InventoryRecord, b: Bag, id: string, count: int)
    requires Sound(inv)
    ensures Sound(AddToBag(inv, b, id, count))
  {
    var m := BagOf(inv, b);
    var v := Max(0, Get(m, id).GetOr(0) + count);
    PutNonNegative(m, id, v);
    KeysPut(m, id, v);
    var r := AddToBag(inv, b, id, count);
    assert BagOf(r, b) == Put(m, id, v);
    forall d | true ensures NonNegative(BagOf(r, d)) && Valid(BagOf(r, d)) {
      if d != b {
        assert BagOf(r, d) == BagOf(inv, d);
      }
    }
  }

  /** In a sound record, adding to a dictionary changes the total by the new count minus the old one. */
  lemma AddToBagTotal(inv: InventoryRecord, b: Bag, id: string, count: int)
    requires Sound(inv)
    ensures var old_ := Get(BagOf(inv, b), id).GetOr(0);
      TotalItemCount(AddToBag(inv, b, id, count)) == TotalItemCount(inv) - old_ + Max(0, old_ + count)
  {
    var m := BagOf(inv, b);
    assert Valid(m);
    SumPut(m, id, Max(0, Get(m, id).GetOr(0) + count));
    TotalWithBag(inv, b, Bumped(m, id, count));
  }

  /** Replacing one dictionary changes the total by the difference of the two sums. */
  lemma TotalWithBag(inv: InventoryRecord, b: Bag, m: Record<int>)
    ensures TotalItemCount(WithBag(inv, b, m)) == TotalItemCount(inv) - Sum(BagOf(inv, b)) + Sum(m)
  {
    var r := WithBag(inv, b, m);
    TotalIsCountsPlusBags(inv);
    TotalIsCountsPlusBags(r);
    match b
    case Seeds =>
      assert BagOf(r, Tools) == BagOf(inv, Tools) && BagOf(r, WateringCans) == BagOf(inv, WateringCans);
      assert BagOf(r, Backpacks) == BagOf(inv, Backpacks);
    case Tools =>
      assert BagOf(r, Seeds) == BagOf(inv, Seeds) && BagOf(r, WateringCans) == BagOf(inv, WateringCans);
      assert BagOf(r, Backpacks) == BagOf(inv, Backpacks);
    case WateringCans =>
      assert BagOf(r, Seeds) == BagOf(inv, Seeds) && BagOf(r, Tools) == BagOf(inv, Tools);
      assert BagOf(r, Backpacks) == BagOf(inv, Backpacks);
    case Backpacks =>
      assert BagOf(r, Seeds) == BagOf(inv, Seeds) && BagOf(r, Tools) == BagOf(inv, Tools);
      assert BagOf(r, WateringCans) == BagOf(inv, WateringCans);
  }

  /** Adding a consumable stores `max(0, old + count)` and keeps the record sound; the total moves with it. */
  lemma AddConsumableEffect(inv: InventoryRecord, c: Consumable, count: int)
    ensures CountOf(AddConsumable(inv, c, count), c) == Max(0, CountOf(inv, c) + count)
    ensures CountOf(AddConsumable(inv, c, count), c) >= 0
    ensures Sound(inv) ==> Sound(AddConsumable(inv, c, count))
    ensures TotalItemCount(AddConsumable(inv, c, count))
         == TotalItemCount(inv) - CountOf(inv, c) + Max(0, CountOf(inv, c) + count)
  {
    TotalIsCountsPlusBags(inv);
    TotalIsCountsPlusBags(AddConsumable(inv, c, count));
    assert forall b :: BagOf(AddConsumable(inv, c, count), b) == BagOf(inv, b);
  }

  /** A successful use takes exactly one item, and nothing else changes. */
  lemma UseConsumableEffect(inv: InventoryRecord, c: Consumable)
    ensures var r := UseConsumable(inv, c);
      r.Some? ==> (&& CountOf(r.value, c) == CountOf(inv, c) - 1
                   && (forall d :: d != c ==> CountOf(r.value, d) == CountOf(inv, d))
                   && (forall b :: BagOf(r.value, b) == BagOf(inv, b))
                   && TotalItemCount(r.value) == TotalItemCount(inv) - 1
                   && (Sound(inv) ==> Sound(r.value)))
  {
    var r := UseConsumable(inv, c);
    if r.Some? {
      assert forall b :: BagOf(r.value, b) == BagOf(inv, b);
      TotalIsCountsPlusBags(inv);
      TotalIsCountsPlusBags(r.value);
    }
  }

  /**
   * A successful `useSeed` lowers the seed's count by one, deleting the
   * entry when it reaches zero; other seeds keep their counts.
   */
  lemma UseSeedGet(inv: InventoryRecord, id: string, j: string)
    requires UseSeedIn(inv, id).Some?
    ensures var n := Get(inv.seeds, id).GetOr(0);
      Get(UseSeedIn(inv, id).value.seeds, j)
        == if j != id then Get(inv.seeds, j) else if n == 1 then None else Some(n - 1)
  {
    DecrementedGet(inv.seeds, id, j);
  }

  /** Taking one of `id` out reads back one fewer, or nothing at zero, and leaves other keys alone. */
  lemma DecrementedGet(m: Record<int>, id: string, j: string)
    ensures var n := Get(m, id).GetOr(0);
      Get(Decremented(m, id), j) == if j != id then Get(m, j) else if n == 1 then None else Some(n - 1)
  {
    var n := Get(m, id).GetOr(0);
    if n - 1 == 0 {
      GetRemove(m, id, j);
    } else {
      GetPut(m, id, n - 1, j);
    }
  }

  /** A successful `useSeed` takes exactly one seed out of the dictionary's sum, and keeps it sound. */
  lemma UseSeedSum(inv: InventoryRecord, id: string)
    requires Valid(inv.seeds) && NonNegative(inv.seeds) && UseSeedIn(inv, id).Some?
    ensures Sum(UseSeedIn(inv, id).value.seeds) == Sum(inv.seeds) - 1
    ensures Valid(UseSeedIn(inv, id).value.seeds) && NonNegative(UseSeedIn(inv, id).value.seeds)
  {
    var m, n := inv.seeds, Get(inv.seeds, id).GetOr(0);
    assert UseSeedIn(inv, id).value.seeds == Decremented(m, id);
    if n - 1 == 0 {
      GetRemove(m, id, id);
      RemoveNonNegative(m, id);
      SumRemove(m, id);
    } else {
      KeysPut(m, id, n - 1);
      PutNonNegative(m, id, n - 1);
      SumPut(m, id, n - 1);
    }
  }

  /** A successful `useSeed` keeps the record sound and lowers its total by exactly one. */
  lemma UseSeedTotal(inv: InventoryRecord, id: string)
    requires Sound(inv) && UseSeedIn(inv, id).Some?
    ensures Sound(UseSeedIn(inv, id).value)
    ensures TotalItemCount(UseSeedIn(inv, id).value) == TotalItemCount(inv) - 1
  {
    var r := UseSeedIn(inv, id).value;
    assert BagOf(inv, Seeds) == inv.seeds;
    UseSeedSum(inv, id);
    assert forall d :: d != Seeds ==> BagOf(r, d) == BagOf(inv, d);
    assert BagOf(r, Seeds) == r.seeds;
    TotalIsCountsPlusBags(inv);
    TotalIsCountsPlusBags(r);
  }

  /** `expandCapacity` never lowers the capacity, and raises it by `amount` when that is not negative. */
  lemma ExpandNeverDecreases(inv: InventoryRecord, amount: int)
    ensures Capacity(Expand(inv, amount)) >= Capacity(inv)
    ensures amount >= 0 ==> Capacity(Expand(inv, amount)) == Capacity(inv) + amount
    ensures amount < 0 ==> Capacity(Expand(inv, amount)) == Capacity(inv)
    ensures TotalItemCount(Expand(inv, amount)) == TotalItemCount(inv)
  {
  }

  /** After adding a positive number of a tool to a sound record, the tool is owned. */
  lemma HasToolAfterAdd(inv: InventoryRecord, id: string, count: int)
    requires Sound(inv) && count > 0
    ensures HasToolIn(AddToBag(inv, Tools, id, count), id)
  {
    AddToBagGet(inv, Tools, id, count, id);
    assert Get(BagOf(inv, Tools), id).GetOr(0) >= 0 by {
      GetHas(BagOf(inv, Tools), id);
      if Has(BagOf(inv, Tools), id) {
        var i :| 0 <= i < |BagOf(inv, Tools)| && BagOf(inv, Tools)[i] == Entry(id, Get(BagOf(inv, Tools), id).value);
      }
    }
  }

  // ---------------------------------------------------------------- the store

  /** The inventory object store, holding at most one record. */
  class InventoryStore {
    var stored: Option<InventoryRecord>

    constructor()
      ensures stored == None
    {
      stored := None;
    }

    /** `getInventory`: the normalized record, writing the default one when none is stored. */
    method GetInventory() returns (inv: InventoryRecord)
      modifies this
      ensures inv == Loaded(old(stored)) && IsNormal(inv)
      ensures stored == AfterRead(old(stored))
    {
      if stored.Some? {
        inv := Normalize(stored.value);
      } else {
        inv := DefaultInventory();
        stored := Some(inv);
      }
    }

    /** `getInventoryState`. */
    method GetInventoryState() returns (inv: InventoryRecord)
      modifies this
      ensures inv == Loaded(old(stored))
      ensures stored == AfterRead(old(stored))
    {
      inv := GetInventory();
      NormalizeIdempotent(inv);
      inv := Normalize(inv);
    }

    method AddTool(toolId: string, count: int)
      modifies this
      ensures stored == Some(AddToBag(Loaded(old(stored)), Tools, toolId, count))
    {
      var inv := GetInventory();
      stored := Some(AddToBag(inv, Tools, toolId, count));
    }

    method HasTool(toolId: string) returns (has: bool)
      modifies this
      ensures has == HasToolIn(Loaded(old(stored)), toolId)
      ensures stored == AfterRead(old(stored))
    {
      var inv := GetInventory();
      has := Get(inv.tools.GetOr([]), toolId).GetOr(0) > 0;
    }

    method AddWateringCan(wateringCanId: string, count: int)
      modifies this
      ensures stored == Some(AddToBag(Loaded(old(stored)), WateringCans, wateringCanId, count))
    {
      var inv := GetInventory();
      stored := Some(AddToBag(inv, WateringCans, wateringCanId, count));
    }

    method AddBackpack(backpackId: string, count: int)
      modifies this
      ensures stored == Some(AddToBag(Loaded(old(stored)), Backpacks, backpackId, count))
    {
      var inv := GetInventory();
      stored := Some(AddToBag(inv, Backpacks, backpackId, count));
    }

    method ExpandCapacity(amount: int)
      modifies this
      ensures stored == Some(Expand(Loaded(old(stored)), amount))
    {
      var inv := GetInventory();
      stored := Some(Expand(inv, amount));
    }

    method SetSelectedBackpack(backpackId: string)
      modifies this
      ensures stored == Some(SelectBackpack(Loaded(old(stored)), backpackId))
    {
      var inv := GetInventory();
      stored := Some(SelectBackpack(inv, backpackId));
    }

    method AddWater(count: int)
      modifies this
      ensures stored == Some(AddConsumable(Loaded(old(stored)), Water, count))
    {
      var inv := GetInventory();
      stored := Some(inv.(water := Max(0, inv.water + count)));
    }

    method AddFertilizerBasic(count: int)
      modifies this
      ensures stored == Some(AddConsumable(Loaded(old(stored)), FertilizerBasic, count))
    {
      var inv := GetInventory();
      stored := Some(inv.(fertilizerBasic := Max(0, inv.fertilizerBasic + count)));
    }

    method AddFertilizerPremium(count: int)
      modifies this
      ensures stored == Some(AddConsumable(Loaded(old(stored)), FertilizerPremium, count))
    {
      var inv := GetInventory();
      stored := Some(inv.(fertilizerPremium := Max(0, inv.fertilizerPremium + count)));
    }

    method AddSeed(seedId: string, count: int)
      modifies this
      ensures stored == Some(AddToBag(Loaded(old(stored)), Seeds, seedId, count))
    {
      var inv := GetInventory();
      stored := Some(AddToBag(inv, Seeds, seedId, count));
    }

    /** Shared body of the three `use*` consumable operations. */
    method Use(c: Consumable) returns (ok: bool)
      modifies this
      ensures ok <==> CountOf(Loaded(old(stored)), c) >= 1
      ensures ok ==> stored == UseConsumable(Loaded(old(stored)), c)
      ensures !ok ==> stored == AfterRead(old(stored))
    {
      var inv := GetInventory();
      if CountOf(inv, c) < 1 {
        return false;
      }
      stored := Some(WithCount(inv, c, CountOf(inv, c) - 1));
      ok := true;
    }

    method UseWater() returns (ok: bool)
      modifies this
      ensures ok <==> Loaded(old(stored)).water >= 1
      ensures ok ==> stored == UseConsumable(Loaded(old(stored)), Water)
      ensures !ok ==> stored == AfterRead(old(stored))
    {
      ok := Use(Water);
    }

    method UseFertilizerBasic() returns (ok: bool)
      modifies this
      ensures ok <==> Loaded(old(stored)).fertilizerBasic >= 1
      ensures ok ==> stored == UseConsumable(Loaded(old(stored)), FertilizerBasic)
      ensures !ok ==> stored == AfterRead(old(stored))
    {
      ok := Use(FertilizerBasic);
    }

    method UseFertilizerPremium() returns (ok: bool)
      modifies this
      ensures ok <==> Loaded(old(stored)).fertilizerPremium >= 1
      ensures ok ==> stored == UseConsumable(Loaded(old(stored)), FertilizerPremium)
      ensures !ok ==> stored == AfterRead(old(stored))
    {
      ok := Use(FertilizerPremium);
    }

    method UseSeed(seedId: string) returns (ok: bool)
      modifies this
      ensures ok <==> Get(Loaded(old(stored)).seeds, seedId).GetOr(0) >= 1
      ensures ok ==> stored == UseSeedIn(Loaded(old(stored)), seedId)
      ensures !ok ==> stored == AfterRead(old(stored))
    {
      var inv := GetInventory();
      var used := UseSeedIn(inv, seedId);
      if used.None? {
        return false;
      }
      stored := used;
      ok := true;
    }
  }
}
