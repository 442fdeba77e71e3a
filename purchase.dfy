/**
 * Buying from the shop (`src/shop/purchase.ts`): a price check against the
 * wallet, a capacity check against the inventory, then the payment and the
 * delivery of one unit of the item (or of the extra capacity). The catalog's
 * items are values of `ShopItem`; their prices come with the item.
 */
module Purchase {
  import opened Wrappers
  import opened Records
  import opened Inventory
  import opened Wallet

  /** `ShopItemType`. */
  datatype ItemType =
    | SeedItem | WaterItem | FertilizerBasicItem | FertilizerPremiumItem
    | InsecticideItem | BackpackExpandItem | ToolItem | WateringCanItem | BackpackItem

  /** The fields of `ShopItem` that buying reads. */
  datatype ShopItem = ShopItem(
    itemType: ItemType,
    price: int,
    seedId: Option<string>,
    capacityExpand: Option<int>,
    toolId: Option<string>,
    wateringCanId: Option<string>,
    backpackId: Option<string>)

  const DEFAULT_EXPAND := 5

  /** JavaScript truthiness of an optional id: present and not the empty string. */
  predicate Truthy(id: Option<string>) {
    id.Some? && id.value != ""
  }

  /** What a purchase leaves behind: its result, the wallet, and the stored inventory. */
  datatype Outcome = Outcome(success: bool, wallet: WalletRecord, stored: Option<InventoryRecord>)

  /** The capacity check: only `backpack_expand` may be bought with a full bag. */
  predicate Fits(inv: InventoryRecord, item: ShopItem) {
    item.itemType == BackpackExpandItem || TotalItemCount(inv) < Capacity(inv)
  }

  /** The item delivered after payment: `None` when the switch reports failure. */
  function Delivered(inv: InventoryRecord, item: ShopItem): Option<InventoryRecord> {
    match item.itemType
    case WaterItem => Some(AddConsumable(inv, Water, 1))
    case FertilizerBasicItem => Some(AddConsumable(inv, FertilizerBasic, 1))
    case FertilizerPremiumItem => Some(AddConsumable(inv, FertilizerPremium, 1))
    case SeedItem => if Truthy(item.seedId) then Some(AddToBag(inv, Seeds, item.seedId.value, 1)) else None
    case BackpackExpandItem => Some(Expand(inv, item.capacityExpand.GetOr(DEFAULT_EXPAND)))
    case ToolItem => if Truthy(item.toolId) then Some(AddToBag(inv, Tools, item.toolId.value, 1)) else None
    case WateringCanItem =>
      if Truthy(item.wateringCanId) then Some(AddToBag(inv, WateringCans, item.wateringCanId.value, 1)) else None
    case BackpackItem => if Truthy(item.backpackId) then Some(AddToBag(inv, Backpacks, item.backpackId.value, 1)) else None
    case InsecticideItem => None
  }

  /**
   * `purchaseItem` as written, from the loaded wallet `w` and the stored
   * inventory: the price is paid before the switch finds out whether the
   * item can be delivered.
   */
  function PurchaseOutcome(w: WalletRecord, stored: Option<InventoryRecord>, item: ShopItem): Outcome {
    if w.coins < item.price then Outcome(false, w, stored)
    else
      var inv := Loaded(stored);
      if !Fits(inv, item) then Outcome(false, w, AfterRead(stored))
      else
        var paid := Credited(w, -item.price);
        match Delivered(inv, item)
        case Some(inv') => Outcome(true, paid, Some(inv'))
        case None => Outcome(false, paid, AfterRead(stored))
  }

  /** With too few coins nothing changes, not even the inventory store. */
  lemma TooFewCoinsChangesNothing(w: WalletRecord, stored: Option<InventoryRecord>, item: ShopItem)
    requires w.coins < item.price
    ensures PurchaseOutcome(w, stored, item) == Outcome(false, w, stored)
  {
  }

  /** With a full bag, everything but a capacity expansion is refused and nothing is paid. */
  lemma FullBagRefused(w: WalletRecord, stored: Option<InventoryRecord>, item: ShopItem)
    requires w.coins >= item.price && item.itemType != BackpackExpandItem
    requires TotalItemCount(Loaded(stored)) >= Capacity(Loaded(stored))
    ensures var o := PurchaseOutcome(w, stored, item);
      !o.success && o.wallet == w && Loaded(o.stored) == Loaded(stored)
  {
    LoadedAfterRead(stored);
  }

  /** A capacity expansion is bought whenever the coins suffice, even with a full bag. */
  lemma ExpandAlwaysFits(w: WalletRecord, stored: Option<InventoryRecord>, item: ShopItem)
    requires w.coins >= item.price && item.itemType == BackpackExpandItem
    ensures var o := PurchaseOutcome(w, stored, item);
      && o.success
      && Capacity(Loaded(o.stored)) == Max(Capacity(Loaded(stored)),
                                          Capacity(Loaded(stored)) + item.capacityExpand.GetOr(DEFAULT_EXPAND))
      && TotalItemCount(Loaded(o.stored)) == TotalItemCount(Loaded(stored))
  {
    var inv := Loaded(stored);
    var inv' := Expand(inv, item.capacityExpand.GetOr(DEFAULT_EXPAND));
    NormalizeIdempotent(inv');
    ExpandNeverDecreases(inv, item.capacityExpand.GetOr(DEFAULT_EXPAND));
  }

  /**
   * A successful purchase costs exactly the price, and (for anything but a
   * capacity expansion) adds exactly one item to a sound inventory without
   * overfilling the bag.
   */
  lemma SuccessPaysAndDelivers(w: WalletRecord, stored: Option<InventoryRecord>, item: ShopItem)
    requires stored.Some? ==> Sound(stored.value)
    requires PurchaseOutcome(w, stored, item).success
    ensures var o := PurchaseOutcome(w, stored, item);
      && w.coins >= item.price
      && o.wallet.coins == w.coins - item.price
      && o.wallet.lastRewardDate == w.lastRewardDate
      && (item.itemType != BackpackExpandItem ==>
            && Sound(Loaded(o.stored))
            && TotalItemCount(Loaded(o.stored)) == TotalItemCount(Loaded(stored)) + 1
            && TotalItemCount(Loaded(o.stored)) <= Capacity(Loaded(o.stored)))
  {
    var inv := Loaded(stored);
    SuccessShape(w, stored, item);
    LoadedSound(stored);
    CreditedExact(w, -item.price);
    if item.itemType != BackpackExpandItem {
      var inv' := Delivered(inv, item).value;
      DeliveredOne(inv, item);
      NormalizeIdempotent(inv');
      assert Loaded(Some(inv')) == inv';
    }
  }

  /** A successful purchase is a paid price and a delivered item that fitted. */
  lemma SuccessShape(w: WalletRecord, stored: Option<InventoryRecord>, item: ShopItem)
    requires PurchaseOutcome(w, stored, item).success
    ensures w.coins >= item.price && Fits(Loaded(stored), item)
    ensures Delivered(Loaded(stored), item).Some?
    ensures PurchaseOutcome(w, stored, item)
         == Outcome(true, Credited(w, -item.price), Some(Delivered(Loaded(stored), item).value))
  {
  }

  /** Delivering anything but a capacity expansion adds one item and keeps the capacity. */
  lemma DeliveredOne(inv: InventoryRecord, item: ShopItem)
    requires Sound(inv) && IsNormal(inv)
    requires item.itemType != BackpackExpandItem && Delivered(inv, item).Some?
    ensures var d := Delivered(inv, item).value;
      && Sound(d) && IsNormal(d)
      && TotalItemCount(d) == TotalItemCount(inv) + 1
      && Capacity(d) == Capacity(inv)
  {
    match item.itemType
    case WaterItem => AddConsumableEffect(inv, Water, 1);
    case FertilizerBasicItem => AddConsumableEffect(inv, FertilizerBasic, 1);
    case FertilizerPremiumItem => AddConsumableEffect(inv, FertilizerPremium, 1);
    case SeedItem => DeliverOne(inv, Seeds, item.seedId.value);
    case ToolItem => DeliverOne(inv, Tools, item.toolId.value);
    case WateringCanItem => DeliverOne(inv, WateringCans, item.wateringCanId.value);
    case BackpackItem => DeliverOne(inv, Backpacks, item.backpackId.value);
    case BackpackExpandItem =>
    case InsecticideItem =>
  }

  /** One more item of a dictionary adds one to the total of a sound record. */
  lemma DeliverOne(inv: InventoryRecord, b: Bag, id: string)
    requires Sound(inv)
    ensures Sound(AddToBag(inv, b, id, 1))
    ensures TotalItemCount(AddToBag(inv, b, id, 1)) == TotalItemCount(inv) + 1
  {
    AddToBagSound(inv, b, id, 1);
    AddToBagTotal(inv, b, id, 1);
    var m := BagOf(inv, b);
    GetHas(m, id);
    if Has(m, id) {
      var i :| 0 <= i < |m| && m[i] == Entry(id, Get(m, id).value);
    }
  }

  /**
   * An item the switch cannot deliver is still paid for: insecticide, listed
   * in the catalog at 6 coins, costs the buyer 6 coins and adds nothing.
   */
  lemma InsecticideChargedNotDelivered()
    ensures var item := ShopItem(InsecticideItem, 6, None, None, None, None, None);
      var o := PurchaseOutcome(WalletRecord(6, None), None, item);
      !o.success && o.wallet.coins == 0 && Loaded(o.stored) == DefaultInventory()
  {
    DefaultInventoryFacts();
    LoadedAfterRead(None);
  }

  /** The item can be delivered: a handled type, with its id when it needs one. */
  predicate Deliverable(item: ShopItem) {
    match item.itemType
    case SeedItem => Truthy(item.seedId)
    case ToolItem => Truthy(item.toolId)
    case WateringCanItem => Truthy(item.wateringCanId)
    case BackpackItem => Truthy(item.backpackId)
    case InsecticideItem => false
    case _ => true
  }

  /** Delivery fails exactly for the items that are not deliverable. */
  lemma DeliveredIffDeliverable(inv: InventoryRecord, item: ShopItem)
    ensures Delivered(inv, item).Some? <==> Deliverable(item)
  {
  }

  /** `purchaseItem` with the delivery checked before the payment. */
  function CheckedPurchaseOutcome(w: WalletRecord, stored: Option<InventoryRecord>, item: ShopItem): (o: Outcome)
    ensures o.success <==> w.coins >= item.price && Fits(Loaded(stored), item) && Deliverable(item)
    ensures !o.success ==> o.wallet == w && Loaded(o.stored) == Loaded(stored)
    ensures o.success ==> o == PurchaseOutcome(w, stored, item)
  {
    LoadedAfterRead(stored);
    DeliveredIffDeliverable(Loaded(stored), item);
    if !Deliverable(item) && w.coins >= item.price then Outcome(false, w, AfterRead(stored))
    else PurchaseOutcome(w, stored, item)
  }

  /** The two agree on every item that can be delivered. */
  lemma CheckedAgreesWhenDeliverable(w: WalletRecord, stored: Option<InventoryRecord>, item: ShopItem)
    requires Deliverable(item)
    ensures CheckedPurchaseOutcome(w, stored, item) == PurchaseOutcome(w, stored, item)
  {
  }

  /** The counts `getInventoryCounts` reports. */
  datatype Counts = Counts(
    water: int, fertilizerBasic: int, fertilizerPremium: int,
    seeds: Record<int>, tools: Record<int>, wateringCans: Record<int>, backpacks: Record<int>,
    selectedBackpackId: Option<string>, used: int, capacity: int)

  /** `getInventoryCounts` as a projection of the loaded record. */
  function CountsOf(inv: InventoryRecord): (c: Counts)
    ensures c.used == c.water + c.fertilizerBasic + c.fertilizerPremium
                      + Sum(c.seeds) + Sum(c.tools) + Sum(c.wateringCans) + Sum(c.backpacks)
    ensures c.capacity == Capacity(inv)
    ensures Sound(inv) ==> c.used >= 0
  {
    TotalIsCountsPlusBags(inv);
    Counts(inv.water, inv.fertilizerBasic, inv.fertilizerPremium,
           inv.seeds, inv.tools.GetOr([]), inv.wateringCans.GetOr([]), inv.backpacks.GetOr([]),
           inv.selectedBackpackId, TotalItemCount(inv), Capacity(inv))
  }

  /** `purchaseItem` over the two stores, as written. */
  method PurchaseItem(wallet: WalletStore, store: InventoryStore, item: ShopItem) returns (success: bool)
    modifies wallet, store
    ensures var o := PurchaseOutcome(LoadedWallet(old(wallet.stored)), old(store.stored), item);
      success == o.success && wallet.stored == Some(o.wallet) && store.stored == o.stored
  {
    var coins := wallet.GetCoins();
    if coins < item.price {
      return false;
    }
    var inv := store.GetInventoryState();
    var used := TotalItemCount(inv);
    var capacity := inv.capacity.GetOr(DEFAULT_CAPACITY);
    if item.itemType != BackpackExpandItem && used >= capacity {
      return false;
    }
    var _ := wallet.AddCoins(-item.price);
    LoadedAfterRead(old(store.stored));
    match item.itemType {
      case WaterItem =>
        store.AddWater(1);
        success := true;
      case FertilizerBasicItem =>
        store.AddFertilizerBasic(1);
        success := true;
      case FertilizerPremiumItem =>
        store.AddFertilizerPremium(1);
        success := true;
      case SeedItem =>
        if item.seedId.Some? && item.seedId.value != "" {
          store.AddSeed(item.seedId.value, 1);
          success := true;
        } else {
          success := false;
        }
      case BackpackExpandItem =>
        store.ExpandCapacity(item.capacityExpand.GetOr(DEFAULT_EXPAND));
        success := true;
      case ToolItem =>
        if item.toolId.Some? && item.toolId.value != "" {
          store.AddTool(item.toolId.value, 1);
          success := true;
        } else {
          success := false;
        }
      case WateringCanItem =>
        if item.wateringCanId.Some? && item.wateringCanId.value != "" {
          store.AddWateringCan(item.wateringCanId.value, 1);
          success := true;
        } else {
          success := false;
        }
      case BackpackItem =>
        if item.backpackId.Some? && item.backpackId.value != "" {
          store.AddBackpack(item.backpackId.value, 1);
          success := true;
        } else {
          success := false;
        }
      case InsecticideItem =>
        success := false;
    }
  }

  /**
   * `purchaseItem` with the delivery checked before the payment: an item
   * that cannot be delivered is refused without touching the wallet.
   */
  method CheckedPurchaseItem(wallet: WalletStore, store: InventoryStore, item: ShopItem) returns (success: bool)
    modifies wallet, store
    ensures var o := CheckedPurchaseOutcome(LoadedWallet(old(wallet.stored)), old(store.stored), item);
      success == o.success && wallet.stored == Some(o.wallet) && store.stored == o.stored
  {
    if Deliverable(item) {
      CheckedAgreesWhenDeliverable(LoadedWallet(wallet.stored), store.stored, item);
      success := PurchaseItem(wallet, store, item);
      return;
    }
    var coins := wallet.GetCoins();
    if coins < item.price {
      return false;
    }
    var _ := store.GetInventoryState();
    success := false;
  }

  /** `getInventoryCounts`. */
  method GetInventoryCounts(store: InventoryStore) returns (c: Counts)
    modifies store
    ensures c == CountsOf(Loaded(old(store.stored)))
    ensures store.stored == AfterRead(old(store.stored))
  {
    var inv := store.GetInventoryState();
    var used := TotalItemCount(inv);
    var capacity := inv.capacity.GetOr(DEFAULT_CAPACITY);
    c := Counts(inv.water, inv.fertilizerBasic, inv.fertilizerPremium,
                inv.seeds, inv.tools.GetOr([]), inv.wateringCans.GetOr([]), inv.backpacks.GetOr([]),
                inv.selectedBackpackId, used, capacity);
  }
}
