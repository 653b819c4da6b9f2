/** js/systems/UI.js: the port shop.  Each item's action changes the ship
    record and reports whether it succeeded; `purchase` charges the item's
    cost and raises the price of a bought item.  Mounts are bound to slots
    by index, and no two mounts ever share a slot. */
module Shop {
  import opened Geometry
  import opened ShipRecord
  import opened State
  import opened ShipControl

  /** The `id` of an item; the cannon and swivel ids double as the slot
      type the item mounts on. */
  datatype ItemId = CrewItem | BilgeItem | CannonItem | SwivelItem | CaptainItem | ShipItem

  /** The `type` of an item: both kinds are repriced when bought. */
  datatype ItemType = Upgrade | Unique

  /** A shop item without its display name and icon.  `cost` is the
      current price, which purchases raise in place. */
  datatype ShopItem = ShopItem(id: ItemId, cost: int, kind: ItemType)

  /** SHOP_ITEMS as the page loads. */
  const StartingItems: seq<ShopItem> := [
    ShopItem(CrewItem, 150, Upgrade),
    ShopItem(BilgeItem, 300, Upgrade),
    ShopItem(CannonItem, 250, Upgrade),
    ShopItem(SwivelItem, 400, Upgrade),
    ShopItem(CaptainItem, 800, Unique),
    ShopItem(ShipItem, 1200, Upgrade)]

  /** `cannons.some(c => c.slotIndex === i)`. */
  predicate SlotUsed(ship: Ship, i: int) {
    exists c :: 0 <= c < |ship.cannons| && ship.cannons[c].slotIndex == i
  }

  /** Slot `i` has the wanted type and carries no mount. */
  predicate FreeSlot(ship: Ship, kind: MountKind, i: int) {
    0 <= i < |ship.slots| && ship.slots[i].kind == kind && !SlotUsed(ship, i)
  }

  /** `slots.some(...)` in `initShop`: a free slot of the type exists. */
  predicate HasFreeSlot(ship: Ship, kind: MountKind) {
    exists i :: 0 <= i < |ship.slots| && FreeSlot(ship, kind, i)
  }

  /** `slots.findIndex(...)` from position `from` on: the lowest free slot
      of the type at or after `from`, or -1. */
  function FindFreeSlotFrom(ship: Ship, kind: MountKind, from: nat): (r: int)
    requires from <= |ship.slots|
    ensures r == -1 || (from <= r < |ship.slots| && FreeSlot(ship, kind, r))
    ensures r == -1 ==> forall i :: from <= i < |ship.slots| ==> !FreeSlot(ship, kind, i)
    ensures r != -1 ==> forall i :: from <= i < r ==> !FreeSlot(ship, kind, i)
    decreases |ship.slots| - from
  {
    if from == |ship.slots| then -1
    else if FreeSlot(ship, kind, from) then from
    else FindFreeSlotFrom(ship, kind, from + 1)
  }

  /** The slot the cannon or swivel action mounts on: the lowest free slot
      of the type, or -1 when there is none. */
  function FindFreeSlot(ship: Ship, kind: MountKind): (r: int)
    ensures r == -1 <==> !HasFreeSlot(ship, kind)
    ensures r != -1 ==> FreeSlot(ship, kind, r) && forall i :: 0 <= i < r ==> !FreeSlot(ship, kind, i)
  {
    FindFreeSlotFrom(ship, kind, 0)
  }

  /** What an item's `action` does to the ship, and what it returns. */
  function Acted(ship: Ship, id: ItemId): (Ship, bool) {
    match id
    case CrewItem => (ship.(crew := ship.crew + 1), true)
    case BilgeItem => (ship.(bilgeLevel := ship.bilgeLevel + 1), true)
    case CannonItem => Mounted(ship, Cannon)
    case SwivelItem => Mounted(ship, Swivel)
    case CaptainItem => if !ship.hasCaptain then (ship.(hasCaptain := true), true) else (ship, false)
    case ShipItem =>
      if ship.tier < 3 then
        var t := ship.tier + 1;
        var (w, h) := HullSize(t, ship.w, ship.h);
        (ship.(tier := t, slots := SlotLayout(t), w := w, h := h), true)
      else (ship, false)
  }

  /** The cannon and swivel actions. */
  function Mounted(ship: Ship, kind: MountKind): (Ship, bool) {
    var i := FindFreeSlot(ship, kind);
    if i != -1 then (ship.(cannons := ship.cannons + [Mount(0.0, i)]), true) else (ship, false)
  }

  /** The crew and bilge actions always succeed and add exactly one.  The
      captain action succeeds once: afterwards it always fails.  The ship
      action succeeds exactly below tier 3 and then lays out the new tier's
      slots, leaving the mounts alone.  A failed action changes nothing. */
  lemma ActionOutcomes(ship: Ship)
    ensures Acted(ship, CrewItem) == (ship.(crew := ship.crew + 1), true)
    ensures Acted(ship, BilgeItem) == (ship.(bilgeLevel := ship.bilgeLevel + 1), true)
    ensures Acted(ship, CaptainItem).1 == !ship.hasCaptain
    ensures !Acted(Acted(ship, CaptainItem).0, CaptainItem).1
    ensures Acted(ship, ShipItem).1 == (ship.tier < 3)
    ensures var s := Acted(ship, ShipItem).0;
            ship.tier < 3 ==> s.tier == ship.tier + 1 && s.slots == SlotLayout(s.tier) && s.cannons == ship.cannons
    ensures forall id :: !Acted(ship, id).1 ==> Acted(ship, id).0 == ship
  {
  }

  /** A successful cannon or swivel action appends one unloaded mount on
      the lowest free slot of its type; otherwise there is no free slot. */
  lemma MountOutcome(ship: Ship, kind: MountKind)
    ensures var (s, ok) := Mounted(ship, kind);
            ok <==> HasFreeSlot(ship, kind)
    ensures var (s, ok) := Mounted(ship, kind);
            ok ==> exists i ::
              && FreeSlot(ship, kind, i)
              && (forall j :: 0 <= j < i ==> !FreeSlot(ship, kind, j))
              && s == ship.(cannons := ship.cannons + [Mount(0.0, i)])
  {
  }

  /** No action ever binds two mounts to one slot. */
  lemma ActionKeepsMountsDistinct(ship: Ship, id: ItemId)
    requires MountsDistinct(ship)
    ensures MountsDistinct(Acted(ship, id).0)
  {
    if id == CannonItem || id == SwivelItem {
      var kind := if id == CannonItem then Cannon else Swivel;
      var i := FindFreeSlot(ship, kind);
      if i != -1 {
        var s := Acted(ship, id).0;
        assert s.cannons == ship.cannons + [Mount(0.0, i)];
        forall a, b | 0 <= a < b < |s.cannons|
          ensures s.cannons[a].slotIndex != s.cannons[b].slotIndex
        {
          if b == |ship.cannons| {
            assert !SlotUsed(ship, i);
            assert s.cannons[a] == ship.cannons[a];
          }
        }
      }
    }
  }

  /** The hull invariant: the slot table is the one for the tier, and every
      mount is bound to one of its slots. */
  predicate Fitted(ship: Ship) {
    ship.slots == SlotLayout(ship.tier) && MountsInRange(ship)
  }

  /** Every action keeps a fitted hull fitted: mounts go on existing slots
      and an upgraded hull only gains slots. */
  lemma ActionKeepsFitted(ship: Ship, id: ItemId)
    requires Fitted(ship)
    ensures Fitted(Acted(ship, id).0)
  {
    var s := Acted(ship, id).0;
    if id == ShipItem && ship.tier < 3 {
      assert |SlotLayout(ship.tier)| <= |SlotLayout(ship.tier + 1)|;
      assert s.cannons == ship.cannons;
    }
  }

  /** `updateShipStats` on a ship without mounts leaves it fitted. */
  lemma StatsFitBareHull(ship: Ship)
    requires ship.cannons == []
    ensures var (w, h) := HullSize(ship.tier, ship.w, ship.h);
            Fitted(ship.(slots := SlotLayout(ship.tier), w := w, h := h))
  {
  }

  /** `reset` from tier 2 or 3 leaves an unfitted hull: tier 1 with the old
      tier's larger slot table. */
  lemma ResetUnfits(ship: Ship)
    requires ship.tier >= 2 && ship.slots == SlotLayout(ship.tier)
    ensures !Fitted(ResetShip(ship))
  {
    assert |ResetShip(ship).slots| > |SlotLayout(1)|;
  }

  /** A mount goes on the lowest free slot of its type. */
  lemma MountsOnLowest(ship: Ship, kind: MountKind, i: int)
    requires FreeSlot(ship, kind, i)
    requires forall j :: 0 <= j < i ==> !FreeSlot(ship, kind, j)
    ensures Mounted(ship, kind) == (ship.(cannons := ship.cannons + [Mount(0.0, i)]), true)
  {
    assert HasFreeSlot(ship, kind);
  }

  /** One more cannon on an unfitted hull left by `reset` from tier 3: the
      slots 0 to 4 and 6 of the tier-3 table are its first six cannon
      slots. */
  lemma StrandedStep(r: Ship, n: nat)
    requires r.slots == SlotLayout(3) && n < 6
    requires r.cannons == StrandedMounts(n)
    ensures Acted(r, CannonItem) == (r.(cannons := StrandedMounts(n + 1)), true)
  {
    var i := StrandedSlot(n);
    forall j | 0 <= j < i
      ensures !FreeSlot(r, Cannon, j)
    {
      if j != 5 {
        var c := if j < 5 then j else 5;
        assert r.cannons[c].slotIndex == j;
      }
    }
    forall c | 0 <= c < |r.cannons|
      ensures r.cannons[c].slotIndex != i
    {
    }
    MountsOnLowest(r, Cannon, i);
    assert StrandedMounts(n + 1) == r.cannons + [Mount(0.0, i)];
  }

  /** The cannon slot the (n+1)-th cannon goes on in the tier-3 table. */
  function StrandedSlot(n: nat): (i: nat)
    ensures n < 5 ==> i == n
    ensures n >= 5 ==> i == n + 1
  {
    if n < 5 then n else n + 1
  }

  /** The first n cannons bought on an empty tier-3 table. */
  function StrandedMounts(n: nat): (ms: seq<Mount>)
    ensures |ms| == n
    ensures forall c :: 0 <= c < n ==> ms[c] == Mount(0.0, StrandedSlot(c))
  {
    if n == 0 then [] else StrandedMounts(n - 1) + [Mount(0.0, StrandedSlot(n - 1))]
  }

  /** n cannon purchases in a row. */
  function BuyCannons(ship: Ship, n: nat): Ship {
    if n == 0 then ship else Acted(BuyCannons(ship, n - 1), CannonItem).0
  }

  /** On the tier-3 table, the first n cannons (n at most 6) go on
      StrandedSlot(0), ..., StrandedSlot(n-1). */
  lemma {:induction false} BuyCannonsStranded(r: Ship, n: nat)
    requires r.slots == SlotLayout(3) && r.cannons == [] && n <= 6
    ensures BuyCannons(r, n) == r.(cannons := StrandedMounts(n))
  {
    if n > 0 {
      BuyCannonsStranded(r, n - 1);
      StrandedStep(r.(cannons := StrandedMounts(n - 1)), n - 1);
    }
  }

  /** After `reset` from tier 3 without `updateShipStats`, six cannon
      purchases fill slots 0 to 4 and 6 of the stale table, and the ship
      upgrade then lays out the six-slot tier-2 table: the mount on slot 6
      points past the end, so `initShop`'s `slots[c.slotIndex].type` reads
      no slot. */
  lemma ResetThenUpgradeStrandsMount(ship: Ship)
    requires ship.slots == SlotLayout(3)
    ensures var u := Acted(BuyCannons(ResetShip(ship), 6), ShipItem);
            u.1 && !MountsInRange(u.0)
  {
    var r := ResetShip(ship);
    BuyCannonsStranded(r, 6);
    var u := Acted(BuyCannons(r, 6), ShipItem).0;
    assert u.cannons[5].slotIndex == 6 && |u.slots| == 6;
  }

  /** `initShop`'s disabled test for one item. */
  predicate Disabled(gold: int, ship: Ship, item: ShopItem) {
    || gold < item.cost
    || (item.id == ShipItem && ship.tier >= 3)
    || (item.id == CaptainItem && ship.hasCaptain)
    || (item.id == CannonItem && !HasFreeSlot(ship, Cannon))
    || (item.id == SwivelItem && !HasFreeSlot(ship, Swivel))
  }

  /** A button is enabled exactly when the player can pay and the item's
      action will succeed. */
  lemma DisabledIffPurchaseFails(gold: int, ship: Ship, item: ShopItem)
    ensures !Disabled(gold, ship, item) <==> gold >= item.cost && Acted(ship, item.id).1
  {
  }

  /** `Math.floor(cost * 1.2)`. */
  function NextPrice(cost: int): int {
    (cost as real * 1.2).Floor
  }

  /** From 5 on, a repricing raises the price strictly, by at least a fifth
      rounded down. */
  lemma NextPriceRises(cost: int)
    requires cost >= 5
    ensures cost < NextPrice(cost)
    ensures cost + cost / 5 <= NextPrice(cost)
  {
    var q := cost / 5;
    assert cost as real * 1.2 == cost as real + cost as real / 5.0;
    assert (q as real) * 5.0 <= cost as real;
    assert (cost + q) as real <= cost as real * 1.2;
  }

  /** `purchase(item)` on the values it reads and writes: the gold, the
      ship and the price list. */
  function Purchased(gold: int, ship: Ship, items: seq<ShopItem>, k: nat): (int, Ship, seq<ShopItem>)
    requires k < |items|
  {
    var item := items[k];
    if gold >= item.cost then
      var (s, ok) := Acted(ship, item.id);
      if ok then (gold - item.cost, s, items[k := item.(cost := NextPrice(item.cost))])
      else (gold, ship, items)
    else (gold, ship, items)
  }

  /** A purchase either changes nothing, or it runs the item's successful
      action, takes exactly the price (the gold stays non-negative) and
      reprices that one item to floor(1.2 * price). */
  lemma PurchaseOutcome(gold: int, ship: Ship, items: seq<ShopItem>, k: nat)
    requires k < |items|
    ensures var (g, s, its) := Purchased(gold, ship, items, k);
            var item := items[k];
            if gold >= item.cost && Acted(ship, item.id).1 then
              && g == gold - item.cost && 0 <= g
              && s == Acted(ship, item.id).0
              && its == items[k := item.(cost := NextPrice(item.cost))]
            else
              g == gold && s == ship && its == items
  {
  }

  /** Prices start at 150 or more. */
  predicate PricesFrom150(items: seq<ShopItem>) {
    forall k :: 0 <= k < |items| ==> items[k].cost >= 150
  }

  /** A purchase keeps every price at 150 or more and never lowers one:
      it raises the bought item's price strictly when it
      succeeds and leaves the others alone. */
  lemma PurchaseRaisesPrice(gold: int, ship: Ship, items: seq<ShopItem>, k: nat)
    requires k < |items| && PricesFrom150(items)
    ensures var its := Purchased(gold, ship, items, k).2;
            && PricesFrom150(its)
            && |its| == |items|
            && (forall j :: 0 <= j < |items| ==> its[j].id == items[j].id && its[j].cost >= items[j].cost)
            && (gold >= items[k].cost && Acted(ship, items[k].id).1 ==> its[k].cost > items[k].cost)
  {
    NextPriceRises(items[k].cost);
  }

  /** Every price in SHOP_ITEMS starts at 150 or more. */
  lemma StartingPricesFrom150()
    ensures PricesFrom150(StartingItems)
  {
  }

  /** `addGold(amount)`; the HUD and port refresh are not modelled. */
  method AddGold(game: Game, amount: int)
    modifies game`gold
    ensures game.gold == old(game.gold) + amount
  {
    game.gold := game.gold + amount;
  }

  /** The `action` of an item, run on GameState.ship. */
  method RunAction(game: Game, id: ItemId) returns (ok: bool)
    modifies game`ship
    ensures (game.ship, ok) == Acted(old(game.ship), id)
  {
    match id
    case CrewItem =>
      game.ship := game.ship.(crew := game.ship.crew + 1);
      ok := true;
    case BilgeItem =>
      game.ship := game.ship.(bilgeLevel := game.ship.bilgeLevel + 1);
      ok := true;
    case CannonItem =>
      ok := MountOn(game, Cannon);
    case SwivelItem =>
      ok := MountOn(game, Swivel);
    case CaptainItem =>
      if !game.ship.hasCaptain {
        game.ship := game.ship.(hasCaptain := true);
        ok := true;
      } else {
        ok := false;
      }
    case ShipItem =>
      if game.ship.tier < 3 {
        game.ship := game.ship.(tier := game.ship.tier + 1);
        UpdateShipStats(game);
        ok := true;
      } else {
        ok := false;
      }
  }

  /** The cannon and swivel actions: mount on the lowest free slot of the
      type, if there is one. */
  method MountOn(game: Game, kind: MountKind) returns (ok: bool)
    modifies game`ship
    ensures (game.ship, ok) == Mounted(old(game.ship), kind)
  {
    var emptySlot := FindFreeSlot(game.ship, kind);
    if emptySlot != -1 {
      game.ship := game.ship.(cannons := game.ship.cannons + [Mount(0.0, emptySlot)]);
      return true;
    }
    return false;
  }

  /** SHOP_ITEMS: the items and their current prices. */
  class Store {
    var items: seq<ShopItem>

    constructor ()
      ensures items == StartingItems
    {
      items := StartingItems;
    }

    /** `purchase(item)` for the item at index `k`; the shop redraw
        (`initShop`) is not modelled. */
    method Purchase(game: Game, k: nat)
      requires k < |items|
      modifies this, game`gold, game`ship
      ensures (game.gold, game.ship, items) == Purchased(old(game.gold), old(game.ship), old(items), k)
    {
      var item := items[k];
      if game.gold >= item.cost {
        var ok := RunAction(game, item.id);
        if ok {
          AddGold(game, -item.cost);
          if item.kind == Upgrade || item.kind == Unique {
            items := items[k := item.(cost := (item.cost as real * 1.2).Floor)];
          }
        }
      }
    }

    /** The disabled flags the `initShop` loop gives the buttons, in item
        order. */
    method DisabledFlags(game: Game) returns (flags: seq<bool>)
      ensures |flags| == |items|
      ensures forall k :: 0 <= k < |items| ==> flags[k] == Disabled(game.gold, game.ship, items[k])
    {
      flags := [];
      var k := 0;
      while k < |items|
        invariant 0 <= k <= |items| && |flags| == k
        invariant forall j :: 0 <= j < k ==> flags[j] == Disabled(game.gold, game.ship, items[j])
      {
        var item := items[k];
        var isDisabled := game.gold < item.cost;
        if item.id == ShipItem && game.ship.tier >= 3 {
          isDisabled := true;
        }
        if item.id == CaptainItem && game.ship.hasCaptain {
          isDisabled := true;
        }
        if item.id == CannonItem || item.id == SwivelItem {
          var hasSlot := HasFreeSlot(game.ship, if item.id == CannonItem then Cannon else Swivel);
          if !hasSlot {
            isDisabled := true;
          }
        }
        flags := flags + [isDisabled];
        k := k + 1;
      }
    }
  }
}
