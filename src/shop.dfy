/**
 * The between-levels shop: four equipment categories, each offering the
 * next three tiers above what the player wears, and a consumables
 * category with two potions. A purchase spends gold and either heals the
 * player or replaces the slot's gear and recomputes the player's stats;
 * either way, or when the gold does not suffice, a message shows for 120
 * frames. Menu navigation wraps around the five categories. Item
 * descriptions and drawing are display data and are not part of the
 * model.
 */
module Shop {
  import opened Wrappers
  import opened Equipment
  import Input
  import Players
  import Stats

  /** Frames a shop message stays on screen. */
  const MessageFrames: int := 120

  /** What a potion does: heal by a fixed amount, or by the player's whole maximum. */
  datatype Effect = HealBy(amount: real) | HealFull

  /** A shop entry: a tier of gear for a slot, or a consumable. */
  datatype Item =
    | Upgrade(tier: Tier, price: nat, name: string)
    | Consumable(id: string, price: nat, name: string, effect: Effect)

  /** A menu category: the gear of one slot, or the consumables. */
  datatype Category = Wear(slot: Slot) | Items

  /** The menu's categories, left to right. */
  const Categories: seq<Category> := [Wear(Sword), Wear(Armor), Wear(Helmet), Wear(Boots), Items]

  /** Every tier of a slot's gear with its price, weakest first; the starter tier is free. */
  function UpgradeTable(slot: Slot): (r: seq<Item>)
    ensures |r| == 6 && r[0].price == 0
    ensures forall i :: 0 <= i < 6 ==> r[i].Upgrade? && Rank(r[i].tier) == i
  {
    match slot
    case Sword => [Upgrade(Basic, 0, "Wooden Sword"), Upgrade(Iron, 100, "Iron Sword"),
                   Upgrade(Steel, 250, "Steel Sword"), Upgrade(Gold, 500, "Golden Blade"),
                   Upgrade(Diamond, 1000, "Diamond Edge"), Upgrade(Legendary, 2000, "Excalibur")]
    case Armor => [Upgrade(Basic, 0, "Cloth Armor"), Upgrade(Iron, 120, "Iron Armor"),
                   Upgrade(Steel, 300, "Steel Plate"), Upgrade(Gold, 600, "Golden Mail"),
                   Upgrade(Diamond, 1200, "Diamond Armor"), Upgrade(Legendary, 2500, "Dragon Scale")]
    case Helmet => [Upgrade(Basic, 0, "Leather Cap"), Upgrade(Iron, 80, "Iron Helm"),
                    Upgrade(Steel, 200, "Steel Helm"), Upgrade(Gold, 400, "Golden Crown"),
                    Upgrade(Diamond, 800, "Diamond Visor"), Upgrade(Legendary, 1800, "Helm of Ages")]
    case Boots => [Upgrade(Basic, 0, "Sandals"), Upgrade(Iron, 60, "Iron Boots"),
                   Upgrade(Steel, 150, "Steel Greaves"), Upgrade(Gold, 350, "Golden Steps"),
                   Upgrade(Diamond, 700, "Diamond Dash"), Upgrade(Legendary, 1500, "Hermes Wings")]
  }

  /** A better tier always costs more. */
  lemma PricesRiseWithTier(slot: Slot, i: int, j: int)
    requires 0 <= i < j < 6
    ensures UpgradeTable(slot)[i].price < UpgradeTable(slot)[j].price
  {
    var t := UpgradeTable(slot);
    assert t[0].price < t[1].price < t[2].price < t[3].price < t[4].price < t[5].price;
  }

  /** The two potions: 50 health for 30 gold, or full health for 100. */
  const Consumables: seq<Item> :=
    [Consumable("health_potion", 30, "Health Potion", HealBy(50.0)),
     Consumable("full_heal", 100, "Full Restore", HealFull)]

  /** The index of the first entry of `table` for the tier, or -1 when there is none. */
  function TierIndex(table: seq<Item>, t: Tier): (r: int)
    ensures -1 <= r < |table|
    ensures r == -1 <==> forall i :: 0 <= i < |table| ==> !(table[i].Upgrade? && table[i].tier == t)
    ensures r >= 0 ==> table[r].Upgrade? && table[r].tier == t
    ensures r >= 0 ==> forall i :: 0 <= i < r ==> !(table[i].Upgrade? && table[i].tier == t)
  {
    if |table| == 0 then -1
    else if table[0].Upgrade? && table[0].tier == t then 0
    else
      var rest := TierIndex(table[1..], t);
      if rest == -1 then -1 else rest + 1
  }

  /** Every tier is found in every slot's table, at its rank. */
  lemma TierIndexIsRank(slot: Slot, t: Tier)
    ensures TierIndex(UpgradeTable(slot), t) == Rank(t)
  {
    assert UpgradeTable(slot)[Rank(t)].tier == t;
  }

  /** `s.slice(start, end)` for a start that is not negative: both ends are cut to the length. */
  function Slice<T>(s: seq<T>, start: nat, end: nat): (r: seq<T>)
    ensures |r| == (if end <= start || |s| <= start then 0 else if |s| < end then |s| - start else end - start)
    ensures forall i :: 0 <= i < |r| ==> r[i] == s[start + i]
  {
    var lo := if start < |s| then start else |s|;
    var hi := if end < lo then lo else if end < |s| then end else |s|;
    s[lo..hi]
  }

  /**
   * What a category offers: the consumables, or the slot's tiers above the
   * one worn, at most three of them, weakest first.
   */
  function GetAvailableUpgrades(gear: Gear, category: Category): (r: seq<Item>)
    ensures category == Items ==> r == Consumables
    ensures category.Wear? ==>
      var rank := Rank(gear.Get(category.slot));
      && |r| == (if rank <= 2 then 3 else 5 - rank)
      && forall i :: 0 <= i < |r| ==> r[i].Upgrade? && Rank(r[i].tier) == rank + 1 + i
  {
    if category == Items then Consumables
    else
      var table := UpgradeTable(category.slot);
      var current := TierIndex(table, gear.Get(category.slot));
      TierIndexIsRank(category.slot, gear.Get(category.slot));
      Slice(table, current + 1, current + 4)
  }

  /** The table entry of the gear worn in a slot; nothing for the consumables. */
  function GetCurrentEquipment(gear: Gear, category: Category): (r: Option<Item>)
    ensures r.Some? <==> category.Wear?
    ensures r.Some? ==> r.value.Upgrade? && r.value.tier == gear.Get(category.slot)
    ensures r.Some? ==> r.value == UpgradeTable(category.slot)[Rank(gear.Get(category.slot))]
  {
    if category == Items then None
    else
      var table := UpgradeTable(category.slot);
      var current := TierIndex(table, gear.Get(category.slot));
      TierIndexIsRank(category.slot, gear.Get(category.slot));
      Some(table[current])
  }

  /** Buying an offered upgrade always raises the slot's tier, and with it the stat the slot drives. */
  lemma OfferedUpgradesImprove(gear: Gear, slot: Slot, k: int)
    requires 0 <= k < |GetAvailableUpgrades(gear, Wear(slot))|
    ensures var t := GetAvailableUpgrades(gear, Wear(slot))[k].tier;
      Rank(gear.Get(slot)) < Rank(t) && Multiplier(gear.Get(slot)) < Multiplier(t)
  {
    MultiplierFollowsRank(gear.Get(slot), GetAvailableUpgrades(gear, Wear(slot))[k].tier);
  }

  /** Legendary gear leaves nothing to buy in its slot; every lower tier leaves something. */
  lemma NothingAboveLegendary(gear: Gear, slot: Slot)
    ensures GetAvailableUpgrades(gear, Wear(slot)) == [] <==> gear.Get(slot) == Legendary
  {
    if gear.Get(slot) != Legendary {
      assert Rank(gear.Get(slot)) < 5;
    }
  }

  predicate CanAfford(gold: real, item: Item) {
    gold >= item.price as real
  }

  /** The slot's new gear after buying `item` under `category`; a potion or the item menu leaves it. */
  function GearAfter(gear: Gear, category: Category, item: Item): Gear {
    if item.Upgrade? && category.Wear? then gear.Set(category.slot, item.tier) else gear
  }

  /** The message a purchase attempt shows. */
  function PurchaseMessage(item: Item, affordable: bool): string {
    if !affordable then "Not enough gold!"
    else if item.Consumable? then "Used " + item.name + "!"
    else "Equipped " + item.name + "!"
  }

  /** The health a potion leaves: the player's heal of its amount, capped at the maximum. */
  function Healed(health: real, maxHealth: real, e: Effect): (h: real)
    ensures h <= maxHealth || health > maxHealth
  {
    var amount := match e case HealBy(a) => a case HealFull => maxHealth;
    if health + amount <= maxHealth then health + amount else maxHealth
  }

  /** A full restore fills a player who has any health left; a health potion never overfills. */
  lemma PotionsHeal(health: real, maxHealth: real)
    requires 0.0 <= health <= maxHealth
    ensures Healed(health, maxHealth, HealFull) == maxHealth
    ensures health <= Healed(health, maxHealth, HealBy(50.0)) <= maxHealth
    ensures Healed(health, maxHealth, HealBy(50.0)) == maxHealth <==> health >= maxHealth - 50.0
  {
  }

  /**
   * What the player fights with after an attempt to buy `item`, where
   * `gear` is the gear worn afterwards. Nothing changes unless the item
   * was bought; a potion heals; an upgrade recomputes the stats from
   * the gear and the level, and health is only rounded down, whatever
   * the new maximum.
   */
  function VitalsAfter(v: Players.Vitals, gear: Gear, level: int, item: Item, bought: bool): Players.Vitals
    requires level >= 1
  {
    if !bought then v
    else match item
      case Consumable(_, _, _, e) => v.(health := Healed(v.health, v.maxHealth, e))
      case Upgrade(_, _, _) =>
        var cap := Players.HealthCap(gear.armor, level);
        Players.Vitals(Players.HealthAsWritten(v.health, cap), cap, Players.DamageFor(gear.sword, level),
                       Players.DefenseFor(gear.helmet), Players.SpeedFor(gear.boots))
  }

  /**
   * A purchase that never downgrades a slot keeps health within the
   * maximum and the maximum tied to the armour worn; the maximum never
   * shrinks, and an upgrade keeps the health the player had, rounded down.
   */
  lemma PurchaseKeepsHealthInBounds(v: Players.Vitals, gear: Gear, level: int, category: Category, item: Item, bought: bool)
    requires level >= 1 && v.health <= v.maxHealth && v.maxHealth == Players.HealthCap(gear.armor, level)
    requires item.Upgrade? && category.Wear? ==> Rank(gear.Get(category.slot)) <= Rank(item.tier)
    ensures var g := if bought then GearAfter(gear, category, item) else gear;
      var r := VitalsAfter(v, g, level, item, bought);
      && r.health <= r.maxHealth && v.maxHealth <= r.maxHealth
      && r.maxHealth == Players.HealthCap(g.armor, level)
      && (bought && item.Upgrade? ==> r.health == Stats.Floor(v.health))
  {
    var g := if bought then GearAfter(gear, category, item) else gear;
    if bought && item.Upgrade? && category.Wear? {
      if category.slot == Armor {
        Players.HealthCapMono(gear.armor, item.tier, level);
      } else {
        assert g.armor == gear.Get(Armor) == gear.armor;
      }
    }
  }

  /** One step left through the five categories, wrapping from the first to the last. */
  function StepLeft(c: int): int
    requires 0 <= c < |Categories|
  {
    (c - 1 + |Categories|) % |Categories|
  }

  /** One step right through the five categories, wrapping from the last to the first. */
  function StepRight(c: int): int
    requires 0 <= c < |Categories|
  {
    (c + 1) % |Categories|
  }

  /** Left and right stay on the menu, undo each other, and wrap at both ends. */
  lemma CategoriesWrap(c: int)
    requires 0 <= c < |Categories|
    ensures 0 <= StepLeft(c) < |Categories| && 0 <= StepRight(c) < |Categories|
    ensures StepRight(StepLeft(c)) == c && StepLeft(StepRight(c)) == c
    ensures StepLeft(0) == 4 && StepRight(4) == 0
  {
  }

  /** The category after a frame's left and right presses, left first. */
  function MoveCategory(cat: int, left: bool, right: bool): (c: int)
    requires 0 <= cat < |Categories|
    ensures 0 <= c < |Categories|
    ensures c == (if left == right then cat else if left then StepLeft(cat) else StepRight(cat))
  {
    CategoriesWrap(cat);
    var c1 := if left then StepLeft(cat) else cat;
    CategoriesWrap(c1);
    if right then StepRight(c1) else c1
  }

  /**
   * The item after a frame's up and down presses in a list of `n`
   * items, from the first item when the category just changed.
   */
  function MoveItem(item: int, reset: bool, up: bool, down: bool, n: int): int {
    var i1 := if reset then 0 else item;
    var i2 := if up then (if i1 - 1 < 0 then 0 else i1 - 1) else i1;
    if down then (if n - 1 < i2 + 1 then n - 1 else i2 + 1) else i2
  }

  /**
   * The category and item a frame of navigation leads to: left, then
   * right, each moving the category and resetting the item; then up and
   * down, moving the item within the new category's list.
   */
  function Browse(cat: int, item: int, left: bool, right: bool, up: bool, down: bool, gear: Gear): (r: (int, int))
    requires 0 <= cat < |Categories|
    ensures 0 <= r.0 < |Categories|
  {
    var c := MoveCategory(cat, left, right);
    (c, MoveItem(item, left || right, up, down, OfferCount(gear, Categories[c])))
  }

  /** The length of a category's list, in closed form. */
  function OfferCount(gear: Gear, category: Category): int {
    if category == Items then 2
    else
      var rank := Rank(gear.Get(category.slot));
      if rank <= 2 then 3 else 5 - rank
  }

  lemma OfferCountIsLength(gear: Gear, category: Category)
    ensures OfferCount(gear, category) == |GetAvailableUpgrades(gear, category)|
  {
  }

  /** The item confirm picks: the selected entry of the category's list, when the selection is on the list. */
  function Chosen(gear: Gear, category: Category, selected: int, confirm: bool): (r: Option<Item>)
    ensures r.Some? <==> confirm && 0 <= selected < |GetAvailableUpgrades(gear, category)|
    ensures r.Some? ==> r.value == GetAvailableUpgrades(gear, category)[selected]
  {
    var items := GetAvailableUpgrades(gear, category);
    if confirm && 0 <= selected < |items| then Some(items[selected]) else None
  }

  /**
   * Navigation: left and right together cancel out; either alone moves
   * one category; a category change starts at the first item; an item
   * inside a non-empty list stays inside it; up never leaves the top
   * and down never passes the bottom; on an empty list down selects -1.
   */
  lemma BrowseMoves(cat: int, item: int, left: bool, right: bool, up: bool, down: bool, gear: Gear)
    requires 0 <= cat < |Categories| && item >= -1
    ensures var r := Browse(cat, item, left, right, up, down, gear);
      var n := |GetAvailableUpgrades(gear, Categories[r.0])|;
      && r.0 == (if left == right then cat else if left then StepLeft(cat) else StepRight(cat))
      && ((left || right) && !up && !down ==> r.1 == 0)
      && (n > 0 && (left || right || 0 <= item < n) ==> 0 <= r.1 < n)
      && (up && !down ==> r.1 >= 0)
      && (down ==> r.1 <= n - 1)
      && (down && n == 0 ==> r.1 == -1)
  {
    CategoriesWrap(cat);
    OfferCountIsLength(gear, Categories[MoveCategory(cat, left, right)]);
  }

  class Shop {
    var selectedCategory: int
    var selectedItem: int
    var message: string
    var messageTimer: int

    ghost predicate Valid()
      reads this
    {
      0 <= selectedCategory < |Categories| && selectedItem >= -1 && messageTimer >= 0
    }

    /** The shop opens on the first item of the sword category, with no message. */
    constructor()
      ensures Valid()
      ensures selectedCategory == 0 && selectedItem == 0 && message == "" && messageTimer == 0
    {
      selectedCategory := 0;
      selectedItem := 0;
      message := "";
      messageTimer := 0;
    }

    method ShowMessage(text: string)
      modifies this`message, this`messageTimer
      ensures message == text && messageTimer == MessageFrames
    {
      message := text;
      messageTimer := MessageFrames;
    }

    /**
     * Buy `item` for the player. Without the gold nothing is bought and a
     * warning shows. Otherwise the price is paid and either the potion
     * heals, or the gear goes into the category's slot and the player's
     * stats are recomputed from it.
     */
    method Purchase(player: Players.Player, category: Category, item: Item) returns (bought: bool)
      requires player.Valid()
      requires item.Upgrade? && category.Wear? ==> Rank(player.equipment.Get(category.slot)) <= Rank(item.tier)
      modifies this`message, this`messageTimer, player`gold, player`equipment, player`health,
               player`damage, player`maxHealth, player`defense, player`speed
      ensures player.Valid()
      ensures bought <==> CanAfford(old(player.gold), item)
      ensures player.gold == if bought then old(player.gold) - item.price as real else old(player.gold)
      ensures old(player.gold) >= 0.0 ==> player.gold >= 0.0
      ensures player.equipment == if bought then GearAfter(old(player.equipment), category, item) else old(player.equipment)
      ensures player.VitalsOf() == VitalsAfter(old(player.VitalsOf()), player.equipment, player.level, item, bought)
      ensures message == PurchaseMessage(item, bought) && messageTimer == MessageFrames
    {
      if !CanAfford(player.gold, item) {
        ShowMessage("Not enough gold!");
        return false;
      }
      player.gold := player.gold - item.price as real;
      if item.Consumable? {
        var amount := match item.effect case HealBy(a) => a case HealFull => player.maxHealth;
        player.Heal(amount);
        ShowMessage("Used " + item.name + "!");
      } else {
        if category.Wear? {
          player.equipment := player.equipment.Set(category.slot, item.tier);
        }
        PurchaseKeepsHealthInBounds(old(player.VitalsOf()), old(player.equipment), player.level, category, item, true);
        player.CalculateStats();
        ShowMessage("Equipped " + item.name + "!");
      }
      return true;
    }

    /**
     * One frame of the shop: the message counts down, the menu moves as
     * `Browse` says, confirm buys the selected item when the selection is
     * on the list, and the shop stays open unless cancel was pressed.
     */
    method Update(input: Input.InputManager, player: Players.Player) returns (stay: bool)
      requires Valid() && player.Valid()
      modifies this, player`gold, player`equipment, player`health, player`damage, player`maxHealth,
               player`defense, player`speed
      ensures Valid() && player.Valid()
      ensures stay <==> !old(input.IsCancel())
      ensures (selectedCategory, selectedItem) ==
        Browse(old(selectedCategory), old(selectedItem), old(input.IsMenuLeft()), old(input.IsMenuRight()),
               old(input.IsMenuUp()), old(input.IsMenuDown()), old(player.equipment))
      ensures var pick := Chosen(old(player.equipment), Categories[selectedCategory], selectedItem, old(input.IsConfirm()));
        var bought := pick.Some? && CanAfford(old(player.gold), pick.value);
        && (pick.Some? ==> message == PurchaseMessage(pick.value, bought) && messageTimer == MessageFrames)
        && (pick.None? ==> message == old(message)
                           && messageTimer == (if old(messageTimer) > 0 then old(messageTimer) - 1 else old(messageTimer)))
        && player.gold == (if bought then old(player.gold) - pick.value.price as real else old(player.gold))
        && player.equipment ==
             (if bought then GearAfter(old(player.equipment), Categories[selectedCategory], pick.value)
              else old(player.equipment))
        && (bought ==> player.VitalsOf() == VitalsAfter(old(player.VitalsOf()), player.equipment, player.level, pick.value, true))
        && (!bought ==> player.VitalsOf() == old(player.VitalsOf()))
    {
      var left, right, up, down := input.IsMenuLeft(), input.IsMenuRight(), input.IsMenuUp(), input.IsMenuDown();
      var confirm, cancel := input.IsConfirm(), input.IsCancel();
      stay := Respond(left, right, up, down, confirm, cancel, player);
    }

    /** `Update` on the keys of the frame, read beforehand. */
    method Respond(left: bool, right: bool, up: bool, down: bool, confirm: bool, cancel: bool, player: Players.Player)
      returns (stay: bool)
      requires Valid() && player.Valid()
      modifies this, player`gold, player`equipment, player`health, player`damage, player`maxHealth,
               player`defense, player`speed
      ensures Valid() && player.Valid()
      ensures stay <==> !cancel
      ensures (selectedCategory, selectedItem) ==
        Browse(old(selectedCategory), old(selectedItem), left, right, up, down, old(player.equipment))
      ensures var pick := Chosen(old(player.equipment), Categories[selectedCategory], selectedItem, confirm);
        var bought := pick.Some? && CanAfford(old(player.gold), pick.value);
        && (pick.Some? ==> message == PurchaseMessage(pick.value, bought) && messageTimer == MessageFrames)
        && (pick.None? ==> message == old(message)
                           && messageTimer == (if old(messageTimer) > 0 then old(messageTimer) - 1 else old(messageTimer)))
        && player.gold == (if bought then old(player.gold) - pick.value.price as real else old(player.gold))
        && player.equipment ==
             (if bought then GearAfter(old(player.equipment), Categories[selectedCategory], pick.value)
              else old(player.equipment))
        && (bought ==> player.VitalsOf() == VitalsAfter(old(player.VitalsOf()), player.equipment, player.level, pick.value, true))
        && (!bought ==> player.VitalsOf() == old(player.VitalsOf()))
    {
      if messageTimer > 0 {
        messageTimer := messageTimer - 1;
      }
      Navigate(left, right, up, down, player.equipment);
      BuySelected(confirm, player);
      stay := !cancel;
    }

    /** Confirm buys the selected item of the current category when the selection is on the list. */
    method BuySelected(confirm: bool, player: Players.Player)
      requires Valid() && player.Valid()
      modifies this`message, this`messageTimer, player`gold, player`equipment, player`health,
               player`damage, player`maxHealth, player`defense, player`speed
      ensures Valid() && player.Valid()
      ensures var pick := Chosen(old(player.equipment), Categories[selectedCategory], selectedItem, confirm);
        var bought := pick.Some? && CanAfford(old(player.gold), pick.value);
        && (pick.Some? ==> message == PurchaseMessage(pick.value, bought) && messageTimer == MessageFrames)
        && (pick.None? ==> message == old(message) && messageTimer == old(messageTimer))
        && player.gold == (if bought then old(player.gold) - pick.value.price as real else old(player.gold))
        && player.equipment ==
             (if bought then GearAfter(old(player.equipment), Categories[selectedCategory], pick.value)
              else old(player.equipment))
        && (bought ==> player.VitalsOf() == VitalsAfter(old(player.VitalsOf()), player.equipment, player.level, pick.value, true))
        && (!bought ==> player.VitalsOf() == old(player.VitalsOf()))
    {
      var category := Categories[selectedCategory];
      var items := GetAvailableUpgrades(player.equipment, category);
      if confirm && |items| > 0 {
        if 0 <= selectedItem < |items| {
          var _ := Purchase(player, category, items[selectedItem]);
        }
      }
    }

    /** The menu moves of one frame: categories first, then items within the new category's list. */
    method Navigate(left: bool, right: bool, up: bool, down: bool, gear: Gear)
      requires Valid()
      modifies this`selectedCategory, this`selectedItem
      ensures Valid()
      ensures (selectedCategory, selectedItem) == Browse(old(selectedCategory), old(selectedItem), left, right, up, down, gear)
    {
      ghost var item := selectedItem;
      SwitchCategory(left, right);
      var items := GetAvailableUpgrades(gear, Categories[selectedCategory]);
      OfferCountIsLength(gear, Categories[selectedCategory]);
      MoveSelection(up, down, |items|);
      assert (selectedCategory, selectedItem) == Browse(old(selectedCategory), item, left, right, up, down, gear);
    }

    /** Left then right: each moves the category one step, wrapping, and goes back to the first item. */
    method SwitchCategory(left: bool, right: bool)
      requires Valid()
      modifies this`selectedCategory, this`selectedItem
      ensures Valid()
      ensures selectedCategory == MoveCategory(old(selectedCategory), left, right)
      ensures selectedItem == if left || right then 0 else old(selectedItem)
    {
      CategoriesWrap(selectedCategory);
      if left {
        selectedCategory := StepLeft(selectedCategory);
        selectedItem := 0;
      }
      CategoriesWrap(selectedCategory);
      if right {
        selectedCategory := StepRight(selectedCategory);
        selectedItem := 0;
      }
    }

    /** Up then down within a list of `count` items: up stops at the top, down at the bottom. */
    method MoveSelection(up: bool, down: bool, count: int)
      requires Valid() && count >= 0
      modifies this`selectedItem
      ensures Valid()
      ensures selectedItem == MoveItem(old(selectedItem), false, up, down, count)
    {
      if up {
        selectedItem := if selectedItem - 1 < 0 then 0 else selectedItem - 1;
      }
      if down {
        selectedItem := if count - 1 < selectedItem + 1 then count - 1 else selectedItem + 1;
      }
    }
  }
}
