/**
 * Equipment tiers, the four equipment slots a player fills, and the
 * playfield width every horizontal clamp uses.
 */
module Equipment {

  /** The playfield width in pixels. */
  const CanvasWidth: real := 800.0

  /** The six equipment tiers, weakest first. */
  datatype Tier = Basic | Iron | Steel | Gold | Diamond | Legendary

  /** The factor a tier applies to the stat its slot drives. */
  function Multiplier(t: Tier): (m: real)
    ensures 1.0 <= m <= 2.5
    ensures m == 1.0 <==> t == Basic
  {
    match t
    case Basic => 1.0
    case Iron => 1.25
    case Steel => 1.5
    case Gold => 1.75
    case Diamond => 2.0
    case Legendary => 2.5
  }

  /** The position of a tier in the upgrade order. */
  function Rank(t: Tier): (r: nat)
    ensures r < 6
  {
    match t
    case Basic => 0
    case Iron => 1
    case Steel => 2
    case Gold => 3
    case Diamond => 4
    case Legendary => 5
  }

  /** A higher tier always has a larger multiplier. */
  lemma MultiplierFollowsRank(a: Tier, b: Tier)
    ensures Rank(a) < Rank(b) <==> Multiplier(a) < Multiplier(b)
  {
  }

  datatype Slot = Sword | Armor | Helmet | Boots

  /** What a player wears in each slot. */
  datatype Gear = Gear(sword: Tier, armor: Tier, helmet: Tier, boots: Tier) {

    function Get(slot: Slot): Tier {
      match slot
      case Sword => sword
      case Armor => armor
      case Helmet => helmet
      case Boots => boots
    }

    /** The gear with one slot replaced. */
    function Set(slot: Slot, t: Tier): (g: Gear)
      ensures g.Get(slot) == t
      ensures forall other :: other != slot ==> g.Get(other) == Get(other)
    {
      match slot
      case Sword => this.(sword := t)
      case Armor => this.(armor := t)
      case Helmet => this.(helmet := t)
      case Boots => this.(boots := t)
    }
  }

  /** A new character starts with the basic tier in every slot. */
  const StarterGear := Gear(Basic, Basic, Basic, Basic)
}
