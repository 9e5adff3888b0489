/**
 * The player's progression record: base stats, the stats derived from
 * equipment, level and skill modifiers, the modifier table the skill tree
 * writes into, and level, experience, gold and skill points.
 *
 * Two editions exist: the TypeScript one with a sixteen-name modifier
 * table, and the older JavaScript one whose table lacks `berserkerMode`,
 * `secondWind`, `secondWindUsed` and `goldMult` and which has no
 * `resetSecondWind`. One class models both, chosen by its default table.
 */
module Stats {
  import opened Equipment
  import opened Modifiers
  import opened Progression

  const BaseHealth: real := 100.0
  const BaseDamage: real := 15.0
  const BaseSpeed: real := 4.0
  const BaseDefense: real := 0.0
  const BaseCritChance: real := 0.1
  const BaseCritMultiplier: real := 1.5
  const BaseJumpForce: real := -12.0

  /** The default modifier table of the TypeScript edition. */
  const ModifierDefaults: ModTable := map[
    "healthMult" := Num(1.0), "damageMult" := Num(1.0), "speedMult" := Num(1.0),
    "defenseMult" := Num(1.0), "critChanceBonus" := Num(0.0), "critMultBonus" := Num(0.0),
    "jumpForceMult" := Num(1.0), "doubleJump" := Flag(false), "dashAbility" := Flag(false),
    "shieldAbility" := Flag(false), "lifeSteal" := Num(0.0), "attackSpeed" := Num(1.0),
    "berserkerMode" := Flag(false), "secondWind" := Flag(false),
    "secondWindUsed" := Flag(false), "goldMult" := Num(0.0)]

  /** The default modifier table of the JavaScript edition: twelve names. */
  const LegacyModifierDefaults: ModTable := map[
    "healthMult" := Num(1.0), "damageMult" := Num(1.0), "speedMult" := Num(1.0),
    "defenseMult" := Num(1.0), "critChanceBonus" := Num(0.0), "critMultBonus" := Num(0.0),
    "jumpForceMult" := Num(1.0), "doubleJump" := Flag(false), "dashAbility" := Flag(false),
    "shieldAbility" := Flag(false), "lifeSteal" := Num(0.0), "attackSpeed" := Num(1.0)]

  /** The editions' tables agree on the twelve old names; the four late ones exist only in the newer table. */
  lemma LegacyTableIsNarrower(k: string)
    ensures k in LegacyModifierDefaults ==> k in ModifierDefaults && ModifierDefaults[k] == LegacyModifierDefaults[k]
    ensures k in ModifierDefaults && k !in LegacyModifierDefaults
      <==> k in {"berserkerMode", "secondWind", "secondWindUsed", "goldMult"}
  {
  }

  /** The JavaScript edition silently drops the modifiers of the late skills. */
  lemma LegacyIgnoresLateModifiers(m: ModTable, key: string, value: ModValue)
    requires SameShape(m, LegacyModifierDefaults)
    requires key in {"berserkerMode", "secondWind", "secondWindUsed", "goldMult"}
    ensures Apply(m, key, value) == m
  {
    assert key !in LegacyModifierDefaults;
  }

  /** The seven numeric modifiers the stat recalculation reads are present and numeric. */
  predicate HasRecalcKeys(m: ModTable) {
    "healthMult" in m && m["healthMult"].Num?
    && "damageMult" in m && m["damageMult"].Num?
    && "speedMult" in m && m["speedMult"].Num?
    && "defenseMult" in m && m["defenseMult"].Num?
    && "critChanceBonus" in m && m["critChanceBonus"].Num?
    && "critMultBonus" in m && m["critMultBonus"].Num?
    && "jumpForceMult" in m && m["jumpForceMult"].Num?
  }

  /** Both default tables hold the seven numeric modifiers recalculation reads. */
  lemma DefaultsRecalculate()
    ensures HasRecalcKeys(ModifierDefaults) && HasRecalcKeys(LegacyModifierDefaults)
  {
  }

  /** Merging a modifier keeps what recalculation reads. */
  lemma ApplyKeepsRecalcKeys(m: ModTable, key: string, value: ModValue)
    requires HasRecalcKeys(m)
    ensures HasRecalcKeys(Apply(m, key, value))
  {
  }

  /** The seven derived stats. */
  datatype StatBlock = StatBlock(
    maxHealth: real, damage: real, speed: real, defense: real,
    critChance: real, critMultiplier: real, jumpForce: real)

  /** The stats a fresh record carries before any recalculation: the bare base stats. */
  const BaseStats := StatBlock(BaseHealth, BaseDamage, BaseSpeed, BaseDefense,
                               BaseCritChance, BaseCritMultiplier, BaseJumpForce)

  function Floor(x: real): (r: real)
    ensures r <= x < r + 1.0
    ensures r == r.Floor as real
  {
    x.Floor as real
  }

  /** A stat scaled by its slot's tier, a level bonus and a skill modifier, rounded down. */
  function ScaledStat(base: real, tierMult: real, levelBonus: real, mult: real): (r: real)
    ensures r <= base * tierMult * levelBonus * mult < r + 1.0
  {
    Floor(base * tierMult * levelBonus * mult)
  }

  /** Defense: the helmet's tier times 5, scaled by the defense modifier, rounded down. */
  function DefenseStat(helmetMult: real, mult: real): real {
    Floor(BaseDefense + 5.0 * helmetMult * mult)
  }

  /** Speed: the boots add a fifth of their tier to a base factor of 0.9, then the speed modifier applies. */
  function SpeedStat(bootsMult: real, mult: real): real {
    BaseSpeed * (0.9 + bootsMult * 0.2) * mult
  }

  /**
   * The stats for the given modifiers, gear and level: damage grows 10%
   * per level, health 5% per level, both and defense are rounded down.
   */
  function Recalculated(m: ModTable, gear: Gear, level: int): (s: StatBlock)
    requires HasRecalcKeys(m)
    ensures s.damage == s.damage.Floor as real
    ensures s.maxHealth == s.maxHealth.Floor as real
    ensures s.defense == s.defense.Floor as real
  {
    StatBlock(
      maxHealth := ScaledStat(BaseHealth, Multiplier(gear.armor), 1.0 + (level - 1) as real * 0.05, m["healthMult"].n),
      damage := ScaledStat(BaseDamage, Multiplier(gear.sword), 1.0 + (level - 1) as real * 0.1, m["damageMult"].n),
      speed := SpeedStat(Multiplier(gear.boots), m["speedMult"].n),
      defense := DefenseStat(Multiplier(gear.helmet), m["defenseMult"].n),
      critChance := BaseCritChance + m["critChanceBonus"].n,
      critMultiplier := BaseCritMultiplier + m["critMultBonus"].n,
      jumpForce := BaseJumpForce * m["jumpForceMult"].n)
  }

  /**
   * A fresh record is not what recalculation would give it: the basic
   * helmet already grants 5 defense and the basic boots 4.4 speed.
   */
  lemma FreshStatsAreNotRecalculated()
    ensures HasRecalcKeys(ModifierDefaults)
    ensures Recalculated(ModifierDefaults, StarterGear, 1)
      == BaseStats.(defense := 5.0, speed := 4.4)
  {
    DefaultsRecalculate();
    var m := ModifierDefaults;
    assert m["healthMult"].n == 1.0 && m["damageMult"].n == 1.0 && m["speedMult"].n == 1.0;
    assert m["defenseMult"].n == 1.0 && m["critChanceBonus"].n == 0.0;
    assert m["critMultBonus"].n == 0.0 && m["jumpForceMult"].n == 1.0;
    assert Floor(100.0) == 100.0 && Floor(15.0) == 15.0 && Floor(5.0) == 5.0;
  }

  /** With non-negative damage and health modifiers, a higher level never lowers damage or maximum health. */
  lemma RecalculatedGrowsWithLevel(m: ModTable, gear: Gear, lo: int, hi: int)
    requires HasRecalcKeys(m) && m["damageMult"].n >= 0.0 && m["healthMult"].n >= 0.0
    requires 1 <= lo <= hi
    ensures Recalculated(m, gear, lo).damage <= Recalculated(m, gear, hi).damage
    ensures Recalculated(m, gear, lo).maxHealth <= Recalculated(m, gear, hi).maxHealth
  {
    ScaledGrowth(BaseDamage, Multiplier(gear.sword), 1.0 + (lo - 1) as real * 0.1,
                 1.0 + (hi - 1) as real * 0.1, m["damageMult"].n);
    ScaledGrowth(BaseHealth, Multiplier(gear.armor), 1.0 + (lo - 1) as real * 0.05,
                 1.0 + (hi - 1) as real * 0.05, m["healthMult"].n);
  }

  /** A scaled stat does not decrease as its level bonus grows. */
  lemma ScaledGrowth(base: real, tierMult: real, l: real, h: real, mult: real)
    requires base >= 0.0 && tierMult >= 0.0 && mult >= 0.0 && l <= h
    ensures ScaledStat(base, tierMult, l, mult) <= ScaledStat(base, tierMult, h, mult)
  {
    MulMono(base, 0.0, tierMult);
    MulMono(base * tierMult, l, h);
    MulMono(mult, base * tierMult * l, base * tierMult * h);
    FloorMono(base * tierMult * l * mult, base * tierMult * h * mult);
  }

  lemma MulMono(a: real, b: real, c: real)
    requires a >= 0.0 && b <= c
    ensures a * b <= a * c && b * a <= c * a
  {
    assert a * c - a * b == a * (c - b);
  }

  lemma FloorMono(x: real, y: real)
    requires x <= y
    ensures Floor(x) <= Floor(y)
  {
    assert x.Floor < y.Floor + 1;
  }

  class PlayerStats {
    const defaults: ModTable
    var maxHealth: real
    var damage: real
    var speed: real
    var defense: real
    var critChance: real
    var critMultiplier: real
    var jumpForce: real
    var skillModifiers: ModTable
    var equipment: Gear
    var level: int
    var exp: real
    var expToNextLevel: int
    var gold: real
    var skillPoints: int

    ghost predicate Valid()
      reads this
    {
      HasRecalcKeys(defaults)
      && SameShape(skillModifiers, defaults) && HasRecalcKeys(skillModifiers)
      && level >= 1 && expToNextLevel >= FirstThreshold
    }

    function Calculated(): StatBlock
      reads this
    {
      StatBlock(maxHealth, damage, speed, defense, critChance, critMultiplier, jumpForce)
    }

    constructor(defaults: ModTable)
      requires defaults == ModifierDefaults || defaults == LegacyModifierDefaults
      ensures Valid() && this.defaults == defaults
      ensures Calculated() == BaseStats && skillModifiers == defaults && equipment == StarterGear
      ensures level == 1 && exp == 0.0 && expToNextLevel == 100 && gold == 0.0 && skillPoints == 0
    {
      DefaultsRecalculate();
      this.defaults := defaults;
      maxHealth := BaseHealth;
      damage := BaseDamage;
      speed := BaseSpeed;
      defense := BaseDefense;
      critChance := BaseCritChance;
      critMultiplier := BaseCritMultiplier;
      jumpForce := BaseJumpForce;
      skillModifiers := defaults;
      equipment := StarterGear;
      level := 1;
      exp := 0.0;
      expToNextLevel := 100;
      gold := 0.0;
      skillPoints := 0;
    }

    /** Rederive the seven stats; nothing else changes. */
    method Recalculate()
      requires Valid()
      modifies this
      ensures Valid() && Calculated() == Recalculated(skillModifiers, equipment, level)
      ensures skillModifiers == old(skillModifiers) && equipment == old(equipment)
      ensures level == old(level) && exp == old(exp) && expToNextLevel == old(expToNextLevel)
      ensures gold == old(gold) && skillPoints == old(skillPoints)
    {
      ghost var target := Recalculated(skillModifiers, equipment, level);
      var swordMult := Multiplier(equipment.sword);
      var armorMult := Multiplier(equipment.armor);
      var helmetMult := Multiplier(equipment.helmet);
      var bootsMult := Multiplier(equipment.boots);
      var levelBonus := 1.0 + (level - 1) as real * 0.1;
      damage := ScaledStat(BaseDamage, swordMult, levelBonus, skillModifiers["damageMult"].n);
      maxHealth := ScaledStat(BaseHealth, armorMult, 1.0 + (level - 1) as real * 0.05, skillModifiers["healthMult"].n);
      defense := DefenseStat(helmetMult, skillModifiers["defenseMult"].n);
      speed := SpeedStat(bootsMult, skillModifiers["speedMult"].n);
      critChance := BaseCritChance + skillModifiers["critChanceBonus"].n;
      critMultiplier := BaseCritMultiplier + skillModifiers["critMultBonus"].n;
      jumpForce := BaseJumpForce * skillModifiers["jumpForceMult"].n;
      assert Calculated() == target;
    }

    /**
     * Bank experience and level up while it covers the threshold; each
     * level grants a skill point. Returns whether any level was gained.
     */
    method AddExp(amount: real) returns (leveledUp: bool)
      requires Valid()
      modifies this
      ensures Valid()
      ensures var r := LevelUps(old(exp) + amount, old(expToNextLevel));
        && exp == r.exp && expToNextLevel == r.threshold
        && level == old(level) + r.gained && skillPoints == old(skillPoints) + r.gained
        && (leveledUp <==> r.gained > 0)
      ensures leveledUp ==> Calculated() == Recalculated(skillModifiers, equipment, level)
      ensures !leveledUp ==> Calculated() == old(Calculated())
      ensures skillModifiers == old(skillModifiers) && equipment == old(equipment) && gold == old(gold)
    {
      exp := exp + amount;
      leveledUp := false;
      ghost var target := LevelUps(exp, expToNextLevel);
      while exp >= expToNextLevel as real
        modifies this`exp, this`level, this`skillPoints, this`expToNextLevel
        invariant level >= old(level) && expToNextLevel >= FirstThreshold
        invariant LevelUps(exp, expToNextLevel).exp == target.exp
        invariant LevelUps(exp, expToNextLevel).threshold == target.threshold
        invariant LevelUps(exp, expToNextLevel).gained + (level - old(level)) == target.gained
        invariant skillPoints - old(skillPoints) == level - old(level)
        invariant leveledUp <==> level > old(level)
        decreases exp.Floor
      {
        exp := exp - expToNextLevel as real;
        level := level + 1;
        skillPoints := skillPoints + 1;
        expToNextLevel := NextThreshold(expToNextLevel);
        leveledUp := true;
      }
      if leveledUp {
        Recalculate();
      }
    }

    method AddGold(amount: real)
      modifies this
      ensures gold == old(gold) + amount
      ensures Calculated() == old(Calculated()) && skillModifiers == old(skillModifiers)
      ensures equipment == old(equipment) && level == old(level) && exp == old(exp)
      ensures expToNextLevel == old(expToNextLevel) && skillPoints == old(skillPoints)
    {
      gold := gold + amount;
    }

    /** Pay `amount` if the purse covers it; otherwise change nothing. */
    method SpendGold(amount: real) returns (paid: bool)
      modifies this
      ensures paid <==> old(gold) >= amount
      ensures gold == if paid then old(gold) - amount else old(gold)
      ensures Calculated() == old(Calculated()) && skillModifiers == old(skillModifiers)
      ensures equipment == old(equipment) && level == old(level) && exp == old(exp)
      ensures expToNextLevel == old(expToNextLevel) && skillPoints == old(skillPoints)
    {
      if gold >= amount {
        gold := gold - amount;
        return true;
      }
      return false;
    }

    /** Merge a skill's modifier into the table and rederive the stats; an unknown name changes nothing. */
    method ApplySkillModifier(key: string, value: ModValue)
      requires Valid()
      modifies this
      ensures Valid()
      ensures skillModifiers == Apply(old(skillModifiers), key, value)
      ensures key in old(skillModifiers) ==> Calculated() == Recalculated(skillModifiers, equipment, level)
      ensures key !in old(skillModifiers) ==> Calculated() == old(Calculated())
      ensures equipment == old(equipment) && level == old(level) && exp == old(exp)
      ensures expToNextLevel == old(expToNextLevel) && gold == old(gold) && skillPoints == old(skillPoints)
    {
      if key in skillModifiers {
        ApplyKeepsShape(skillModifiers, defaults, key, value);
        ApplyKeepsRecalcKeys(skillModifiers, key, value);
        if skillModifiers[key].Flag? {
          skillModifiers := skillModifiers[key := value];
        } else {
          skillModifiers := skillModifiers[key := Num(skillModifiers[key].n + NumOf(value))];
        }
        Recalculate();
      }
    }

    /** Restore the edition's default table and rederive the stats. */
    method ResetSkillModifiers()
      requires Valid()
      modifies this
      ensures Valid() && skillModifiers == defaults
      ensures Calculated() == Recalculated(defaults, equipment, level)
      ensures equipment == old(equipment) && level == old(level) && exp == old(exp)
      ensures expToNextLevel == old(expToNextLevel) && gold == old(gold) && skillPoints == old(skillPoints)
    {
      skillModifiers := defaults;
      Recalculate();
    }

    /** Re-arm the once-per-level revival; only the TypeScript edition has it. */
    method ResetSecondWind()
      requires Valid() && defaults == ModifierDefaults
      modifies this
      ensures Valid()
      ensures skillModifiers == old(skillModifiers)["secondWindUsed" := Flag(false)]
      ensures Calculated() == old(Calculated()) && equipment == old(equipment)
      ensures level == old(level) && exp == old(exp) && expToNextLevel == old(expToNextLevel)
      ensures gold == old(gold) && skillPoints == old(skillPoints)
    {
      skillModifiers := skillModifiers["secondWindUsed" := Flag(false)];
    }
  }
}
