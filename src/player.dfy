/**
 * The controllable fighter: movement with gravity, jumping, knockback and
 * optional ice friction; attack and invincibility timers; damage, healing
 * and levelling; the attack hitbox; and the stats derived from the
 * equipment and the level.
 */
module Players {
  import opened Wrappers
  import opened Equipment
  import opened Progression
  import opened Utils
  import Stats

  const PlayerWidth: real := 40.0
  const PlayerHeight: real := 60.0
  const Gravity: real := 0.5
  const WalkStep: real := 0.2
  const NormalFriction: real := 0.8
  const IceFriction: real := 0.92
  const KnockbackDecay: real := 0.8
  const KnockbackSpeed: real := 8.0
  const AttackWidth: real := 50.0
  const AttackFrames: int := 20
  const AttackCooldownFrames: int := 30
  /** The attack hits while at least this many of its frames remain. */
  const HitboxFrom: int := 15
  const InvincibleFrames: int := 60
  const FrameTicks: int := 10
  const FrameCount: int := 4

  /** The rightmost x a player may stand at. */
  const RightLimit: real := CanvasWidth - PlayerWidth

  /** The directional keys and the attack key as the player reads them this frame. */
  datatype Controls = Controls(left: bool, right: bool, up: bool, attack: bool)

  /** The level mechanics the player reacts to; a level without mechanics has neither. */
  datatype Mechanics = Mechanics(slipperyFloor: bool, friction: Option<real>)

  /**
   * The floor friction: `0.8` on a normal floor, the level's own friction
   * on ice, or `0.92` when the level gives none (or gives zero).
   */
  function Friction(m: Mechanics): (f: real)
    ensures f != 0.0
    ensures !m.slipperyFloor ==> f == NormalFriction
    ensures m.slipperyFloor && m.friction == None ==> f == IceFriction
  {
    if !m.slipperyFloor then NormalFriction
    else if m.friction.Some? && m.friction.value != 0.0 then m.friction.value
    else IceFriction
  }

  /**
   * One frame of knockback decay: the push shrinks by a fifth and stops
   * once it is weaker than half a pixel.
   */
  function DecayKnockback(k: real): (r: real)
    ensures r == 0.0 || (0.5 <= Abs(r) && Abs(r) == KnockbackDecay * Abs(k))
    ensures k == 0.0 ==> r == 0.0
  {
    if k == 0.0 then 0.0
    else
      var d := k * KnockbackDecay;
      if Abs(d) < 0.5 then 0.0 else d
  }

  /** The knockback left after `n` frames. */
  function KnockbackAfter(k: real, n: nat): real
  {
    if n == 0 then k else DecayKnockback(KnockbackAfter(k, n - 1))
  }

  /** `0.8` to the power `n`. */
  function DecayPow(n: nat): (r: real)
    ensures 0.0 < r <= 1.0
  {
    if n == 0 then 1.0 else KnockbackDecay * DecayPow(n - 1)
  }

  /** After `n` frames a knockback is gone or still `0.8^n` of its start. */
  lemma {:induction false} KnockbackShrinks(k: real, n: nat)
    ensures KnockbackAfter(k, n) == 0.0 || Abs(KnockbackAfter(k, n)) == Abs(k) * DecayPow(n)
  {
    if n > 0 {
      KnockbackShrinks(k, n - 1);
      assert Abs(k) * DecayPow(n) == KnockbackDecay * (Abs(k) * DecayPow(n - 1));
    }
  }

  /**
   * A hit's push (at most the full knockback speed) is over within
   * thirteen frames.
   */
  lemma KnockbackSettles(k: real)
    requires Abs(k) <= KnockbackSpeed
    ensures KnockbackAfter(k, 13) == 0.0
  {
    KnockbackShrinks(k, 13);
    var p := DecayPow(13);
    assert p < 0.055 by {
      assert DecayPow(1) == 0.8;
      assert DecayPow(2) == 0.8 * DecayPow(1);
      assert DecayPow(3) == 0.8 * DecayPow(2);
      assert DecayPow(4) == 0.8 * DecayPow(3);
      assert DecayPow(5) == 0.8 * DecayPow(4);
      assert DecayPow(6) == 0.8 * DecayPow(5);
      assert DecayPow(7) == 0.8 * DecayPow(6);
      assert DecayPow(8) == 0.8 * DecayPow(7);
      assert DecayPow(9) == 0.8 * DecayPow(8);
      assert DecayPow(10) == 0.8 * DecayPow(9);
      assert DecayPow(11) == 0.8 * DecayPow(10);
      assert DecayPow(12) == 0.8 * DecayPow(11);
    }
    assert Abs(k) * p <= 8.0 * p;
    assert DecayKnockback(KnockbackAfter(k, 12)) == KnockbackAfter(k, 13);
  }

  /** Where the player is and how it moves. */
  datatype Body = Body(x: real, y: real, velocityX: real, velocityY: real,
                       isGrounded: bool, facing: int, walkCycle: real, knockbackX: real)

  /** Knockback: the push moves the player, then decays. */
  function Knock(b: Body): Body {
    if b.knockbackX != 0.0 then b.(x := b.x + b.knockbackX, knockbackX := DecayKnockback(b.knockbackX))
    else b
  }

  /**
   * Walking: right wins over left and sets the facing; on ice the speed
   * blends towards half the target with the friction, otherwise it is
   * the target; then the player moves by it.
   */
  function Steer(b: Body, c: Controls, speed: real, m: Mechanics): Body {
    var f := Friction(m);
    var target := if c.right then speed else if c.left then -speed else 0.0;
    var facing := if c.right then 1 else if c.left then -1 else b.facing;
    var vx := if m.slipperyFloor then b.velocityX * f + target * (1.0 - f) * 0.5 else target;
    b.(x := b.x + vx, velocityX := vx, facing := facing)
  }

  /** Jumping from the ground, gravity, and landing on the ground line. */
  function Fall(b: Body, up: bool, groundY: real): (r: Body)
    ensures r.y <= groundY - PlayerHeight
  {
    var jump := up && b.isGrounded;
    var vy := (if jump then Stats.BaseJumpForce else b.velocityY) + Gravity;
    var y := b.y + vy;
    var groundLevel := groundY - PlayerHeight;
    if y >= groundLevel then b.(y := groundLevel, velocityY := 0.0, isGrounded := true)
    else b.(y := y, velocityY := vy, isGrounded := !jump && b.isGrounded)
  }

  /** The walk cycle runs while walking on the ground and rests on the ground otherwise. */
  function Stride(b: Body, moving: bool): Body {
    if moving && b.isGrounded then b.(walkCycle := b.walkCycle + WalkStep)
    else if b.isGrounded then b.(walkCycle := 0.0)
    else b
  }

  /** The horizontal bounds of the playfield. */
  function Bound(b: Body): (r: Body)
    ensures 0.0 <= r.x <= RightLimit
  {
    b.(x := Clamp(b.x, 0.0, RightLimit))
  }

  /** One frame of movement on a floor at `groundY`. */
  function Move(b: Body, c: Controls, speed: real, groundY: real, m: Mechanics): (r: Body)
    ensures r.y <= groundY - PlayerHeight
    ensures 0.0 <= r.x <= RightLimit
    ensures (b.facing == 1 || b.facing == -1) ==> (r.facing == 1 || r.facing == -1)
  {
    Bound(Stride(Fall(Steer(Knock(b), c, speed, m), c.up, groundY), c.left || c.right))
  }

  /**
   * Standing on the ground line means having landed: no vertical speed
   * and grounded. Below it a player is in the air only after a jump or
   * while still falling, and gravity adds half a pixel per frame.
   */
  lemma MoveLands(b: Body, c: Controls, speed: real, groundY: real, m: Mechanics)
    ensures var r := Move(b, c, speed, groundY, m);
      r.y == groundY - PlayerHeight ==> r.velocityY == 0.0 && r.isGrounded
    ensures var r := Move(b, c, speed, groundY, m);
      r.y < groundY - PlayerHeight && !(c.up && b.isGrounded) ==> r.velocityY == b.velocityY + Gravity
    ensures var r := Move(b, c, speed, groundY, m);
      !r.isGrounded ==> r.y < groundY - PlayerHeight
  {
  }

  /** Jumping from the ground (at or above the ground line) leaves it at the jump speed less one frame of gravity. */
  lemma MoveJumps(b: Body, c: Controls, speed: real, groundY: real, m: Mechanics)
    requires c.up && b.isGrounded && b.y <= groundY - PlayerHeight
    ensures var r := Move(b, c, speed, groundY, m);
      !r.isGrounded && r.velocityY == Stats.BaseJumpForce + Gravity && r.y == b.y + r.velocityY
  {
  }

  /**
   * The player faces the way it was last told to walk (right wins over
   * left), so the facing stays one of the two directions; on a normal
   * floor it walks at exactly its speed while a direction is held and
   * stands still otherwise.
   */
  lemma MoveFacesAndWalks(b: Body, c: Controls, speed: real, groundY: real, m: Mechanics)
    requires b.facing == 1 || b.facing == -1
    ensures var r := Move(b, c, speed, groundY, m);
      && (r.facing == 1 || r.facing == -1)
      && (c.right ==> r.facing == 1)
      && (c.left && !c.right ==> r.facing == -1)
      && (!c.left && !c.right ==> r.facing == b.facing)
    ensures var r := Move(b, c, speed, groundY, m);
      !m.slipperyFloor ==> r.velocityX == (if c.right then speed else if c.left then -speed else 0.0)
  {
  }

  /** The frame counters of one player. */
  datatype Timers = Timers(attacking: bool, attackTimer: int, attackCooldown: int,
                           invincible: bool, invincibleTimer: int,
                           animTimer: int, animFrame: int)

  /**
   * The counters stay in range: an attack in progress has frames left
   * and a cooldown that outlasts it by ten frames; invincibility has
   * frames left; the animation counters stay below their wrap points.
   */
  predicate TimersOk(t: Timers) {
    && 0 <= t.attackTimer && 0 <= t.attackCooldown && 0 <= t.invincibleTimer
    && (t.attacking ==> 0 < t.attackTimer && t.attackTimer + 10 <= t.attackCooldown)
    && (t.invincible ==> 0 < t.invincibleTimer)
    && 0 <= t.animTimer < FrameTicks && 0 <= t.animFrame < FrameCount
  }

  /**
   * One frame of the counters: an attack starts when asked for off
   * cooldown, then the attack, the cooldown and the invincibility count
   * down, and the walk frame advances every ten frames.
   */
  function Tick(t: Timers, attackPressed: bool): (r: Timers)
    ensures TimersOk(t) ==> TimersOk(r)
  {
    var start := attackPressed && t.attackCooldown <= 0;
    var attacking0 := start || t.attacking;
    var timer0 := if start then AttackFrames else t.attackTimer;
    var cooldown0 := if start then AttackCooldownFrames else t.attackCooldown;
    var timer1 := if attacking0 then timer0 - 1 else timer0;
    var attacking1 := attacking0 && timer1 > 0;
    var cooldown1 := if cooldown0 > 0 then cooldown0 - 1 else cooldown0;
    var invTimer := if t.invincible then t.invincibleTimer - 1 else t.invincibleTimer;
    var invincible := t.invincible && invTimer > 0;
    var anim := t.animTimer + 1;
    if anim >= FrameTicks then
      Timers(attacking1, timer1, cooldown1, invincible, invTimer, 0, (t.animFrame + 1) % FrameCount)
    else
      Timers(attacking1, timer1, cooldown1, invincible, invTimer, anim, t.animFrame)
  }

  /**
   * An attack starts exactly when one is asked for off cooldown; it then
   * has 19 frames and the cooldown 29 left. A running attack is never
   * restarted, because its cooldown is still running.
   */
  lemma AttackStartsOffCooldown(t: Timers, attackPressed: bool)
    requires TimersOk(t)
    ensures var r := Tick(t, attackPressed);
      attackPressed && t.attackCooldown <= 0 ==>
        r.attacking && r.attackTimer == AttackFrames - 1 && r.attackCooldown == AttackCooldownFrames - 1
    ensures var r := Tick(t, attackPressed);
      r.attacking && !t.attacking ==> attackPressed && t.attackCooldown <= 0
    ensures var r := Tick(t, attackPressed);
      t.attacking ==> r.attackTimer == t.attackTimer - 1 && (r.attacking <==> r.attackTimer > 0)
  {
  }

  /** `n` frames of counters without further attack requests. */
  function TicksAfter(t: Timers, n: nat): Timers
  {
    if n == 0 then t else Tick(TicksAfter(t, n - 1), false)
  }

  /**
   * An attack that just started stays on for its 19 remaining frames
   * and is over after them; its hitbox window (timer at least 15) covers
   * the first five of those frames.
   */
  lemma {:induction false} AttackRunsOut(t: Timers, n: nat)
    requires TimersOk(t) && t.attacking && t.attackTimer == AttackFrames - 1
    requires n <= AttackFrames - 1
    ensures TimersAfterAttack(t, n)
  {
    if n > 0 {
      AttackRunsOut(t, n - 1);
    }
  }

  predicate TimersAfterAttack(t: Timers, n: nat)
    requires n <= AttackFrames - 1
  {
    var r := TicksAfter(t, n);
    && r.attackTimer == AttackFrames - 1 - n
    && (r.attacking <==> n < AttackFrames - 1)
    && (r.attackTimer >= HitboxFrom <==> n <= AttackFrames - 1 - HitboxFrom)
  }

  /**
   * Health after maximum health changes from `oldMax` to `newMax`,
   * keeping the fraction of health left, rounded down. This is what the
   * stats recalculation means to do; `HealthAsWritten` is what it does.
   */
  function HealthAfterRecalc(health: real, oldMax: real, newMax: real): real
    requires oldMax > 0.0
  {
    Stats.Floor(newMax * (health / oldMax))
  }

  /** The rescaled health stays within `[0, newMax]` when it was within `[0, oldMax]`. */
  lemma ScaleBounds(health: real, oldMax: real, newMax: real)
    requires oldMax > 0.0 && newMax >= 0.0
    ensures health <= oldMax ==> HealthAfterRecalc(health, oldMax, newMax) <= newMax
    ensures 0.0 <= health ==> 0.0 <= HealthAfterRecalc(health, oldMax, newMax)
  {
    var q := health / oldMax;
    FractionBounds(health, oldMax);
    ScaledFloorBounds(newMax, q);
    assert HealthAfterRecalc(health, oldMax, newMax) == Stats.Floor(newMax * (health / oldMax));
  }

  lemma ScaledFloorBounds(m: real, f: real)
    requires m >= 0.0
    ensures f <= 1.0 ==> Stats.Floor(m * f) <= m
    ensures 0.0 <= f ==> 0.0 <= Stats.Floor(m * f)
  {
    ProductBounds(m, f);
    if f <= 1.0 {
      Stats.FloorMono(m * f, m);
    }
    if 0.0 <= f {
      Stats.FloorMono(0.0, m * f);
      assert Stats.Floor(0.0) == 0.0;
    }
  }

  lemma ProductBounds(m: real, f: real)
    requires m >= 0.0
    ensures f <= 1.0 ==> m * f <= m
    ensures 0.0 <= f ==> 0.0 <= m * f
  {
    if f <= 1.0 {
      Stats.MulMono(m, f, 1.0);
    }
    if 0.0 <= f {
      Stats.MulMono(m, 0.0, f);
    }
  }

  lemma FractionBounds(h: real, m: real)
    requires m > 0.0
    ensures h <= m ==> h / m <= 1.0
    ensures 0.0 <= h ==> 0.0 <= h / m
  {
    var q := h / m;
    assert q * m == h;
    if q > 1.0 {
      assert q * m - m == (q - 1.0) * m;
      Stats.MulMono(m, 0.0, q - 1.0);
      assert (q - 1.0) * m > 0.0 by {
        assert (q - 1.0) * m != 0.0;
      }
    }
    if q < 0.0 {
      Stats.MulMono(m, q, 0.0);
      assert q * m != 0.0 || h == 0.0;
    }
  }

  /** A player at full health stays at full health when the maximum is recalculated. */
  lemma FullHealthStaysFull(oldMax: real, newMax: real)
    requires oldMax > 0.0 && newMax == newMax.Floor as real
    ensures HealthAfterRecalc(oldMax, oldMax, newMax) == newMax
  {
    assert oldMax / oldMax == 1.0;
    assert newMax * (oldMax / oldMax) == newMax;
  }

  /** The health rescaling as the stats recalculation writes it: the fraction is taken against the new maximum. */
  function HealthAsWritten(health: real, newMax: real): (r: real)
    requires newMax > 0.0
    ensures r == Stats.Floor(health)
  {
    assert newMax * (health / newMax) == health;
    Stats.Floor(newMax * (health / newMax))
  }

  /**
   * With iron armour at level 1 the maximum rises from 100 to 125; the
   * written rescaling leaves a fully healthy player at 100 (80%), where
   * keeping the fraction gives 125.
   */
  lemma IronArmorLosesHealthFraction()
    ensures HealthCap(Iron, 1) == 125.0
    ensures HealthAsWritten(100.0, HealthCap(Iron, 1)) == 100.0
    ensures HealthAfterRecalc(100.0, 100.0, HealthCap(Iron, 1)) == 125.0
  {
    assert Stats.Floor(125.0) == 125.0;
    FullHealthStaysFull(100.0, 125.0);
  }

  /** Maximum health for an armour tier and a level: 100, scaled by the tier and 5% per level above the first, rounded down. */
  function HealthCap(armor: Tier, level: int): (r: real)
    requires level >= 1
    ensures r >= Stats.BaseHealth
  {
    var bonus := 1.0 + (level - 1) as real * 0.05;
    Stats.MulMono(Stats.BaseHealth, 1.0, Multiplier(armor));
    Stats.MulMono(Stats.BaseHealth * Multiplier(armor), 1.0, bonus);
    Stats.MulMono(Stats.BaseHealth * Multiplier(armor) * bonus, 1.0, 1.0);
    Stats.FloorMono(Stats.BaseHealth, Stats.BaseHealth * Multiplier(armor) * bonus * 1.0);
    assert Stats.Floor(Stats.BaseHealth) == Stats.BaseHealth;
    Stats.ScaledStat(Stats.BaseHealth, Multiplier(armor), bonus, 1.0)
  }

  /** A better armour tier never lowers the maximum health. */
  lemma HealthCapMono(a: Tier, b: Tier, level: int)
    requires level >= 1 && Rank(a) <= Rank(b)
    ensures HealthCap(a, level) <= HealthCap(b, level)
  {
    var bonus := 1.0 + (level - 1) as real * 0.05;
    MultiplierFollowsRank(b, a);
    Stats.MulMono(Stats.BaseHealth, Multiplier(a), Multiplier(b));
    Stats.MulMono(bonus, Stats.BaseHealth * Multiplier(a), Stats.BaseHealth * Multiplier(b));
    Stats.FloorMono(Stats.BaseHealth * Multiplier(a) * bonus * 1.0, Stats.BaseHealth * Multiplier(b) * bonus * 1.0);
  }

  /** Damage for a sword tier and a level: 15, scaled by the tier and 10% per level above the first, rounded down. */
  function DamageFor(sword: Tier, level: int): real {
    Stats.ScaledStat(Stats.BaseDamage, Multiplier(sword), 1.0 + (level - 1) as real * 0.1, 1.0)
  }

  /** Defense from the helmet alone: five times its tier, rounded down. */
  function DefenseFor(helmet: Tier): real {
    Stats.Floor(5.0 * Multiplier(helmet))
  }

  /** Speed from the boots alone: 4 times 0.9 plus a fifth of their tier. */
  function SpeedFor(boots: Tier): real {
    Stats.BaseSpeed * (0.9 + Multiplier(boots) * 0.2)
  }

  /**
   * The player's own stats are those of the stats record with no skill
   * modifiers applied: equal damage, health, defense and speed for any
   * gear and level.
   */
  lemma StatsAgreeWithoutSkills(gear: Gear, level: int)
    requires level >= 1
    ensures Stats.HasRecalcKeys(Stats.ModifierDefaults)
    ensures var s := Stats.Recalculated(Stats.ModifierDefaults, gear, level);
      && s.damage == DamageFor(gear.sword, level) && s.maxHealth == HealthCap(gear.armor, level)
      && s.defense == DefenseFor(gear.helmet) && s.speed == SpeedFor(gear.boots)
  {
    Stats.DefaultsRecalculate();
    var m := Stats.ModifierDefaults;
    assert m["healthMult"].n == 1.0 && m["damageMult"].n == 1.0;
    assert m["speedMult"].n == 1.0 && m["defenseMult"].n == 1.0;
    assert Stats.BaseDefense + 5.0 * Multiplier(gear.helmet) * 1.0 == 5.0 * Multiplier(gear.helmet);
  }

  /** The health, maximum health, damage, defense and speed a player fights with. */
  datatype Vitals = Vitals(health: real, maxHealth: real, damage: real, defense: real, speed: real)

  /** The two character looks, chosen by player number. */
  datatype Kind = Knight | Robot

  class Player {
    const playerNum: int
    const kind: Kind
    var x: real
    var y: real
    var speed: real
    var maxHealth: real
    var health: real
    var damage: real
    var defense: real
    var critChance: real
    var critMultiplier: real
    var facing: int
    var attacking: bool
    var attackTimer: int
    var attackCooldown: int
    var invincible: bool
    var invincibleTimer: int
    var knockbackX: real
    var knockbackY: real
    var velocityX: real
    var velocityY: real
    var isGrounded: bool
    var groundY: real
    var animFrame: int
    var animTimer: int
    var walkCycle: real
    var equipment: Gear
    var exp: real
    var level: int
    var expToNextLevel: int
    var gold: real

    function BodyOf(): Body
      reads this
    {
      Body(x, y, velocityX, velocityY, isGrounded, facing, walkCycle, knockbackX)
    }

    function TimersOf(): Timers
      reads this
    {
      Timers(attacking, attackTimer, attackCooldown, invincible, invincibleTimer, animTimer, animFrame)
    }

    function VitalsOf(): Vitals
      reads this
    {
      Vitals(health, maxHealth, damage, defense, speed)
    }

    /** Everything `Valid` asks except the health bound and the link of maximum health to the gear. */
    ghost predicate Sound()
      reads this
    {
      && level >= 1 && expToNextLevel >= FirstThreshold
      && maxHealth >= Stats.BaseHealth
      && (facing == 1 || facing == -1)
      && TimersOk(TimersOf())
    }

    /** Health stays within the maximum, and the maximum is the one the armour and the level give. */
    ghost predicate Valid()
      reads this
    {
      && Sound() && health <= maxHealth
      && maxHealth == HealthCap(equipment.armor, level)
    }

    /** A new level-1 player with basic gear and full health; player 1 is the knight, any other the robot. */
    constructor(playerNum: int, x: real, y: real)
      ensures Valid() && this.playerNum == playerNum
      ensures kind == (if playerNum == 1 then Knight else Robot)
      ensures BodyOf() == Body(x, y, 0.0, 0.0, true, 1, 0.0, 0.0) && knockbackY == 0.0
      ensures TimersOf() == Timers(false, 0, 0, false, 0, 0, 0)
      ensures groundY == y + PlayerHeight
      ensures speed == Stats.BaseSpeed && maxHealth == 100.0 && health == 100.0
      ensures damage == Stats.BaseDamage && defense == 0.0
      ensures critChance == Stats.BaseCritChance && critMultiplier == Stats.BaseCritMultiplier
      ensures equipment == StarterGear
      ensures exp == 0.0 && level == 1 && expToNextLevel == 100 && gold == 0.0
    {
      this.playerNum := playerNum;
      kind := if playerNum == 1 then Knight else Robot;
      this.x := x;
      this.y := y;
      speed := Stats.BaseSpeed;
      maxHealth := 100.0;
      health := 100.0;
      damage := Stats.BaseDamage;
      defense := 0.0;
      critChance := Stats.BaseCritChance;
      critMultiplier := Stats.BaseCritMultiplier;
      facing := 1;
      attacking := false;
      attackTimer := 0;
      attackCooldown := 0;
      invincible := false;
      invincibleTimer := 0;
      knockbackX := 0.0;
      knockbackY := 0.0;
      velocityX := 0.0;
      velocityY := 0.0;
      isGrounded := true;
      groundY := y + PlayerHeight;
      animFrame := 0;
      animTimer := 0;
      walkCycle := 0.0;
      equipment := StarterGear;
      exp := 0.0;
      level := 1;
      expToNextLevel := 100;
      gold := 0.0;
    }

    /**
     * Rederive damage, maximum health, defense and speed from the gear
     * and the level. The health fraction is taken against the maximum
     * just assigned, so health only rounds down and keeps its absolute
     * value; it stays within the new maximum when that did not shrink.
     */
    method CalculateStats()
      requires Sound()
      modifies this`damage, this`maxHealth, this`defense, this`speed, this`health
      ensures Sound()
      ensures damage == DamageFor(equipment.sword, level) && maxHealth == HealthCap(equipment.armor, level)
      ensures defense == DefenseFor(equipment.helmet) && speed == SpeedFor(equipment.boots)
      ensures health == HealthAsWritten(old(health), maxHealth)
      ensures old(health) <= maxHealth ==> Valid()
    {
      var swordMult := Multiplier(equipment.sword);
      var helmetMult := Multiplier(equipment.helmet);
      var bootsMult := Multiplier(equipment.boots);
      damage := Stats.ScaledStat(Stats.BaseDamage, swordMult, 1.0 + (level - 1) as real * 0.1, 1.0);
      maxHealth := HealthCap(equipment.armor, level);
      defense := Stats.Floor(5.0 * helmetMult);
      speed := Stats.BaseSpeed * (0.9 + bootsMult * 0.2);
      health := HealthAsWritten(health, maxHealth);
    }

    /**
     * Bank experience; every threshold it covers is a level-up that
     * recalculates the stats and heals fully.
     */
    method AddExp(amount: real)
      requires Valid()
      modifies this`exp, this`level, this`expToNextLevel, this`damage, this`maxHealth,
               this`defense, this`speed, this`health
      ensures Valid()
      ensures var r := LevelUps(old(exp) + amount, old(expToNextLevel));
        exp == r.exp && expToNextLevel == r.threshold && level == old(level) + r.gained
      ensures level > old(level) ==> health == maxHealth && damage == DamageFor(equipment.sword, level)
      ensures level == old(level) ==> health == old(health) && maxHealth == old(maxHealth)
    {
      exp := exp + amount;
      ghost var target := LevelUps(exp, expToNextLevel);
      while exp >= expToNextLevel as real
        invariant Valid() && level >= old(level)
        invariant LevelUps(exp, expToNextLevel).exp == target.exp
        invariant LevelUps(exp, expToNextLevel).threshold == target.threshold
        invariant LevelUps(exp, expToNextLevel).gained + (level - old(level)) == target.gained
        invariant level > old(level) ==> health == maxHealth && damage == DamageFor(equipment.sword, level)
        invariant level == old(level) ==> health == old(health) && maxHealth == old(maxHealth)
        decreases exp.Floor
      {
        LevelUp();
      }
    }

    /** One level-up: pay the threshold, raise it, recalculate and heal fully. */
    method LevelUp()
      requires Valid() && exp >= expToNextLevel as real
      modifies this`exp, this`level, this`expToNextLevel, this`damage, this`maxHealth,
               this`defense, this`speed, this`health
      ensures Valid()
      ensures exp == old(exp) - old(expToNextLevel) as real && level == old(level) + 1
      ensures expToNextLevel == NextThreshold(old(expToNextLevel))
      ensures health == maxHealth && damage == DamageFor(equipment.sword, level)
    {
      exp := exp - expToNextLevel as real;
      level := level + 1;
      expToNextLevel := NextThreshold(expToNextLevel);
      CalculateStats();
      health := maxHealth;
    }

    method AddGold(amount: real)
      modifies this`gold
      ensures gold == old(gold) + amount
    {
      gold := gold + amount;
    }

    /**
     * Take a hit. While invincible nothing happens and 0 is returned;
     * otherwise at least one point of damage is dealt after defense,
     * health never drops below 0, and the player is pushed away and
     * invincible for 60 frames.
     */
    method TakeDamage(amount: real, knockbackDir: real) returns (dealt: real)
      requires Valid()
      modifies this`health, this`invincible, this`invincibleTimer, this`knockbackX
      ensures Valid()
      ensures old(invincible) ==>
        && dealt == 0.0 && health == old(health) && invincible
        && invincibleTimer == old(invincibleTimer) && knockbackX == old(knockbackX)
      ensures !old(invincible) ==>
        && dealt >= 1.0
        && dealt == (if amount - defense > 1.0 then amount - defense else 1.0)
        && health == (if old(health) - dealt <= 0.0 then 0.0 else old(health) - dealt)
        && invincible && invincibleTimer == InvincibleFrames
        && knockbackX == knockbackDir * KnockbackSpeed
    {
      if invincible {
        return 0.0;
      }
      dealt := if amount - defense > 1.0 then amount - defense else 1.0;
      health := health - dealt;
      invincible := true;
      invincibleTimer := InvincibleFrames;
      knockbackX := knockbackDir * KnockbackSpeed;
      if health <= 0.0 {
        health := 0.0;
      }
    }

    /** Heal by `amount`, never past the maximum. */
    method Heal(amount: real)
      requires Valid()
      modifies this`health
      ensures Valid()
      ensures health == (if old(health) + amount <= maxHealth then old(health) + amount else maxHealth)
      ensures amount >= 0.0 ==> old(health) <= health
    {
      health := if maxHealth <= health + amount then maxHealth else health + amount;
    }

    /** One frame: movement on the floor at `groundY`, then the counters. */
    method Update(c: Controls, groundY: real, m: Mechanics)
      requires Valid()
      modifies this`groundY, this`x, this`y, this`velocityX, this`velocityY, this`isGrounded,
               this`facing, this`walkCycle, this`knockbackX,
               this`attacking, this`attackTimer, this`attackCooldown, this`invincible,
               this`invincibleTimer, this`animTimer, this`animFrame
      ensures Valid()
      ensures this.groundY == groundY
      ensures BodyOf() == Move(old(BodyOf()), c, speed, groundY, m)
      ensures TimersOf() == Tick(old(TimersOf()), c.attack)
    {
      MoveBody(c, groundY, m);
      TickTimers(c.attack);
    }

    method MoveBody(c: Controls, groundY: real, m: Mechanics)
      modifies this`groundY, this`x, this`y, this`velocityX, this`velocityY, this`isGrounded,
               this`facing, this`walkCycle, this`knockbackX
      ensures BodyOf() == Move(old(BodyOf()), c, speed, groundY, m) && this.groundY == groundY
    {
      this.groundY := groundY;
      ApplyKnockback();
      SteerBody(c, m);
      FallBody(c.up, groundY);
      StrideBody(c.left || c.right);
      x := Max(0.0, Min(RightLimit, x));
    }

    method ApplyKnockback()
      modifies this`x, this`knockbackX
      ensures BodyOf() == Knock(old(BodyOf()))
    {
      if knockbackX != 0.0 {
        x := x + knockbackX;
        knockbackX := knockbackX * KnockbackDecay;
        if Abs(knockbackX) < 0.5 {
          knockbackX := 0.0;
        }
      }
    }

    method SteerBody(c: Controls, m: Mechanics)
      modifies this`x, this`velocityX, this`facing
      ensures BodyOf() == Steer(old(BodyOf()), c, speed, m)
    {
      var friction := Friction(m);
      var targetVelocityX := 0.0;
      if c.left {
        targetVelocityX := -speed;
        facing := -1;
      }
      if c.right {
        targetVelocityX := speed;
        facing := 1;
      }
      if m.slipperyFloor {
        velocityX := velocityX * friction + targetVelocityX * (1.0 - friction) * 0.5;
      } else {
        velocityX := targetVelocityX;
      }
      x := x + velocityX;
    }

    method FallBody(up: bool, groundY: real)
      modifies this`y, this`velocityY, this`isGrounded
      ensures BodyOf() == Fall(old(BodyOf()), up, groundY)
    {
      if up && isGrounded {
        velocityY := Stats.BaseJumpForce;
        isGrounded := false;
      }
      velocityY := velocityY + Gravity;
      y := y + velocityY;
      var groundLevel := groundY - PlayerHeight;
      if y >= groundLevel {
        y := groundLevel;
        velocityY := 0.0;
        isGrounded := true;
      }
    }

    method StrideBody(moving: bool)
      modifies this`walkCycle
      ensures BodyOf() == Stride(old(BodyOf()), moving)
    {
      if moving && isGrounded {
        walkCycle := walkCycle + WalkStep;
      } else if isGrounded {
        walkCycle := 0.0;
      }
    }

    method TickTimers(attackPressed: bool)
      modifies this`attacking, this`attackTimer, this`attackCooldown, this`invincible,
               this`invincibleTimer, this`animTimer, this`animFrame
      ensures TimersOf() == Tick(old(TimersOf()), attackPressed)
    {
      if attackPressed && attackCooldown <= 0 {
        attacking := true;
        attackTimer := AttackFrames;
        attackCooldown := AttackCooldownFrames;
      }
      if attacking {
        attackTimer := attackTimer - 1;
        if attackTimer <= 0 {
          attacking := false;
        }
      }
      if attackCooldown > 0 {
        attackCooldown := attackCooldown - 1;
      }
      if invincible {
        invincibleTimer := invincibleTimer - 1;
        if invincibleTimer <= 0 {
          invincible := false;
        }
      }
      animTimer := animTimer + 1;
      if animTimer >= FrameTicks {
        animTimer := 0;
        animFrame := (animFrame + 1) % FrameCount;
      }
    }

    /**
     * The area the current attack hits: none outside the first five
     * frames of an attack, otherwise a 50-wide strip of the player's
     * height against the side it faces.
     */
    function GetAttackHitbox(): (r: Option<Rect>)
      reads this
      ensures r.None? <==> !attacking || attackTimer < HitboxFrom
      ensures r.Some? ==> r.value.width == AttackWidth && r.value.height == PlayerHeight && r.value.y == y
      ensures r.Some? && facing == 1 ==> r.value.x == x + PlayerWidth
      ensures r.Some? && facing != 1 ==> r.value.x + AttackWidth == x
    {
      if !attacking || attackTimer < HitboxFrom then None
      else Some(Rect(if facing == 1 then x + PlayerWidth else x - AttackWidth, y, AttackWidth, PlayerHeight))
    }

    function Box(): Rect
      reads this
    {
      Rect(x, y, PlayerWidth, PlayerHeight)
    }

    /** Back to full health, no attack, no invincibility, no motion, on the ground; position, gear and progress are kept. */
    method Reset()
      requires Valid()
      modifies this`health, this`attacking, this`attackTimer, this`attackCooldown, this`invincible,
               this`invincibleTimer, this`knockbackX, this`knockbackY, this`velocityX,
               this`velocityY, this`isGrounded
      ensures Valid() && health == maxHealth
      ensures !attacking && attackTimer == 0 && attackCooldown == 0
      ensures !invincible && invincibleTimer == 0
      ensures knockbackX == 0.0 && knockbackY == 0.0 && velocityX == 0.0 && velocityY == 0.0
      ensures isGrounded
    {
      health := maxHealth;
      ClearTimers();
      Settle();
    }

    method ClearTimers()
      modifies this`attacking, this`attackTimer, this`attackCooldown, this`invincible, this`invincibleTimer
      ensures TimersOf() == Timers(false, 0, 0, false, 0, animTimer, animFrame)
    {
      attacking := false;
      attackTimer := 0;
      attackCooldown := 0;
      invincible := false;
      invincibleTimer := 0;
    }

    method Settle()
      modifies this`knockbackX, this`knockbackY, this`velocityX, this`velocityY, this`isGrounded
      ensures knockbackX == 0.0 && knockbackY == 0.0 && velocityX == 0.0 && velocityY == 0.0
      ensures isGrounded
    {
      knockbackX := 0.0;
      knockbackY := 0.0;
      velocityX := 0.0;
      velocityY := 0.0;
      isGrounded := true;
    }
  }

  /** The attack hitbox sits beside the attacker: it touches the player's box but never overlaps it. */
  lemma HitboxBesidePlayer(p: Player)
    requires p.GetAttackHitbox().Some?
    ensures !CheckCollision(p.GetAttackHitbox().value, p.Box())
  {
  }
}
