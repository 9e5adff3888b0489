/**
 * Enemies and the fireballs dragons breathe. An enemy's type fixes its
 * size, health, damage, speed, rewards and colour; every frame a living
 * enemy is pushed by its knockback, turns to and walks toward the
 * nearest living player, attacks when close and off cooldown, is kept on
 * the playfield and counts its timers down. A dead enemy only counts its
 * death animation. Random draws (gold, attack cooldown) are parameters,
 * and so is the flying enemies' hover offset, which the game takes from
 * a sine of the clock.
 */
module Enemies {
  import opened Wrappers
  import opened Utils
  import Equipment

  const Slime: string := "slime"
  const Goblin: string := "goblin"
  const Skeleton: string := "skeleton"
  const Orc: string := "orc"
  const Dragon: string := "dragon"
  const BossDragon: string := "boss_dragon"

  /** Frames a dead enemy stays in play while its death animation runs. */
  const DeathFrames: int := 30
  /** The factor a knockback keeps per frame, and the push a hit gives. */
  const RecoilDecay: real := 0.85
  const RecoilSpeed: real := 6.0
  /** Squared distances: an enemy walks while farther than 60 and attacks when nearer than 80. */
  const ChaseBeyond: real := 3600.0
  const StrikeWithin: real := 6400.0
  const StrikeFrames: int := 30
  const CooldownBase: int := 60
  /** Animation frames last 15 ticks and there are two of them. */
  const AnimTicks: int := 15
  /** Fireball speed, lifetime and how far past the playfield it may fly. */
  const FlameSpeed: real := 5.0
  const FlameLife: real := 120.0
  const FlameMargin: real := 50.0

  /** The fixed stats of one enemy type; gold is drawn from `[goldLo, goldHi]`. */
  datatype Profile = Profile(width: real, height: real, maxHealth: real, damage: real,
                             speed: real, exp: real, goldLo: int, goldHi: int,
                             baseColor: string, canFly: bool, isBoss: bool)

  /** The six known types. */
  predicate Known(t: string) {
    t == Slime || t == Goblin || t == Skeleton || t == Orc || t == Dragon || t == BossDragon
  }

  /**
   * The stats table. Exactly the six known types have an entry; every
   * entry fits on the playfield and has positive health and a gold
   * range, and exactly the two dragons fly, the boss dragon alone being
   * a boss.
   */
  function ProfileOf(t: string): (r: Option<Profile>)
    ensures r.Some? <==> Known(t)
    ensures r.Some? ==> 0.0 < r.value.width <= Equipment.CanvasWidth && r.value.maxHealth > 0.0
    ensures r.Some? ==> r.value.goldLo <= r.value.goldHi
    ensures r.Some? ==> (r.value.canFly <==> t == Dragon || t == BossDragon)
    ensures r.Some? ==> (r.value.isBoss <==> t == BossDragon)
  {
    if t == Slime then Some(Profile(30.0, 25.0, 30.0, 5.0, 1.0, 15.0, 5, 15, "#2ecc71", false, false))
    else if t == Goblin then Some(Profile(35.0, 45.0, 50.0, 10.0, 2.0, 25.0, 10, 25, "#27ae60", false, false))
    else if t == Skeleton then Some(Profile(35.0, 55.0, 70.0, 15.0, 1.5, 40.0, 20, 40, "#ecf0f1", false, false))
    else if t == Orc then Some(Profile(50.0, 65.0, 120.0, 20.0, 1.2, 60.0, 30, 60, "#1e8449", false, false))
    else if t == Dragon then Some(Profile(80.0, 70.0, 200.0, 25.0, 1.5, 100.0, 50, 100, "#c0392b", true, false))
    else if t == BossDragon then Some(Profile(140.0, 110.0, 500.0, 35.0, 1.0, 300.0, 200, 400, "#8e44ad", true, true))
    else None
  }

  /** The ice palette: the three greens become frosty blues and white. */
  const IceColors: map<string, string> :=
    map["#2ecc71" := "#87CEEB", "#27ae60" := "#5DADE2", "#1e8449" := "#F0F8FF"]

  /**
   * An enemy's colour on a level: recoloured from the ice palette in the
   * ice cave, unchanged everywhere else and for colours the palette
   * lacks.
   */
  function ColorForLevel(background: string, baseColor: string): (r: string)
    ensures background != "iceCave" || baseColor !in IceColors ==> r == baseColor
    ensures background == "iceCave" && baseColor in IceColors ==> r == IceColors[baseColor]
  {
    if background == "iceCave" && baseColor in IceColors then IceColors[baseColor] else baseColor
  }

  /** Only the slime, goblin and orc change colour in the ice cave; the others keep theirs everywhere. */
  lemma IceRecoloursOnlyGreens(t: string, background: string)
    requires Known(t)
    ensures ColorForLevel(background, ProfileOf(t).value.baseColor) != ProfileOf(t).value.baseColor
        <==> background == "iceCave" && (t == Slime || t == Goblin || t == Orc)
  {
  }

  // ----- knockback -----

  /** One frame of knockback decay: the push keeps 85% and stops below half a pixel. */
  function Recoil(k: real): (r: real)
    ensures r == 0.0 || (0.5 <= Abs(r) && Abs(r) == RecoilDecay * Abs(k))
    ensures k == 0.0 ==> r == 0.0
  {
    if k == 0.0 then 0.0
    else
      var d := k * RecoilDecay;
      if Abs(d) < 0.5 then 0.0 else d
  }

  function RecoilAfter(k: real, n: nat): real
  {
    if n == 0 then k else Recoil(RecoilAfter(k, n - 1))
  }

  /** `0.85` to the power `n`. */
  function RecoilPow(n: nat): (r: real)
    ensures 0.0 < r <= 1.0
  {
    if n == 0 then 1.0 else RecoilDecay * RecoilPow(n - 1)
  }

  /** After `n` frames a knockback is gone or still `0.85^n` of its start. */
  lemma {:induction false} RecoilShrinks(k: real, n: nat)
    ensures RecoilAfter(k, n) == 0.0 || Abs(RecoilAfter(k, n)) == Abs(k) * RecoilPow(n)
  {
    if n > 0 {
      RecoilShrinks(k, n - 1);
      assert Abs(k) * RecoilPow(n) == RecoilDecay * (Abs(k) * RecoilPow(n - 1));
    }
  }

  /** A hit's push (at most six pixels a frame) is over within sixteen frames. */
  lemma RecoilSettles(k: real)
    requires Abs(k) <= RecoilSpeed
    ensures RecoilAfter(k, 16) == 0.0
  {
    RecoilShrinks(k, 15);
    RecoilPowFifteen();
    var x := RecoilAfter(k, 15);
    if x != 0.0 {
      SmallShare(Abs(k), RecoilPow(15));
    }
    assert Recoil(x) == RecoilAfter(k, 16);
  }

  /** `0.85^15` is below `0.09`. */
  lemma RecoilPowFifteen()
    ensures RecoilPow(15) < 0.09
  {
    assert RecoilPow(1) == 0.85;
    assert RecoilPow(2) == 0.85 * RecoilPow(1);
    assert RecoilPow(3) == 0.85 * RecoilPow(2);
    assert RecoilPow(4) == 0.85 * RecoilPow(3);
    assert RecoilPow(5) == 0.85 * RecoilPow(4);
    assert RecoilPow(6) == 0.85 * RecoilPow(5);
    assert RecoilPow(7) == 0.85 * RecoilPow(6);
    assert RecoilPow(8) == 0.85 * RecoilPow(7);
    assert RecoilPow(9) == 0.85 * RecoilPow(8);
    assert RecoilPow(10) == 0.85 * RecoilPow(9);
    assert RecoilPow(11) == 0.85 * RecoilPow(10);
    assert RecoilPow(12) == 0.85 * RecoilPow(11);
    assert RecoilPow(13) == 0.85 * RecoilPow(12);
    assert RecoilPow(14) == 0.85 * RecoilPow(13);
  }

  /** At most six pixels times a share below 0.09 is below 0.54. */
  lemma SmallShare(a: real, p: real)
    requires 0.0 <= a <= 6.0 && 0.0 < p < 0.09
    ensures a * p < 0.54
  {
    assert a * p <= 6.0 * p;
  }

  // ----- choosing a target -----

  /** What an enemy sees of a player: where it stands and how much health it has. */
  datatype Target = Target(x: real, y: real, health: real)

  /**
   * The squared distance between two points. It orders targets exactly
   * as the distance does, so the nearest target and the 60 and 80 pixel
   * thresholds are decided without a square root.
   */
  function DistSq(px: real, py: real, qx: real, qy: real): (d: real)
    ensures d >= 0.0
  {
    var dx := px - qx;
    var dy := py - qy;
    NonNegativeProduct(Abs(dx), Abs(dx));
    NonNegativeProduct(Abs(dy), Abs(dy));
    assert dx * dx == Abs(dx) * Abs(dx) && dy * dy == Abs(dy) * Abs(dy);
    dx * dx + dy * dy
  }

  /** The chosen target: its index and its squared distance. */
  datatype Pick = Pick(index: nat, dist: real)

  /**
   * The nearest living target among the first `n`, scanning in order and
   * replacing the choice only on a strictly smaller distance.
   */
  function NearestIn(ts: seq<Target>, px: real, py: real, n: nat): (r: Option<Pick>)
    requires n <= |ts|
    ensures r.Some? ==> r.value.index < n
  {
    if n == 0 then None
    else
      var prev := NearestIn(ts, px, py, n - 1);
      var t := ts[n - 1];
      var d := DistSq(px, py, t.x, t.y);
      if t.health <= 0.0 then prev
      else if prev.None? || d < prev.value.dist then Some(Pick(n - 1, d))
      else prev
  }

  /**
   * The scan finds nothing exactly when no target is alive; otherwise it
   * picks a living target at the smallest distance, and the first such
   * one.
   */
  lemma {:induction false} NearestIsClosest(ts: seq<Target>, px: real, py: real, n: nat)
    requires n <= |ts|
    ensures NearestIn(ts, px, py, n).None? <==> forall j :: 0 <= j < n ==> ts[j].health <= 0.0
    ensures NearestIn(ts, px, py, n).Some? ==>
      var p := NearestIn(ts, px, py, n).value;
      && ts[p.index].health > 0.0
      && p.dist == DistSq(px, py, ts[p.index].x, ts[p.index].y)
      && (forall j :: 0 <= j < n && ts[j].health > 0.0 ==> p.dist <= DistSq(px, py, ts[j].x, ts[j].y))
      && (forall j :: 0 <= j < p.index && ts[j].health > 0.0 ==> p.dist < DistSq(px, py, ts[j].x, ts[j].y))
  {
    if n > 0 {
      NearestIsClosest(ts, px, py, n - 1);
    }
  }

  /** The scan as the game runs it: one pass over the players, keeping the best so far. */
  method FindNearest(ts: seq<Target>, px: real, py: real) returns (pick: Option<Pick>)
    ensures pick == NearestIn(ts, px, py, |ts|)
  {
    pick := None;
    var i := 0;
    while i < |ts|
      invariant 0 <= i <= |ts|
      invariant pick == NearestIn(ts, px, py, i)
    {
      var t := ts[i];
      if t.health > 0.0 {
        var d := DistSq(px, py, t.x, t.y);
        if pick.None? || d < pick.value.dist {
          pick := Some(Pick(i, d));
        }
      }
      i := i + 1;
    }
  }

  // ----- one frame of a living enemy -----

  /** The part of an enemy one living frame changes. */
  datatype Foe = Foe(x: real, y: real, facing: int, attackTimer: int, attackCooldown: int,
                     animFrame: int, animTimer: int, knockbackX: real)

  /** Timers never negative, the animation counters in range, facing left or right. */
  predicate FoeOk(f: Foe) {
    && f.attackTimer >= 0 && f.attackCooldown >= 0
    && 0 <= f.animTimer < AnimTicks && 0 <= f.animFrame < 2
    && (f.facing == 1 || f.facing == -1)
  }

  /** The knockback moves the enemy, then decays. */
  function Shove(f: Foe): Foe {
    if f.knockbackX != 0.0 then f.(x := f.x + f.knockbackX, knockbackX := Recoil(f.knockbackX)) else f
  }

  /** Whether the chosen target is close enough to strike and the cooldown is over. */
  predicate Strikes(f: Foe, pick: Option<Pick>) {
    pick.Some? && pick.value.dist < StrikeWithin && f.attackCooldown <= 0
  }

  /**
   * Turn toward the target, walk toward it unless already within 60
   * pixels, and start an attack when it is within 80 pixels and the
   * cooldown is over; `u` draws the extra cooldown in `[0, 30]`.
   */
  function Chase(f: Foe, ts: seq<Target>, pick: Option<Pick>, speed: real, u: real): (r: Foe)
    requires pick.Some? ==> pick.value.index < |ts|
    ensures pick.None? ==> r == f
    ensures r.y == f.y && r.animFrame == f.animFrame && r.animTimer == f.animTimer
    ensures r.knockbackX == f.knockbackX
    ensures Strikes(f, pick) ==> r.attackTimer == StrikeFrames && r.attackCooldown - CooldownBase == RandomInt(u, 0, 30)
    ensures !Strikes(f, pick) ==> r.attackTimer == f.attackTimer && r.attackCooldown == f.attackCooldown
  {
    match pick
    case None => f
    case Some(p) =>
      var facing := if ts[p.index].x < f.x then -1 else 1;
      var x := if p.dist > ChaseBeyond then f.x + facing as real * speed else f.x;
      if p.dist < StrikeWithin && f.attackCooldown <= 0 then
        f.(facing := facing, x := x, attackTimer := StrikeFrames,
           attackCooldown := CooldownBase + RandomInt(u, 0, 30))
      else
        f.(facing := facing, x := x)
  }

  /**
   * Keep the enemy on the playfield; walkers stand on the ground, fliers
   * hover 30 pixels above it, offset by `hover`.
   */
  function Settle(f: Foe, width: real, height: real, canFly: bool, groundY: real, hover: real): (r: Foe)
    ensures width <= Equipment.CanvasWidth ==> 0.0 <= r.x <= Equipment.CanvasWidth - width
    ensures f.x < 0.0 ==> r.x == 0.0
    ensures !canFly ==> r.y == groundY - height
  {
    f.(x := Max(0.0, Min(Equipment.CanvasWidth - width, f.x)),
       y := if !canFly then groundY - height else groundY - height - 30.0 + hover)
  }

  /** A timer that counts down while positive. */
  function CountDown(t: int): (r: int)
    ensures t > 0 ==> r == t - 1
    ensures t <= 0 ==> r == t
  {
    if t > 0 then t - 1 else t
  }

  /** The animation counters: a frame lasts 15 ticks, then the other of the two frames shows. */
  function AnimStep(timer: int, frame: int): (int, int)
  {
    if timer + 1 >= AnimTicks then (0, (frame + 1) % 2) else (timer + 1, frame)
  }

  function TickFoe(f: Foe): Foe {
    var (timer, frame) := AnimStep(f.animTimer, f.animFrame);
    f.(attackTimer := CountDown(f.attackTimer), attackCooldown := CountDown(f.attackCooldown),
       animTimer := timer, animFrame := frame)
  }

  /**
   * One frame of a living enemy. The timers and animation stay in range
   * given a draw in `[0, 1)`; on a playfield wide enough for the enemy it
   * ends inside it; walkers end on the ground; an attack starts exactly
   * when the nearest living target is within 80 pixels and the cooldown
   * is over, and then leaves 29 frames of attack and 59 to 89 of
   * cooldown.
   */
  function FoeStep(f: Foe, ts: seq<Target>, speed: real, width: real, height: real,
                   canFly: bool, groundY: real, u: real, hover: real): (r: Foe)
    ensures 0.0 <= u < 1.0 && FoeOk(f) ==> FoeOk(r)
    ensures width <= Equipment.CanvasWidth ==> 0.0 <= r.x <= Equipment.CanvasWidth - width
    ensures !canFly ==> r.y == groundY - height
    ensures r.knockbackX == Recoil(f.knockbackX)
    ensures var s := Shove(f);
      Strikes(s, NearestIn(ts, s.x, s.y, |ts|)) && 0.0 <= u < 1.0 ==>
        r.attackTimer == StrikeFrames - 1 && 59 <= r.attackCooldown <= 89
    ensures var s := Shove(f);
      !Strikes(s, NearestIn(ts, s.x, s.y, |ts|)) ==>
        r.attackTimer == CountDown(f.attackTimer) && r.attackCooldown == CountDown(f.attackCooldown)
  {
    var s := Shove(f);
    var a := Chase(s, ts, NearestIn(ts, s.x, s.y, |ts|), speed, u);
    TickFoe(Settle(a, width, height, canFly, groundY, hover))
  }

  /**
   * Where a dragon's fireball starts when it attacks the target `pick`:
   * at the front of the body, half-way up, flying level the way the
   * dragon now faces.
   */
  function Flame(f: Foe, ts: seq<Target>, pick: Option<Pick>, speed: real, width: real,
                 height: real, u: real): (s: Shot)
    requires pick.Some? ==> pick.value.index < |ts|
    ensures s.vy == 0.0 && s.life == FlameLife && s.y == f.y + height / 2.0
    ensures s.vx == FlameSpeed || s.vx == -FlameSpeed
  {
    var a := Chase(f, ts, pick, speed, u);
    var facing := if a.facing == 1 then 1 else -1;
    Shot(a.x + (if facing == 1 then width else 0.0), f.y + height / 2.0,
         facing as real * FlameSpeed, 0.0, FlameLife)
  }

  /** The fireball of a whole frame: aimed after the knockback has moved the enemy. */
  function FlameFrom(f: Foe, ts: seq<Target>, speed: real, width: real, height: real, u: real): Shot
  {
    var s := Shove(f);
    Flame(s, ts, NearestIn(ts, s.x, s.y, |ts|), speed, width, height, u)
  }

  /** The animation counters after `n` ticks from a fresh start. */
  function AnimAfter(n: nat): (int, int)
  {
    if n == 0 then (0, 0) else AnimStep(AnimAfter(n - 1).0, AnimAfter(n - 1).1)
  }

  /** From a fresh start the frame flips every 15 ticks: tick `n` shows frame `(n / 15) mod 2`. */
  lemma {:induction false} AnimAlternates(n: nat)
    ensures AnimAfter(n) == (n % AnimTicks, (n / AnimTicks) % 2)
  {
    if n > 0 {
      AnimAlternates(n - 1);
      var m := n - 1;
      if m % AnimTicks + 1 >= AnimTicks {
        assert n % AnimTicks == 0 && n / AnimTicks == m / AnimTicks + 1;
      } else {
        assert n % AnimTicks == m % AnimTicks + 1 && n / AnimTicks == m / AnimTicks;
      }
    }
  }

  // ----- fireballs -----

  /** The moving part of a fireball. */
  datatype Shot = Shot(x: real, y: real, vx: real, vy: real, life: real)

  function ShotStep(s: Shot): (r: Shot)
    ensures r.life == s.life - 1.0 && r.vx == s.vx && r.vy == s.vy
  {
    Shot(s.x + s.vx, s.y + s.vy, s.vx, s.vy, s.life - 1.0)
  }

  /** A fireball stays in play while it has life and is within 50 pixels of the playfield. */
  predicate InFlight(s: Shot) {
    s.life > 0.0 && -FlameMargin < s.x < Equipment.CanvasWidth + FlameMargin
  }

  function ShotAfter(s: Shot, n: nat): Shot
  {
    if n == 0 then s else ShotStep(ShotAfter(s, n - 1))
  }

  /**
   * After `n` updates a fireball has flown `n` steps in a straight line
   * and lost `n` frames of life, so one fired with the full 120 frames is
   * gone by its 120th update at the latest.
   */
  lemma {:induction false} ShotFlies(s: Shot, n: nat)
    ensures ShotAfter(s, n) == Shot(s.x + s.vx * n as real, s.y + s.vy * n as real, s.vx, s.vy,
                                    s.life - n as real)
    ensures s.life <= FlameLife && n >= 120 ==> !InFlight(ShotAfter(s, n))
  {
    if n > 0 {
      ShotFlies(s, n - 1);
      ScaleSucc(s.vx, n - 1);
      ScaleSucc(s.vy, n - 1);
    }
  }

  lemma ScaleSucc(v: real, k: nat)
    ensures v * k as real + v == v * (k + 1) as real
  {
  }

  class Fireball {
    var x: real
    var y: real
    var vx: real
    var vy: real
    var width: real
    var height: real
    var damage: real
    var life: real

    function ShotOf(): Shot
      reads this
    {
      Shot(x, y, vx, vy, life)
    }

    /** A fireball flies level, is 25 by 20 and lives 120 frames. */
    constructor(x: real, y: real, vx: real, damage: real)
      ensures ShotOf() == Shot(x, y, vx, 0.0, FlameLife)
      ensures width == 25.0 && height == 20.0 && this.damage == damage
    {
      this.x := x;
      this.y := y;
      this.vx := vx;
      vy := 0.0;
      width := 25.0;
      height := 20.0;
      this.damage := damage;
      life := FlameLife;
    }

    /** One frame of flight; reports whether the fireball is still in play. */
    method Update() returns (alive: bool)
      modifies this`x, this`y, this`life
      ensures ShotOf() == ShotStep(old(ShotOf()))
      ensures alive <==> InFlight(ShotOf())
    {
      x := x + vx;
      y := y + vy;
      life := life - 1.0;
      alive := life > 0.0 && x > -FlameMargin && x < Equipment.CanvasWidth + FlameMargin;
    }
  }

  // ----- the enemy -----

  class Enemy {
    var x: real
    var y: real
    const kind: string
    var facing: int
    var attackTimer: int
    var attackCooldown: int
    var animFrame: int
    var animTimer: int
    var knockbackX: real
    var dead: bool
    var deathTimer: int
    var width: real
    var height: real
    var maxHealth: real
    var health: real
    var damage: real
    var speed: real
    var exp: real
    var gold: int
    var color: string
    var baseColor: string
    var canFly: bool
    var isBoss: bool
    const levelBackground: string

    function FoeOf(): Foe
      reads this
    {
      Foe(x, y, facing, attackTimer, attackCooldown, animFrame, animTimer, knockbackX)
    }

    ghost predicate Valid()
      reads this
    {
      && FoeOk(FoeOf()) && deathTimer >= 0 && health >= 0.0
      && 0.0 <= width <= Equipment.CanvasWidth
    }

    /** Still in the enemy list after this frame: alive, or dead for fewer than 30 frames. */
    predicate Lingering()
      reads this
    {
      !dead || deathTimer < DeathFrames
    }

    /**
     * A new enemy faces left with every timer at zero and the stats of its
     * type at full health; an unknown type leaves every stat at zero.
     * `u` is the draw for its gold.
     */
    constructor(x: real, y: real, kind: string, levelBackground: string, u: real)
      requires 0.0 <= u < 1.0
      ensures Valid() && !dead && deathTimer == 0
      ensures FoeOf() == Foe(x, y, -1, 0, 0, 0, 0, 0.0)
      ensures this.kind == kind && this.levelBackground == levelBackground
      ensures StatsFor(kind, levelBackground, u)
    {
      this.x := x;
      this.y := y;
      this.kind := kind;
      this.levelBackground := levelBackground;
      facing := -1;
      attackTimer := 0;
      attackCooldown := 0;
      animFrame := 0;
      animTimer := 0;
      knockbackX := 0.0;
      dead := false;
      deathTimer := 0;
      width := 0.0;
      height := 0.0;
      maxHealth := 0.0;
      health := 0.0;
      damage := 0.0;
      speed := 0.0;
      exp := 0.0;
      gold := 0;
      color := "";
      baseColor := "";
      canFly := false;
      isBoss := false;
      new;
      SetupStats(u);
    }

    /** The stats a fresh enemy of this type has: the table's entry at full health, or all zero. */
    ghost predicate StatsFor(t: string, background: string, u: real)
      reads this
    {
      match ProfileOf(t)
      case Some(p) =>
        && width == p.width && height == p.height && maxHealth == p.maxHealth
        && health == p.maxHealth && damage == p.damage && speed == p.speed && exp == p.exp
        && gold == RandomInt(u, p.goldLo, p.goldHi) && baseColor == p.baseColor
        && color == ColorForLevel(background, p.baseColor) && canFly == p.canFly && isBoss == p.isBoss
      case None =>
        && width == 0.0 && height == 0.0 && maxHealth == 0.0 && health == 0.0 && damage == 0.0
        && speed == 0.0 && exp == 0.0 && gold == 0 && baseColor == "" && color == ""
        && !canFly && !isBoss
    }

    /**
     * Fill in the stats of the enemy's type and set health to the
     * maximum; an unknown type changes nothing but the health.
     */
    method SetupStats(u: real)
      requires 0.0 <= u < 1.0
      modifies this`width, this`height, this`maxHealth, this`health, this`damage, this`speed,
               this`exp, this`gold, this`baseColor, this`color, this`canFly, this`isBoss
      ensures ProfileOf(kind).Some? ==> StatsFor(kind, levelBackground, u)
      ensures ProfileOf(kind).None? ==>
        && width == old(width) && height == old(height) && maxHealth == old(maxHealth)
        && health == old(maxHealth) && damage == old(damage) && speed == old(speed)
        && exp == old(exp) && gold == old(gold) && baseColor == old(baseColor)
        && color == old(color) && canFly == old(canFly) && isBoss == old(isBoss)
    {
      var p := ProfileOf(kind);
      if p.Some? {
        var q := p.value;
        width := q.width;
        height := q.height;
        maxHealth := q.maxHealth;
        damage := q.damage;
        speed := q.speed;
        exp := q.exp;
        gold := RandomInt(u, q.goldLo, q.goldHi);
        baseColor := q.baseColor;
        color := ColorForLevel(levelBackground, baseColor);
        canFly := q.canFly;
        isBoss := q.isBoss;
      }
      health := maxHealth;
    }

    /**
     * Take a hit: health drops by `amount` and stops at 0, which kills
     * the enemy; the push is six pixels a frame in direction `dir`. The
     * result is whether the enemy is dead.
     */
    method TakeDamage(amount: real, dir: real) returns (isDead: bool)
      modifies this`health, this`knockbackX, this`dead
      ensures health == (if old(health) - amount <= 0.0 then 0.0 else old(health) - amount)
      ensures knockbackX == dir * RecoilSpeed
      ensures dead <==> old(dead) || old(health) - amount <= 0.0
      ensures isDead == dead && health >= 0.0
      ensures old(Valid()) ==> Valid()
    {
      health := health - amount;
      knockbackX := dir * RecoilSpeed;
      if health <= 0.0 {
        health := 0.0;
        dead := true;
      }
      isDead := dead;
    }

    /**
     * One frame. A dead enemy only advances its death timer and stays in
     * play for 30 frames. A living one takes the step `FoeStep` describes
     * and stays in play; a dragon that starts an attack breathes a new
     * fireball, and no other enemy does.
     */
    method Update(ts: seq<Target>, groundY: real, u: real, hover: real)
        returns (alive: bool, flame: Option<Fireball>)
      requires 0.0 <= u < 1.0
      modifies this`x, this`y, this`facing, this`attackTimer, this`attackCooldown,
               this`animFrame, this`animTimer, this`knockbackX, this`deathTimer
      ensures alive <==> Lingering()
      ensures old(dead) ==> deathTimer == old(deathTimer) + 1 && FoeOf() == old(FoeOf()) && flame.None?
      ensures !old(dead) ==> alive && deathTimer == old(deathTimer)
      ensures !old(dead) ==>
        FoeOf() == FoeStep(old(FoeOf()), ts, speed, width, height, canFly, groundY, u, hover)
      ensures !old(dead) ==>
        var s := Shove(old(FoeOf()));
        (flame.Some? <==> Strikes(s, NearestIn(ts, s.x, s.y, |ts|)) && (kind == Dragon || kind == BossDragon))
      ensures flame.Some? ==>
        && fresh(flame.value)
        && flame.value.ShotOf() == FlameFrom(old(FoeOf()), ts, speed, width, height, u)
        && flame.value.damage == damage
      ensures old(Valid()) ==> Valid()
    {
      if dead {
        deathTimer := deathTimer + 1;
        return deathTimer < DeathFrames, None;
      }
      flame := Act(ts, groundY, u, hover);
      alive := true;
    }

    /** The frame of a living enemy: recoil, chase or strike, settle in place, then run the timers. */
    method Act(ts: seq<Target>, groundY: real, u: real, hover: real) returns (flame: Option<Fireball>)
      requires 0.0 <= u < 1.0
      modifies this`x, this`y, this`facing, this`attackTimer, this`attackCooldown,
               this`animFrame, this`animTimer, this`knockbackX
      ensures FoeOf() == FoeStep(old(FoeOf()), ts, speed, width, height, canFly, groundY, u, hover)
      ensures var s := Shove(old(FoeOf()));
        flame.Some? <==> Strikes(s, NearestIn(ts, s.x, s.y, |ts|)) && (kind == Dragon || kind == BossDragon)
      ensures flame.Some? ==>
        && fresh(flame.value)
        && flame.value.ShotOf() == FlameFrom(old(FoeOf()), ts, speed, width, height, u)
        && flame.value.damage == damage
    {
      ApplyRecoil();
      var pick := FindNearest(ts, x, y);
      flame := Pursue(ts, pick, u);
      Place(groundY, hover);
      TickTimers();
    }

    method Place(groundY: real, hover: real)
      modifies this`x, this`y
      ensures FoeOf() == Settle(old(FoeOf()), width, height, canFly, groundY, hover)
    {
      x := Max(0.0, Min(Equipment.CanvasWidth - width, x));
      y := if !canFly then groundY - height else groundY - height - 30.0 + hover;
    }

    method ApplyRecoil()
      modifies this`x, this`knockbackX
      ensures FoeOf() == Shove(old(FoeOf()))
    {
      if knockbackX != 0.0 {
        x := x + knockbackX;
        knockbackX := knockbackX * RecoilDecay;
        if Abs(knockbackX) < 0.5 {
          knockbackX := 0.0;
        }
      }
    }

    method Pursue(ts: seq<Target>, pick: Option<Pick>, u: real) returns (flame: Option<Fireball>)
      requires pick == NearestIn(ts, x, y, |ts|)
      modifies this`x, this`facing, this`attackTimer, this`attackCooldown
      ensures FoeOf() == Chase(old(FoeOf()), ts, pick, speed, u)
      ensures flame.Some? <==> Strikes(old(FoeOf()), pick) && (kind == Dragon || kind == BossDragon)
      ensures flame.Some? ==>
        && fresh(flame.value)
        && flame.value.ShotOf() == Flame(old(FoeOf()), ts, pick, speed, width, height, u)
        && flame.value.damage == damage
    {
      flame := None;
      if pick.Some? {
        var p := pick.value;
        facing := if ts[p.index].x < x then -1 else 1;
        if p.dist > ChaseBeyond {
          x := x + facing as real * speed;
        }
        if p.dist < StrikeWithin && attackCooldown <= 0 {
          attackTimer := StrikeFrames;
          attackCooldown := CooldownBase + RandomInt(u, 0, 30);
          if kind == Dragon || kind == BossDragon {
            var fx := x + (if facing == 1 then width else 0.0);
            var f := new Fireball(fx, y + height / 2.0, facing as real * FlameSpeed, damage);
            flame := Some(f);
          }
        }
      }
    }

    method TickTimers()
      modifies this`attackTimer, this`attackCooldown, this`animTimer, this`animFrame
      ensures FoeOf() == TickFoe(old(FoeOf()))
    {
      if attackTimer > 0 {
        attackTimer := attackTimer - 1;
      }
      if attackCooldown > 0 {
        attackCooldown := attackCooldown - 1;
      }
      animTimer := animTimer + 1;
      if animTimer >= AnimTicks {
        animTimer := 0;
        animFrame := (animFrame + 1) % 2;
      }
    }

    function Hitbox(): Rect
      reads this
    {
      Rect(x, y, width, height)
    }
  }
}
