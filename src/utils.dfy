/**
 * The shared helpers: axis-aligned rectangle overlap, linear
 * interpolation, clamping, the two random helpers (with the random draw
 * passed in), and the particle and floating damage-number effects, whose
 * `update` takes a time step `delta`.
 */
module Utils {

  /** A rectangle by its top-left corner and its size. */
  datatype Rect = Rect(x: real, y: real, width: real, height: real)

  /** Strict overlap on both axes: rectangles that only touch do not collide. */
  predicate CheckCollision(a: Rect, b: Rect) {
    a.x < b.x + b.width && a.x + a.width > b.x &&
    a.y < b.y + b.height && a.y + a.height > b.y
  }

  /** A point strictly inside a rectangle. */
  predicate Inside(px: real, py: real, r: Rect) {
    r.x < px < r.x + r.width && r.y < py < r.y + r.height
  }

  function Max(a: real, b: real): real { if a >= b then a else b }

  function Min(a: real, b: real): real { if a <= b then a else b }

  function Abs(v: real): real { if v < 0.0 then -v else v }

  /**
   * For rectangles of positive size, a collision is exactly a shared
   * interior point; in particular the test does not depend on the order
   * of its arguments.
   */
  lemma CollisionMeansSharedPoint(a: Rect, b: Rect)
    requires a.width > 0.0 && a.height > 0.0 && b.width > 0.0 && b.height > 0.0
    ensures CheckCollision(a, b) <==> exists px, py :: Inside(px, py, a) && Inside(px, py, b)
    ensures CheckCollision(a, b) <==> CheckCollision(b, a)
  {
    if CheckCollision(a, b) {
      var px := (Max(a.x, b.x) + Min(a.x + a.width, b.x + b.width)) / 2.0;
      var py := (Max(a.y, b.y) + Min(a.y + a.height, b.y + b.height)) / 2.0;
      assert Inside(px, py, a) && Inside(px, py, b);
    }
  }

  /** The point a fraction `t` of the way from `start` to `end`. */
  function Lerp(start: real, end: real, t: real): (r: real)
    ensures t == 0.0 ==> r == start
    ensures t == 1.0 ==> r == end
    ensures 0.0 <= t <= 1.0 && start <= end ==> start <= r <= end
  {
    if 0.0 <= t <= 1.0 && start <= end then
      assert 0.0 <= (end - start) * t <= end - start by {
        NonNegativeProduct(end - start, t);
        NonNegativeProduct(end - start, 1.0 - t);
        assert (end - start) - (end - start) * t == (end - start) * (1.0 - t);
      }
      start + (end - start) * t
    else
      start + (end - start) * t
  }

  /**
   * `value` limited to `[lo, hi]`; the lower bound is applied last, so
   * it wins when the bounds cross.
   */
  function Clamp(value: real, lo: real, hi: real): (r: real)
    ensures lo <= hi ==> lo <= r <= hi
    ensures lo <= value <= hi ==> r == value
    ensures value < lo ==> r == lo
    ensures lo <= hi < value ==> r == hi
    ensures hi < lo ==> r == lo
  {
    Max(lo, Min(hi, value))
  }

  /** Clamping twice into the same non-empty range is clamping once. */
  lemma ClampIdempotent(value: real, lo: real, hi: real)
    requires lo <= hi
    ensures Clamp(Clamp(value, lo, hi), lo, hi) == Clamp(value, lo, hi)
  {
  }

  /** A uniform value in `[lo, hi)` computed from a random draw `u` in `[0, 1)`. */
  function RandomRange(u: real, lo: real, hi: real): (r: real)
    ensures 0.0 <= u < 1.0 && lo < hi ==> lo <= r < hi
  {
    var d := hi - lo;
    var r := u * d + lo;
    if 0.0 <= u < 1.0 && lo < hi then FractionBelow(u, d); r else r
  }

  lemma NonNegativeProduct(a: real, b: real)
    requires a >= 0.0 && b >= 0.0
    ensures a * b >= 0.0
  {
  }

  /** A fraction in `[0, 1)` of a positive length is in `[0, length)`. */
  lemma FractionBelow(u: real, d: real)
    requires 0.0 <= u < 1.0 && d > 0.0
    ensures 0.0 <= u * d < d
  {
    NonNegativeProduct(u, d);
    assert d - u * d == (1.0 - u) * d;
  }

  /** An integer in `[lo, hi]`, both ends included, from a random draw `u` in `[0, 1)`. */
  function RandomInt(u: real, lo: int, hi: int): (r: int)
    ensures 0.0 <= u < 1.0 && lo <= hi ==> lo <= r <= hi
  {
    RandomRange(u, lo as real, (hi + 1) as real).Floor
  }

  /** The moving part of a particle: position, velocity and remaining life. */
  datatype Motion = Motion(x: real, y: real, vx: real, vy: real, life: real)

  /** Gravity added to a particle's vertical velocity per unit of time. */
  const ParticleGravity: real := 0.2

  /** One particle update of length `delta`. */
  function ParticleStep(m: Motion, delta: real): (r: Motion)
    ensures r.life == m.life - delta && r.vx == m.vx
    ensures r.vy - m.vy == ParticleGravity * delta
  {
    Motion(m.x + m.vx * delta, m.y + m.vy * delta, m.vx,
           m.vy + ParticleGravity * delta, m.life - delta)
  }

  /** `n` unit updates in a row. */
  function ParticleSteps(m: Motion, n: nat): Motion
  {
    if n == 0 then m else ParticleStep(ParticleSteps(m, n - 1), 1.0)
  }

  /**
   * After `n` unit updates the particle has moved like a body under
   * constant gravity: the horizontal speed is kept, the vertical speed
   * grew by `0.2 n`, the height by `n vy + 0.1 n (n - 1)`, and the life
   * dropped by `n`. So it reports itself alive on exactly the updates
   * before its life runs out.
   */
  lemma {:induction false} ParticleFalls(m: Motion, n: nat)
    ensures var r := ParticleSteps(m, n);
      && r.x == m.x + m.vx * n as real
      && r.vx == m.vx
      && r.vy == m.vy + ParticleGravity * n as real
      && r.y == m.y + m.vy * n as real + 0.1 * (n as real) * (n as real - 1.0)
      && r.life == m.life - n as real
    ensures ParticleSteps(m, n).life > 0.0 <==> (n as real) < m.life
  {
    if n > 0 {
      ParticleFalls(m, n - 1);
      FallStep(m.vy, (n - 1) as real);
    }
  }

  /** The arithmetic of one more frame of fall. */
  lemma FallStep(vy: real, k: real)
    ensures vy * k + 0.1 * k * (k - 1.0) + (vy + ParticleGravity * k) * 1.0
         == vy * (k + 1.0) + 0.1 * (k + 1.0) * k
  {
  }

  /** A short-lived spark; `size` is drawn at construction in `[2, 6)`. */
  class Particle {
    var x: real
    var y: real
    var vx: real
    var vy: real
    var color: string
    var life: real
    var maxLife: real
    var size: real

    function MotionOf(): Motion
      reads this
    {
      Motion(x, y, vx, vy, life)
    }

    /** A particle starts with full life; `u` is the random draw for its size. */
    constructor(x: real, y: real, vx: real, vy: real, color: string, life: real, u: real)
      requires 0.0 <= u < 1.0
      ensures MotionOf() == Motion(x, y, vx, vy, life) && this.color == color
      ensures maxLife == life && 2.0 <= size < 6.0
    {
      this.x := x;
      this.y := y;
      this.vx := vx;
      this.vy := vy;
      this.color := color;
      this.life := life;
      this.maxLife := life;
      this.size := RandomRange(u, 2.0, 6.0);
    }

    /** Advance by `delta` and report whether any life is left. */
    method Update(delta: real) returns (alive: bool)
      modifies this
      ensures MotionOf() == ParticleStep(old(MotionOf()), delta)
      ensures alive <==> life > 0.0
      ensures color == old(color) && maxLife == old(maxLife) && size == old(size)
    {
      x := x + vx * delta;
      y := y + vy * delta;
      vy := vy + ParticleGravity * delta;
      life := life - delta;
      alive := life > 0.0;
    }
  }

  /** The moving part of a damage number: height, vertical speed and life. */
  datatype Float = Float(y: real, vy: real, life: real)

  /** The factor a damage number's rise speed keeps per unit of time. */
  const RiseDecay: real := 0.95

  /**
   * One damage-number update of length `delta`; `decay` is the factor
   * the rise speed keeps over that time (`0.95` to the power `delta`).
   */
  function FloatStep(f: Float, delta: real, decay: real): (r: Float)
    ensures r.life == f.life - delta
    ensures 0.0 <= decay <= 1.0 && f.vy <= 0.0 ==> f.vy <= r.vy <= 0.0
  {
    if 0.0 <= decay <= 1.0 && f.vy <= 0.0 then
      assert f.vy <= f.vy * decay by {
        assert f.vy * decay - f.vy == -f.vy * (1.0 - decay);
      }
      Float(f.y + f.vy * delta, f.vy * decay, f.life - delta)
    else
      Float(f.y + f.vy * delta, f.vy * decay, f.life - delta)
  }

  /** `RiseDecay` to the power `n`. */
  function DecayPow(n: nat): (r: real)
    ensures 0.0 < r <= 1.0
  {
    if n == 0 then 1.0 else RiseDecay * DecayPow(n - 1)
  }

  /** `n` unit updates in a row. */
  function FloatSteps(f: Float, n: nat): Float
  {
    if n == 0 then f else FloatStep(FloatSteps(f, n - 1), 1.0, RiseDecay)
  }

  /**
   * After `n` unit updates the rise speed is `0.95^n` of its start and
   * the life dropped by `n`: a number born rising keeps rising ever more
   * slowly, so its height never increases.
   */
  lemma {:induction false} FloatRises(f: Float, n: nat)
    ensures FloatSteps(f, n).vy == f.vy * DecayPow(n)
    ensures FloatSteps(f, n).life == f.life - n as real
    ensures f.vy <= 0.0 ==> FloatSteps(f, n).y <= f.y
  {
    if n > 0 {
      FloatRises(f, n - 1);
      var p := FloatSteps(f, n - 1);
      assert FloatSteps(f, n) == FloatStep(p, 1.0, RiseDecay);
      Regroup(f.vy, DecayPow(n - 1), RiseDecay);
      if f.vy <= 0.0 {
        NonPositiveScaled(f.vy, DecayPow(n - 1));
      }
    }
  }

  lemma Regroup(a: real, b: real, c: real)
    ensures a * b * c == a * (c * b)
  {
  }

  lemma NonPositiveScaled(a: real, b: real)
    requires a <= 0.0 && b >= 0.0
    ensures a * b <= 0.0
  {
  }

  /** A floating damage number: starts rising at speed 2 with 60 frames of life. */
  class DamageNumber {
    var x: real
    var y: real
    var damage: string
    var color: string
    var life: real
    var vy: real

    function FloatOf(): Float
      reads this
    {
      Float(y, vy, life)
    }

    constructor(x: real, y: real, damage: string, color: string)
      ensures FloatOf() == Float(y, -2.0, 60.0)
      ensures this.x == x && this.damage == damage && this.color == color
    {
      this.x := x;
      this.y := y;
      this.damage := damage;
      this.color := color;
      life := 60.0;
      vy := -2.0;
    }

    /** Advance by `delta` (`decay` is `0.95` to the power `delta`) and report whether any life is left. */
    method Update(delta: real, decay: real) returns (alive: bool)
      modifies this
      ensures FloatOf() == FloatStep(old(FloatOf()), delta, decay)
      ensures alive <==> life > 0.0
      ensures x == old(x) && damage == old(damage) && color == old(color)
    {
      y := y + vy * delta;
      vy := vy * decay;
      life := life - delta;
      alive := life > 0.0;
    }
  }
}
