/**
 * The older JavaScript helpers. `checkCollision`, `lerp`, `clamp`,
 * `randomRange` and `randomInt` are the same expressions as in `Utils`
 * and are used from there; the effect classes differ: their `update`
 * takes no time step and always advances by one frame, and the damage
 * number's rise speed keeps a flat `0.95` per call.
 */
module UtilsJs {
  import opened Utils

  /** A short-lived spark whose update is always one frame long. */
  class Particle {
    var x: real
    var y: real
    var vx: real
    var vy: real
    var color: string
    var life: real
    var maxLife: real
    var size: real

    function MotionOf(): Motion
      reads this
    {
      Motion(x, y, vx, vy, life)
    }

    constructor(x: real, y: real, vx: real, vy: real, color: string, life: real, u: real)
      requires 0.0 <= u < 1.0
      ensures MotionOf() == Motion(x, y, vx, vy, life) && this.color == color
      ensures maxLife == life && 2.0 <= size < 6.0
    {
      this.x := x;
      this.y := y;
      this.vx := vx;
      this.vy := vy;
      this.color := color;
      this.life := life;
      this.maxLife := life;
      this.size := RandomRange(u, 2.0, 6.0);
    }

    /** One frame: the typed update with its default step of 1. */
    method Update() returns (alive: bool)
      modifies this
      ensures MotionOf() == ParticleStep(old(MotionOf()), 1.0)
      ensures alive <==> life > 0.0
      ensures color == old(color) && maxLife == old(maxLife) && size == old(size)
    {
      x := x + vx;
      y := y + vy;
      vy := vy + ParticleGravity;
      life := life - 1.0;
      alive := life > 0.0;
    }
  }

  /** A floating damage number whose update is always one frame long. */
  class DamageNumber {
    var x: real
    var y: real
    var damage: string
    var color: string
    var life: real
    var vy: real

    function FloatOf(): Float
      reads this
    {
      Float(y, vy, life)
    }

    constructor(x: real, y: real, damage: string, color: string)
      ensures FloatOf() == Float(y, -2.0, 60.0)
      ensures this.x == x && this.damage == damage && this.color == color
    {
      this.x := x;
      this.y := y;
      this.damage := damage;
      this.color := color;
      life := 60.0;
      vy := -2.0;
    }

    /** One frame: the typed update with step 1, where the decay is exactly `0.95`. */
    method Update() returns (alive: bool)
      modifies this
      ensures FloatOf() == FloatStep(old(FloatOf()), 1.0, RiseDecay)
      ensures alive <==> life > 0.0
      ensures x == old(x) && damage == old(damage) && color == old(color)
    {
      y := y + vy;
      vy := vy * RiseDecay;
      life := life - 1.0;
      alive := life > 0.0;
    }
  }

  /**
   * A damage number as the older constructor makes it, after `n` of the
   * older one-frame updates (each is a typed unit step): it is still
   * shown exactly while fewer than 60 updates have run, its rise speed
   * is `2 * 0.95^n` upward, and it never sinks below where it appeared.
   */
  lemma {:induction false} DamageNumberFadesInSixty(y: real, n: nat)
    ensures FloatSteps(Float(y, -2.0, 60.0), n).life > 0.0 <==> n < 60
    ensures FloatSteps(Float(y, -2.0, 60.0), n).vy == -2.0 * DecayPow(n)
    ensures FloatSteps(Float(y, -2.0, 60.0), n).y <= y
  {
    FloatRises(Float(y, -2.0, 60.0), n);
  }
}
