/**
 * The older JavaScript player renderer, before the keyframe animator: a
 * named animation state chosen from the player's flags, and a frame
 * counter that advances one of four frames every ten updates.
 */
module LegacyPlayerRendering {

  /** The counter after one update: ten ticks per frame, four frames per cycle. */
  function CounterStep(timer: int, frame: int): (r: (int, int))
    requires 0 <= timer < 10 && 0 <= frame < 4
    ensures 0 <= r.0 < 10 && 0 <= r.1 < 4
    ensures timer < 9 ==> r == (timer + 1, frame)
    ensures timer == 9 ==> r == (0, if frame == 3 then 0 else frame + 1)
  {
    var t := timer + 1;
    if t >= 10 then (0, (frame + 1) % 4) else (t, frame)
  }

  /** The counter after `n` updates from a fresh renderer. */
  function CounterAfter(n: nat): (r: (int, int))
    ensures 0 <= r.0 < 10 && 0 <= r.1 < 4
  {
    if n == 0 then (0, 0) else
      var prev := CounterAfter(n - 1);
      CounterStep(prev.0, prev.1)
  }

  /** Counting from a fresh renderer, the frame shown is the number of whole tens of updates, modulo 4. */
  lemma {:induction false} CounterCountsTens(n: nat)
    ensures CounterAfter(n) == (n % 10, (n / 10) % 4)
  {
    if n > 0 {
      CounterCountsTens(n - 1);
      var q, r := (n - 1) / 10, (n - 1) % 10;
      if r < 9 {
        DivModTen(n, q, r + 1);
      } else {
        DivModTen(n, q + 1, 0);
        var a, b := q / 4, q % 4;
        if b < 3 {
          DivModFour(q + 1, a, b + 1);
        } else {
          DivModFour(q + 1, a + 1, 0);
        }
      }
    }
  }

  /** Quotient and remainder by ten are determined by the division identity. */
  lemma DivModTen(n: int, q: int, r: int)
    requires 0 <= r < 10 && n == 10 * q + r
    ensures n / 10 == q && n % 10 == r
  {
  }

  /** Quotient and remainder by four are determined by the division identity. */
  lemma DivModFour(n: int, q: int, r: int)
    requires 0 <= r < 4 && n == 4 * q + r
    ensures n / 4 == q && n % 4 == r
  {
  }

  /** The state name: attacking wins, then airborne, then walking, else idle. */
  function SelectState(attacking: bool, isGrounded: bool, walkCycle: real): (s: string)
    ensures s in {"attack", "jump", "walk", "idle"}
    ensures s == "attack" <==> attacking
    ensures s == "jump" <==> !attacking && !isGrounded
    ensures s == "walk" <==> !attacking && isGrounded && walkCycle != 0.0
  {
    if attacking then "attack"
    else if !isGrounded then "jump"
    else if walkCycle != 0.0 then "walk"
    else "idle"
  }

  class LegacyPlayerRenderer {
    const playerType: string
    var animState: string
    var animFrame: int
    var animTimer: int

    ghost predicate Valid()
      reads this
    {
      0 <= animTimer < 10 && 0 <= animFrame < 4
    }

    constructor(playerType: string)
      ensures Valid() && this.playerType == playerType
      ensures animState == "idle" && animFrame == 0 && animTimer == 0
    {
      this.playerType := playerType;
      animState := "idle";
      animFrame := 0;
      animTimer := 0;
    }

    /** The frame delta is accepted and ignored: the counter ticks once per call. */
    method UpdateAnimation(attacking: bool, isGrounded: bool, walkCycle: real, deltaTime: real)
      requires Valid()
      modifies this
      ensures Valid()
      ensures (animTimer, animFrame) == CounterStep(old(animTimer), old(animFrame))
      ensures animState == SelectState(attacking, isGrounded, walkCycle)
    {
      animTimer := animTimer + 1;
      if animTimer >= 10 {
        animTimer := 0;
        animFrame := (animFrame + 1) % 4;
      }
      if attacking {
        animState := "attack";
      } else if !isGrounded {
        animState := "jump";
      } else if walkCycle != 0.0 {
        animState := "walk";
      } else {
        animState := "idle";
      }
    }
  }
}
