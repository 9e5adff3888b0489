/**
 * The player renderer as the client of the animator: from the player's
 * health, ground contact, attack flag and motion it decides which clip to
 * request each frame, then advances the animator by one tick. Drawing is
 * not modelled.
 */
module PlayerRendering {
  import opened Wrappers
  import opened AnimationTypes
  import opened Playback
  import Animations
  import opened AnimatorObject

  /** What the renderer reads from the player. An absent `hasDoubleJumped` is `false`. */
  datatype PlayerInput = PlayerInput(
    health: Option<real>,
    isGrounded: bool,
    attacking: bool,
    hasDoubleJumped: bool,
    velocityX: Option<real>,
    walkCycle: real)

  /** The renderer's own memory of the previous frame, next to its animator. */
  datatype RendererView = RendererView(anim: AnimatorView, wasGrounded: bool, wasAttacking: bool, lastHealth: real)

  const InitialRendererView := RendererView(InitialView, true, false, 100.0)

  /** An absent health reads as 100. */
  function Health(p: PlayerInput): real {
    p.health.GetOr(100.0)
  }

  function Abs(x: real): (r: real)
    ensures r >= 0.0 && (r == x || r == -x)
  {
    if x < 0.0 then -x else x
  }

  /** The horizontal speed the walk decision uses: the velocity, or 1/0 from the walk cycle. */
  function VelocityX(p: PlayerInput): real {
    p.velocityX.GetOr(if p.walkCycle != 0.0 then 1.0 else 0.0)
  }

  /** The walk clip's playback speed: a third of the horizontal speed, clamped to [0.8, 1.5]. */
  function WalkSpeed(vx: real): (s: real)
    ensures 0.8 <= s <= 1.5
    ensures 2.4 <= Abs(vx) <= 4.5 ==> s * 3.0 == Abs(vx)
    ensures Abs(vx) <= 2.4 ==> s == 0.8
    ensures Abs(vx) >= 4.5 ==> s == 1.5
  {
    var third := Abs(vx) / 3.0;
    var capped := if third < 1.5 then third else 1.5;
    if capped > 0.8 then capped else 0.8
  }

  /** A drop in health interrupts with a forced hurt, unless death is playing. */
  function HurtStep(cat: Catalog, a: AnimatorView, lastHealth: real, health: real): (r: AnimatorView)
    ensures health < lastHealth && !IsPlaying(a, "death") && "hurt" in cat ==> SwitchedTo(a, r, "hurt", true)
    ensures health >= lastHealth || IsPlaying(a, "death") || "hurt" !in cat ==> r == a
  {
    if health < lastHealth && !IsPlaying(a, "death") then Play(cat, a, "hurt", true) else a
  }

  /** Touching down while not attacking forces the land clip. */
  function LandStep(cat: Catalog, a: AnimatorView, wasGrounded: bool, p: PlayerInput): (r: AnimatorView)
    ensures !wasGrounded && p.isGrounded && !p.attacking && "land" in cat ==> SwitchedTo(a, r, "land", true)
    ensures wasGrounded || !p.isGrounded || p.attacking || "land" !in cat ==> r == a
  {
    if !wasGrounded && p.isGrounded && !p.attacking then Play(cat, a, "land", true) else a
  }

  predicate AttackStarts(wasAttacking: bool, p: PlayerInput) {
    p.attacking && !wasAttacking
  }

  predicate InSpecialClip(a: AnimatorView) {
    IsPlaying(a, "attack") || IsPlaying(a, "hurt") || IsPlaying(a, "land")
  }

  predicate Moving(p: PlayerInput) {
    Abs(VelocityX(p)) > 0.1 || p.walkCycle != 0.0
  }

  /**
   * The clip request for the frame: a new attack is forced; in the air a
   * jump or double jump is requested without restarting one already
   * playing; on the ground, outside attack, hurt and land, walking sets a
   * speed-matched walk and standing requests idle at speed 1.
   */
  function Select(cat: Catalog, a: AnimatorView, wasAttacking: bool, p: PlayerInput): (r: AnimatorView)
    ensures AttackStarts(wasAttacking, p) && "attack" in cat ==> SwitchedTo(a, r, "attack", true)
    ensures !AttackStarts(wasAttacking, p) && !p.isGrounded ==>
      r.state.speed == a.state.speed && (r.state == a.state || r.state.current in {"jump", "doubleJump"})
    ensures !AttackStarts(wasAttacking, p) && !p.isGrounded && IsPlaying(a, "doubleJump") ==> r == a
    ensures !AttackStarts(wasAttacking, p) && !p.isGrounded && !p.hasDoubleJumped && IsPlaying(a, "jump") ==> r == a
    ensures !AttackStarts(wasAttacking, p) && p.isGrounded && InSpecialClip(a) ==> r == a
    ensures !AttackStarts(wasAttacking, p) && p.isGrounded && !InSpecialClip(a) && Moving(p) ==>
      r.state.speed == WalkSpeed(VelocityX(p)) && (r.state.current == a.state.current || r.state.current == "walk")
    ensures !AttackStarts(wasAttacking, p) && p.isGrounded && !InSpecialClip(a) && !Moving(p) ==>
      r.state.speed == 1.0 && (r.state.current == a.state.current || r.state.current == "idle")
  {
    if AttackStarts(wasAttacking, p) then Play(cat, a, "attack", true)
    else if !p.isGrounded then
      if p.hasDoubleJumped then
        if !IsPlaying(a, "doubleJump") then Play(cat, a, "doubleJump", false) else a
      else if !IsPlaying(a, "jump") && !IsPlaying(a, "doubleJump") then Play(cat, a, "jump", false)
      else a
    else if !InSpecialClip(a) then
      if Moving(p) then
        var walking := if !IsPlaying(a, "walk") then Play(cat, a, "walk", false) else a;
        SetSpeed(walking, WalkSpeed(VelocityX(p)))
      else
        SetSpeed(Play(cat, a, "idle", false), 1.0)
    else a
  }

  /** The animator state just before the tick on a frame where the player is alive. */
  function Prepare(cat: Catalog, rv: RendererView, p: PlayerInput): AnimatorView {
    var hurt := HurtStep(cat, rv.anim, rv.lastHealth, Health(p));
    Select(cat, LandStep(cat, hurt, rv.wasGrounded, p), rv.wasAttacking, p)
  }

  /** The animator state just before the tick on a frame where the player is dead. */
  function PrepareDeath(cat: Catalog, rv: RendererView, p: PlayerInput): AnimatorView {
    Play(cat, HurtStep(cat, rv.anim, rv.lastHealth, Health(p)), "death", true)
  }

  /**
   * One renderer frame. The animator ticks exactly once, from the state the
   * decisions above leave; on a dead frame the previous-ground and
   * previous-attack memories are not refreshed.
   */
  function AnimationFrame(cat: Catalog, rv: RendererView, p: PlayerInput, dt: real): (r: (RendererView, seq<Completion>))
    requires ValidCatalog(cat)
    ensures r.0.lastHealth == Health(p)
    ensures Health(p) <= 0.0 ==>
      r.0.wasGrounded == rv.wasGrounded && r.0.wasAttacking == rv.wasAttacking
      && (r.0.anim, r.1) == Update(cat, PrepareDeath(cat, rv, p), dt)
    ensures Health(p) > 0.0 ==>
      r.0.wasGrounded == p.isGrounded && r.0.wasAttacking == p.attacking
      && (r.0.anim, r.1) == Update(cat, Prepare(cat, rv, p), dt)
  {
    var health := Health(p);
    if health <= 0.0 then
      var ticked := Update(cat, PrepareDeath(cat, rv, p), dt);
      (rv.(anim := ticked.0, lastHealth := health), ticked.1)
    else
      var ticked := Update(cat, Prepare(cat, rv, p), dt);
      (RendererView(ticked.0, p.isGrounded, p.attacking, health), ticked.1)
  }

  /** Respawn: the animator is reset and the renderer forgets the previous frame. */
  function ResetRenderer(rv: RendererView): (r: RendererView)
    ensures r.anim.state == InitialState && r.anim.queued == None && r.anim.callback == None
    ensures r.wasGrounded && !r.wasAttacking && r.lastHealth == 100.0
  {
    RendererView(Playback.Reset(rv.anim), true, false, 100.0)
  }

  /**
   * While the player is dead every frame force-restarts the death clip, so
   * after each frame the clip has advanced by a single tick, whatever it
   * had reached before.
   */
  lemma DeathRestartsEachFrame(cat: Catalog, rv: RendererView, p: PlayerInput, dt: real)
    requires ValidCatalog(cat) && "death" in cat
    requires Health(p) <= 0.0
    requires 0.0 <= rv.anim.state.speed * dt < cat["death"].duration
    ensures var r := AnimationFrame(cat, rv, p, dt).0;
      r.anim.state.current == "death" && r.anim.state.frame == rv.anim.state.speed * dt
      && r.anim.state.forced && r.anim.queued == None
  {
    var hurt := HurtStep(cat, rv.anim, rv.lastHealth, Health(p));
    assert hurt.state.speed == rv.anim.state.speed;
    var dying := PrepareDeath(cat, rv, p);
    assert dying.state == AnimationState("death", 0.0, rv.anim.state.speed, true);
  }

  /**
   * A health drop on the ground while standing, not attacking and not
   * landing leaves the hurt clip playing from its start before the tick.
   */
  lemma HurtShowsOnGround(cat: Catalog, rv: RendererView, p: PlayerInput)
    requires "hurt" in cat && 0.0 < Health(p) < rv.lastHealth && !IsPlaying(rv.anim, "death")
    requires p.isGrounded && !p.attacking && rv.wasGrounded
    ensures var a := Prepare(cat, rv, p);
      a.state == AnimationState("hurt", 0.0, rv.anim.state.speed, true) && a.queued == None
  {
    var hurt := HurtStep(cat, rv.anim, rv.lastHealth, Health(p));
    assert SwitchedTo(rv.anim, hurt, "hurt", true);
    var landed := LandStep(cat, hurt, rv.wasGrounded, p);
    assert landed == hurt;
    assert InSpecialClip(landed);
  }

  /** The rising edge of the attack flag shows the attack clip from its start, over anything. */
  lemma AttackEdgeWins(cat: Catalog, rv: RendererView, p: PlayerInput)
    requires "attack" in cat && Health(p) > 0.0 && AttackStarts(rv.wasAttacking, p)
    ensures var a := Prepare(cat, rv, p);
      a.state.current == "attack" && a.state.frame == 0.0 && a.state.forced && a.queued == None
  {
  }

  /**
   * In the standard knight and robot catalogs, asking for a jump during a
   * running attack only queues the jump; the attack keeps its frame.
   */
  lemma JumpWaitsForAttack(cat: Catalog, rv: RendererView, p: PlayerInput)
    requires Animations.StandardCatalog(cat)
    requires Health(p) > 0.0 && rv.lastHealth <= Health(p) && !AttackStarts(rv.wasAttacking, p)
    requires !p.isGrounded && !p.hasDoubleJumped && rv.wasGrounded
    requires rv.anim.state.current == "attack"
    ensures var a := Prepare(cat, rv, p);
      a.state == rv.anim.state && a.queued == Some("jump")
  {
  }

  /** A knight animates with the knight catalog, every other player type with the robot one. */
  function CatalogFor(playerType: string): (cat: Catalog)
    ensures Animations.StandardCatalog(cat) && ValidCatalog(cat)
  {
    Animations.KnightCatalogIsStandard();
    Animations.RobotCatalogIsStandard();
    if playerType == "knight" then Animations.KnightAnimations else Animations.RobotAnimations
  }

  class PlayerRenderer {
    const playerType: string
    const animator: Animator
    var wasGrounded: bool
    var wasAttacking: bool
    var lastHealth: real

    ghost predicate Valid()
      reads this, animator
    {
      animator.Valid()
    }

    function View(): RendererView
      reads this, animator
    {
      RendererView(animator.View(), wasGrounded, wasAttacking, lastHealth)
    }

    constructor(playerType: string)
      ensures Valid() && fresh(animator) && this.playerType == playerType
      ensures animator.animations == CatalogFor(playerType)
      ensures View() == InitialRendererView && animator.fired == [] && animator.updates == 0
    {
      this.playerType := playerType;
      animator := new Animator(CatalogFor(playerType));
      wasGrounded := true;
      wasAttacking := false;
      lastHealth := 100.0;
    }

    method UpdateAnimation(player: PlayerInput, deltaTime: real)
      requires Valid()
      modifies this, animator
      ensures Valid()
      ensures View() == AnimationFrame(animator.animations, old(View()), player, deltaTime).0
      ensures animator.fired == old(animator.fired) + AnimationFrame(animator.animations, old(View()), player, deltaTime).1
      ensures animator.updates == old(animator.updates) + 1
    {
      var currentHealth := Health(player);
      NoteHealth(currentHealth);
      if currentHealth <= 0.0 {
        animator.Play("death", true);
        animator.Update(deltaTime);
        return;
      }
      if !wasGrounded && player.isGrounded && !player.attacking {
        animator.Play("land", true);
      }
      assert animator.View() == LandStep(animator.animations,
        HurtStep(animator.animations, old(animator.View()), old(lastHealth), currentHealth), old(wasGrounded), player);
      SelectClip(player);
      wasGrounded := player.isGrounded;
      wasAttacking := player.attacking;
      animator.Update(deltaTime);
    }

    /** The hurt decision of `UpdateAnimation`: a drop in health plays the hurt clip unless dying. */
    method NoteHealth(currentHealth: real)
      requires Valid()
      modifies this, animator
      ensures Valid() && animator.fired == old(animator.fired) && animator.updates == old(animator.updates)
      ensures animator.View() == HurtStep(animator.animations, old(animator.View()), old(lastHealth), currentHealth)
      ensures lastHealth == currentHealth && wasGrounded == old(wasGrounded) && wasAttacking == old(wasAttacking)
    {
      if currentHealth < lastHealth && !animator.IsPlaying("death") {
        animator.Play("hurt", true);
      }
      lastHealth := currentHealth;
    }

    /** The clip decision of `UpdateAnimation` on a frame where the player is alive. */
    method SelectClip(player: PlayerInput)
      requires Valid()
      modifies animator
      ensures Valid() && animator.fired == old(animator.fired) && animator.updates == old(animator.updates)
      ensures animator.View() == Select(animator.animations, old(animator.View()), wasAttacking, player)
    {
      if player.attacking && !wasAttacking {
        animator.Play("attack", true);
      } else if !player.isGrounded {
        if player.hasDoubleJumped {
          if !animator.IsPlaying("doubleJump") {
            animator.Play("doubleJump", false);
          }
        } else if !animator.IsPlaying("jump") && !animator.IsPlaying("doubleJump") {
          animator.Play("jump", false);
        }
      } else if !animator.IsPlaying("attack") && !animator.IsPlaying("hurt") && !animator.IsPlaying("land") {
        var velocityX := VelocityX(player);
        if Abs(velocityX) > 0.1 || player.walkCycle != 0.0 {
          if !animator.IsPlaying("walk") {
            animator.Play("walk", false);
          }
          animator.SetSpeed(WalkSpeed(velocityX));
        } else {
          animator.Play("idle", false);
          animator.SetSpeed(1.0);
        }
      }
    }

    method Reset()
      requires Valid()
      modifies this, animator
      ensures Valid() && animator.fired == old(animator.fired) && animator.updates == old(animator.updates)
      ensures View() == ResetRenderer(old(View()))
    {
      animator.Reset();
      wasGrounded := true;
      wasAttacking := false;
      lastHealth := 100.0;
    }

    method PlayAnimation(name: string)
      requires Valid()
      modifies animator
      ensures Valid() && animator.fired == old(animator.fired) && animator.updates == old(animator.updates)
      ensures animator.View() == Play(animator.animations, old(animator.View()), name, true)
    {
      animator.Play(name, true);
    }

    predicate IsAnimationPlaying(name: string)
      reads this, animator
    {
      animator.IsPlaying(name)
    }
  }
}
