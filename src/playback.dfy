/**
 * The playback state machine of the keyframe animator, as functions from one
 * snapshot of an animator to the next. The `Animator` class runs these
 * transitions in place; the lemmas here are what its callers may rely on.
 *
 * Completion hooks are closures in the game; here the clip's own hook is
 * identified by the clip's name and the one-shot callback by a number the
 * caller picks when it registers it. Firing them produces events and has no
 * other effect on the animator.
 */
module Playback {
  import opened Wrappers
  import opened AnimationTypes

  /** A completion event: a clip's own hook, or the registered one-shot callback. */
  datatype Completion = ClipHook(clip: string) | Callback(id: nat)

  /** Everything an animator holds besides its catalog. */
  datatype AnimatorView = AnimatorView(
    state: AnimationState,
    queued: Option<string>,
    callback: Option<nat>,
    wasInAir: bool)

  /** The playback record of a new or reset animator. */
  const InitialState := AnimationState("idle", 0.0, 1.0, false)

  const InitialView := AnimatorView(InitialState, None, None, false)

  /**
   * The priority gate: the running clip exists, does not loop and has at
   * least the requested clip's priority.
   */
  predicate Gate(cat: Catalog, current: string, name: string)
    requires name in cat
  {
    current in cat && !cat[current].loop && Priority(cat[current]) >= Priority(cat[name])
  }

  /** Playback of `name` starts over: current := name, frame := 0, queue emptied. */
  predicate SwitchedTo(v: AnimatorView, r: AnimatorView, name: string, force: bool) {
    r == v.(state := AnimationState(name, 0.0, v.state.speed, force), queued := None)
  }

  /**
   * A request to play `name`. A repeat of the running clip without force, an
   * unknown name, or an unforced request stopped by the priority gate leaves
   * the clip and its frame alone, and only the gate records the request as
   * queued. Every other request switches to `name` from frame 0.
   */
  function Play(cat: Catalog, v: AnimatorView, name: string, force: bool): (r: AnimatorView)
    ensures (v.state.current == name && !force) || name !in cat ==> r == v
    ensures name in cat && !force && v.state.current != name && Gate(cat, v.state.current, name) ==>
      r == v.(queued := Some(name))
    ensures name in cat && (force || (v.state.current != name && !Gate(cat, v.state.current, name))) ==>
      SwitchedTo(v, r, name, force)
    ensures r.state == v.state || r.state.current == name
  {
    if v.state.current == name && !force then v
    else if name !in cat then v
    else if !force && Gate(cat, v.state.current, name) then v.(queued := Some(name))
    else v.(state := v.state.(current := name, frame := 0.0, forced := force), queued := None)
  }

  /** Remember `name` as the clip to follow the running one, if the catalog has it. */
  function Queue(cat: Catalog, v: AnimatorView, name: string): (r: AnimatorView)
    ensures name in cat ==> r == v.(queued := Some(name))
    ensures name !in cat ==> r == v
  {
    if name in cat then v.(queued := Some(name)) else v
  }

  /**
   * `f % d` for a positive period and a non-negative f: what is left of f
   * after removing whole periods. Below one period f is kept; between one
   * and two periods exactly one period is removed.
   */
  function Wrap(f: real, d: real): (r: real)
    requires d > 0.0
    ensures 0.0 <= r < d
    ensures f - r == (f / d).Floor as real * d
    ensures 0.0 <= f < d ==> r == f
    ensures d <= f < 2.0 * d ==> r == f - d
  {
    QuotientTimesDivisor(f, d);
    WrapQuotient(f, d, f / d)
  }

  /** The fractional part of q. */
  function Frac(q: real): (x: real)
    ensures 0.0 <= x < 1.0
  {
    q - q.Floor as real
  }

  /** `Wrap` with the quotient f / d supplied as q. */
  function WrapQuotient(f: real, d: real, q: real): (r: real)
    requires d > 0.0 && q * d == f
    ensures 0.0 <= r < d
    ensures f - r == q.Floor as real * d
    ensures 0.0 <= f < d ==> r == f
    ensures d <= f < 2.0 * d ==> r == f - d
  {
    FractionScaled(Frac(q), d);
    WholeRest(q, q.Floor as real, d, f);
    QuotientBounds(f, d, q);
    FracShift(q, d, f);
    Frac(q) * d
  }

  lemma MultiplyBelow(x: real, y: real, d: real)
    requires d > 0.0
    ensures x <= y ==> x * d <= y * d
    ensures x < y ==> x * d < y * d
  {
  }

  lemma QuotientTimesDivisor(f: real, d: real)
    requires d > 0.0
    ensures (f / d) * d == f
  {
  }

  lemma QuotientBounds(f: real, d: real, q: real)
    requires d > 0.0 && q * d == f
    ensures 0.0 <= f < d ==> 0.0 <= q < 1.0
    ensures d <= f < 2.0 * d ==> 1.0 <= q < 2.0
  {
    if f < d && q >= 1.0 { MultiplyBelow(1.0, q, d); }
    if d <= f && q < 1.0 { MultiplyBelow(q, 1.0, d); }
    if 0.0 <= f && q < 0.0 { MultiplyBelow(q, 0.0, d); }
    if f < 2.0 * d && q >= 2.0 { MultiplyBelow(2.0, q, d); }
  }

  lemma FractionScaled(x: real, d: real)
    requires d > 0.0 && 0.0 <= x < 1.0
    ensures 0.0 <= x * d < d
  {
    MultiplyBelow(x, 1.0, d);
    MultiplyBelow(0.0, x, d);
  }

  lemma WholeRest(q: real, k: real, d: real, f: real)
    requires q * d == f
    ensures f - (q - k) * d == k * d
  {
  }

  lemma FracShift(q: real, d: real, f: real)
    requires q * d == f
    ensures 1.0 <= q < 2.0 ==> Frac(q) * d == f - d
  {
    if 1.0 <= q < 2.0 {
      assert Frac(q) == q - 1.0;
      assert (q - 1.0) * d == f - d;
    }
  }

  /** For a positive divisor, the quotient of x is below 1 exactly when x is below the divisor. */
  lemma QuotientBelowOne(x: real, d: real)
    requires d > 0.0
    ensures 0.0 <= x ==> 0.0 <= x / d
    ensures x < d ==> x / d < 1.0
  {
    QuotientTimesDivisor(x, d);
    MultiplyBelow(1.0, x / d, d);
    MultiplyBelow(x / d, 0.0, d);
  }

  /** The events a finished one-shot clip fires: its own hook, then the callback. */
  function CompletionEvents(a: Animation, clip: string, callback: Option<nat>): seq<Completion> {
    (if a.hasOnComplete then [ClipHook(clip)] else [])
      + (if callback.Some? then [Callback(callback.value)] else [])
  }

  /**
   * The end of a one-shot clip: the frame is held at duration - 1, the
   * hooks fire and the callback is dropped, then the queued clip, or else
   * idle, is force-played.
   */
  function Finish(cat: Catalog, v: AnimatorView, a: Animation): (r: (AnimatorView, seq<Completion>))
    ensures r.1 == CompletionEvents(a, v.state.current, v.callback)
    ensures r.0.callback == None && r.0.wasInAir == v.wasInAir && r.0.state.speed == v.state.speed
  {
    var held := v.(state := v.state.(frame := a.duration - 1.0), callback := None);
    var events := CompletionEvents(a, v.state.current, v.callback);
    if Truthy(v.queued) then (Play(cat, held.(queued := None), v.queued.value, true), events)
    else if v.state.current != "idle" then (Play(cat, held, "idle", true), events)
    else (held, events)
  }

  /**
   * One tick: the frame advances by speed * dt; past the end a looping clip
   * wraps and a one-shot clip finishes. Nothing happens when the current
   * clip is not in the catalog. Events fire only when a one-shot clip
   * finishes, and a fired callback is gone afterwards.
   */
  function Update(cat: Catalog, v: AnimatorView, dt: real): (r: (AnimatorView, seq<Completion>))
    requires ValidCatalog(cat)
    ensures v.state.current !in cat ==> r == (v, [])
    ensures r.0.wasInAir == v.wasInAir && r.0.state.speed == v.state.speed
    ensures r.1 != [] ==> v.state.current in cat && !cat[v.state.current].loop
    ensures |r.1| <= 2
    ensures forall e :: e in r.1 && e.Callback? ==> v.callback == Some(e.id) && r.0.callback == None
    ensures r.0.callback == v.callback || r.0.callback == None
  {
    if v.state.current !in cat then (v, [])
    else
      var a := cat[v.state.current];
      var f := v.state.frame + v.state.speed * dt;
      if f < a.duration then (v.(state := v.state.(frame := f)), [])
      else if a.loop then (v.(state := v.state.(frame := Wrap(f, a.duration))), [])
      else Finish(cat, v.(state := v.state.(frame := f)), a)
  }

  /** The three outcomes of `Update` for a clip in the catalog, one per branch. */
  lemma UpdateCases(cat: Catalog, v: AnimatorView, dt: real)
    requires ValidCatalog(cat) && v.state.current in cat
    ensures var a := cat[v.state.current];
            var f := v.state.frame + v.state.speed * dt;
            && (f < a.duration ==> Update(cat, v, dt) == (v.(state := v.state.(frame := f)), []))
            && (a.duration <= f && a.loop ==>
                  Update(cat, v, dt) == (v.(state := v.state.(frame := Wrap(f, a.duration))), []))
            && (a.duration <= f && !a.loop ==> Update(cat, v, dt) == Finish(cat, v.(state := v.state.(frame := f)), a))
  {
  }

  /** The landing gate: the running clip is unknown or below land's priority plus one. */
  predicate LandGate(cat: Catalog, current: string) {
    var land := if "land" in cat then Priority(cat["land"]) else 0.0;
    current !in cat || Priority(cat[current]) < land + 1.0
  }

  /**
   * Landing is edge-triggered: only the first grounded report after an
   * airborne one can force-play land, and only through the landing gate.
   * The airborne flag is then the negation of the report.
   */
  function UpdateGroundState(cat: Catalog, v: AnimatorView, grounded: bool): (r: AnimatorView)
    ensures r.wasInAir == !grounded
    ensures !(v.wasInAir && grounded) ==> r == v.(wasInAir := !grounded)
    ensures v.wasInAir && grounded && "land" in cat && LandGate(cat, v.state.current) ==>
      SwitchedTo(v, r.(wasInAir := v.wasInAir), "land", true)
    ensures !LandGate(cat, v.state.current) ==> r == v.(wasInAir := !grounded)
  {
    var landed := if v.wasInAir && grounded && LandGate(cat, v.state.current)
                  then Play(cat, v, "land", true) else v;
    landed.(wasInAir := !grounded)
  }

  /** Back to idle at frame 0 and speed 1 with nothing queued and no callback; the airborne flag stays. */
  function Reset(v: AnimatorView): (r: AnimatorView)
    ensures r.state == InitialState && r.queued == None && r.callback == None
    ensures r.wasInAir == v.wasInAir
  {
    AnimatorView(InitialState, None, None, v.wasInAir)
  }

  /** A negative speed is stored as 0. */
  function SetSpeed(v: AnimatorView, speed: real): (r: AnimatorView)
    ensures r.state.speed >= 0.0
    ensures speed >= 0.0 ==> r.state.speed == speed
    ensures speed < 0.0 ==> r.state.speed == 0.0
    ensures r == v.(state := v.state.(speed := r.state.speed))
  {
    v.(state := v.state.(speed := if speed > 0.0 then speed else 0.0))
  }

  /** Register the callback for the next completion, replacing any earlier one. */
  function OnComplete(v: AnimatorView, id: nat): (r: AnimatorView)
    ensures r.callback == Some(id) && r == v.(callback := r.callback)
  {
    v.(callback := Some(id))
  }

  predicate IsPlaying(v: AnimatorView, name: string) {
    v.state.current == name
  }

  /** An unknown clip counts as complete; otherwise a one-shot clip at or past its last frame. */
  predicate IsComplete(cat: Catalog, v: AnimatorView) {
    v.state.current !in cat
      || (!cat[v.state.current].loop && v.state.frame >= cat[v.state.current].duration - 1.0)
  }

  /** How far the current clip has run, as a fraction of its duration; 0 for an unknown clip. */
  function GetProgress(cat: Catalog, v: AnimatorView): (p: real)
    requires ValidCatalog(cat)
    ensures v.state.current in cat && 0.0 <= v.state.frame < cat[v.state.current].duration ==> 0.0 <= p < 1.0
    ensures v.state.current !in cat || v.state.frame == 0.0 ==> p == 0.0
  {
    if v.state.current !in cat then 0.0
    else
      var a := cat[v.state.current];
      QuotientBelowOne(v.state.frame, a.duration);
      v.state.frame / a.duration
  }

  // ---------------------------------------------------------------------
  // The playback invariant

  /** Every clip lasts at least one frame, so the held last frame is not negative. */
  predicate Playable(cat: Catalog) {
    forall n :: n in cat ==> cat[n].duration >= 1.0
  }

  /**
   * What every operation keeps: speed is not negative, the frame of a known
   * clip lies in [0, duration), and a queued name is in the catalog.
   */
  predicate Inv(cat: Catalog, v: AnimatorView) {
    && v.state.speed >= 0.0
    && (v.state.current in cat ==> 0.0 <= v.state.frame < cat[v.state.current].duration)
    && (v.queued.Some? ==> v.queued.value in cat)
  }

  lemma InitialInv(cat: Catalog)
    requires Playable(cat)
    ensures Inv(cat, InitialView)
  {
  }

  lemma PlayInv(cat: Catalog, v: AnimatorView, name: string, force: bool)
    requires Playable(cat) && Inv(cat, v)
    ensures Inv(cat, Play(cat, v, name, force))
  {
  }

  lemma QueueInv(cat: Catalog, v: AnimatorView, name: string)
    requires Inv(cat, v)
    ensures Inv(cat, Queue(cat, v, name))
  {
  }

  /** With a forward step, a tick keeps the frame of the running clip inside the clip. */
  lemma {:induction false} UpdateInv(cat: Catalog, v: AnimatorView, dt: real)
    requires Playable(cat) && Inv(cat, v) && dt >= 0.0
    ensures Inv(cat, Update(cat, v, dt).0)
  {
    if v.state.current in cat {
      var a := cat[v.state.current];
      var f := v.state.frame + v.state.speed * dt;
      assert v.state.speed * dt >= 0.0;
      if f >= a.duration && !a.loop {
        var held := v.(state := v.state.(frame := a.duration - 1.0), callback := None);
        assert Inv(cat, held);
        if Truthy(v.queued) {
          PlayInv(cat, held.(queued := None), v.queued.value, true);
        } else if v.state.current != "idle" {
          PlayInv(cat, held, "idle", true);
        }
      }
    }
  }

  lemma UpdateGroundStateInv(cat: Catalog, v: AnimatorView, grounded: bool)
    requires Playable(cat) && Inv(cat, v)
    ensures Inv(cat, UpdateGroundState(cat, v, grounded))
  {
    if v.wasInAir && grounded && LandGate(cat, v.state.current) {
      PlayInv(cat, v, "land", true);
    }
  }

  lemma ResetInv(cat: Catalog, v: AnimatorView)
    requires Playable(cat)
    ensures Inv(cat, Reset(v))
  {
  }

  lemma SetSpeedInv(cat: Catalog, v: AnimatorView, speed: real)
    requires Inv(cat, v)
    ensures Inv(cat, SetSpeed(v, speed))
  {
  }

  /** Under the invariant the progress of the running clip lies in [0, 1). */
  lemma ProgressInRange(cat: Catalog, v: AnimatorView)
    requires ValidCatalog(cat) && Inv(cat, v)
    ensures 0.0 <= GetProgress(cat, v) < 1.0
  {
  }

  // ---------------------------------------------------------------------
  // Playback properties

  /** After a request that switches, the clip is playing from the start. */
  lemma {:induction false} PlaySwitchesFromStart(cat: Catalog, v: AnimatorView, name: string, force: bool)
    requires ValidCatalog(cat) && name in cat
    requires force || (v.state.current != name && !Gate(cat, v.state.current, name))
    ensures var r := Play(cat, v, name, force);
      IsPlaying(r, name) && GetProgress(cat, r) == 0.0 && r.queued == None
  {
  }

  /** A clip of strictly higher priority than the running one always interrupts it. */
  lemma HigherPriorityInterrupts(cat: Catalog, v: AnimatorView, name: string)
    requires name in cat && v.state.current in cat
    requires Priority(cat[name]) > Priority(cat[v.state.current])
    ensures SwitchedTo(v, Play(cat, v, name, false), name, false)
  {
  }

  /** A request that does not outrank a running one-shot clip waits in the queue. */
  lemma LowerPriorityWaits(cat: Catalog, v: AnimatorView, name: string)
    requires name in cat && v.state.current in cat && v.state.current != name
    requires !cat[v.state.current].loop && Priority(cat[name]) <= Priority(cat[v.state.current])
    ensures var r := Play(cat, v, name, false);
      r.state == v.state && r.queued == Some(name)
  {
  }

  /**
   * A looping clip past its end keeps the overshoot: the frame is back in
   * [0, duration), a whole number of durations below the advanced frame, and
   * exactly one duration below it when the overshoot is less than a period.
   */
  lemma {:induction false} LoopKeepsRemainder(cat: Catalog, v: AnimatorView, dt: real)
    requires ValidCatalog(cat) && v.state.current in cat && cat[v.state.current].loop
    requires v.state.frame + v.state.speed * dt >= cat[v.state.current].duration
    ensures var d := cat[v.state.current].duration;
      var f := v.state.frame + v.state.speed * dt;
      var r := Update(cat, v, dt);
      && r.1 == []
      && r.0.state.current == v.state.current
      && 0.0 <= r.0.state.frame < d
      && f - r.0.state.frame == (f / d).Floor as real * d
      && (f < 2.0 * d ==> r.0.state.frame == f - d)
  {
    LoopUpdateWraps(cat, v, dt, v.state.frame + v.state.speed * dt);
  }

  lemma LoopUpdateWraps(cat: Catalog, v: AnimatorView, dt: real, f: real)
    requires ValidCatalog(cat) && v.state.current in cat && cat[v.state.current].loop
    requires f == v.state.frame + v.state.speed * dt && f >= cat[v.state.current].duration
    ensures Update(cat, v, dt) == (v.(state := v.state.(frame := Wrap(f, cat[v.state.current].duration))), [])
  {
  }

  /**
   * A one-shot clip pushed to its end fires its hook and the callback once,
   * drops the callback, and then plays the queued clip from frame 0 with the
   * queue emptied, or else idle from frame 0; an idle that is itself
   * one-shot and has nothing queued holds its last frame.
   */
  lemma {:induction false} OneShotFinishes(cat: Catalog, v: AnimatorView, dt: real)
    requires ValidCatalog(cat) && Inv(cat, v) && v.state.current in cat
    requires !cat[v.state.current].loop
    requires v.state.frame + v.state.speed * dt >= cat[v.state.current].duration
    ensures var a := cat[v.state.current];
      var r := Update(cat, v, dt);
      && r.1 == CompletionEvents(a, v.state.current, v.callback)
      && r.0.callback == None
      && (Truthy(v.queued) ==>
            r.0.state == AnimationState(v.queued.value, 0.0, v.state.speed, true) && r.0.queued == None)
      && (!Truthy(v.queued) && v.state.current != "idle" && "idle" in cat ==>
            r.0.state == AnimationState("idle", 0.0, v.state.speed, true) && r.0.queued == None)
      && (!Truthy(v.queued) && v.state.current == "idle" ==>
            r.0.state == v.state.(frame := a.duration - 1.0) && r.0.queued == v.queued)
  {
  }

  /**
   * A one-shot idle clip with nothing queued that runs to its end stays on
   * its last frame, and the completion query then reports it finished.
   */
  lemma FinishedIdleIsComplete(cat: Catalog, v: AnimatorView, dt: real)
    requires ValidCatalog(cat) && "idle" in cat && !cat["idle"].loop
    requires v.state.current == "idle" && !Truthy(v.queued)
    requires v.state.frame + v.state.speed * dt >= cat["idle"].duration
    ensures var r := Update(cat, v, dt).0;
      IsComplete(cat, r) && IsPlaying(r, "idle") && r.state.frame == cat["idle"].duration - 1.0
  {
  }

  /**
   * With a tick of exactly one frame, a known clip that the query reports
   * complete finishes on that tick, firing its completion events and
   * dropping the callback; a clip not reported complete fires nothing and
   * keeps its callback.
   */
  lemma {:induction false} CompleteFinishesOnNextFrame(cat: Catalog, v: AnimatorView, dt: real)
    requires ValidCatalog(cat) && Inv(cat, v) && v.state.current in cat
    requires v.state.speed * dt == 1.0
    ensures var r := Update(cat, v, dt);
      IsComplete(cat, v) ==>
        r.1 == CompletionEvents(cat[v.state.current], v.state.current, v.callback) && r.0.callback == None
    ensures var r := Update(cat, v, dt);
      !IsComplete(cat, v) ==> r.1 == [] && r.0.callback == v.callback
  {
    UpdateCases(cat, v, dt);
    var a := cat[v.state.current];
    var f := v.state.frame + v.state.speed * dt;
    if IsComplete(cat, v) {
      assert !a.loop && a.duration <= f;
    } else if !a.loop {
      assert f < a.duration;
    }
  }

  /** Number of callback events in a sequence of events. */
  function CallbackCount(events: seq<Completion>): nat {
    if events == [] then 0
    else (if events[0].Callback? then 1 else 0) + CallbackCount(events[1..])
  }

  lemma {:induction false} CallbackCountAppend(a: seq<Completion>, b: seq<Completion>)
    ensures CallbackCount(a + b) == CallbackCount(a) + CallbackCount(b)
  {
    if a != [] {
      assert a + b != [] && (a + b)[0] == a[0];
      assert (a + b)[1..] == a[1..] + b;
      CallbackCountAppend(a[1..], b);
      assert CallbackCount(a + b) == (if a[0].Callback? then 1 else 0) + CallbackCount(a[1..] + b);
      assert CallbackCount(a) == (if a[0].Callback? then 1 else 0) + CallbackCount(a[1..]);
    } else {
      assert a + b == b;
    }
  }

  /** Ticks in a row, with the events of each concatenated. */
  function Run(cat: Catalog, v: AnimatorView, dts: seq<real>): (AnimatorView, seq<Completion>)
    requires ValidCatalog(cat)
    decreases |dts|
  {
    if dts == [] then (v, [])
    else
      var step := Update(cat, v, dts[0]);
      var rest := Run(cat, step.0, dts[1..]);
      (rest.0, step.1 + rest.1)
  }

  /**
   * However many ticks run, a registered callback fires at most once, and
   * none fires when none was registered.
   */
  lemma {:induction false} CallbackFiresAtMostOnce(cat: Catalog, v: AnimatorView, dts: seq<real>)
    requires ValidCatalog(cat)
    ensures CallbackCount(Run(cat, v, dts).1) <= (if v.callback.Some? then 1 else 0)
    decreases |dts|
  {
    if dts != [] {
      var step := Update(cat, v, dts[0]);
      CallbackFiresAtMostOnce(cat, step.0, dts[1..]);
      CallbackCountAppend(step.1, Run(cat, step.0, dts[1..]).1);
      var e := step.1;
      if e != [] {
        assert |e| == 1 || |e| == 2;
        if |e| == 2 {
          assert e == [e[0]] + [e[1]];
          CallbackCountAppend([e[0]], [e[1]]);
          assert e[0] in e && e[1] in e;
        } else {
          assert e[0] in e;
        }
        assert CallbackCount(e) == 0 || (v.callback.Some? && step.0.callback == None);
      }
    }
  }

  /** Landing needs the airborne report first: a grounded report from the ground does nothing. */
  lemma LandingIsEdgeTriggered(cat: Catalog)
    requires "land" in cat && "idle" in cat && Priority(cat["idle"]) < Priority(cat["land"]) + 1.0
    ensures UpdateGroundState(cat, InitialView, true) == InitialView
    ensures var air := UpdateGroundState(cat, InitialView, false);
      var down := UpdateGroundState(cat, air, true);
      && air == InitialView.(wasInAir := true)
      && down.state == AnimationState("land", 0.0, 1.0, true)
      && !down.wasInAir
      && UpdateGroundState(cat, down, true) == down
  {
  }
}
