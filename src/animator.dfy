/**
 * The per-entity animator: the current clip, its fractional frame, the
 * playback speed, a single queued clip, a one-shot completion callback and
 * the airborne flag used for landing. Each method runs the corresponding
 * transition of `Playback` in place; `fired` records the completion events
 * in the order they fire.
 */
module AnimatorObject {
  import opened Wrappers
  import opened AnimationTypes
  import opened Pose
  import opened Playback

  class Animator {
    const animations: Catalog
    var state: AnimationState
    var queuedAnimation: Option<string>
    var onCompleteCallback: Option<nat>
    var wasInAir: bool
    ghost var fired: seq<Completion>  // completion events, oldest first
    ghost var updates: nat  // how many times Update has run

    ghost predicate Valid()
      reads this
    {
      ValidCatalog(animations)
    }

    function View(): AnimatorView
      reads this
    {
      AnimatorView(state, queuedAnimation, onCompleteCallback, wasInAir)
    }

    constructor(animations: Catalog)
      requires ValidCatalog(animations)
      ensures Valid() && this.animations == animations
      ensures View() == InitialView && fired == [] && updates == 0
    {
      this.animations := animations;
      state := AnimationState("idle", 0.0, 1.0, false);
      queuedAnimation := None;
      onCompleteCallback := None;
      wasInAir := false;
      fired := [];
      updates := 0;
    }

    method Play(animationName: string, force: bool)
      requires Valid()
      modifies this
      ensures Valid() && fired == old(fired) && updates == old(updates)
      ensures View() == Playback.Play(animations, old(View()), animationName, force)
    {
      if state.current == animationName && !force {
        return;
      }
      if animationName !in animations {
        return;
      }
      var newPriority := Priority(animations[animationName]);
      if !force && state.current in animations && !animations[state.current].loop
        && Priority(animations[state.current]) >= newPriority
      {
        if queuedAnimation != Some(animationName) {
          queuedAnimation := Some(animationName);
        }
        return;
      }
      state := state.(current := animationName, frame := 0.0, forced := force);
      queuedAnimation := None;
    }

    method Queue(animationName: string)
      requires Valid()
      modifies this
      ensures Valid() && fired == old(fired) && updates == old(updates)
      ensures View() == Playback.Queue(animations, old(View()), animationName)
    {
      if animationName in animations {
        queuedAnimation := Some(animationName);
      }
    }

    method Update(deltaTime: real)
      requires Valid()
      modifies this
      ensures Valid()
      ensures View() == Playback.Update(animations, old(View()), deltaTime).0
      ensures fired == old(fired) + Playback.Update(animations, old(View()), deltaTime).1
      ensures updates == old(updates) + 1
    {
      updates := updates + 1;
      if state.current !in animations {
        return;
      }
      ghost var v := View();
      assert v == old(View()) && fired == old(fired);
      UpdateCases(animations, v, deltaTime);
      Advance(state.frame + state.speed * deltaTime);
    }

    /**
     * The clip's playhead moves to `frame`; past the end a looping clip
     * wraps and a one-shot clip finishes.
     */
    method Advance(frame: real)
      requires Valid() && state.current in animations
      modifies this
      ensures Valid() && updates == old(updates)
      ensures var v := old(View());
        var a := animations[v.state.current];
        var moved := v.(state := v.state.(frame := frame));
        && (frame < a.duration ==> View() == moved && fired == old(fired))
        && (a.duration <= frame && a.loop ==>
              View() == v.(state := v.state.(frame := Wrap(frame, a.duration))) && fired == old(fired))
        && (a.duration <= frame && !a.loop ==>
              View() == Finish(animations, moved, a).0 && fired == old(fired) + Finish(animations, moved, a).1)
    {
      var animation := animations[state.current];
      SetFrame(frame);
      if frame >= animation.duration {
        if animation.loop {
          SetFrame(Wrap(frame, animation.duration));
        } else {
          FinishClip(animation);
        }
      }
    }

    /** Moves the playhead of the current clip and touches nothing else. */
    method SetFrame(frame: real)
      modifies this
      ensures View() == old(View()).(state := old(View()).state.(frame := frame))
      ensures fired == old(fired) && updates == old(updates)
    {
      state := state.(frame := frame);
    }

    /** The end of a one-shot clip, the branch of `Update` past its last frame. */
    method FinishClip(animation: Animation)
      requires Valid()
      modifies this
      ensures Valid()
      ensures View() == Finish(animations, old(View()), animation).0
      ensures fired == old(fired) + Finish(animations, old(View()), animation).1
      ensures updates == old(updates)
    {
      state := state.(frame := animation.duration - 1.0);
      if animation.hasOnComplete {
        fired := fired + [ClipHook(state.current)];
      }
      if onCompleteCallback.Some? {
        fired := fired + [Callback(onCompleteCallback.value)];
        onCompleteCallback := None;
      }
      if Truthy(queuedAnimation) {
        var queued := queuedAnimation.value;
        queuedAnimation := None;
        Play(queued, true);
      } else if state.current != "idle" {
        Play("idle", true);
      }
    }

    /** The pose at the current frame, found by the same scan the game runs. */
    method GetCurrentPose() returns (pose: InterpolatedPose)
      requires Valid()
      ensures pose == CurrentPose(animations, state)
    {
      if state.current !in animations || |animations[state.current].keyframes| == 0 {
        return DefaultPose;
      }
      var animation := animations[state.current];
      var normalizedTime := state.frame / animation.duration;
      var keyframes := animation.keyframes;
      var k1 := keyframes[0];
      var k2 := keyframes[0];
      var localT := 0.0;
      var i := 0;
      while i < |keyframes| - 1
        invariant 0 <= i <= |keyframes| - 1
        invariant FindSegment(keyframes, normalizedTime, i) == FindSegment(keyframes, normalizedTime, 0)
        invariant k1 == keyframes[0] && k2 == keyframes[0] && localT == 0.0
      {
        if keyframes[i].time <= normalizedTime <= keyframes[i + 1].time {
          k1 := keyframes[i];
          k2 := keyframes[i + 1];
          localT := Fraction(normalizedTime, k1.time, k2.time);
          break;
        }
        i := i + 1;
      }
      ghost var s := FindSegment(keyframes, normalizedTime, 0);
      assert k1 == keyframes[s.k1] && k2 == keyframes[s.k2] && localT == s.localT;
      if normalizedTime >= keyframes[|keyframes| - 1].time {
        k1 := keyframes[|keyframes| - 1];
        k2 := keyframes[|keyframes| - 1];
        localT := 1.0;
      }
      var easedT := ApplyEasing(localT, EasingOf(k2));
      pose := InterpolateKeyframes(k1, k2, easedT);
    }

    predicate IsPlaying(animationName: string)
      reads this
    {
      Playback.IsPlaying(View(), animationName)
    }

    predicate IsComplete()
      reads this
    {
      Playback.IsComplete(animations, View())
    }

    function GetProgress(): real
      reads this
      requires Valid()
    {
      Playback.GetProgress(animations, View())
    }

    method OnComplete(callback: nat)
      requires Valid()
      modifies this
      ensures Valid() && fired == old(fired) && updates == old(updates)
      ensures View() == Playback.OnComplete(old(View()), callback)
    {
      onCompleteCallback := Some(callback);
    }

    method Reset()
      requires Valid()
      modifies this
      ensures Valid() && fired == old(fired) && updates == old(updates)
      ensures View() == Playback.Reset(old(View()))
    {
      state := AnimationState("idle", 0.0, 1.0, false);
      queuedAnimation := None;
      onCompleteCallback := None;
    }

    method SetSpeed(speed: real)
      requires Valid()
      modifies this
      ensures Valid() && fired == old(fired) && updates == old(updates)
      ensures View() == Playback.SetSpeed(old(View()), speed)
    {
      state := state.(speed := if speed > 0.0 then speed else 0.0);
    }

    method UpdateGroundState(isGrounded: bool)
      requires Valid()
      modifies this
      ensures Valid() && fired == old(fired) && updates == old(updates)
      ensures View() == Playback.UpdateGroundState(animations, old(View()), isGrounded)
    {
      if wasInAir && isGrounded {
        var landPriority := if "land" in animations then Priority(animations["land"]) else 0.0;
        if state.current !in animations || Priority(animations[state.current]) < landPriority + 1.0 {
          Play("land", true);
        }
      }
      wasInAir := !isGrounded;
    }
  }
}
