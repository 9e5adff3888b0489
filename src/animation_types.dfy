/**
 * Shapes of the keyframe animation system: partial transforms carried by
 * keyframes, clip definitions, playback state and the fully resolved pose.
 * Every optional field of a keyframe is an `Option`; an absent field means
 * "use the default pose", never "carry over the neighbouring keyframe".
 */
module AnimationTypes {
  import opened Wrappers

  /** The five easing curves a keyframe may name for its incoming transition. */
  datatype Easing = Linear | EaseIn | EaseOut | EaseInOut | Bounce

  /** Partial transform of the body or the head. */
  datatype BodyPartTransform = BodyPartTransform(
    x: Option<real> := None,
    y: Option<real> := None,
    scaleX: Option<real> := None,
    scaleY: Option<real> := None,
    rotation: Option<real> := None)

  /** Partial transform of an arm or a leg. */
  datatype LimbTransform = LimbTransform(
    rotation: Option<real> := None,
    length: Option<real> := None)

  /** Partial transform of the weapon. */
  datatype WeaponTransform = WeaponTransform(
    rotation: Option<real> := None,
    x: Option<real> := None,
    y: Option<real> := None)

  /** A keyframe: a normalized time plus an optional transform per slot. */
  datatype Keyframe = Keyframe(
    time: real,
    body: Option<BodyPartTransform> := None,
    head: Option<BodyPartTransform> := None,
    armFront: Option<LimbTransform> := None,
    armBack: Option<LimbTransform> := None,
    legFront: Option<LimbTransform> := None,
    legBack: Option<LimbTransform> := None,
    weapon: Option<WeaponTransform> := None,
    easing: Option<Easing> := None)

  /**
   * A clip. `hasOnComplete` says whether the clip carries its own completion
   * hook; the hook itself is a closure and is represented only by its firing.
   */
  datatype Animation = Animation(
    name: string,
    duration: real,
    loop: bool,
    keyframes: seq<Keyframe>,
    hasOnComplete: bool := false,
    priority: Option<real> := None)

  /** Name to clip, one table per character archetype. */
  type Catalog = map<string, Animation>

  /** The public playback record of an animator. */
  datatype AnimationState = AnimationState(current: string, frame: real, speed: real, forced: bool)

  /** Fully resolved transforms: every field present. */
  datatype BodyPose = BodyPose(x: real, y: real, scaleX: real, scaleY: real, rotation: real)
  datatype LimbPose = LimbPose(rotation: real, length: real)
  datatype WeaponPose = WeaponPose(rotation: real, x: real, y: real)

  datatype InterpolatedPose = InterpolatedPose(
    body: BodyPose,
    head: BodyPose,
    armFront: LimbPose,
    armBack: LimbPose,
    legFront: LimbPose,
    legBack: LimbPose,
    weapon: WeaponPose)

  /** The neutral pose every omitted field falls back to. */
  const DefaultPose := InterpolatedPose(
    BodyPose(0.0, 0.0, 1.0, 1.0, 0.0),
    BodyPose(0.0, 0.0, 1.0, 1.0, 0.0),
    LimbPose(0.0, 1.0),
    LimbPose(0.0, 1.0),
    LimbPose(0.0, 1.0),
    LimbPose(0.0, 1.0),
    WeaponPose(0.0, 0.0, 0.0))

  /** A clip's priority, 0 when it declares none. */
  function Priority(a: Animation): real {
    a.priority.GetOr(0.0)
  }

  /** The easing a keyframe's incoming transition uses, linear when unset. */
  function EasingOf(k: Keyframe): Easing {
    k.easing.GetOr(Linear)
  }

  /** Each keyframe's time is below the next one's. */
  predicate Ascending(kfs: seq<Keyframe>) {
    forall i :: 0 <= i < |kfs| - 1 ==> kfs[i].time < kfs[i + 1].time
  }

  /** Keyframe times are strictly increasing. */
  predicate StrictlyIncreasing(kfs: seq<Keyframe>) {
    forall i, j :: 0 <= i < j < |kfs| ==> kfs[i].time < kfs[j].time
  }

  /** What playback of a catalog relies on: positive durations. */
  predicate ValidCatalog(cat: Catalog) {
    forall n :: n in cat ==> cat[n].duration > 0.0
  }

  /** What pose search of a clip relies on: keyframes from 0 to 1 in increasing order. */
  predicate WellFormedClip(a: Animation) {
    && a.duration > 0.0
    && |a.keyframes| >= 2
    && a.keyframes[0].time == 0.0
    && a.keyframes[|a.keyframes| - 1].time == 1.0
    && StrictlyIncreasing(a.keyframes)
  }

  /** Adjacent order gives order between any two keyframes. */
  lemma {:induction false} AscendingIsStrictlyIncreasing(kfs: seq<Keyframe>)
    requires Ascending(kfs)
    ensures StrictlyIncreasing(kfs)
  {
    if |kfs| > 1 {
      var rest := kfs[1..];
      assert Ascending(rest) by {
        forall i | 0 <= i < |rest| - 1 ensures rest[i].time < rest[i + 1].time {
          assert rest[i] == kfs[i + 1] && rest[i + 1] == kfs[i + 2];
        }
      }
      AscendingIsStrictlyIncreasing(rest);
      forall i, j | 0 <= i < j < |kfs| ensures kfs[i].time < kfs[j].time {
        if i > 0 {
          assert kfs[i] == rest[i - 1] && kfs[j] == rest[j - 1];
        } else if j > 1 {
          assert kfs[1] == rest[0] && kfs[j] == rest[j - 1];
        }
      }
    }
  }
}
