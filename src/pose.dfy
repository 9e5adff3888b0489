/**
 * Pose computation of the keyframe animator: easing curves, filling a
 * keyframe's omitted transforms from the default pose, blending two
 * keyframes, and locating the pair of keyframes that brackets a point of a
 * clip's normalized timeline.
 */
module Pose {
  import opened Wrappers
  import opened AnimationTypes

  function Sq(x: real): real { x * x }

  /** `a + (b - a) * t`: a at t = 0, b at t = 1, and a when both ends agree. */
  function Lerp(a: real, b: real, t: real): (r: real)
    ensures t == 0.0 ==> r == a
    ensures t == 1.0 ==> r == b
    ensures a == b ==> r == a
  {
    a + (b - a) * t
  }

  /** For t in [0, 1] the blend stays between its two ends. */
  lemma LerpBetween(a: real, b: real, t: real)
    requires 0.0 <= t <= 1.0
    ensures a <= b ==> a <= Lerp(a, b, t) <= b
    ensures b <= a ==> b <= Lerp(a, b, t) <= a
  {
    var d := b - a;
    assert Lerp(a, b, t) == a + d * t;
    if a <= b {
      ScaleBetween(d, t);
    } else {
      ScaleBetween(-d, t);
      NegTimes(d, t);
    }
  }

  lemma NegTimes(x: real, t: real)
    ensures (-x) * t == -(x * t)
  {
  }

  lemma ScaleBetween(x: real, t: real)
    requires x >= 0.0 && 0.0 <= t <= 1.0
    ensures 0.0 <= x * t <= x
  {
    assert x * (1.0 - t) >= 0.0;
  }

  /**
   * The easing curves. Each fixes 0 and 1; the two piecewise curves switch
   * branch at one half.
   */
  function ApplyEasing(t: real, e: Easing): (r: real)
    ensures t == 0.0 ==> r == 0.0
    ensures t == 1.0 ==> r == 1.0
    ensures e == Linear ==> r == t
  {
    match e
    case Linear => t
    case EaseIn => t * t
    case EaseOut => 1.0 - (1.0 - t) * (1.0 - t)
    case EaseInOut => if t < 0.5 then 2.0 * t * t else 1.0 - Sq(-2.0 * t + 2.0) / 2.0
    case Bounce => if t < 0.5 then 8.0 * t * t * t * t else 1.0 - Sq(Sq(-2.0 * t + 2.0)) / 2.0
  }

  lemma SquareMonotone(a: real, b: real)
    requires 0.0 <= a <= b
    ensures 0.0 <= a * a <= b * b
  {
    assert a * a <= a * b;
    assert a * b <= b * b;
  }

  lemma SquareAtMostOne(a: real)
    requires 0.0 <= a <= 1.0
    ensures 0.0 <= a * a <= 1.0
  {
    SquareMonotone(a, 1.0);
  }

  /** Both halves of a piecewise curve meet at one half. */
  lemma EasingContinuousAtHalf(e: Easing)
    ensures e == EaseInOut ==> 2.0 * 0.5 * 0.5 == ApplyEasing(0.5, e) == 0.5
    ensures e == Bounce ==> 8.0 * 0.5 * 0.5 * 0.5 * 0.5 == ApplyEasing(0.5, e) == 0.5
  {
  }

  /** Every curve maps [0, 1] into [0, 1]. */
  lemma {:induction false} EasingRange(t: real, e: Easing)
    requires 0.0 <= t <= 1.0
    ensures 0.0 <= ApplyEasing(t, e) <= 1.0
  {
    match e
    case Linear =>
    case EaseIn => SquareAtMostOne(t);
    case EaseOut => SquareAtMostOne(1.0 - t);
    case EaseInOut =>
      if t < 0.5 { SquareMonotone(t, 0.5); } else { SquareAtMostOne(-2.0 * t + 2.0); }
    case Bounce =>
      if t < 0.5 {
        SquareMonotone(t, 0.5);
        SquareMonotone(t * t, 0.25);
        assert 8.0 * t * t * t * t == 8.0 * ((t * t) * (t * t));
      } else {
        SquareAtMostOne(-2.0 * t + 2.0);
        SquareAtMostOne(Sq(-2.0 * t + 2.0));
      }
  }

  /** Lower half of a piecewise curve stays below one half, the upper half at or above it. */
  lemma PiecewiseHalves(t: real, e: Easing)
    requires e == EaseInOut || e == Bounce
    requires 0.0 <= t <= 1.0
    ensures t < 0.5 ==> ApplyEasing(t, e) < 0.5
    ensures t >= 0.5 ==> ApplyEasing(t, e) >= 0.5
  {
    if t < 0.5 {
      SquareMonotone(t, 0.5);
      if e == Bounce {
        SquareMonotone(t * t, 0.25);
        assert 8.0 * t * t * t * t == 8.0 * ((t * t) * (t * t));
        assert t * t < 0.25 by {
          assert t * t <= t * 0.5;
          assert t * 0.5 < 0.25;
        }
        assert (t * t) * (t * t) < 0.0625 by {
          assert (t * t) * (t * t) <= (t * t) * 0.25;
        }
      } else {
        assert t * t <= t * 0.5;
      }
    } else {
      SquareAtMostOne(-2.0 * t + 2.0);
      SquareAtMostOne(Sq(-2.0 * t + 2.0));
    }
  }

  /** Every curve is non-decreasing on [0, 1]: a pose never runs backwards within a segment. */
  lemma {:induction false} EasingMonotone(t1: real, t2: real, e: Easing)
    requires 0.0 <= t1 <= t2 <= 1.0
    ensures ApplyEasing(t1, e) <= ApplyEasing(t2, e)
  {
    match e
    case Linear =>
    case EaseIn => SquareMonotone(t1, t2);
    case EaseOut => SquareMonotone(1.0 - t2, 1.0 - t1);
    case EaseInOut => EaseInOutMonotone(t1, t2);
    case Bounce => BounceMonotone(t1, t2);
  }

  lemma EaseInOutMonotone(t1: real, t2: real)
    requires 0.0 <= t1 <= t2 <= 1.0
    ensures ApplyEasing(t1, EaseInOut) <= ApplyEasing(t2, EaseInOut)
  {
    if t2 < 0.5 {
      SquareMonotone(t1, t2);
    } else if t1 >= 0.5 {
      SquareMonotone(-2.0 * t2 + 2.0, -2.0 * t1 + 2.0);
    } else {
      PiecewiseHalves(t1, EaseInOut);
      PiecewiseHalves(t2, EaseInOut);
    }
  }

  lemma BounceMonotone(t1: real, t2: real)
    requires 0.0 <= t1 <= t2 <= 1.0
    ensures ApplyEasing(t1, Bounce) <= ApplyEasing(t2, Bounce)
  {
    if t2 < 0.5 {
      SquareMonotone(t1, t2);
      SquareMonotone(t1 * t1, t2 * t2);
      assert 8.0 * t1 * t1 * t1 * t1 == 8.0 * ((t1 * t1) * (t1 * t1));
      assert 8.0 * t2 * t2 * t2 * t2 == 8.0 * ((t2 * t2) * (t2 * t2));
    } else if t1 >= 0.5 {
      SquareMonotone(-2.0 * t2 + 2.0, -2.0 * t1 + 2.0);
      SquareMonotone(Sq(-2.0 * t2 + 2.0), Sq(-2.0 * t1 + 2.0));
    } else {
      PiecewiseHalves(t1, Bounce);
      PiecewiseHalves(t2, Bounce);
    }
  }

  /** A body or head transform with each omitted field taken from the default body. */
  function ResolveBody(p: Option<BodyPartTransform>): BodyPose {
    var d := DefaultPose.body;
    match p
    case None => d
    case Some(b) =>
      BodyPose(b.x.GetOr(d.x), b.y.GetOr(d.y), b.scaleX.GetOr(d.scaleX),
               b.scaleY.GetOr(d.scaleY), b.rotation.GetOr(d.rotation))
  }

  /** A limb transform with each omitted field taken from the default front arm. */
  function ResolveLimb(l: Option<LimbTransform>): LimbPose {
    var d := DefaultPose.armFront;
    match l
    case None => d
    case Some(m) => LimbPose(m.rotation.GetOr(d.rotation), m.length.GetOr(d.length))
  }

  /** A weapon transform with each omitted field taken from the default weapon. */
  function ResolveWeapon(w: Option<WeaponTransform>): WeaponPose {
    var d := DefaultPose.weapon;
    match w
    case None => d
    case Some(v) => WeaponPose(v.rotation.GetOr(d.rotation), v.x.GetOr(d.x), v.y.GetOr(d.y))
  }

  /** The full pose a keyframe stands for. */
  function Resolve(k: Keyframe): InterpolatedPose {
    InterpolatedPose(
      ResolveBody(k.body), ResolveBody(k.head),
      ResolveLimb(k.armFront), ResolveLimb(k.armBack),
      ResolveLimb(k.legFront), ResolveLimb(k.legBack),
      ResolveWeapon(k.weapon))
  }

  /** The keyframe that spells out every field of a pose. */
  function FullKeyframe(time: real, p: InterpolatedPose): Keyframe {
    Keyframe(time,
      body := Some(BodyTransformOf(p.body)), head := Some(BodyTransformOf(p.head)),
      armFront := Some(LimbTransformOf(p.armFront)), armBack := Some(LimbTransformOf(p.armBack)),
      legFront := Some(LimbTransformOf(p.legFront)), legBack := Some(LimbTransformOf(p.legBack)),
      weapon := Some(WeaponTransform(Some(p.weapon.rotation), Some(p.weapon.x), Some(p.weapon.y))))
  }

  function BodyTransformOf(b: BodyPose): BodyPartTransform {
    BodyPartTransform(Some(b.x), Some(b.y), Some(b.scaleX), Some(b.scaleY), Some(b.rotation))
  }

  function LimbTransformOf(l: LimbPose): LimbTransform {
    LimbTransform(Some(l.rotation), Some(l.length))
  }

  /** Spelled-out fields are used as given: resolving a full keyframe gives its pose back. */
  lemma ResolveFullKeyframe(time: real, p: InterpolatedPose)
    ensures Resolve(FullKeyframe(time, p)) == p
  {
  }

  /** A keyframe that names nothing stands for the default pose. */
  lemma ResolveEmptyKeyframe(time: real)
    ensures Resolve(Keyframe(time)) == DefaultPose
  {
  }

  /**
   * The head falls back to the default body and the back arm and the legs to
   * the default front arm; since those defaults coincide with the head's and
   * the legs' own, every omitted field still lands on its own slot's default.
   */
  lemma ResolveUsesOwnSlotDefaults()
    ensures ResolveBody(None) == DefaultPose.head
    ensures ResolveLimb(None) == DefaultPose.armBack == DefaultPose.legFront == DefaultPose.legBack
  {
  }

  function LerpBody(a: BodyPose, b: BodyPose, t: real): BodyPose {
    BodyPose(Lerp(a.x, b.x, t), Lerp(a.y, b.y, t), Lerp(a.scaleX, b.scaleX, t),
             Lerp(a.scaleY, b.scaleY, t), Lerp(a.rotation, b.rotation, t))
  }

  function LerpLimb(a: LimbPose, b: LimbPose, t: real): LimbPose {
    LimbPose(Lerp(a.rotation, b.rotation, t), Lerp(a.length, b.length, t))
  }

  function LerpWeapon(a: WeaponPose, b: WeaponPose, t: real): WeaponPose {
    WeaponPose(Lerp(a.rotation, b.rotation, t), Lerp(a.x, b.x, t), Lerp(a.y, b.y, t))
  }

  /**
   * Field-by-field blend of two keyframes' resolved poses: the first at
   * t = 0, the second at t = 1, and the keyframe itself when both are equal.
   */
  function InterpolateKeyframes(k1: Keyframe, k2: Keyframe, t: real): (r: InterpolatedPose)
    ensures t == 0.0 ==> r == Resolve(k1)
    ensures t == 1.0 ==> r == Resolve(k2)
    ensures Resolve(k1) == Resolve(k2) ==> r == Resolve(k1)
  {
    var a := Resolve(k1);
    var b := Resolve(k2);
    InterpolatedPose(
      LerpBody(a.body, b.body, t), LerpBody(a.head, b.head, t),
      LerpLimb(a.armFront, b.armFront, t), LerpLimb(a.armBack, b.armBack, t),
      LerpLimb(a.legFront, b.legFront, t), LerpLimb(a.legBack, b.legBack, t),
      LerpWeapon(a.weapon, b.weapon, t))
  }

  /** The pair of keyframes the pose blends, by index, with the local fraction between them. */
  datatype Segment = Segment(k1: nat, k2: nat, localT: real)

  /** Keyframes i and i + 1 enclose the normalized time u. */
  predicate Brackets(kfs: seq<Keyframe>, u: real, i: int)
    requires 0 <= i < |kfs| - 1
  {
    kfs[i].time <= u <= kfs[i + 1].time
  }

  /**
   * How far u lies from t1 towards t2, as the fraction of the gap; 0 when
   * the two times coincide.
   */
  function Fraction(u: real, t1: real, t2: real): (r: real)
    requires t1 <= u <= t2
    ensures 0.0 <= r <= 1.0
    ensures t1 < t2 ==> r * (t2 - t1) == u - t1
    ensures t1 < t2 && t1 < u < t2 ==> 0.0 < r < 1.0
  {
    var diff := t2 - t1;
    if diff > 0.0 then (u - t1) / diff else 0.0
  }

  /**
   * The scan from index i for the first adjacent pair enclosing u; when none
   * does, the first keyframe on its own with fraction 0.
   */
  function FindSegment(kfs: seq<Keyframe>, u: real, i: nat): (s: Segment)
    requires |kfs| >= 1
    ensures s.k1 < |kfs| && s.k2 < |kfs|
    ensures s.k2 == s.k1 + 1 || s == Segment(0, 0, 0.0)
    ensures s.k2 == s.k1 + 1 ==>
      && i <= s.k1 && Brackets(kfs, u, s.k1)
      && (forall j :: i <= j < s.k1 ==> !Brackets(kfs, u, j))
      && s.localT == Fraction(u, kfs[s.k1].time, kfs[s.k2].time)
    ensures s.k2 != s.k1 + 1 ==> forall j :: i <= j < |kfs| - 1 ==> !Brackets(kfs, u, j)
    decreases |kfs| - i
  {
    if i + 1 >= |kfs| then Segment(0, 0, 0.0)
    else if Brackets(kfs, u, i) then Segment(i, i + 1, Fraction(u, kfs[i].time, kfs[i + 1].time))
    else FindSegment(kfs, u, i + 1)
  }

  /** The segment the pose uses: past the last keyframe, the last keyframe held at fraction 1. */
  function SelectSegment(kfs: seq<Keyframe>, u: real): (s: Segment)
    requires |kfs| >= 1
    ensures s.k1 < |kfs| && s.k2 < |kfs|
  {
    if u >= kfs[|kfs| - 1].time then Segment(|kfs| - 1, |kfs| - 1, 1.0)
    else FindSegment(kfs, u, 0)
  }

  /** The pose of a clip at a frame; the incoming keyframe's easing shapes the fraction. */
  function PoseAt(a: Animation, frame: real): InterpolatedPose
    requires a.duration > 0.0 && |a.keyframes| >= 1
  {
    var kfs := a.keyframes;
    var s := SelectSegment(kfs, frame / a.duration);
    InterpolateKeyframes(kfs[s.k1], kfs[s.k2], ApplyEasing(s.localT, EasingOf(kfs[s.k2])))
  }

  /** The pose for a playback state: the default pose for an unknown or empty clip. */
  function CurrentPose(cat: Catalog, st: AnimationState): InterpolatedPose
    requires ValidCatalog(cat)
  {
    if st.current !in cat || |cat[st.current].keyframes| == 0 then DefaultPose
    else PoseAt(cat[st.current], st.frame)
  }

  /** An unknown clip or a clip without keyframes shows the default pose. */
  lemma CurrentPoseDefault(cat: Catalog, st: AnimationState)
    requires ValidCatalog(cat)
    requires st.current !in cat || cat[st.current].keyframes == []
    ensures CurrentPose(cat, st) == DefaultPose
  {
  }

  /** With increasing times, the first pair enclosing u starts at j when u lies in (t_j, t_j+1]. */
  lemma FirstBracketIs(kfs: seq<Keyframe>, u: real, j: nat)
    requires StrictlyIncreasing(kfs)
    requires j < |kfs| - 1 && Brackets(kfs, u, j)
    requires j == 0 || u > kfs[j].time
    ensures FindSegment(kfs, u, 0).k1 == j && FindSegment(kfs, u, 0).k2 == j + 1
  {
  }

  /**
   * At a keyframe's own time the scan picks the pair ending at it with
   * fraction 1 (the last keyframe: held at fraction 1), except the first
   * keyframe, which starts the first pair with fraction 0.
   */
  lemma {:induction false} SegmentAtKeyframe(kfs: seq<Keyframe>, j: nat)
    requires StrictlyIncreasing(kfs) && j < |kfs|
    ensures var s := SelectSegment(kfs, kfs[j].time);
      (s.k2 == j && s.localT == 1.0) || (j == 0 && s.k1 == 0 && s.localT == 0.0)
  {
    var n := |kfs|;
    var u := kfs[j].time;
    if j < n - 1 {
      assert kfs[j].time < kfs[n - 1].time;
      assert SelectSegment(kfs, u) == FindSegment(kfs, u, 0);
      if j == 0 {
        FirstBracketIs(kfs, u, 0);
        FractionAtEnds(kfs[0].time, kfs[1].time);
      } else {
        assert kfs[j - 1].time < kfs[j].time;
        FirstBracketIs(kfs, u, j - 1);
        FractionAtEnds(kfs[j - 1].time, kfs[j].time);
      }
    }
  }

  /** The fraction is 0 at the start of a gap and 1 at its end. */
  lemma FractionAtEnds(t1: real, t2: real)
    requires t1 < t2
    ensures Fraction(t1, t1, t2) == 0.0 && Fraction(t2, t1, t2) == 1.0
  {
  }

  /**
   * At the instant of a keyframe the pose is exactly that keyframe's pose,
   * whatever the easing.
   */
  lemma {:induction false} PoseAtKeyframe(a: Animation, j: nat)
    requires WellFormedClip(a) && j < |a.keyframes|
    ensures PoseAt(a, a.keyframes[j].time * a.duration) == Resolve(a.keyframes[j])
  {
    assert a.keyframes[j].time * a.duration / a.duration == a.keyframes[j].time;
    SegmentAtKeyframe(a.keyframes, j);
  }

  /**
   * Strictly between two neighbouring keyframes the scan picks exactly those
   * two, at the fraction of the way from the first to the second.
   */
  lemma {:induction false} SegmentBetweenKeyframes(kfs: seq<Keyframe>, j: nat, u: real)
    requires StrictlyIncreasing(kfs) && j + 1 < |kfs|
    requires kfs[j].time < u < kfs[j + 1].time
    ensures var t := Fraction(u, kfs[j].time, kfs[j + 1].time);
      0.0 < t < 1.0 && SelectSegment(kfs, u) == Segment(j, j + 1, t)
  {
    assert kfs[j + 1].time <= kfs[|kfs| - 1].time;
    FirstBracketIs(kfs, u, j);
  }

  /**
   * Strictly between two neighbouring keyframes the pose blends exactly those
   * two, at the eased fraction of the way from the first to the second.
   */
  lemma {:induction false} PoseBetweenKeyframes(a: Animation, j: nat, frame: real)
    requires WellFormedClip(a) && j + 1 < |a.keyframes|
    requires a.keyframes[j].time < frame / a.duration < a.keyframes[j + 1].time
    ensures var kfs := a.keyframes;
      var t := Fraction(frame / a.duration, kfs[j].time, kfs[j + 1].time);
      0.0 < t < 1.0 &&
      PoseAt(a, frame) == InterpolateKeyframes(kfs[j], kfs[j + 1], ApplyEasing(t, EasingOf(kfs[j + 1])))
  {
    SegmentBetweenKeyframes(a.keyframes, j, frame / a.duration);
  }

  /** From the last keyframe's time on, the pose holds the last keyframe. */
  lemma PoseAfterLastKeyframe(a: Animation, frame: real)
    requires a.duration > 0.0 && |a.keyframes| >= 1
    requires frame / a.duration >= a.keyframes[|a.keyframes| - 1].time
    ensures PoseAt(a, frame) == Resolve(a.keyframes[|a.keyframes| - 1])
  {
  }

  /** Before the first keyframe's time nothing encloses the frame and the first keyframe is held. */
  lemma PoseBeforeFirstKeyframe(a: Animation, frame: real)
    requires a.duration > 0.0 && |a.keyframes| >= 1 && StrictlyIncreasing(a.keyframes)
    requires frame / a.duration < a.keyframes[0].time
    ensures PoseAt(a, frame) == Resolve(a.keyframes[0])
  {
  }
}
