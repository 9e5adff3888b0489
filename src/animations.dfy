/**
 * The two constant clip tables of animations.ts, transcribed value for value:
 * the knight's organic motions and the robot's mechanical ones. Each clip is
 * a constant of its own; the catalogs map clip names to them.
 */
module Animations {
  import opened Wrappers
  import opened AnimationTypes

  // animations.ts:13-52
  const KnightIdle := Animation(
    "idle", 60.0, true,
    [
      Keyframe(0.0,
        body := Some(BodyPartTransform(y := Some(0.0), scaleY := Some(1.0))),
        head := Some(BodyPartTransform(y := Some(0.0), rotation := Some(0.0))),
        armFront := Some(LimbTransform(rotation := Some(0.0))),
        armBack := Some(LimbTransform(rotation := Some(0.0))),
        legFront := Some(LimbTransform(rotation := Some(0.0))),
        legBack := Some(LimbTransform(rotation := Some(0.0))),
        weapon := Some(WeaponTransform(rotation := Some(0.0), y := Some(0.0)))),
      Keyframe(0.5,
        body := Some(BodyPartTransform(y := Some(-2.0), scaleY := Some(1.02))),
        head := Some(BodyPartTransform(y := Some(-1.0), rotation := Some(0.0))),
        armFront := Some(LimbTransform(rotation := Some(-0.05))),
        armBack := Some(LimbTransform(rotation := Some(0.05))),
        legFront := Some(LimbTransform(rotation := Some(0.0))),
        legBack := Some(LimbTransform(rotation := Some(0.0))),
        weapon := Some(WeaponTransform(rotation := Some(0.1), y := Some(-1.0))),
        easing := Some(EaseInOut)),
      Keyframe(1.0,
        body := Some(BodyPartTransform(y := Some(0.0), scaleY := Some(1.0))),
        head := Some(BodyPartTransform(y := Some(0.0), rotation := Some(0.0))),
        armFront := Some(LimbTransform(rotation := Some(0.0))),
        armBack := Some(LimbTransform(rotation := Some(0.0))),
        legFront := Some(LimbTransform(rotation := Some(0.0))),
        legBack := Some(LimbTransform(rotation := Some(0.0))),
        weapon := Some(WeaponTransform(rotation := Some(0.0), y := Some(0.0))),
        easing := Some(EaseInOut))
    ],
    priority := Some(0.0))

  // animations.ts:54-120
  const KnightWalk := Animation(
    "walk", 30.0, true,
    [
      Keyframe(0.0,
        body := Some(BodyPartTransform(y := Some(0.0), scaleY := Some(1.0))),
        head := Some(BodyPartTransform(y := Some(0.0))),
        armFront := Some(LimbTransform(rotation := Some(-0.4))),
        armBack := Some(LimbTransform(rotation := Some(0.4))),
        legFront := Some(LimbTransform(rotation := Some(0.5))),
        legBack := Some(LimbTransform(rotation := Some(-0.4))),
        weapon := Some(WeaponTransform(rotation := Some(-0.2)))),
      Keyframe(0.25,
        body := Some(BodyPartTransform(y := Some(2.0), scaleY := Some(0.98))),
        head := Some(BodyPartTransform(y := Some(1.0))),
        armFront := Some(LimbTransform(rotation := Some(0.0))),
        armBack := Some(LimbTransform(rotation := Some(0.0))),
        legFront := Some(LimbTransform(rotation := Some(0.0))),
        legBack := Some(LimbTransform(rotation := Some(0.0))),
        weapon := Some(WeaponTransform(rotation := Some(0.0))),
        easing := Some(EaseOut)),
      Keyframe(0.5,
        body := Some(BodyPartTransform(y := Some(0.0), scaleY := Some(1.0))),
        head := Some(BodyPartTransform(y := Some(0.0))),
        armFront := Some(LimbTransform(rotation := Some(0.4))),
        armBack := Some(LimbTransform(rotation := Some(-0.4))),
        legFront := Some(LimbTransform(rotation := Some(-0.4))),
        legBack := Some(LimbTransform(rotation := Some(0.5))),
        weapon := Some(WeaponTransform(rotation := Some(0.2))),
        easing := Some(EaseInOut)),
      Keyframe(0.75,
        body := Some(BodyPartTransform(y := Some(2.0), scaleY := Some(0.98))),
        head := Some(BodyPartTransform(y := Some(1.0))),
        armFront := Some(LimbTransform(rotation := Some(0.0))),
        armBack := Some(LimbTransform(rotation := Some(0.0))),
        legFront := Some(LimbTransform(rotation := Some(0.0))),
        legBack := Some(LimbTransform(rotation := Some(0.0))),
        weapon := Some(WeaponTransform(rotation := Some(0.0))),
        easing := Some(EaseOut)),
      Keyframe(1.0,
        body := Some(BodyPartTransform(y := Some(0.0), scaleY := Some(1.0))),
        head := Some(BodyPartTransform(y := Some(0.0))),
        armFront := Some(LimbTransform(rotation := Some(-0.4))),
        armBack := Some(LimbTransform(rotation := Some(0.4))),
        legFront := Some(LimbTransform(rotation := Some(0.5))),
        legBack := Some(LimbTransform(rotation := Some(-0.4))),
        weapon := Some(WeaponTransform(rotation := Some(-0.2))),
        easing := Some(EaseInOut))
    ],
    priority := Some(1.0))

  // animations.ts:122-200
  const KnightJump := Animation(
    "jump", 40.0, false,
    [
      Keyframe(0.0,
        body := Some(BodyPartTransform(y := Some(4.0), scaleX := Some(1.05), scaleY := Some(0.9))),
        head := Some(BodyPartTransform(y := Some(2.0))),
        armFront := Some(LimbTransform(rotation := Some(0.3))),
        armBack := Some(LimbTransform(rotation := Some(0.3))),
        legFront := Some(LimbTransform(rotation := Some(0.4))),
        legBack := Some(LimbTransform(rotation := Some(0.4))),
        weapon := Some(WeaponTransform(rotation := Some(0.5)))),
      Keyframe(0.15,
        body := Some(BodyPartTransform(y := Some(-4.0), scaleX := Some(0.95), scaleY := Some(1.15))),
        head := Some(BodyPartTransform(y := Some(-3.0))),
        armFront := Some(LimbTransform(rotation := Some(-0.8))),
        armBack := Some(LimbTransform(rotation := Some(-0.6))),
        legFront := Some(LimbTransform(rotation := Some(-0.2))),
        legBack := Some(LimbTransform(rotation := Some(-0.3))),
        weapon := Some(WeaponTransform(rotation := Some(-0.8), y := Some(-4.0))),
        easing := Some(EaseOut)),
      Keyframe(0.4,
        body := Some(BodyPartTransform(y := Some(-2.0), scaleX := Some(1.0), scaleY := Some(1.05))),
        head := Some(BodyPartTransform(y := Some(-2.0), rotation := Some(0.05))),
        armFront := Some(LimbTransform(rotation := Some(-0.3))),
        armBack := Some(LimbTransform(rotation := Some(0.2))),
        legFront := Some(LimbTransform(rotation := Some(0.1))),
        legBack := Some(LimbTransform(rotation := Some(-0.2))),
        weapon := Some(WeaponTransform(rotation := Some(-0.3), y := Some(-2.0))),
        easing := Some(EaseInOut)),
      Keyframe(0.6,
        body := Some(BodyPartTransform(y := Some(-1.0), scaleX := Some(1.0), scaleY := Some(1.02))),
        head := Some(BodyPartTransform(y := Some(-1.0), rotation := Some(0.1))),
        armFront := Some(LimbTransform(rotation := Some(0.1))),
        armBack := Some(LimbTransform(rotation := Some(0.3))),
        legFront := Some(LimbTransform(rotation := Some(0.2))),
        legBack := Some(LimbTransform(rotation := Some(-0.1))),
        weapon := Some(WeaponTransform(rotation := Some(0.1), y := Some(-1.0))),
        easing := Some(EaseInOut)),
      Keyframe(0.85,
        body := Some(BodyPartTransform(y := Some(0.0), scaleX := Some(1.0), scaleY := Some(1.0))),
        head := Some(BodyPartTransform(y := Some(0.0), rotation := Some(0.15))),
        armFront := Some(LimbTransform(rotation := Some(0.5))),
        armBack := Some(LimbTransform(rotation := Some(0.6))),
        legFront := Some(LimbTransform(rotation := Some(-0.3))),
        legBack := Some(LimbTransform(rotation := Some(0.2))),
        weapon := Some(WeaponTransform(rotation := Some(0.4), y := Some(0.0))),
        easing := Some(EaseIn)),
      Keyframe(1.0,
        body := Some(BodyPartTransform(y := Some(2.0), scaleX := Some(1.02), scaleY := Some(0.95))),
        head := Some(BodyPartTransform(y := Some(1.0))),
        armFront := Some(LimbTransform(rotation := Some(0.3))),
        armBack := Some(LimbTransform(rotation := Some(0.4))),
        legFront := Some(LimbTransform(rotation := Some(0.3))),
        legBack := Some(LimbTransform(rotation := Some(0.3))),
        weapon := Some(WeaponTransform(rotation := Some(0.3))),
        easing := Some(EaseIn))
    ],
    priority := Some(2.0))

  // animations.ts:202-268
  const KnightDoubleJump := Animation(
    "doubleJump", 20.0, false,
    [
      Keyframe(0.0,
        body := Some(BodyPartTransform(y := Some(0.0), scaleY := Some(1.0), rotation := Some(0.0))),
        head := Some(BodyPartTransform(y := Some(0.0), rotation := Some(0.0))),
        armFront := Some(LimbTransform(rotation := Some(-0.5))),
        armBack := Some(LimbTransform(rotation := Some(0.5))),
        legFront := Some(LimbTransform(rotation := Some(0.3))),
        legBack := Some(LimbTransform(rotation := Some(-0.3))),
        weapon := Some(WeaponTransform(rotation := Some(-1.5), x := Some(-5.0)))),
      Keyframe(0.25,
        body := Some(BodyPartTransform(y := Some(-3.0), scaleX := Some(1.1), scaleY := Some(0.9), rotation := Some(0.5))),
        head := Some(BodyPartTransform(y := Some(-2.0), rotation := Some(0.3))),
        armFront := Some(LimbTransform(rotation := Some(-1.2))),
        armBack := Some(LimbTransform(rotation := Some(1.0))),
        legFront := Some(LimbTransform(rotation := Some(0.8))),
        legBack := Some(LimbTransform(rotation := Some(-0.6))),
        weapon := Some(WeaponTransform(rotation := Some(-0.8), x := Some(0.0), y := Some(-3.0))),
        easing := Some(EaseOut)),
      Keyframe(0.5,
        body := Some(BodyPartTransform(y := Some(-4.0), scaleX := Some(1.15), scaleY := Some(0.85), rotation := Some(1.0))),
        head := Some(BodyPartTransform(y := Some(-3.0), rotation := Some(0.5))),
        armFront := Some(LimbTransform(rotation := Some(-1.8))),
        armBack := Some(LimbTransform(rotation := Some(1.5))),
        legFront := Some(LimbTransform(rotation := Some(1.2))),
        legBack := Some(LimbTransform(rotation := Some(-1.0))),
        weapon := Some(WeaponTransform(rotation := Some(0.0), x := Some(5.0), y := Some(-4.0))),
        easing := Some(EaseInOut)),
      Keyframe(0.75,
        body := Some(BodyPartTransform(y := Some(-2.0), scaleX := Some(1.05), scaleY := Some(0.95), rotation := Some(0.5))),
        head := Some(BodyPartTransform(y := Some(-1.0), rotation := Some(0.2))),
        armFront := Some(LimbTransform(rotation := Some(-0.8))),
        armBack := Some(LimbTransform(rotation := Some(0.6))),
        legFront := Some(LimbTransform(rotation := Some(0.5))),
        legBack := Some(LimbTransform(rotation := Some(-0.4))),
        weapon := Some(WeaponTransform(rotation := Some(0.5), x := Some(2.0), y := Some(-2.0))),
        easing := Some(EaseIn)),
      Keyframe(1.0,
        body := Some(BodyPartTransform(y := Some(0.0), scaleX := Some(1.0), scaleY := Some(1.0), rotation := Some(0.0))),
        head := Some(BodyPartTransform(y := Some(0.0), rotation := Some(0.0))),
        armFront := Some(LimbTransform(rotation := Some(0.2))),
        armBack := Some(LimbTransform(rotation := Some(0.3))),
        legFront := Some(LimbTransform(rotation := Some(0.2))),
        legBack := Some(LimbTransform(rotation := Some(0.2))),
        weapon := Some(WeaponTransform(rotation := Some(0.3), x := Some(0.0), y := Some(0.0))),
        easing := Some(EaseOut))
    ],
    priority := Some(3.0))

  // animations.ts:270-336
  const KnightAttack := Animation(
    "attack", 25.0, false,
    [
      Keyframe(0.0,
        body := Some(BodyPartTransform(y := Some(0.0), scaleX := Some(0.95), rotation := Some(-0.1))),
        head := Some(BodyPartTransform(rotation := Some(-0.1))),
        armFront := Some(LimbTransform(rotation := Some(-1.5))),
        armBack := Some(LimbTransform(rotation := Some(0.2))),
        legFront := Some(LimbTransform(rotation := Some(-0.2))),
        legBack := Some(LimbTransform(rotation := Some(0.3))),
        weapon := Some(WeaponTransform(rotation := Some(-2.2), x := Some(-8.0), y := Some(-5.0)))),
      Keyframe(0.32,
        body := Some(BodyPartTransform(y := Some(-1.0), scaleX := Some(0.92), rotation := Some(-0.15))),
        head := Some(BodyPartTransform(rotation := Some(-0.15))),
        armFront := Some(LimbTransform(rotation := Some(-2.0))),
        armBack := Some(LimbTransform(rotation := Some(0.4))),
        legFront := Some(LimbTransform(rotation := Some(-0.3))),
        legBack := Some(LimbTransform(rotation := Some(0.4))),
        weapon := Some(WeaponTransform(rotation := Some(-2.8), x := Some(-12.0), y := Some(-8.0))),
        easing := Some(EaseOut)),
      Keyframe(0.48,
        body := Some(BodyPartTransform(y := Some(-2.0), scaleX := Some(1.1), rotation := Some(0.2))),
        head := Some(BodyPartTransform(rotation := Some(0.2))),
        armFront := Some(LimbTransform(rotation := Some(0.8))),
        armBack := Some(LimbTransform(rotation := Some(-0.3))),
        legFront := Some(LimbTransform(rotation := Some(0.4))),
        legBack := Some(LimbTransform(rotation := Some(-0.2))),
        weapon := Some(WeaponTransform(rotation := Some(1.2), x := Some(8.0), y := Some(0.0))),
        easing := Some(Linear)),
      Keyframe(0.64,
        body := Some(BodyPartTransform(y := Some(0.0), scaleX := Some(1.05), rotation := Some(0.15))),
        head := Some(BodyPartTransform(rotation := Some(0.15))),
        armFront := Some(LimbTransform(rotation := Some(1.5))),
        armBack := Some(LimbTransform(rotation := Some(-0.4))),
        legFront := Some(LimbTransform(rotation := Some(0.3))),
        legBack := Some(LimbTransform(rotation := Some(-0.3))),
        weapon := Some(WeaponTransform(rotation := Some(2.0), x := Some(12.0), y := Some(3.0))),
        easing := Some(EaseOut)),
      Keyframe(1.0,
        body := Some(BodyPartTransform(y := Some(0.0), scaleX := Some(1.0), rotation := Some(0.0))),
        head := Some(BodyPartTransform(rotation := Some(0.0))),
        armFront := Some(LimbTransform(rotation := Some(0.0))),
        armBack := Some(LimbTransform(rotation := Some(0.0))),
        legFront := Some(LimbTransform(rotation := Some(0.0))),
        legBack := Some(LimbTransform(rotation := Some(0.0))),
        weapon := Some(WeaponTransform(rotation := Some(0.0), x := Some(0.0), y := Some(0.0))),
        easing := Some(EaseInOut))
    ],
    priority := Some(4.0))

  // animations.ts:338-392
  const KnightHurt := Animation(
    "hurt", 15.0, false,
    [
      Keyframe(0.0,
        body := Some(BodyPartTransform(y := Some(0.0), scaleX := Some(1.1), scaleY := Some(0.9), rotation := Some(-0.2))),
        head := Some(BodyPartTransform(y := Some(2.0), rotation := Some(-0.3))),
        armFront := Some(LimbTransform(rotation := Some(0.5))),
        armBack := Some(LimbTransform(rotation := Some(0.8))),
        legFront := Some(LimbTransform(rotation := Some(-0.2))),
        legBack := Some(LimbTransform(rotation := Some(0.3))),
        weapon := Some(WeaponTransform(rotation := Some(0.8), x := Some(3.0)))),
      Keyframe(0.3,
        body := Some(BodyPartTransform(y := Some(2.0), scaleX := Some(1.15), scaleY := Some(0.85), rotation := Some(-0.25))),
        head := Some(BodyPartTransform(y := Some(4.0), rotation := Some(-0.4))),
        armFront := Some(LimbTransform(rotation := Some(0.8))),
        armBack := Some(LimbTransform(rotation := Some(1.2))),
        legFront := Some(LimbTransform(rotation := Some(-0.3))),
        legBack := Some(LimbTransform(rotation := Some(0.4))),
        weapon := Some(WeaponTransform(rotation := Some(1.2), x := Some(5.0))),
        easing := Some(EaseOut)),
      Keyframe(0.7,
        body := Some(BodyPartTransform(y := Some(1.0), scaleX := Some(1.05), scaleY := Some(0.95), rotation := Some(-0.1))),
        head := Some(BodyPartTransform(y := Some(2.0), rotation := Some(-0.15))),
        armFront := Some(LimbTransform(rotation := Some(0.3))),
        armBack := Some(LimbTransform(rotation := Some(0.5))),
        legFront := Some(LimbTransform(rotation := Some(-0.1))),
        legBack := Some(LimbTransform(rotation := Some(0.2))),
        weapon := Some(WeaponTransform(rotation := Some(0.4), x := Some(2.0))),
        easing := Some(EaseInOut)),
      Keyframe(1.0,
        body := Some(BodyPartTransform(y := Some(0.0), scaleX := Some(1.0), scaleY := Some(1.0), rotation := Some(0.0))),
        head := Some(BodyPartTransform(y := Some(0.0), rotation := Some(0.0))),
        armFront := Some(LimbTransform(rotation := Some(0.0))),
        armBack := Some(LimbTransform(rotation := Some(0.0))),
        legFront := Some(LimbTransform(rotation := Some(0.0))),
        legBack := Some(LimbTransform(rotation := Some(0.0))),
        weapon := Some(WeaponTransform(rotation := Some(0.0), x := Some(0.0))),
        easing := Some(EaseOut))
    ],
    priority := Some(5.0))

  // animations.ts:394-460
  const KnightDeath := Animation(
    "death", 45.0, false,
    [
      Keyframe(0.0,
        body := Some(BodyPartTransform(y := Some(0.0), scaleY := Some(1.0), rotation := Some(0.0))),
        head := Some(BodyPartTransform(y := Some(0.0), rotation := Some(0.0))),
        armFront := Some(LimbTransform(rotation := Some(0.0))),
        armBack := Some(LimbTransform(rotation := Some(0.0))),
        legFront := Some(LimbTransform(rotation := Some(0.0))),
        legBack := Some(LimbTransform(rotation := Some(0.0))),
        weapon := Some(WeaponTransform(rotation := Some(0.0), x := Some(0.0), y := Some(0.0)))),
      Keyframe(0.15,
        body := Some(BodyPartTransform(y := Some(0.0), scaleY := Some(0.95), rotation := Some(-0.3))),
        head := Some(BodyPartTransform(y := Some(2.0), rotation := Some(-0.4))),
        armFront := Some(LimbTransform(rotation := Some(0.6))),
        armBack := Some(LimbTransform(rotation := Some(1.0))),
        legFront := Some(LimbTransform(rotation := Some(-0.2))),
        legBack := Some(LimbTransform(rotation := Some(0.3))),
        weapon := Some(WeaponTransform(rotation := Some(1.5), x := Some(3.0), y := Some(0.0))),
        easing := Some(EaseOut)),
      Keyframe(0.4,
        body := Some(BodyPartTransform(y := Some(10.0), scaleY := Some(0.8), rotation := Some(-0.4))),
        head := Some(BodyPartTransform(y := Some(5.0), rotation := Some(-0.5))),
        armFront := Some(LimbTransform(rotation := Some(0.8))),
        armBack := Some(LimbTransform(rotation := Some(1.3))),
        legFront := Some(LimbTransform(rotation := Some(0.8))),
        legBack := Some(LimbTransform(rotation := Some(0.6))),
        weapon := Some(WeaponTransform(rotation := Some(2.5), x := Some(8.0), y := Some(5.0))),
        easing := Some(EaseIn)),
      Keyframe(0.7,
        body := Some(BodyPartTransform(y := Some(25.0), scaleX := Some(1.2), scaleY := Some(0.6), rotation := Some(-0.8))),
        head := Some(BodyPartTransform(y := Some(15.0), rotation := Some(-0.8))),
        armFront := Some(LimbTransform(rotation := Some(1.2))),
        armBack := Some(LimbTransform(rotation := Some(1.8))),
        legFront := Some(LimbTransform(rotation := Some(1.0))),
        legBack := Some(LimbTransform(rotation := Some(0.8))),
        weapon := Some(WeaponTransform(rotation := Some(3.5), x := Some(15.0), y := Some(15.0))),
        easing := Some(EaseIn)),
      Keyframe(1.0,
        body := Some(BodyPartTransform(y := Some(35.0), scaleX := Some(1.4), scaleY := Some(0.4), rotation := Some(-1.2))),
        head := Some(BodyPartTransform(y := Some(20.0), rotation := Some(-1.0))),
        armFront := Some(LimbTransform(rotation := Some(1.5))),
        armBack := Some(LimbTransform(rotation := Some(2.0))),
        legFront := Some(LimbTransform(rotation := Some(1.2))),
        legBack := Some(LimbTransform(rotation := Some(1.0))),
        weapon := Some(WeaponTransform(rotation := Some(4.0), x := Some(20.0), y := Some(25.0))),
        easing := Some(EaseOut))
    ],
    priority := Some(10.0))

  // animations.ts:462-504
  const KnightLand := Animation(
    "land", 12.0, false,
    [
      Keyframe(0.0,
        body := Some(BodyPartTransform(y := Some(6.0), scaleX := Some(1.15), scaleY := Some(0.8))),
        head := Some(BodyPartTransform(y := Some(3.0))),
        armFront := Some(LimbTransform(rotation := Some(0.4))),
        armBack := Some(LimbTransform(rotation := Some(0.5))),
        legFront := Some(LimbTransform(rotation := Some(0.5))),
        legBack := Some(LimbTransform(rotation := Some(0.5))),
        weapon := Some(WeaponTransform(rotation := Some(0.5)))),
      Keyframe(0.4,
        body := Some(BodyPartTransform(y := Some(3.0), scaleX := Some(1.08), scaleY := Some(0.9))),
        head := Some(BodyPartTransform(y := Some(1.5))),
        armFront := Some(LimbTransform(rotation := Some(0.2))),
        armBack := Some(LimbTransform(rotation := Some(0.25))),
        legFront := Some(LimbTransform(rotation := Some(0.3))),
        legBack := Some(LimbTransform(rotation := Some(0.3))),
        weapon := Some(WeaponTransform(rotation := Some(0.25))),
        easing := Some(EaseOut)),
      Keyframe(1.0,
        body := Some(BodyPartTransform(y := Some(0.0), scaleX := Some(1.0), scaleY := Some(1.0))),
        head := Some(BodyPartTransform(y := Some(0.0))),
        armFront := Some(LimbTransform(rotation := Some(0.0))),
        armBack := Some(LimbTransform(rotation := Some(0.0))),
        legFront := Some(LimbTransform(rotation := Some(0.0))),
        legBack := Some(LimbTransform(rotation := Some(0.0))),
        weapon := Some(WeaponTransform(rotation := Some(0.0))),
        easing := Some(EaseOut))
    ],
    priority := Some(2.0))

  // animations.ts:512-563
  const RobotIdle := Animation(
    "idle", 90.0, true,
    [
      Keyframe(0.0,
        body := Some(BodyPartTransform(y := Some(0.0), scaleY := Some(1.0))),
        head := Some(BodyPartTransform(y := Some(0.0), rotation := Some(0.0))),
        armFront := Some(LimbTransform(rotation := Some(0.0))),
        armBack := Some(LimbTransform(rotation := Some(0.0))),
        legFront := Some(LimbTransform(rotation := Some(0.0))),
        legBack := Some(LimbTransform(rotation := Some(0.0))),
        weapon := Some(WeaponTransform(rotation := Some(0.0)))),
      Keyframe(0.33,
        body := Some(BodyPartTransform(y := Some(-1.0), scaleY := Some(1.01))),
        head := Some(BodyPartTransform(y := Some(0.0), rotation := Some(0.02))),
        armFront := Some(LimbTransform(rotation := Some(0.0))),
        armBack := Some(LimbTransform(rotation := Some(0.0))),
        legFront := Some(LimbTransform(rotation := Some(0.0))),
        legBack := Some(LimbTransform(rotation := Some(0.0))),
        weapon := Some(WeaponTransform(rotation := Some(0.05))),
        easing := Some(Linear)),
      Keyframe(0.66,
        body := Some(BodyPartTransform(y := Some(-1.0), scaleY := Some(1.01))),
        head := Some(BodyPartTransform(y := Some(0.0), rotation := Some(-0.02))),
        armFront := Some(LimbTransform(rotation := Some(0.0))),
        armBack := Some(LimbTransform(rotation := Some(0.0))),
        legFront := Some(LimbTransform(rotation := Some(0.0))),
        legBack := Some(LimbTransform(rotation := Some(0.0))),
        weapon := Some(WeaponTransform(rotation := Some(-0.05))),
        easing := Some(Linear)),
      Keyframe(1.0,
        body := Some(BodyPartTransform(y := Some(0.0), scaleY := Some(1.0))),
        head := Some(BodyPartTransform(y := Some(0.0), rotation := Some(0.0))),
        armFront := Some(LimbTransform(rotation := Some(0.0))),
        armBack := Some(LimbTransform(rotation := Some(0.0))),
        legFront := Some(LimbTransform(rotation := Some(0.0))),
        legBack := Some(LimbTransform(rotation := Some(0.0))),
        weapon := Some(WeaponTransform(rotation := Some(0.0))),
        easing := Some(Linear))
    ],
    priority := Some(0.0))

  // animations.ts:565-627
  const RobotWalk := Animation(
    "walk", 24.0, true,
    [
      Keyframe(0.0,
        body := Some(BodyPartTransform(y := Some(0.0))),
        head := Some(BodyPartTransform(y := Some(0.0))),
        armFront := Some(LimbTransform(rotation := Some(-0.3))),
        armBack := Some(LimbTransform(rotation := Some(0.3))),
        legFront := Some(LimbTransform(rotation := Some(0.4))),
        legBack := Some(LimbTransform(rotation := Some(-0.3))),
        weapon := Some(WeaponTransform(rotation := Some(-0.1)))),
      Keyframe(0.25,
        body := Some(BodyPartTransform(y := Some(1.0))),
        head := Some(BodyPartTransform(y := Some(0.0))),
        armFront := Some(LimbTransform(rotation := Some(0.0))),
        armBack := Some(LimbTransform(rotation := Some(0.0))),
        legFront := Some(LimbTransform(rotation := Some(0.0))),
        legBack := Some(LimbTransform(rotation := Some(0.0))),
        weapon := Some(WeaponTransform(rotation := Some(0.0))),
        easing := Some(Linear)),
      Keyframe(0.5,
        body := Some(BodyPartTransform(y := Some(0.0))),
        head := Some(BodyPartTransform(y := Some(0.0))),
        armFront := Some(LimbTransform(rotation := Some(0.3))),
        armBack := Some(LimbTransform(rotation := Some(-0.3))),
        legFront := Some(LimbTransform(rotation := Some(-0.3))),
        legBack := Some(LimbTransform(rotation := Some(0.4))),
        weapon := Some(WeaponTransform(rotation := Some(0.1))),
        easing := Some(Linear)),
      Keyframe(0.75,
        body := Some(BodyPartTransform(y := Some(1.0))),
        head := Some(BodyPartTransform(y := Some(0.0))),
        armFront := Some(LimbTransform(rotation := Some(0.0))),
        armBack := Some(LimbTransform(rotation := Some(0.0))),
        legFront := Some(LimbTransform(rotation := Some(0.0))),
        legBack := Some(LimbTransform(rotation := Some(0.0))),
        weapon := Some(WeaponTransform(rotation := Some(0.0))),
        easing := Some(Linear)),
      Keyframe(1.0,
        body := Some(BodyPartTransform(y := Some(0.0))),
        head := Some(BodyPartTransform(y := Some(0.0))),
        armFront := Some(LimbTransform(rotation := Some(-0.3))),
        armBack := Some(LimbTransform(rotation := Some(0.3))),
        legFront := Some(LimbTransform(rotation := Some(0.4))),
        legBack := Some(LimbTransform(rotation := Some(-0.3))),
        weapon := Some(WeaponTransform(rotation := Some(-0.1))),
        easing := Some(Linear))
    ],
    priority := Some(1.0))

  // animations.ts:629-695
  const RobotJump := Animation(
    "jump", 35.0, false,
    [
      Keyframe(0.0,
        body := Some(BodyPartTransform(y := Some(3.0), scaleY := Some(0.92))),
        head := Some(BodyPartTransform(y := Some(1.0))),
        armFront := Some(LimbTransform(rotation := Some(0.2))),
        armBack := Some(LimbTransform(rotation := Some(0.2))),
        legFront := Some(LimbTransform(rotation := Some(0.3))),
        legBack := Some(LimbTransform(rotation := Some(0.3))),
        weapon := Some(WeaponTransform(rotation := Some(0.3)))),
      Keyframe(0.15,
        body := Some(BodyPartTransform(y := Some(-3.0), scaleY := Some(1.08))),
        head := Some(BodyPartTransform(y := Some(-2.0))),
        armFront := Some(LimbTransform(rotation := Some(-0.5))),
        armBack := Some(LimbTransform(rotation := Some(-0.4))),
        legFront := Some(LimbTransform(rotation := Some(-0.1))),
        legBack := Some(LimbTransform(rotation := Some(-0.2))),
        weapon := Some(WeaponTransform(rotation := Some(-0.5), y := Some(-3.0))),
        easing := Some(Linear)),
      Keyframe(0.5,
        body := Some(BodyPartTransform(y := Some(-2.0), scaleY := Some(1.02))),
        head := Some(BodyPartTransform(y := Some(-1.0))),
        armFront := Some(LimbTransform(rotation := Some(-0.2))),
        armBack := Some(LimbTransform(rotation := Some(0.1))),
        legFront := Some(LimbTransform(rotation := Some(0.0))),
        legBack := Some(LimbTransform(rotation := Some(-0.1))),
        weapon := Some(WeaponTransform(rotation := Some(-0.2), y := Some(-2.0))),
        easing := Some(Linear)),
      Keyframe(0.85,
        body := Some(BodyPartTransform(y := Some(0.0), scaleY := Some(1.0))),
        head := Some(BodyPartTransform(y := Some(0.0))),
        armFront := Some(LimbTransform(rotation := Some(0.3))),
        armBack := Some(LimbTransform(rotation := Some(0.4))),
        legFront := Some(LimbTransform(rotation := Some(-0.2))),
        legBack := Some(LimbTransform(rotation := Some(0.1))),
        weapon := Some(WeaponTransform(rotation := Some(0.2), y := Some(0.0))),
        easing := Some(Linear)),
      Keyframe(1.0,
        body := Some(BodyPartTransform(y := Some(2.0), scaleY := Some(0.95))),
        head := Some(BodyPartTransform(y := Some(1.0))),
        armFront := Some(LimbTransform(rotation := Some(0.2))),
        armBack := Some(LimbTransform(rotation := Some(0.3))),
        legFront := Some(LimbTransform(rotation := Some(0.2))),
        legBack := Some(LimbTransform(rotation := Some(0.2))),
        weapon := Some(WeaponTransform(rotation := Some(0.2))),
        easing := Some(Linear))
    ],
    priority := Some(2.0))

  // animations.ts:697-763
  const RobotDoubleJump := Animation(
    "doubleJump", 18.0, false,
    [
      Keyframe(0.0,
        body := Some(BodyPartTransform(y := Some(0.0), scaleY := Some(1.0), rotation := Some(0.0))),
        head := Some(BodyPartTransform(y := Some(0.0), rotation := Some(0.0))),
        armFront := Some(LimbTransform(rotation := Some(0.0))),
        armBack := Some(LimbTransform(rotation := Some(0.0))),
        legFront := Some(LimbTransform(rotation := Some(0.0))),
        legBack := Some(LimbTransform(rotation := Some(0.0))),
        weapon := Some(WeaponTransform(rotation := Some(0.0)))),
      Keyframe(0.2,
        body := Some(BodyPartTransform(y := Some(-2.0), scaleX := Some(1.05), scaleY := Some(0.95), rotation := Some(0.8))),
        head := Some(BodyPartTransform(y := Some(-1.0), rotation := Some(0.4))),
        armFront := Some(LimbTransform(rotation := Some(-1.0))),
        armBack := Some(LimbTransform(rotation := Some(0.8))),
        legFront := Some(LimbTransform(rotation := Some(0.5))),
        legBack := Some(LimbTransform(rotation := Some(-0.4))),
        weapon := Some(WeaponTransform(rotation := Some(-0.5), x := Some(-3.0))),
        easing := Some(Linear)),
      Keyframe(0.5,
        body := Some(BodyPartTransform(y := Some(-3.0), scaleX := Some(1.1), scaleY := Some(0.9), rotation := Some(1.6))),
        head := Some(BodyPartTransform(y := Some(-2.0), rotation := Some(0.8))),
        armFront := Some(LimbTransform(rotation := Some(-1.5))),
        armBack := Some(LimbTransform(rotation := Some(1.2))),
        legFront := Some(LimbTransform(rotation := Some(0.8))),
        legBack := Some(LimbTransform(rotation := Some(-0.6))),
        weapon := Some(WeaponTransform(rotation := Some(-1.0), x := Some(-5.0), y := Some(-3.0))),
        easing := Some(Linear)),
      Keyframe(0.8,
        body := Some(BodyPartTransform(y := Some(-1.0), scaleX := Some(1.02), scaleY := Some(0.98), rotation := Some(0.4))),
        head := Some(BodyPartTransform(y := Some(-1.0), rotation := Some(0.2))),
        armFront := Some(LimbTransform(rotation := Some(-0.3))),
        armBack := Some(LimbTransform(rotation := Some(0.3))),
        legFront := Some(LimbTransform(rotation := Some(0.2))),
        legBack := Some(LimbTransform(rotation := Some(-0.1))),
        weapon := Some(WeaponTransform(rotation := Some(-0.2), x := Some(-1.0), y := Some(-1.0))),
        easing := Some(Linear)),
      Keyframe(1.0,
        body := Some(BodyPartTransform(y := Some(0.0), scaleX := Some(1.0), scaleY := Some(1.0), rotation := Some(0.0))),
        head := Some(BodyPartTransform(y := Some(0.0), rotation := Some(0.0))),
        armFront := Some(LimbTransform(rotation := Some(0.0))),
        armBack := Some(LimbTransform(rotation := Some(0.0))),
        legFront := Some(LimbTransform(rotation := Some(0.0))),
        legBack := Some(LimbTransform(rotation := Some(0.0))),
        weapon := Some(WeaponTransform(rotation := Some(0.0), x := Some(0.0), y := Some(0.0))),
        easing := Some(Linear))
    ],
    priority := Some(3.0))

  // animations.ts:765-831
  const RobotAttack := Animation(
    "attack", 22.0, false,
    [
      Keyframe(0.0,
        body := Some(BodyPartTransform(y := Some(0.0), rotation := Some(0.0))),
        head := Some(BodyPartTransform(rotation := Some(0.1))),
        armFront := Some(LimbTransform(rotation := Some(-0.3), length := Some(1.0))),
        armBack := Some(LimbTransform(rotation := Some(0.1))),
        legFront := Some(LimbTransform(rotation := Some(0.0))),
        legBack := Some(LimbTransform(rotation := Some(0.1))),
        weapon := Some(WeaponTransform(rotation := Some(-0.5), x := Some(-3.0)))),
      Keyframe(0.25,
        body := Some(BodyPartTransform(y := Some(-1.0), rotation := Some(0.05))),
        head := Some(BodyPartTransform(rotation := Some(0.15))),
        armFront := Some(LimbTransform(rotation := Some(-0.5), length := Some(1.1))),
        armBack := Some(LimbTransform(rotation := Some(0.15))),
        legFront := Some(LimbTransform(rotation := Some(-0.1))),
        legBack := Some(LimbTransform(rotation := Some(0.15))),
        weapon := Some(WeaponTransform(rotation := Some(-0.8), x := Some(-5.0))),
        easing := Some(Linear)),
      Keyframe(0.4,
        body := Some(BodyPartTransform(y := Some(0.0), rotation := Some(0.1))),
        head := Some(BodyPartTransform(rotation := Some(0.2))),
        armFront := Some(LimbTransform(rotation := Some(0.3), length := Some(1.5))),
        armBack := Some(LimbTransform(rotation := Some(-0.1))),
        legFront := Some(LimbTransform(rotation := Some(0.1))),
        legBack := Some(LimbTransform(rotation := Some(-0.05))),
        weapon := Some(WeaponTransform(rotation := Some(0.2), x := Some(10.0))),
        easing := Some(Linear)),
      Keyframe(0.6,
        body := Some(BodyPartTransform(y := Some(0.0), rotation := Some(0.05))),
        head := Some(BodyPartTransform(rotation := Some(0.1))),
        armFront := Some(LimbTransform(rotation := Some(0.4), length := Some(1.8))),
        armBack := Some(LimbTransform(rotation := Some(-0.15))),
        legFront := Some(LimbTransform(rotation := Some(0.05))),
        legBack := Some(LimbTransform(rotation := Some(0.0))),
        weapon := Some(WeaponTransform(rotation := Some(0.3), x := Some(15.0))),
        easing := Some(Linear)),
      Keyframe(1.0,
        body := Some(BodyPartTransform(y := Some(0.0), rotation := Some(0.0))),
        head := Some(BodyPartTransform(rotation := Some(0.0))),
        armFront := Some(LimbTransform(rotation := Some(0.0), length := Some(1.0))),
        armBack := Some(LimbTransform(rotation := Some(0.0))),
        legFront := Some(LimbTransform(rotation := Some(0.0))),
        legBack := Some(LimbTransform(rotation := Some(0.0))),
        weapon := Some(WeaponTransform(rotation := Some(0.0), x := Some(0.0))),
        easing := Some(Linear))
    ],
    priority := Some(4.0))

  // animations.ts:833-875
  const RobotHurt := Animation(
    "hurt", 12.0, false,
    [
      Keyframe(0.0,
        body := Some(BodyPartTransform(y := Some(0.0), scaleX := Some(1.08), scaleY := Some(0.92), rotation := Some(-0.15))),
        head := Some(BodyPartTransform(y := Some(1.0), rotation := Some(-0.25))),
        armFront := Some(LimbTransform(rotation := Some(0.4))),
        armBack := Some(LimbTransform(rotation := Some(0.6))),
        legFront := Some(LimbTransform(rotation := Some(-0.15))),
        legBack := Some(LimbTransform(rotation := Some(0.2))),
        weapon := Some(WeaponTransform(rotation := Some(0.6), x := Some(2.0)))),
      Keyframe(0.4,
        body := Some(BodyPartTransform(y := Some(1.0), scaleX := Some(1.05), scaleY := Some(0.95), rotation := Some(-0.1))),
        head := Some(BodyPartTransform(y := Some(2.0), rotation := Some(-0.15))),
        armFront := Some(LimbTransform(rotation := Some(0.2))),
        armBack := Some(LimbTransform(rotation := Some(0.3))),
        legFront := Some(LimbTransform(rotation := Some(-0.08))),
        legBack := Some(LimbTransform(rotation := Some(0.1))),
        weapon := Some(WeaponTransform(rotation := Some(0.3), x := Some(1.0))),
        easing := Some(Linear)),
      Keyframe(1.0,
        body := Some(BodyPartTransform(y := Some(0.0), scaleX := Some(1.0), scaleY := Some(1.0), rotation := Some(0.0))),
        head := Some(BodyPartTransform(y := Some(0.0), rotation := Some(0.0))),
        armFront := Some(LimbTransform(rotation := Some(0.0))),
        armBack := Some(LimbTransform(rotation := Some(0.0))),
        legFront := Some(LimbTransform(rotation := Some(0.0))),
        legBack := Some(LimbTransform(rotation := Some(0.0))),
        weapon := Some(WeaponTransform(rotation := Some(0.0), x := Some(0.0))),
        easing := Some(Linear))
    ],
    priority := Some(5.0))

  // animations.ts:877-943
  const RobotDeath := Animation(
    "death", 50.0, false,
    [
      Keyframe(0.0,
        body := Some(BodyPartTransform(y := Some(0.0), scaleY := Some(1.0), rotation := Some(0.0))),
        head := Some(BodyPartTransform(y := Some(0.0), rotation := Some(0.0))),
        armFront := Some(LimbTransform(rotation := Some(0.0))),
        armBack := Some(LimbTransform(rotation := Some(0.0))),
        legFront := Some(LimbTransform(rotation := Some(0.0))),
        legBack := Some(LimbTransform(rotation := Some(0.0))),
        weapon := Some(WeaponTransform(rotation := Some(0.0)))),
      Keyframe(0.1,
        body := Some(BodyPartTransform(y := Some(-2.0), scaleY := Some(1.05), rotation := Some(0.1))),
        head := Some(BodyPartTransform(y := Some(-1.0), rotation := Some(0.2))),
        armFront := Some(LimbTransform(rotation := Some(-0.3))),
        armBack := Some(LimbTransform(rotation := Some(0.4))),
        legFront := Some(LimbTransform(rotation := Some(0.1))),
        legBack := Some(LimbTransform(rotation := Some(-0.1))),
        weapon := Some(WeaponTransform(rotation := Some(0.5))),
        easing := Some(Linear)),
      Keyframe(0.3,
        body := Some(BodyPartTransform(y := Some(5.0), scaleY := Some(0.9), rotation := Some(-0.2))),
        head := Some(BodyPartTransform(y := Some(3.0), rotation := Some(-0.3))),
        armFront := Some(LimbTransform(rotation := Some(0.5))),
        armBack := Some(LimbTransform(rotation := Some(0.8))),
        legFront := Some(LimbTransform(rotation := Some(0.4))),
        legBack := Some(LimbTransform(rotation := Some(0.3))),
        weapon := Some(WeaponTransform(rotation := Some(1.0), x := Some(5.0))),
        easing := Some(Linear)),
      Keyframe(0.6,
        body := Some(BodyPartTransform(y := Some(20.0), scaleX := Some(1.15), scaleY := Some(0.7), rotation := Some(-0.5))),
        head := Some(BodyPartTransform(y := Some(12.0), rotation := Some(-0.6))),
        armFront := Some(LimbTransform(rotation := Some(0.9))),
        armBack := Some(LimbTransform(rotation := Some(1.4))),
        legFront := Some(LimbTransform(rotation := Some(0.7))),
        legBack := Some(LimbTransform(rotation := Some(0.5))),
        weapon := Some(WeaponTransform(rotation := Some(2.0), x := Some(10.0), y := Some(10.0))),
        easing := Some(Linear)),
      Keyframe(1.0,
        body := Some(BodyPartTransform(y := Some(30.0), scaleX := Some(1.3), scaleY := Some(0.5), rotation := Some(-0.9))),
        head := Some(BodyPartTransform(y := Some(18.0), rotation := Some(-0.8))),
        armFront := Some(LimbTransform(rotation := Some(1.2))),
        armBack := Some(LimbTransform(rotation := Some(1.8))),
        legFront := Some(LimbTransform(rotation := Some(0.9))),
        legBack := Some(LimbTransform(rotation := Some(0.7))),
        weapon := Some(WeaponTransform(rotation := Some(3.0), x := Some(15.0), y := Some(20.0))),
        easing := Some(Linear))
    ],
    priority := Some(10.0))

  // animations.ts:945-987
  const RobotLand := Animation(
    "land", 10.0, false,
    [
      Keyframe(0.0,
        body := Some(BodyPartTransform(y := Some(4.0), scaleX := Some(1.1), scaleY := Some(0.85))),
        head := Some(BodyPartTransform(y := Some(2.0))),
        armFront := Some(LimbTransform(rotation := Some(0.3))),
        armBack := Some(LimbTransform(rotation := Some(0.4))),
        legFront := Some(LimbTransform(rotation := Some(0.4))),
        legBack := Some(LimbTransform(rotation := Some(0.4))),
        weapon := Some(WeaponTransform(rotation := Some(0.4)))),
      Keyframe(0.5,
        body := Some(BodyPartTransform(y := Some(2.0), scaleX := Some(1.03), scaleY := Some(0.95))),
        head := Some(BodyPartTransform(y := Some(1.0))),
        armFront := Some(LimbTransform(rotation := Some(0.1))),
        armBack := Some(LimbTransform(rotation := Some(0.15))),
        legFront := Some(LimbTransform(rotation := Some(0.2))),
        legBack := Some(LimbTransform(rotation := Some(0.2))),
        weapon := Some(WeaponTransform(rotation := Some(0.15))),
        easing := Some(Linear)),
      Keyframe(1.0,
        body := Some(BodyPartTransform(y := Some(0.0), scaleX := Some(1.0), scaleY := Some(1.0))),
        head := Some(BodyPartTransform(y := Some(0.0))),
        armFront := Some(LimbTransform(rotation := Some(0.0))),
        armBack := Some(LimbTransform(rotation := Some(0.0))),
        legFront := Some(LimbTransform(rotation := Some(0.0))),
        legBack := Some(LimbTransform(rotation := Some(0.0))),
        weapon := Some(WeaponTransform(rotation := Some(0.0))),
        easing := Some(Linear))
    ],
    priority := Some(2.0))

  /** The clip names both archetypes define, in table order. */
  const ClipNames: seq<string> := ["idle", "walk", "jump", "doubleJump", "attack", "hurt", "death", "land"]

  // animations.ts:12-505
  const KnightAnimations: Catalog := CatalogOf(
    KnightIdle, KnightWalk, KnightJump, KnightDoubleJump,
    KnightAttack, KnightHurt, KnightDeath, KnightLand)

  // animations.ts:511-988
  const RobotAnimations: Catalog := CatalogOf(
    RobotIdle, RobotWalk, RobotJump, RobotDoubleJump,
    RobotAttack, RobotHurt, RobotDeath, RobotLand)

  /** Shape of one transcribed clip: timing, flags and keyframe order. */
  predicate ClipShape(a: Animation, name: string, duration: real, loop: bool, priority: real)
  {
    && a.name == name
    && a.duration == duration
    && a.loop == loop
    && a.priority == Some(priority)
    && |a.keyframes| >= 2
    && a.keyframes[0].time == 0.0
    && a.keyframes[|a.keyframes| - 1].time == 1.0
    && Ascending(a.keyframes)
    && a.keyframes[0].easing == None
    && !a.hasOnComplete
  }

  lemma KnightClipShapes()
    ensures ClipShape(KnightIdle, "idle", 60.0, true, 0.0)
    ensures ClipShape(KnightWalk, "walk", 30.0, true, 1.0)
    ensures ClipShape(KnightJump, "jump", 40.0, false, 2.0)
    ensures ClipShape(KnightDoubleJump, "doubleJump", 20.0, false, 3.0)
    ensures ClipShape(KnightAttack, "attack", 25.0, false, 4.0)
    ensures ClipShape(KnightHurt, "hurt", 15.0, false, 5.0)
    ensures ClipShape(KnightDeath, "death", 45.0, false, 10.0)
    ensures ClipShape(KnightLand, "land", 12.0, false, 2.0)
  {
  }

  lemma RobotClipShapes()
    ensures ClipShape(RobotIdle, "idle", 90.0, true, 0.0)
    ensures ClipShape(RobotWalk, "walk", 24.0, true, 1.0)
    ensures ClipShape(RobotJump, "jump", 35.0, false, 2.0)
    ensures ClipShape(RobotDoubleJump, "doubleJump", 18.0, false, 3.0)
    ensures ClipShape(RobotAttack, "attack", 22.0, false, 4.0)
    ensures ClipShape(RobotHurt, "hurt", 12.0, false, 5.0)
    ensures ClipShape(RobotDeath, "death", 50.0, false, 10.0)
    ensures ClipShape(RobotLand, "land", 10.0, false, 2.0)
  {
  }

  /** A catalog keyed by clip name, as both player types declare it. */
  function CatalogOf(idle: Animation, walk: Animation, jump: Animation, doubleJump: Animation,
                     attack: Animation, hurt: Animation, death: Animation, land: Animation): (cat: Catalog)
    ensures cat.Keys == {"idle", "walk", "jump", "doubleJump", "attack", "hurt", "death", "land"}
  {
    map["idle" := idle, "walk" := walk, "jump" := jump, "doubleJump" := doubleJump,
        "attack" := attack, "hurt" := hurt, "death" := death, "land" := land]
  }

  /** The properties both catalogs share and playback relies on. */
  predicate StandardCatalog(cat: Catalog) {
    && cat.Keys == {"idle", "walk", "jump", "doubleJump", "attack", "hurt", "death", "land"}
    && (forall n :: n in cat ==> cat[n].name == n && WellFormedClip(cat[n]))
    && (forall n :: n in cat ==> cat[n].duration >= 1.0)
    && (forall n :: n in cat ==> (cat[n].loop <==> n == "idle" || n == "walk"))
    && (forall n :: n in cat ==> cat[n].keyframes[0].easing == None && !cat[n].hasOnComplete)
    && Priority(cat["idle"]) == 0.0 && Priority(cat["walk"]) == 1.0
    && Priority(cat["jump"]) == 2.0 && Priority(cat["land"]) == 2.0
    && Priority(cat["doubleJump"]) == 3.0 && Priority(cat["attack"]) == 4.0
    && Priority(cat["hurt"]) == 5.0 && Priority(cat["death"]) == 10.0
  }

  /** A clip whose transcribed shape holds is well formed. */
  lemma ClipShapeIsWellFormed(a: Animation, name: string, duration: real, loop: bool, priority: real)
    requires ClipShape(a, name, duration, loop, priority) && duration >= 1.0
    ensures WellFormedClip(a) && a.name == name && a.loop == loop && Priority(a) == priority
  {
    AscendingIsStrictlyIncreasing(a.keyframes);
  }

  /** Eight clips with the shared names, loop flags and priorities make a standard catalog. */
  lemma CatalogOfIsStandard(idle: Animation, walk: Animation, jump: Animation, doubleJump: Animation,
                            attack: Animation, hurt: Animation, death: Animation, land: Animation,
                            d: seq<real>)
    requires |d| == 8 && forall k :: 0 <= k < 8 ==> d[k] >= 1.0
    requires ClipShape(idle, "idle", d[0], true, 0.0)
    requires ClipShape(walk, "walk", d[1], true, 1.0)
    requires ClipShape(jump, "jump", d[2], false, 2.0)
    requires ClipShape(doubleJump, "doubleJump", d[3], false, 3.0)
    requires ClipShape(attack, "attack", d[4], false, 4.0)
    requires ClipShape(hurt, "hurt", d[5], false, 5.0)
    requires ClipShape(death, "death", d[6], false, 10.0)
    requires ClipShape(land, "land", d[7], false, 2.0)
    ensures var cat := CatalogOf(idle, walk, jump, doubleJump, attack, hurt, death, land);
      StandardCatalog(cat) && ValidCatalog(cat)
  {
    ClipShapeIsWellFormed(idle, "idle", d[0], true, 0.0);
    ClipShapeIsWellFormed(walk, "walk", d[1], true, 1.0);
    ClipShapeIsWellFormed(jump, "jump", d[2], false, 2.0);
    ClipShapeIsWellFormed(doubleJump, "doubleJump", d[3], false, 3.0);
    ClipShapeIsWellFormed(attack, "attack", d[4], false, 4.0);
    ClipShapeIsWellFormed(hurt, "hurt", d[5], false, 5.0);
    ClipShapeIsWellFormed(death, "death", d[6], false, 10.0);
    ClipShapeIsWellFormed(land, "land", d[7], false, 2.0);
    var cat := CatalogOf(idle, walk, jump, doubleJump, attack, hurt, death, land);
    forall n | n in cat
      ensures cat[n].name == n && WellFormedClip(cat[n])
      ensures cat[n].loop <==> n == "idle" || n == "walk"
      ensures cat[n].keyframes[0].easing == None && !cat[n].hasOnComplete
      ensures cat[n].duration >= 1.0
    {
      if n == "idle" { assert cat[n] == idle; }
      else if n == "walk" { assert cat[n] == walk; }
      else if n == "jump" { assert cat[n] == jump; }
      else if n == "doubleJump" { assert cat[n] == doubleJump; }
      else if n == "attack" { assert cat[n] == attack; }
      else if n == "hurt" { assert cat[n] == hurt; }
      else if n == "death" { assert cat[n] == death; }
      else { assert n == "land" && cat[n] == land; }
    }
  }

  lemma KnightCatalogIsStandard()
    ensures StandardCatalog(KnightAnimations) && ValidCatalog(KnightAnimations)
  {
    KnightClipShapes();
    CatalogOfIsStandard(KnightIdle, KnightWalk, KnightJump, KnightDoubleJump,
                        KnightAttack, KnightHurt, KnightDeath, KnightLand,
                        [60.0, 30.0, 40.0, 20.0, 25.0, 15.0, 45.0, 12.0]);
  }

  lemma RobotCatalogIsStandard()
    ensures StandardCatalog(RobotAnimations) && ValidCatalog(RobotAnimations)
  {
    RobotClipShapes();
    CatalogOfIsStandard(RobotIdle, RobotWalk, RobotJump, RobotDoubleJump,
                        RobotAttack, RobotHurt, RobotDeath, RobotLand,
                        [90.0, 24.0, 35.0, 18.0, 22.0, 12.0, 50.0, 10.0]);
  }

  /**
   * With land at priority 2, the landing gate `priority < land + 1` admits
   * exactly idle, walk, jump and land.
   */
  lemma LandGateAdmits(cat: Catalog)
    requires StandardCatalog(cat)
    ensures forall n :: n in cat ==>
      (Priority(cat[n]) < Priority(cat["land"]) + 1.0 <==> n in {"idle", "walk", "jump", "land"})
  {
  }
}
