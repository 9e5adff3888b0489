# Two-player pixel brawler: a verified model of its core

This project models the core of a side-scrolling browser brawler for one or two players, in which knights fight waves of slimes, goblins, skeletons, orcs and dragons across five levels. It covers:

- **Animation.** The keyframe animator, covering playback, queueing, completion callbacks, landing, easing, keyframe lookup and pose blending. It includes the knight and robot clip tables, the renderer logic that picks the clip each frame, the older frame-counter renderer and the animated backdrop.
- **The player.** Movement under gravity, jumping and double jumping, knockback, ice friction, attacks and the hitbox, damage, healing, experience and levelling. Stats are derived from equipment, level and skill modifiers.
- **Stats and skills.** The progression record with its skill modifier table, plus the skill catalogue and the skill tree that unlocks, resets and restores skills.
- **The shop.** Menu navigation, purchases and potions.
- **Levels.** The level registry, the level manager with waves, wave breaks and level completion, and the enemies and their fireballs.
- **Input and helpers.** Keyboard input with edge detection, plus the helper functions and the particle and damage-number effects.

Every module is written in Dafny. Pure logic is modelled as datatypes, functions and lemmas. Objects whose fields the game updates every frame (`Animator`, `Player`, `PlayerStats`, `SkillTree`, `Shop`, `LevelManager`, `Enemy`, `Fireball`, `Particle`, `DamageNumber`, the input manager and the background animator) are modelled as classes. Their methods are proved against specification functions over a snapshot of the object's state.

The older JavaScript editions of several files sit beside the TypeScript ones. Where their logic matches, one module covers both:

- the input manager of `input.js` is covered by `Input`;
- the level manager of `levels.js` is `Levels.LevelManager` run over the inline table in `LevelsJs`;
- `adjustColor` in `levels.js` is the same code as `Levels.AdjustColor`;
- the pure helpers of `utils.js` are covered by `Utils`.

Where the logic differs, each edition gets its own model: the player renderer, the player-stats modifier table, and the particle and damage-number effects.

## Model

| member | source | states |
|---|---|---|
| Animations.KnightClipShapes | src/js/animation/animations.ts:12-505 | each knight clip has the declared name, duration, loop flag and priority, keyframes running from time 0 to time 1 in increasing order, no easing on its first keyframe and no completion hook |
| Animations.RobotClipShapes | src/js/animation/animations.ts:511-988 | the same facts for each robot clip, with the robot's longer idle and death and shorter walk, attack, hurt and land |
| Animations.CatalogOf | src/js/animation/animations.ts:12-13 | a catalog is keyed by exactly the eight clip names idle, walk, jump, doubleJump, attack, hurt, death and land |
| Animations.KnightCatalogIsStandard | src/js/animation/animations.ts:12-505 | the knight table is well formed for playback: every clip lasts at least one frame, only idle and walk loop, priorities run idle 0, walk 1, jump and land 2, doubleJump 3, attack 4, hurt 5, death 10 |
| Animations.RobotCatalogIsStandard | src/js/animation/animations.ts:511-988 | the robot table satisfies the same well-formedness and priority order |
| Animations.LandGateAdmits | src/js/animation/animator.ts:246 | in a standard catalog the landing gate (priority below land's plus one) admits exactly idle, walk, jump and land |
| AnimationTypes.AscendingIsStrictlyIncreasing | src/js/animation/types.ts:28-31 | keyframe times that increase from each keyframe to the next increase between any two keyframes |
| AnimatorObject.Animator.constructor | src/js/animation/animator.ts:38-46 | a new animator plays idle from frame 0 at speed 1, unforced, with nothing queued, no callback and not airborne |
| AnimatorObject.Animator.Play | src/js/animation/animator.ts:53-85 | the new state is `Playback.Play` of the old one; no event fires |
| AnimatorObject.Animator.IsPlaying | src/js/animation/animator.ts:185-187 | the animator reports a clip as playing exactly when `Playback.IsPlaying` holds of its state |
| AnimatorObject.Animator.IsComplete | src/js/animation/animator.ts:192-196 | the animator reports completion exactly when `Playback.IsComplete` holds of its clips and state |
| AnimatorObject.Animator.GetProgress | src/js/animation/animator.ts:201-205 | the animator's progress is `Playback.GetProgress` of its clips and state, so in [0, 1) under its invariant |
| AnimatorObject.Animator.Queue | src/js/animation/animator.ts:91-95 | the new state is `Playback.Queue` of the old one |
| AnimatorObject.Animator.Update | src/js/animation/animator.ts:101-136 | the new state and the events fired are those of `Playback.Update` on the old state; exactly one tick is counted |
| AnimatorObject.Animator.Advance | src/js/animation/animator.ts:106-135 | moving the playhead of a known clip: below the end only the frame changes; a looping clip wraps by `Wrap`; a one-shot clip goes through `Finish` and fires its events |
| AnimatorObject.Animator.FinishClip | src/js/animation/animator.ts:113-134 | the new state and the events fired are those of `Playback.Finish` |
| AnimatorObject.Animator.GetCurrentPose | src/js/animation/animator.ts:142-179 | the loop over keyframe pairs returns exactly `Pose.CurrentPose` of the catalog and state |
| AnimatorObject.Animator.OnComplete | src/js/animation/animator.ts:211-213 | the callback is registered, replacing any earlier one, and nothing else changes |
| AnimatorObject.Animator.Reset | src/js/animation/animator.ts:218-227 | the new state is `Playback.Reset` of the old one |
| AnimatorObject.Animator.SetSpeed | src/js/animation/animator.ts:233-235 | the new state is `Playback.SetSpeed` of the old one |
| AnimatorObject.Animator.UpdateGroundState | src/js/animation/animator.ts:241-251 | the new state is `Playback.UpdateGroundState` of the old one |
| Playback.Play | src/js/animation/animator.ts:53-85 | a repeat without force or an unknown name changes nothing; an unforced request stopped by a non-looping clip of at least equal priority only becomes the queued clip; any other request switches to the clip from frame 0 with the forced flag set to `force` and the queue emptied |
| Playback.Queue | src/js/animation/animator.ts:91-95 | a known clip becomes the queued clip; an unknown name changes nothing |
| Playback.Wrap | src/js/animation/animator.ts:112 | for a positive duration, `frame % duration` lies in [0, duration), differs from the frame by a whole number of durations, keeps a frame below one duration and removes exactly one duration between one and two |
| Playback.Finish | src/js/animation/animator.ts:113-134 | the clip's own hook fires, then the registered callback, which is then dropped; speed and the airborne flag stay |
| Playback.Update | src/js/animation/animator.ts:101-136 | an unknown clip changes nothing; speed and the airborne flag stay; events fire only when a one-shot clip finishes, at most two, and a fired callback is the one registered and is gone afterwards |
| Playback.UpdateCases | src/js/animation/animator.ts:106-135 | a tick of a known clip has one of three outcomes: it advances the frame, it wraps a looping clip, or it finishes a one-shot clip |
| Playback.UpdateGroundState | src/js/animation/animator.ts:241-251 | the airborne flag becomes the negation of the report; land is force-played only on the first grounded report after an airborne one and only through the landing gate; otherwise nothing else changes |
| Playback.Reset | src/js/animation/animator.ts:218-227 | back to idle at frame 0 and speed 1, unforced, nothing queued, no callback; the airborne flag stays |
| Playback.SetSpeed | src/js/animation/animator.ts:233-235 | the stored speed is `max(0, speed)` and nothing else changes |
| Playback.OnComplete | src/js/animation/animator.ts:211-213 | the callback becomes the given one and nothing else changes |
| Playback.GetProgress | src/js/animation/animator.ts:201-205 | an unknown clip or frame 0 gives 0; a frame inside the clip gives a value in [0, 1) |
| Playback.IsPlaying | src/js/animation/animator.ts:185-187 | a clip is playing exactly when it is the current clip, whatever its frame |
| Playback.IsComplete | src/js/animation/animator.ts:192-196 | an unknown current clip counts as complete; a known one is complete exactly when it is one-shot and its frame has reached duration - 1 |
| Playback.InitialInv | src/js/animation/animator.ts:38-46 | a new animator satisfies the playback invariant: speed not negative, the frame of a known clip inside the clip, a queued name in the catalog |
| Playback.PlayInv | src/js/animation/animator.ts:53-85 | `play` keeps the playback invariant |
| Playback.QueueInv | src/js/animation/animator.ts:91-95 | `queue` keeps the playback invariant |
| Playback.UpdateInv | src/js/animation/animator.ts:101-136 | a tick with a non-negative step keeps the playback invariant |
| Playback.UpdateGroundStateInv | src/js/animation/animator.ts:241-251 | `updateGroundState` keeps the playback invariant |
| Playback.ResetInv | src/js/animation/animator.ts:218-227 | `reset` establishes the playback invariant |
| Playback.SetSpeedInv | src/js/animation/animator.ts:233-235 | `setSpeed` keeps the playback invariant |
| Playback.ProgressInRange | src/js/animation/animator.ts:198-205 | under the invariant the progress lies in [0, 1) |
| Playback.PlaySwitchesFromStart | src/js/animation/animator.ts:80-84 | after a request that switches, the clip is playing, its progress is 0 and nothing is queued |
| Playback.HigherPriorityInterrupts | src/js/animation/animator.ts:67-84 | a clip of strictly higher priority than the running one switches in without force |
| Playback.LowerPriorityWaits | src/js/animation/animator.ts:71-78 | a request that does not outrank a running one-shot clip leaves the playback record alone and is queued |
| Playback.LoopKeepsRemainder | src/js/animation/animator.ts:109-112 | a looping clip past its end fires nothing, keeps the clip, and lands in [0, duration) a whole number of durations below the advanced frame (exactly one duration below when the overshoot is less than one duration) |
| Playback.OneShotFinishes | src/js/animation/animator.ts:113-134 | a one-shot clip pushed to its end fires its hook and callback, drops the callback, then plays the queued clip or else idle from frame 0, forced, with the queue emptied; an idle with nothing queued holds its last frame |
| Playback.FinishedIdleIsComplete | src/js/animation/animator.ts:113-134 | a one-shot idle with nothing queued that runs past its end stays idle on its last frame and is then reported complete |
| Playback.CompleteFinishesOnNextFrame | src/js/animation/animator.ts:192-196 | under the playback invariant and with a one-frame tick, a clip reported complete finishes on that tick, firing its completion events and dropping the callback, and a clip not reported complete fires nothing and keeps its callback |
| Playback.CallbackFiresAtMostOnce | src/js/animation/animator.ts:121-124 | over any run of ticks a registered callback fires at most once, and none fires when none is registered |
| Playback.LandingIsEdgeTriggered | src/js/animation/animator.ts:241-251 | a grounded report from the ground does nothing; an airborne report followed by a grounded one force-plays land from frame 0, and a second grounded report changes nothing |
| Pose.Lerp | src/js/animation/animator.ts:256-258 | the blend gives its first end at t = 0, its second at t = 1, and that value whenever both ends agree |
| Pose.LerpBetween | src/js/animation/animator.ts:256-258 | for t in [0, 1] the blend lies between its two ends |
| Pose.ApplyEasing | src/js/animation/animator.ts:263-281 | every curve fixes 0 and 1; linear, the default, is the identity |
| Pose.EasingContinuousAtHalf | src/js/animation/animator.ts:270-276 | the two halves of easeInOut and of bounce meet at one half |
| Pose.EasingRange | src/js/animation/animator.ts:263-281 | every curve maps [0, 1] into [0, 1] |
| Pose.PiecewiseHalves | src/js/animation/animator.ts:270-276 | the lower branch of easeInOut and of bounce stays below one half, the upper at or above it |
| Pose.EasingMonotone | src/js/animation/animator.ts:263-281 | every curve is non-decreasing on [0, 1], so a pose never runs backwards within a segment |
| Pose.EaseInOutMonotone | src/js/animation/animator.ts:269-270 | easeInOut is non-decreasing on [0, 1], across its switch at one half |
| Pose.BounceMonotone | src/js/animation/animator.ts:271-276 | bounce is non-decreasing on [0, 1], across its switch at one half |
| Pose.ResolveFullKeyframe | src/js/animation/animator.ts:301-351 | fields a keyframe spells out are used as given: resolving a keyframe that names every field gives its pose back |
| Pose.ResolveEmptyKeyframe | src/js/animation/animator.ts:301-351 | a keyframe that names nothing stands for the default pose |
| Pose.ResolveUsesOwnSlotDefaults | src/js/animation/animator.ts:306-307 | the head falls back to the body's defaults and the other limbs to the front arm's, and these coincide with each slot's own default |
| Pose.InterpolateKeyframes | src/js/animation/animator.ts:286-296 | the blended pose is the first keyframe's resolved pose at t = 0, the second's at t = 1, and that pose whenever both resolve alike |
| Pose.Fraction | src/js/animation/animator.ts:162-163 | the local time lies in [0, 1], satisfies `localT * gap == u - t1` for a positive gap, is 0 for a zero gap, and lies strictly inside (0, 1) strictly inside the gap |
| Pose.FindSegment | src/js/animation/animator.ts:157-166 | the scan returns the first adjacent pair from the start index that encloses the time, with its fraction; when none does, the first keyframe alone with fraction 0 |
| Pose.CurrentPoseDefault | src/js/animation/animator.ts:143-146 | an unknown clip or a clip without keyframes shows the default pose |
| Pose.FirstBracketIs | src/js/animation/animator.ts:157-166 | with increasing times the first enclosing pair starts at j when the time lies in (t_j, t_j+1] |
| Pose.SegmentAtKeyframe | src/js/animation/animator.ts:157-173 | at a keyframe's own time the chosen pair ends at that keyframe with fraction 1, except the first keyframe, which starts the first pair with fraction 0 |
| Pose.FractionAtEnds | src/js/animation/animator.ts:162-163 | the local time is 0 at the start of a gap and 1 at its end |
| Pose.PoseAtKeyframe | src/js/animation/animator.ts:142-179 | at the instant of a keyframe of a well-formed clip the pose is exactly that keyframe's pose, whatever the easing |
| Pose.SegmentBetweenKeyframes | src/js/animation/animator.ts:157-166 | strictly between two neighbouring keyframes the scan picks exactly those two, at a fraction strictly inside (0, 1) |
| Pose.PoseBetweenKeyframes | src/js/animation/animator.ts:142-179 | strictly between two neighbouring keyframes the pose blends exactly those two at the eased fraction, the easing taken from the second keyframe |
| Pose.PoseAfterLastKeyframe | src/js/animation/animator.ts:168-173 | from the last keyframe's time on the pose holds the last keyframe |
| Pose.PoseBeforeFirstKeyframe | src/js/animation/animator.ts:152-166 | before the first keyframe's time nothing encloses the time and the first keyframe is held |
| BackgroundAnimation.SparkleInRecipe | src/js/animation/backgroundAnimator.ts:183-190 | a sparkle made from four draws in [0, 1) lies in its level's box, with a phase in [0, 2π) and a size in its range |
| BackgroundAnimation.SparklesInRecipe | src/js/animation/backgroundAnimator.ts:182-190 | every sparkle scattered from a random stream lies in its level's box |
| BackgroundAnimation.Layout | src/js/animation/backgroundAnimator.ts:122-282 | an unlisted background has no elements; the forest has 5 clouds, 4 trees and 3 birds; the graveyard 5 gravestones and 12 wisps; the mountains and the sky castle 5 clouds and 3 birds; the ice cave 7 icicles and 20 sparkles; the volcano 2 pools of 5 and 6 bubbles and 15 embers; the castle 4 bats and 8 wisps; and nothing else in each |
| BackgroundAnimation.MoveCloud | src/js/animation/backgroundAnimator.ts:305-310 | only the cloud's x changes: it moves by its speed or, past the right edge by its own width, re-enters at minus its width |
| BackgroundAnimation.FlyBird | src/js/animation/backgroundAnimator.ts:313-319 | the wing phase grows by 0.2; x moves by the speed or, past the right edge by 50, re-enters at -50; nothing else changes |
| BackgroundAnimation.RiseBubble | src/js/animation/backgroundAnimator.ts:323-330 | height, size and speed stay; the phase grows by a tenth of the speed, or the bubble pops to phase 0 at the drawn spot of its pool |
| BackgroundAnimation.DripIcicle | src/js/animation/backgroundAnimator.ts:334-339 | only the drip timer changes: it counts up by one or restarts at 0 |
| BackgroundAnimation.CloudStaysInBand | src/js/animation/backgroundAnimator.ts:305-310 | a cloud inside [-width, canvas + width] with a non-negative speed stays inside it |
| BackgroundAnimation.BirdStaysInBand | src/js/animation/backgroundAnimator.ts:313-319 | a bird inside [-50, canvas + 50] with a non-negative speed stays inside it |
| BackgroundAnimation.BubbleStaysInCycle | src/js/animation/backgroundAnimator.ts:323-330 | a bubble with a phase in [0, 2π] and a non-negative speed keeps its phase in [0, 2π] |
| BackgroundAnimation.PoppedBubbleInPool | src/js/animation/backgroundAnimator.ts:326-329 | a popped bubble restarts at phase 0 at an x inside its pool |
| BackgroundAnimation.DripTimerBounded | src/js/animation/backgroundAnimator.ts:334-339 | from any non-negative start the drip timer lands in [0, 180] |
| BackgroundAnimation.StepKeepsInv | src/js/animation/backgroundAnimator.ts:301-340 | one update keeps every drifting element in its wrap band, every bubble phase in one cycle and every drip timer non-negative |
| BackgroundAnimation.StepBoundsDrips | src/js/animation/backgroundAnimator.ts:334-339 | after an update every drip timer lies in [0, 180] |
| BackgroundAnimation.LayoutSatisfiesInv | src/js/animation/backgroundAnimator.ts:114-296 | every layout drawn from a random stream, on a canvas at least 700 wide, starts inside those ranges |
| BackgroundAnimation.BackgroundAnimator.constructor | src/js/animation/backgroundAnimator.ts:86-95 | a new backdrop is 800 wide with the ground at 420, no background, time 0 and no elements |
| BackgroundAnimation.BackgroundAnimator.Reset | src/js/animation/backgroundAnimator.ts:100-110 | time returns to 0 and every element list is emptied; size and background stay |
| BackgroundAnimation.BackgroundAnimator.SpawnSparkles | src/js/animation/backgroundAnimator.ts:182-190 | the loop builds exactly the sparkles of `Sparkles`, four draws each, in order |
| BackgroundAnimation.BackgroundAnimator.CreateLavaBubbles | src/js/animation/backgroundAnimator.ts:284-296 | the loop builds exactly the bubbles of `LavaBubbles`, four draws each, in order |
| BackgroundAnimation.BackgroundAnimator.SetupForLevel | src/js/animation/backgroundAnimator.ts:114-143 | the background already set up changes nothing; any other is recorded with the new size, time restarts at 0 and the elements become exactly `Layout` of it |
| BackgroundAnimation.BackgroundAnimator.Populate | src/js/animation/backgroundAnimator.ts:122-282 | on an emptied scene the per-background setup leaves exactly `Layout` of the background |
| BackgroundAnimation.BackgroundAnimator.Update | src/js/animation/backgroundAnimator.ts:301-340 | time grows by deltaTime * 0.016 and the elements become `StepScene` of the old ones |
| BackgroundAnimation.BackgroundAnimator.GetTime | src/js/animation/backgroundAnimator.ts:597-599 | the time reported is the animator's own running time |
| BackgroundAnimation.BackgroundAnimator.MoveClouds | src/js/animation/backgroundAnimator.ts:305-310 | every cloud takes its `MoveCloud` step and nothing else changes |
| BackgroundAnimation.BackgroundAnimator.FlyBirds | src/js/animation/backgroundAnimator.ts:313-319 | every bird takes its `FlyBird` step and nothing else changes |
| BackgroundAnimation.BackgroundAnimator.RiseBubbles | src/js/animation/backgroundAnimator.ts:322-331 | every bubble of every pool takes its `RiseBubble` step with its own draw, and nothing else changes |
| BackgroundAnimation.BackgroundAnimator.DripIcicles | src/js/animation/backgroundAnimator.ts:334-339 | every icicle takes its `DripIcicle` step and nothing else changes |
| Enemies.ProfileOf | src/js/enemies.ts:60-139 | exactly the six known types have stats; each fits on the playfield with positive health and a gold range; exactly the two dragons fly and the boss dragon alone is a boss |
| Enemies.ColorForLevel | src/js/enemies.ts:47-58 | in the ice cave a colour of the ice palette is replaced by its frosty counterpart; every other colour, and every colour elsewhere, is kept |
| Enemies.IceRecoloursOnlyGreens | src/js/enemies.ts:47-58 | an enemy changes colour exactly when it is a slime, goblin or orc in the ice cave |
| Enemies.Recoil | src/js/enemies.ts:148-152 | one frame of knockback either stops it or leaves 85% of it, at least half a pixel; no knockback stays none |
| Enemies.RecoilPow | src/js/enemies.ts:150 | the decay factor to a power lies in (0, 1] |
| Enemies.RecoilShrinks | src/js/enemies.ts:148-152 | after n frames a knockback is gone or is still 0.85^n of its start |
| Enemies.RecoilSettles | src/js/enemies.ts:148-152 | the six-pixel push of a hit is over within sixteen frames |
| Enemies.DistSq | src/js/enemies.ts:160 | the squared distance is never negative |
| Enemies.NearestIsClosest | src/js/enemies.ts:154-165 | the scan finds no player exactly when none is alive; otherwise it picks a living player at the smallest distance, and the first of several at that distance |
| Enemies.FindNearest | src/js/enemies.ts:154-165 | the loop over the players returns the pick of `NearestIn` over all of them |
| Enemies.Chase | src/js/enemies.ts:167-191 | with no living player nothing changes; an attack starts exactly when the player is within 80 pixels and the cooldown is over, setting 30 frames of attack and 60 plus a draw from [0, 30] of cooldown; otherwise the timers stay; only x and facing move besides |
| Enemies.Settle | src/js/enemies.ts:193-201 | on a wide enough playfield x ends in [0, 800 - width] (0 when it was negative); a walker stands on the ground |
| Enemies.CountDown | src/js/enemies.ts:204-205 | a positive timer drops by one; zero or less stays |
| Enemies.FoeStep | src/js/enemies.ts:147-212 | one living frame keeps the timers non-negative and the animation counters in range, ends on the playfield, keeps walkers on the ground, decays the knockback, and starts an attack (29 frames of attack and 59 to 89 of cooldown left) exactly when the nearest living player is within 80 pixels and the cooldown is over; otherwise both timers count down |
| Enemies.Flame | src/js/enemies.ts:182-189 | a breathed fireball starts half-way up the dragon, flies level at speed 5 in the facing direction and lives 120 frames |
| Enemies.AnimAlternates | src/js/enemies.ts:207-212 | from a fresh start the animation frame flips every 15 ticks: after n ticks the timer is n mod 15 and the frame (n div 15) mod 2 |
| Enemies.ShotStep | src/js/enemies.ts:511-515 | one update takes a frame of life and keeps the velocity |
| Enemies.ShotFlies | src/js/enemies.ts:500-516 | after n updates a fireball has moved n steps in a straight line and lost n frames, so one fired with 120 frames is out of play by its 120th update |
| Enemies.Fireball.constructor | src/js/enemies.ts:500-509 | a fireball flies level, is 25 by 20, carries the damage given and lives 120 frames |
| Enemies.Fireball.Update | src/js/enemies.ts:511-516 | the fireball takes `ShotStep` and reports whether it still has life and is within 50 pixels of the playfield |
| Enemies.Enemy.constructor | src/js/enemies.ts:30-45 | a new enemy faces left with every timer and the knockback at zero, alive, with the stats of its type at full health (all zero for an unknown type) |
| Enemies.Enemy.SetupStats | src/js/enemies.ts:60-139 | a known type gets its table entry, its drawn gold and its level colour; an unknown type changes nothing but health, which is set to the maximum |
| Enemies.Enemy.TakeDamage | src/js/enemies.ts:217-227 | health drops by the amount and stops at 0, which kills; the knockback becomes six times the direction; the result is whether the enemy is dead |
| Enemies.Enemy.Update | src/js/enemies.ts:141-215 | a dead enemy only counts its death timer and stays listed for 30 frames; a living one takes `FoeStep`, stays listed, and breathes a fireball exactly when it is a dragon that starts an attack |
| Enemies.Enemy.Hitbox | src/js/enemies.ts:229-236 | the enemy's hitbox is the rectangle at its position with its width and height |
| Enemies.Enemy.Act | src/js/enemies.ts:147-212 | the living frame: the new state is `FoeStep` of the old, and a fireball is breathed exactly when a dragon starts an attack |
| Enemies.Enemy.Place | src/js/enemies.ts:193-201 | the new position is `Settle` of the old |
| Enemies.Enemy.ApplyRecoil | src/js/enemies.ts:147-152 | the knockback moves the enemy and then decays, as `Shove` |
| Enemies.Enemy.Pursue | src/js/enemies.ts:167-191 | the new state is `Chase` of the old; a fireball is created exactly when a dragon starts an attack, placed as `Flame` |
| Enemies.Enemy.TickTimers | src/js/enemies.ts:203-212 | the timers and animation counters take the `TickFoe` step |
| Equipment.Multiplier | src/js/constants.ts:48-55 | every tier multiplies by 1 to 2.5, and only the basic tier by exactly 1 |
| Equipment.Rank | src/js/constants.ts:48-55 | the six tiers take the six places 0 to 5 of the upgrade order |
| Equipment.MultiplierFollowsRank | src/js/constants.ts:48-55 | a tier comes later in the upgrade order exactly when its multiplier is larger |
| Equipment.Gear.Set | src/js/shop.ts:122 | equipping a tier changes that slot to it and leaves the other three slots alone |
| Input.LowerChar | src/js/input.ts:24 | upper-case ASCII letters become lower-case letters and every other character is kept |
| Input.Lower | src/js/input.ts:24 | a key name is lower-cased character by character and keeps its length |
| Input.JustPressed | src/js/input.ts:38-47 | every entry of the just-pressed map is true |
| Input.JustPressedIsRisingEdge | src/js/input.ts:38-47 | a key counts as just pressed exactly when it is held now and was not held on the previous frame |
| Input.HeldKeyFiresOnce | src/js/input.ts:38-47 | a second update with no key event in between reports nothing as just pressed |
| Input.LowerNeverShift | src/js/input.ts:77 | a lower-cased key name is never `Shift`, so that entry can only come from a key code spelled exactly so |
| Input.InputManager.constructor | src/js/input.ts:17-20 | a new manager holds no keys, nothing just pressed and no previous keys |
| Input.InputManager.KeyDown | src/js/input.ts:22-25 | the code and the lower-cased name are held afterwards and no other key changes |
| Input.InputManager.KeyUp | src/js/input.ts:32-35 | the code and the lower-cased name are released afterwards and no other key changes |
| Input.InputManager.Update | src/js/input.ts:38-47 | the just-pressed map becomes `JustPressed` of the current and previous keys, and the current keys are remembered for the next frame |
| Input.InputManager.GetPlayer1Input | src/js/input.ts:58-67 | player one moves left on `a` or `KeyA` and right on `d` or `KeyD`, and attacks on a fresh `Space` |
| Input.InputManager.IsDown | src/js/input.ts:49-51 | a key is down exactly when the held-key map marks it held; a key never seen reads as up |
| Input.InputManager.IsJustPressed | src/js/input.ts:53-55 | a key is just pressed exactly when the fresh-press map of the last update marks it; a key never seen reads as not pressed |
| Input.InputManager.IsConfirm | src/js/input.ts:82-84 | confirm is a fresh `Space` or a fresh `Enter` |
| Input.InputManager.IsCancel | src/js/input.ts:86-88 | cancel is a fresh `Escape` |
| Input.InputManager.IsMenuUp | src/js/input.ts:90-92 | menu up is a fresh `w`, `KeyW` or `ArrowUp` |
| Input.InputManager.IsMenuDown | src/js/input.ts:94-96 | menu down is a fresh `s`, `KeyS` or `ArrowDown` |
| Input.InputManager.IsMenuLeft | src/js/input.ts:98-100 | menu left is a fresh `a`, `KeyA` or `ArrowLeft` |
| Input.InputManager.IsMenuRight | src/js/input.ts:102-104 | menu right is a fresh `d`, `KeyD` or `ArrowRight` |
| Input.InputManager.GetPlayer2Input | src/js/input.ts:70-79 | player two moves with the arrows and attacks on a fresh `Enter` |
| Input.HoldSpace | src/js/input.ts:38-67 | holding Space across two frames reports an attack on the first frame only |
| LevelRegistry.FirstWithId | src/js/data/levels/index.ts:22 | the result is the index of the first level carrying the id, and nothing exactly when no level carries it |
| LevelRegistry.FirstNamed | src/js/data/levels/index.ts:27 | the result is the index of the first level whose lower-cased name equals the lower-cased query, and nothing exactly when no name matches |
| LevelRegistry.GetLevelById | src/js/data/levels/index.ts:21-23 | the level found is a registered level with the id and no earlier level has it; nothing is found exactly when no registered level has the id |
| LevelRegistry.GetLevelByName | src/js/data/levels/index.ts:26-28 | the level found is the first registered level whose name matches ignoring case; nothing is found exactly when no name matches |
| LevelRegistry.RegistryPlayable | src/js/data/levels/index.ts:12-18 | every registered level has at least one wave and every wave names only known enemy types |
| LevelRegistry.LookupById | src/js/data/levels/index.ts:12-23 | the registered ids are exactly 1, 2, 3, 5 and 7, each finding its own level; the ice cave's 4 and the sky castle's 6 find nothing |
| LevelRegistry.NameLookupIgnoresCase | src/js/data/levels/index.ts:26-28 | an upper-case name finds the castle, and the name of an unregistered level finds nothing |
| LevelRegistry.NameLookupIsCaseBlind | src/js/data/levels/index.ts:26-28 | any two names that differ only in letter case find the same level, or both find none |
| LevelsJs.JsLevelsRenumberRegistry | src/js/levels.js:6-92 | the inline table of the older build is the registry with level i numbered i + 1: the same levels, names, backgrounds and waves, agreeing on the ids of the first three levels only, and just as playable |
| Levels.SpawnX | src/js/levels.ts:60 | an enemy's spawn position lies within 20 of 600 plus 100 per place in the wave |
| Levels.Survivors | src/js/levels.ts:89-91 | the survivors of a frame are at most as many as the enemies |
| Levels.SurvivorsLinger | src/js/levels.ts:89-91 | the survivors are exactly the enemies whose update reports that they stay: each survivor was an enemy that stays, and every enemy that stays survives |
| Levels.LingerFlags | src/js/levels.ts:89-91 | one flag per enemy, set exactly when that enemy stays |
| Levels.KeepIsSurvivors | src/js/levels.ts:89-91 | filtering the enemy list by the per-enemy flags gives exactly the survivors |
| Levels.KeepDistinct | src/js/levels.ts:89-94 | filtering a list without repeats keeps it without repeats, and keeps only its own elements |
| Levels.SpawnedSnoc | src/js/levels.ts:58-63 | appending a freshly built enemy of the next type at the next spawn position extends a correctly spawned wave by one |
| Levels.ClockStep | src/js/levels.ts:96-108 | the break counter never goes negative; the next wave is called only with the wave complete and the counter at zero; a frame with the wave still on and enemies left changes nothing |
| Levels.BreakLasts | src/js/levels.ts:96-108 | once the field is cleared, the break counts down from 90 one frame at a time and the next wave is called on exactly the 90th frame |
| Levels.LevelManager.constructor | src/js/levels.ts:18-26 | a new manager is at the first wave of the first level, with no enemies, no fireballs, no wave or level complete and a zero break |
| Levels.LevelManager.StartLevel | src/js/levels.ts:44-52 | the level index is clamped to the last level, the wave index is reset, fireballs and completion flags are cleared, and the enemies are exactly the first wave freshly spawned |
| Levels.LevelManager.CurrentLevel | src/js/levels.ts:28-30 | the current level is the table entry at the current level index, which must lie inside the table |
| Levels.LevelManager.CurrentWave | src/js/levels.ts:32-34 | the current wave is the entry at the current wave index of the current level's waves, both indices inside their tables |
| Levels.LevelManager.IsLastLevel | src/js/levels.ts:36-38 | the level is the last exactly when its index is at or past the last index of the table |
| Levels.LevelManager.IsLastWave | src/js/levels.ts:40-42 | the wave is the last exactly when its index is at or past the last index of the current level's waves |
| Levels.LevelManager.SpawnWave | src/js/levels.ts:54-66 | the existing enemies are kept and followed by one fresh enemy per type of the current wave, in order, each at its spawn position on the ground line with full health; the wave is no longer complete |
| Levels.LevelManager.Recruit | src/js/levels.ts:58-63 | the enemies built for a wave are distinct, fresh and exactly the wave's types in order at their spawn positions |
| Levels.LevelManager.NextWave | src/js/levels.ts:68-75 | the wave index goes up by one; past the last wave the level is marked complete and nothing spawns, otherwise the new wave is appended to the enemies |
| Levels.LevelManager.NextLevel | src/js/levels.ts:77-85 | the result is true exactly when this was not the last level; then the level index goes up by one at its first wave, not complete; otherwise nothing changes |
| Levels.LevelManager.Update | src/js/levels.ts:87-109 | every enemy takes its frame; every old fireball takes its step and stays exactly while in flight; the enemies become the survivors, and the wave clock runs on whether none survived, calling the next wave when the break ends |
| Levels.LevelManager.MoveEverything | src/js/levels.ts:89-94 | the enemies become exactly the survivors of their own updates, and the fireballs are stepped and filtered, with newly breathed ones added |
| Levels.LevelManager.Advance | src/js/levels.ts:89-91 | one enemy takes its frame, and the result reports that it stays exactly when it would linger |
| Levels.LevelManager.UpdateEnemies | src/js/levels.ts:89-91 | the enemies become exactly the survivors, every enemy having taken its frame; the fireballs breathed are fresh and distinct |
| Levels.LevelManager.AdvanceAll | src/js/levels.ts:89-91 | each enemy in turn takes its frame, with one stay flag per enemy that is set exactly when it lingers |
| Levels.LevelManager.UpdateProjectiles | src/js/levels.ts:94 | each fireball, old or newly breathed, takes one step and stays exactly when it is still in flight |
| Levels.LevelManager.RunClock | src/js/levels.ts:96-108 | the wave-complete flag and break follow the clock step; when the break ends the manager moves to the next wave as NextWave does, otherwise the enemies and wave are unchanged |
| Levels.HexDigit | src/js/levels.ts:340 | a recognised hexadecimal digit has a value from 0 to 15 |
| Levels.HexRun | src/js/levels.ts:340 | the count of leading hexadecimal digits: all of them are digits and the next character is not |
| Levels.Channel | src/js/levels.ts:341-343 | a channel read by a 32-bit shift and a mask of 255 is a byte; a colour that did not parse reads as 0 |
| Levels.AdjustColor | src/js/levels.ts:339-345 | every adjusted channel is at most 255, and none is negative when the amount is not |
| Levels.Bytes | src/js/levels.ts:341-343 | a number made of three bytes fits in 32 bits and the shifts and masks read the bytes back |
| Levels.AdjustSixDigits | src/js/levels.ts:339-345 | on a seven-character colour with six hexadecimal digits each channel is the value of its two digits raised by the amount, capped at 255 |
| Modifiers.NumOf | src/js/playerStats.ts:178 | a number is itself when added; a flag counts 1 exactly when set and 0 exactly when clear |
| Modifiers.Apply | src/js/playerStats.ts:173-182 | an unknown name leaves the table as it is; a flag is overwritten by the new value; a number has the new value added; no other name changes and no name appears |
| Modifiers.ApplyKeepsShape | src/js/playerStats.ts:173-182 | merging a modifier keeps the table's names and keeps every numeric entry numeric |
| Modifiers.ApplyTwiceAddsTwice | src/js/playerStats.ts:178 | applying the same numeric modifier twice adds twice its value |
| Modifiers.NumericApplyCommutes | src/js/playerStats.ts:178 | two numeric modifiers give the same table in either order |
| Stats.LegacyTableIsNarrower | src/js/playerStats.js:25-38 | the older edition's modifier table agrees with the newer one on each of its names, and the four late names exist only in the newer one |
| Stats.LegacyIgnoresLateModifiers | src/js/playerStats.js:111-120 | in the older edition a modifier of a late skill (berserker mode, second wind, gold multiplier) changes nothing |
| Stats.DefaultsRecalculate | src/js/playerStats.ts:83-101 | both default tables hold the seven numeric modifiers recalculation reads |
| Stats.ApplyKeepsRecalcKeys | src/js/playerStats.ts:173-182 | merging a modifier keeps those seven modifiers present and numeric |
| Stats.Floor | src/js/playerStats.ts:129-137 | the floor is a whole number at most its argument and within one below it |
| Stats.ScaledStat | src/js/playerStats.ts:129-134 | a scaled stat is the product of base, tier multiplier, level bonus and skill multiplier rounded down: at most the product and within one below it |
| Stats.Recalculated | src/js/playerStats.ts:120-142 | damage, maximum health and defense come out as whole numbers |
| Stats.FreshStatsAreNotRecalculated | src/js/playerStats.ts:63-142 | a fresh record holds the bare base stats, while recalculating it with starter gear gives 5 defense and 4.4 speed instead |
| Stats.RecalculatedGrowsWithLevel | src/js/playerStats.ts:126-134 | with non-negative damage and health modifiers, a higher level never gives lower damage or maximum health |
| Stats.ScaledGrowth | src/js/playerStats.ts:129-134 | a scaled stat never decreases as its level bonus grows |
| Stats.FloorMono | src/js/playerStats.ts:129-137 | rounding down keeps order |
| Stats.PlayerStats.constructor | src/js/playerStats.ts:63-117 | a new record has the base stats, the edition's default modifiers, basic gear in every slot, level 1, no experience, a threshold of 100, no gold and no skill points |
| Stats.PlayerStats.Recalculate | src/js/playerStats.ts:120-142 | the derived stats become those the modifiers, gear and level give; nothing else changes |
| Stats.PlayerStats.AddExp | src/js/playerStats.ts:144-158 | experience, threshold, level and skill points are those of the level-up curve; the result says whether a level was gained, and the stats are recalculated exactly then |
| Stats.PlayerStats.AddGold | src/js/playerStats.ts:160-162 | the gold rises by the amount and nothing else changes |
| Stats.PlayerStats.SpendGold | src/js/playerStats.ts:164-170 | the payment goes through exactly when the purse covers it, taking the amount; otherwise nothing changes |
| Stats.PlayerStats.ApplySkillModifier | src/js/playerStats.ts:173-182 | the table becomes the merged table; the stats are recalculated when the name is known and untouched otherwise |
| Stats.PlayerStats.ResetSkillModifiers | src/js/playerStats.ts:185-205 | the table returns to the edition's defaults and the stats are recalculated from them |
| Stats.PlayerStats.ResetSecondWind | src/js/playerStats.ts:208-210 | only the used-second-wind flag changes, to false |
| Progression.NextThreshold | src/js/playerStats.ts:151 | the next threshold is one and a half times the current one rounded down, so it grows and stays at least 100 |
| Progression.ThresholdAfter | src/js/playerStats.ts:147-153 | thresholds never shrink over level-ups |
| Progression.CostOf | src/js/playerStats.ts:147-153 | k level-ups cost at least 100 each |
| Progression.LevelUps | src/js/playerStats.ts:147-153 | the loop ends with less experience than the threshold, which is at least 100, and gains no level exactly when the experience is below the first threshold |
| Progression.LevelUpsFollowCurve | src/js/playerStats.ts:147-153 | the loop spends exactly the cost of the levels gained, ends on the matching threshold, and gains as many levels as the experience pays for and no more |
| Players.Friction | src/js/player.ts:149-151 | the friction is 0.8 on a normal floor and the level's own friction on ice, falling back to 0.92 when the level gives none; it is never zero |
| Players.DecayKnockback | src/js/player.ts:142-146 | one frame of decay leaves the push at four fifths of its size, or stops it once that is below half a pixel; no push stays none |
| Players.DecayPow | src/js/player.ts:144 | the decay factor over n frames lies in (0, 1] |
| Players.KnockbackShrinks | src/js/player.ts:142-146 | after n frames a push is gone or is exactly 0.8 to the n of its start |
| Players.KnockbackSettles | src/js/player.ts:142-146 | a hit's push, at most 8 in size, is over within thirteen frames |
| Players.Fall | src/js/player.ts:176-192 | after jumping, gravity and the ground check the player never stands below the ground line |
| Players.Bound | src/js/player.ts:202 | the player is clamped into the playfield: x from 0 to the canvas width less the player's width |
| Players.Move | src/js/player.ts:139-202 | after a frame of movement the player is on or above the ground line, inside the playfield, and faces one of the two directions |
| Players.MoveLands | src/js/player.ts:182-192 | on the ground line a player is grounded with no vertical speed; above it the player is in the air and fell by its speed plus half a pixel of gravity |
| Players.MoveJumps | src/js/player.ts:177-184 | a jump from the ground leaves it moving up at the jump speed less one frame of gravity |
| Players.MoveFacesAndWalks | src/js/player.ts:153-172 | the facing follows the held direction, right winning over left; on a normal floor the speed is exactly the player's speed in that direction and zero with no direction held |
| Players.Tick | src/js/player.ts:204-235 | a frame of the counters keeps them in range: an attack has frames left and a cooldown outlasting it, invincibility has frames left, the animation counters stay below their wrap points |
| Players.AttackStartsOffCooldown | src/js/player.ts:205-220 | an attack starts exactly when asked for with the cooldown run out; it then has 19 frames and the cooldown 29 left; a running attack is never restarted |
| Players.AttackRunsOut | src/js/player.ts:205-217 | a fresh attack stays on for its 19 remaining frames and is over after them, with its hitbox window covering the first five |
| Players.ScaleBounds | src/js/player.ts:133-135 | for the corrected rescale of the finding below (the fraction taken against the old maximum, which the comment at player.ts:133 asks for), health stays between 0 and the new maximum; this is not what the code computes |
| Players.FullHealthStaysFull | src/js/player.ts:133-135 | for the corrected rescale of the finding below, a player at full health stays at full health when the maximum changes; the code as written does not do this |
| Players.HealthAsWritten | src/js/player.ts:129-135 | the rescaling as written takes the fraction against the maximum just overwritten, so it only rounds the old health down |
| Players.IronArmorLosesHealthFraction | src/js/player.ts:129-135 | with iron armour at level 1 the maximum becomes 125; the written rescaling leaves a fully healthy player at 100, where keeping the fraction gives 125 |
| Players.HealthCap | src/js/player.ts:129 | maximum health is 100 scaled by the armour tier and 5% per level above the first, rounded down, and never below 100 |
| Players.StatsAgreeWithoutSkills | src/js/player.ts:121-131 | the player's own damage, maximum health, defense and speed equal those of the stats record with default modifiers, for any gear and level |
| Players.Player.constructor | src/js/player.ts:48-119 | a new player stands still and grounded at the given point facing right, with full health 100, base stats, cleared counters, basic gear, level 1 and no experience or gold; player 1 is the knight and any other the robot |
| Players.Player.CalculateStats | src/js/player.ts:121-136 | damage, maximum health, defense and speed become those the gear and level give; because the fraction is taken against the maximum just assigned, health is only rounded down and keeps its absolute value; the player stays valid whenever the old health fits under the new maximum |
| Players.HealthCapMono | src/js/player.ts:129 | a better armour tier never gives a lower maximum health at the same level |
| Players.Player.AddExp | src/js/player.ts:272-281 | experience, threshold and level follow the level-up curve; after any level-up the stats are recalculated and health is full; with none, health and maximum are unchanged |
| Players.Player.LevelUp | src/js/player.ts:275-279 | one level-up pays the threshold, raises the level by one and the threshold along the curve, recalculates the stats and heals fully |
| Players.Player.AddGold | src/js/player.ts:283-285 | the gold rises by the amount |
| Players.Player.TakeDamage | src/js/player.ts:252-266 | while invincible nothing changes and 0 is dealt; otherwise at least one point is dealt after defense, health does not drop below 0, and the player is pushed 8 per unit of direction and invincible for 60 frames |
| Players.Player.Heal | src/js/player.ts:268-270 | health rises by the amount but never past the maximum, and a non-negative amount never lowers it |
| Players.Player.Update | src/js/player.ts:138-236 | the player's position and motion become those of one frame of movement on the floor, and its counters those of one tick |
| Players.Player.MoveBody | src/js/player.ts:139-202 | the player's position and motion become those of one frame of movement |
| Players.Player.ApplyKnockback | src/js/player.ts:142-146 | the push moves the player and decays |
| Players.Player.SteerBody | src/js/player.ts:149-174 | the horizontal speed, facing and position follow the keys and the floor friction |
| Players.Player.FallBody | src/js/player.ts:176-192 | jump, gravity and landing update the vertical motion |
| Players.Player.StrideBody | src/js/player.ts:194-199 | the walk cycle runs while walking on the ground and rests on the ground otherwise |
| Players.Player.TickTimers | src/js/player.ts:204-235 | the counters become those of one tick |
| Players.Player.GetAttackHitbox | src/js/player.ts:238-250 | no hitbox outside the first five frames of an attack; otherwise a 50-wide strip of the player's height at its y, beside the side it faces |
| Players.Player.Reset | src/js/player.ts:441-453 | full health, no attack, no invincibility, no push or motion, grounded; position, gear and progress are kept |
| Players.HitboxBesidePlayer | src/js/player.ts:238-250 | the attack hitbox sits beside the attacker and never overlaps the attacker's own box |
| PlayerRendering.Abs | src/js/renderers/playerRenderer.ts:112 | the absolute value is non-negative and is the value or its negation |
| PlayerRendering.WalkSpeed | src/js/renderers/playerRenderer.ts:117 | the walk clip runs at a third of the horizontal speed, clamped to between 0.8 and 1.5 |
| PlayerRendering.HurtStep | src/js/renderers/playerRenderer.ts:78-82 | a drop in health forces the hurt clip from its start unless death is playing; otherwise the animator is untouched |
| PlayerRendering.LandStep | src/js/renderers/playerRenderer.ts:92-94 | touching down while not attacking forces the land clip; otherwise the animator is untouched |
| PlayerRendering.Select | src/js/renderers/playerRenderer.ts:97-122 | a new attack is forced; in the air a jump or double jump is requested without restarting one already playing, at unchanged speed; on the ground outside attack, hurt and land, walking requests the walk clip at the speed-matched rate and standing requests idle at rate 1; during those clips nothing changes |
| PlayerRendering.AnimationFrame | src/js/renderers/playerRenderer.ts:76-130 | the remembered health becomes the current one; on a dead frame death is forced and ticked once and the ground and attack memories are kept; on a live frame the clip decisions are taken, the animator ticks once and the memories are refreshed |
| PlayerRendering.ResetRenderer | src/js/renderers/playerRenderer.ts:446-451 | the animator returns to its initial state with nothing queued and no hook, and the renderer remembers standing on the ground, not attacking, at health 100 |
| PlayerRendering.DeathRestartsEachFrame | src/js/renderers/playerRenderer.ts:85-89 | while the player is dead each frame restarts the death clip, so it never gets further than one tick |
| PlayerRendering.HurtShowsOnGround | src/js/renderers/playerRenderer.ts:78-122 | a health drop while standing, not attacking and not landing leaves the hurt clip at its start before the tick |
| PlayerRendering.AttackEdgeWins | src/js/renderers/playerRenderer.ts:97-99 | the rising edge of the attack flag shows the attack clip from its start, whatever was playing |
| PlayerRendering.JumpWaitsForAttack | src/js/renderers/playerRenderer.ts:100-108 | with the standard clip tables, leaving the ground during an attack only queues the jump, and the attack keeps its frame |
| PlayerRendering.CatalogFor | src/js/renderers/playerRenderer.ts:71 | a knight gets the knight clips and any other type the robot clips, both well-formed standard tables |
| PlayerRendering.PlayerRenderer.constructor | src/js/renderers/playerRenderer.ts:47-73 | a new renderer owns a fresh animator over its type's clips, in the initial state, remembering ground, no attack and health 100 |
| PlayerRendering.PlayerRenderer.UpdateAnimation | src/js/renderers/playerRenderer.ts:76-130 | the renderer and animator state become exactly one AnimationFrame of the old state, the completions fired are appended, and the animator ticks once |
| PlayerRendering.PlayerRenderer.NoteHealth | src/js/renderers/playerRenderer.ts:78-82 | the animator takes the hurt decision and the remembered health becomes the current one |
| PlayerRendering.PlayerRenderer.SelectClip | src/js/renderers/playerRenderer.ts:91-122 | the animator takes the landing and clip decisions of a live frame |
| PlayerRendering.PlayerRenderer.Reset | src/js/renderers/playerRenderer.ts:446-451 | the renderer's state becomes ResetRenderer of the old one |
| PlayerRendering.PlayerRenderer.PlayAnimation | src/js/renderers/playerRenderer.ts:456-458 | the named clip is forced on the animator |
| PlayerRendering.PlayerRenderer.IsAnimationPlaying | src/js/renderers/playerRenderer.ts:463-465 | the renderer reports a clip as playing exactly when its animator does |
| LegacyPlayerRendering.CounterStep | src/js/renderers/playerRenderer.js:31-35 | the tick counter runs from 0 to 9 and wraps, advancing the frame, which runs from 0 to 3 and wraps |
| LegacyPlayerRendering.CounterAfter | src/js/renderers/playerRenderer.js:31-35 | the counters stay in range over any number of updates |
| LegacyPlayerRendering.CounterCountsTens | src/js/renderers/playerRenderer.js:24-35 | after n updates the counter is n mod 10 and the frame is the number of whole tens mod 4 |
| LegacyPlayerRendering.SelectState | src/js/renderers/playerRenderer.js:38-46 | attacking exactly when the player attacks; jumping exactly when not attacking and in the air; walking exactly when grounded with a running walk cycle; idle otherwise |
| LegacyPlayerRendering.LegacyPlayerRenderer.constructor | src/js/renderers/playerRenderer.js:5-27 | a new renderer is idle at frame 0 with its counter at 0 |
| LegacyPlayerRendering.LegacyPlayerRenderer.UpdateAnimation | src/js/renderers/playerRenderer.js:30-47 | the counters take one step and the state is the one the flags select |
| Shop.UpgradeTable | src/js/shop.ts:29-62 | each slot's table lists the six tiers in rank order, with the starter tier free |
| Shop.PricesRiseWithTier | src/js/shop.ts:29-62 | in every slot a better tier always costs more |
| Shop.TierIndex | src/js/shop.ts:91 | the index of the first entry for the tier, or -1 exactly when no entry has it |
| Shop.TierIndexIsRank | src/js/shop.ts:29-62 | every tier is found in every slot's table, at its rank |
| Shop.Slice | src/js/shop.ts:94 | slicing cuts both ends to the length and keeps the elements in between, in order |
| Shop.GetAvailableUpgrades | src/js/shop.ts:84-95 | the items category offers the two potions; a slot offers the tiers right above the one worn, at most three, weakest first |
| Shop.GetCurrentEquipment | src/js/shop.ts:97-102 | a slot yields the table entry of the tier worn; the items category yields nothing |
| Shop.OfferedUpgradesImprove | src/js/shop.ts:84-95 | every offered upgrade is of a higher tier than the one worn, so buying it raises the slot's multiplier |
| Shop.NothingAboveLegendary | src/js/shop.ts:84-95 | a slot offers nothing exactly when legendary gear is worn there |
| Shop.Healed | src/js/shop.ts:65-66 | a potion never lifts health past the maximum unless it already was |
| Shop.PotionsHeal | src/js/shop.ts:65-66 | a full restore fills the player; a health potion never lowers health or overfills, and fills exactly when the player is within 50 of the maximum |
| Shop.CategoriesWrap | src/js/shop.ts:141-148 | left and right stay on the five categories, undo each other, and wrap from the first to the last and back |
| Shop.MoveCategory | src/js/shop.ts:141-148 | left and right together leave the category, either alone moves it one step with wrap-around |
| Shop.Browse | src/js/shop.ts:141-159 | a frame's navigation lands on one of the five categories |
| Shop.OfferCountIsLength | src/js/shop.ts:152 | the closed-form count is the length of the category's offer |
| Shop.Chosen | src/js/shop.ts:162-167 | confirm picks an item exactly when the selection is on the category's list, and picks the selected entry |
| Shop.BrowseMoves | src/js/shop.ts:140-159 | left and right together cancel; a category change starts at the first item; a selection inside a non-empty list stays inside; up never goes above the top and down never past the bottom; down on an empty list selects -1 |
| Shop.Shop.constructor | src/js/shop.ts:76-82 | the shop opens on the first sword item with no message |
| Shop.Shop.ShowMessage | src/js/shop.ts:130-133 | the message is shown for 120 frames |
| Shop.Shop.Purchase | src/js/shop.ts:108-128 | the item is bought exactly when the gold covers its price, which is then paid; the gear goes into the category's slot; health, maximum health, damage, defense and speed become VitalsAfter: a potion heals, an upgrade recalculates the stats from the new gear and only rounds health down; the matching message shows; without the gold nothing else changes |
| Shop.CanAfford | src/js/shop.ts:104-106 | an item is affordable exactly when the gold is at least its price |
| Shop.PurchaseKeepsHealthInBounds | src/js/shop.ts:119-124 | a purchase that does not downgrade a slot keeps health within the maximum and the maximum tied to the armour, never lowers the maximum, and leaves an upgraded player with their old health rounded down |
| Shop.Shop.Update | src/js/shop.ts:135-170 | the shop stays open unless cancel is pressed; the menu moves as Browse says; a confirmed pick on the list is purchased with its message, and gold, gear, health and stats become those of the purchase; otherwise the message timer counts down and gold, gear, health and stats are unchanged |
| Shop.Shop.Respond | src/js/shop.ts:135-170 | the same frame as Update, on the keys read beforehand |
| Shop.Shop.BuySelected | src/js/shop.ts:162-167 | confirm with a selection on the list purchases the selected item, with the gold, gear, health and stats that purchase gives; otherwise nothing is bought and nothing changes |
| Shop.Shop.Navigate | src/js/shop.ts:140-159 | the category and item become those Browse gives |
| Shop.Shop.SwitchCategory | src/js/shop.ts:141-148 | the category moves as MoveCategory says, and the item goes back to the first whenever left or right was pressed |
| Shop.Shop.MoveSelection | src/js/shop.ts:154-159 | up stops at the top item and down at the last item of the list |
| SkillData.OfBranch | src/js/skills/skillData.ts:114 | the branch filter never lengthens the list |
| SkillData.OfBranchMembers | src/js/skills/skillData.ts:114 | the branch filter keeps exactly the skills of that branch |
| SkillData.InsertByTier | src/js/skills/skillData.ts:114 | inserting one skill lengthens the list by one |
| SkillData.InsertByTierAdds | src/js/skills/skillData.ts:114 | inserting adds exactly that skill to the multiset of skills |
| SkillData.InsertByTierSorts | src/js/skills/skillData.ts:114 | inserting into a tier-ordered list keeps it tier-ordered and adds exactly the skill |
| SkillData.SortByTier | src/js/skills/skillData.ts:114 | the sort keeps the length |
| SkillData.SortByTierSorts | src/js/skills/skillData.ts:114 | the sort returns a tier-ordered permutation of its input |
| SkillData.SortByTierSorted | src/js/skills/skillData.ts:114 | the sorted list is in ascending tier order |
| SkillData.SortByTierPermutes | src/js/skills/skillData.ts:114 | the sorted list is a permutation of its input |
| SkillData.InsertKeepsPermutation | src/js/skills/skillData.ts:114 | inserting the last skill into a permutation of the others gives a permutation of the whole |
| SkillData.GetSkillsByBranch | src/js/skills/skillData.ts:113-115 | a branch's skills come lowest tier first, as a permutation of the catalogue's skills of that branch, holding exactly those |
| SkillData.FindById | src/js/skills/skillData.ts:118 | the result is the first skill with the id, and nothing exactly when no skill has it |
| SkillData.GetSkillById | src/js/skills/skillData.ts:117-119 | a skill found carries the id asked for |
| SkillData.GetSkillByIdFinds | src/js/skills/skillData.ts:117-119 | the lookup fails exactly for ids no skill has, and otherwise returns a catalogue skill |
| SkillData.IdsUnique | src/js/skills/skillData.ts:18-111 | no two skills of the catalogue share an id |
| SkillData.LookupFindsSkill | src/js/skills/skillData.ts:117-119 | looking up a catalogue skill's id returns that skill |
| SkillData.FindFirst | src/js/skills/skillData.ts:118 | when no earlier skill has the id of the skill at position k, the lookup finds that skill |
| SkillData.OfBranchTriple | src/js/skills/skillData.ts:114 | a run of three skills of one branch is kept whole by that branch's filter and dropped by the others |
| SkillData.BranchMembers | src/js/skills/skillData.ts:18-111 | each branch's skills in catalogue order are its three declared skills |
| SkillData.OfBranchAppend | src/js/skills/skillData.ts:114 | filtering a concatenation filters each part |
| SkillData.SortKeepsSorted | src/js/skills/skillData.ts:114 | sorting three skills already in ascending tier order leaves them as they are |
| SkillData.OfBranchIsBranchList | src/js/skills/skillData.ts:18-114 | the filter of the catalogue by a branch is that branch's list |
| SkillData.BranchesHaveThreeTiers | src/js/skills/skillData.ts:18-115 | each branch yields one skill of each tier 1, 2 and 3, lowest first |
| SkillData.PrerequisitesChainWithinBranch | src/js/skills/skillData.ts:18-111 | tier-1 skills have no prerequisite; every other skill requires the skill of its own branch one tier lower, which the lookup finds |
| SkillData.FlagModifiersAreTheAbilities | src/js/skills/skillData.ts:18-111 | only the berserker, second-wind and double-jump modifiers are flags; the other six are numbers |
| SkillData.ModifiersMatchTable | src/js/skills/skillData.ts:18-111 | every skill's modifier names an entry of the modifier table of the same kind, flag or number |
| SkillTree.Dedup | src/js/skills/skillTree.ts:58 | building a set from a list keeps each id once, holds exactly the ids of the list, and is no longer than it |
| SkillTree.DedupInFirstOccurrenceOrder | src/js/skills/skillTree.ts:58 | the set lists its ids in the order of their first occurrence in the list, the order the saved list then exposes |
| SkillTree.DedupKeepsDistinct | src/js/skills/skillTree.ts:58 | a list without repeats becomes a set with the same ids in the same order |
| SkillTree.DistinctCount | src/js/skills/skillTree.ts:49-51 | a list without repeats has as many elements as the set of its elements |
| SkillTree.ApplyId | src/js/skills/skillTree.ts:59-63 | restoring one id keeps the table's names, and an unknown id or a modifier the table lacks changes nothing |
| SkillTree.ApplyIds | src/js/skills/skillTree.ts:59-64 | restoring a list of ids keeps the table's names |
| SkillTree.TouchesSomeId | src/js/skills/skillTree.ts:59-64 | restoring a list reaches the modifier table exactly when one of its ids names a skill whose modifier the table holds |
| SkillTree.ApplyIdsKeepsShape | src/js/skills/skillTree.ts:59-64 | restoring keeps the table's names, keeps numbers numeric and keeps the modifiers recalculation reads |
| SkillTree.RepeatedIdAppliesTwice | src/js/skills/skillTree.ts:58-64 | a saved list that repeats a skill with a numeric modifier applies that modifier once per occurrence, though the set keeps the id once |
| SkillTree.SkillTree.constructor | src/js/skills/skillTree.ts:11-15 | a new tree has no skill unlocked |
| SkillTree.SkillTree.CanUnlock | src/js/skills/skillTree.ts:17-32 | an unlock is allowed exactly when the skill is not unlocked, the points cover its tier and any prerequisite is unlocked; otherwise the first failing rule is reported, in that order, with the tier or the prerequisite's name |
| SkillTree.SkillTree.Unlock | src/js/skills/skillTree.ts:34-43 | the unlock succeeds exactly when allowed; it then pays the tier in skill points, records the id last and merges the skill's modifier, recalculating the stats; a refused unlock changes nothing |
| SkillTree.SkillTree.IsUnlocked | src/js/skills/skillTree.ts:45-47 | an id is unlocked exactly when it is in the set |
| SkillTree.SkillTree.GetUnlockedCount | src/js/skills/skillTree.ts:49-51 | the count is the size of the set of unlocked ids |
| SkillTree.SkillTree.Serialize | src/js/skills/skillTree.ts:53-55 | the saved list has no repeats and holds exactly the unlocked ids |
| SkillTree.SkillTree.Deserialize | src/js/skills/skillTree.ts:57-65 | the unlocked set becomes the distinct ids of the list, and every catalogue skill in the list, repeats included, has its modifier merged in order; the stats are recalculated exactly when some modifier applied |
| SkillTree.SkillTree.Reset | src/js/skills/skillTree.ts:67-69 | no skill stays unlocked |
| SkillTree.RestoreModifier | src/js/skills/skillTree.ts:60-63 | one restore step merges the named skill's modifier, or changes nothing for an unknown id |
| SkillTree.SerializeRoundTrip | src/js/skills/skillTree.ts:53-65 | saving and restoring gives back the same unlocked set and the same modifier table |
| SkillTree.UnlockMatchesRestore | src/js/skills/skillTree.ts:38-63 | unlocking a skill after some others merges the same modifier that restoring its id after theirs does |
| Utils.CollisionMeansSharedPoint | src/js/utils.ts:10-15 | for rectangles of positive size the overlap test holds exactly when some point lies strictly inside both, so it does not depend on argument order |
| Utils.CheckCollision | src/js/utils.ts:10-15 | two rectangles collide exactly when each starts strictly before the other ends on both axes; edges that only touch do not collide |
| Utils.Lerp | src/js/utils.ts:22-24 | a fraction of 0 gives the start, 1 gives the end, and a fraction between them stays between them |
| Utils.Clamp | src/js/utils.ts:26-28 | the value is kept when within the bounds and replaced by the nearer bound otherwise; when the bounds cross, the lower one wins |
| Utils.ClampIdempotent | src/js/utils.ts:26-28 | clamping twice into the same range is clamping once |
| Utils.RandomRange | src/js/utils.ts:30-32 | with a draw in [0, 1) the value lies in [min, max) |
| Utils.RandomInt | src/js/utils.ts:34-36 | with a draw in [0, 1) the whole number lies from min to max, both included |
| Utils.ParticleStep | src/js/utils.ts:64-70 | one update keeps the horizontal speed, adds 0.2 per unit of time to the vertical speed and takes the time off the life |
| Utils.ParticleFalls | src/js/utils.ts:64-70 | after n unit updates a particle has moved like a body under constant gravity and reports itself alive exactly while n is below its starting life |
| Utils.Particle.constructor | src/js/utils.ts:53-62 | a new particle starts where and how it was launched, with full life and a size in [2, 6) |
| Utils.Particle.Update | src/js/utils.ts:64-70 | the particle's motion takes one step and it reports itself alive exactly while life is left; colour, full life and size are kept |
| Utils.FloatStep | src/js/utils.ts:99-104 | one update takes the time off the life, and a rising number keeps rising, never faster |
| Utils.DecayPow | src/js/utils.ts:101 | the rise speed's decay factor over n frames lies in (0, 1] |
| Utils.FloatRises | src/js/utils.ts:99-104 | after n unit updates the rise speed is 0.95 to the n of its start and the life is n lower; a rising number never sinks |
| Utils.DamageNumber.constructor | src/js/utils.ts:90-97 | a new damage number starts at its point rising at speed 2 with 60 frames of life |
| Utils.DamageNumber.Update | src/js/utils.ts:99-104 | the number's height, speed and life take one step and it reports itself alive exactly while life is left |
| UtilsJs.Particle.constructor | src/js/utils.js:37-46 | a new particle starts where and how it was launched, with full life and a size in [2, 6) |
| UtilsJs.Particle.Update | src/js/utils.js:48-54 | the particle takes exactly the typed update's step of length 1 and reports itself alive exactly while life is left |
| UtilsJs.DamageNumber.constructor | src/js/utils.js:67-74 | a new damage number starts at its point rising at speed 2 with 60 frames of life |
| UtilsJs.DamageNumber.Update | src/js/utils.js:76-81 | the number takes the typed update's step of length 1 with a decay of exactly 0.95, and reports itself alive exactly while life is left |
| UtilsJs.DamageNumberFadesInSixty | src/js/utils.js:66-81 | after n of the older updates a new damage number is still shown exactly while n < 60, rises at 2 times 0.95^n, and never sinks below where it appeared |
| Pose.SelectSegment | src/js/animation/animator.ts:152-173 | the chosen pair of keyframes is within the clip: past the last keyframe, that keyframe held at fraction 1, otherwise the pair the scan finds |
| Enemies.NearestIn | src/js/enemies.ts:154-165 | the pick after scanning the first n players is one of those n |

## Left out

- Drawing on the canvas, audio, the game loop and the screens of `main.ts`, the menus, the skill-tree screen and DOM event wiring are not modelled. They produce pixels and sound, not state.
- Skill descriptions and icons, item descriptions, and level colours and decorations are display data and are not modelled.
- Every `Math.random` draw is a parameter whose value is in [0, 1): enemy gold and attack cooldowns, spawn jitter, particle sizes, the backdrop layout and bubble pops. The model proves what holds for every draw.
- `Math.sin`, `Math.sqrt` and `Math.pow` are not evaluated:
  - the flying enemies' hover offset is a parameter;
  - enemies compare squared distances, which order targets and test the 60- and 80-pixel thresholds exactly as distances do;
  - the damage number's per-frame fade `0.95 ^ delta` is a parameter.
- `distance` in `utils.ts` is not modelled on its own, because no modelled operation calls it.
- Numbers are exact reals. IEEE rounding and overflow of JavaScript numbers are not modelled. `Math.floor` is `.Floor`, and JavaScript's `%` on a looping clip's frame is written out for the non-negative frames that occur.
- `Input.Lower`: lower-casing a key name is modelled for ASCII letters only. Unicode case mapping is not modelled.
- `Levels.AdjustColor`: models the hex-prefix parse that `parseInt(…, 16)` performs and the 32-bit shift and mask. Leading whitespace, signs, a `0x` prefix and precision loss on very long inputs are not modelled.
- `Levels.LevelManager.StartLevel` requires a non-negative level index. The game clamps only from above (src/js/levels.ts:45), so a negative index reads an entry before the start of its table, which is undefined, and the `spawnWave` call at src/js/levels.ts:51 then throws when `currentWave` reads the waves of that undefined level. Such an index can reach it: the start level is parsed from the `?level=` query parameter of the page address (src/js/main.ts:70-72), and `?level=-1` gives -1 (text that is not a number gives NaN, which fails the same way).
- The ice cave and the sky castle are defined but never registered. Enemies are spawned with an empty background, so level-specific recolouring never happens from the level manager. Both facts are modelled as they are.
- Enemies see each player as a `Target` snapshot of position and health, not as a reference to the player object.
- Dragons breathe fireballs during the enemy pass. The model returns each one and appends it after the pass, which gives the same order of fireballs as the game.
- Closures become data:
  - clip completion hooks and the animator's one-shot callback become completion events with an id the caller chooses;
  - a consumable's effect becomes an `Effect` value.
- `console.warn` for an unknown clip name is dropped. The animator's state is unchanged in that case, as in the game.
- A damage number's value is kept as the text it shows.
- Shop.Shop.Purchase: requires that an upgrade bought for a slot is not below the tier worn there. Every item the menu offers meets this. Without it, a cheaper armour would leave health above the maximum, and the player's health bound could not be kept.
- `Shop.Shop.Update` reads each key predicate once per frame. The reads are pure, so this does not change any outcome.

## Findings

| source | as written | input that shows it | evidently intended | confidence | as-written member | corrected member |
|---|---|---|---|---|---|---|
| src/js/player.ts:129-135 | `calculateStats` assigns the new maximum health first, then takes `health / maxHealth` against that new maximum and multiplies back by it. The player keeps the same absolute health, not the same fraction. | a full-health level-1 player (100 of 100) buys iron armour: the maximum becomes 125 and health stays 100 | health keeps its fraction of the maximum (125 of 125) | not executed | Players.IronArmorLosesHealthFraction | Players.HealthAfterRecalc |
