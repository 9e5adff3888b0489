/**
 * The animated level backdrop: drifting clouds, flapping birds, bubbling
 * lava and dripping icicles, plus the static trees, gravestones and
 * sparkles they are drawn with. Each update moves every element in place
 * and wraps it around when it leaves its range. Random draws are an input:
 * `rnd(k)` stands for the k-th value the layout draws, and `draw(i, j)` for
 * the value drawn when bubble j of pool i pops.
 */
module BackgroundAnimation {

  const Pi: real := 3.141592653589793
  const TwoPi: real := Pi * 2.0

  datatype Cloud = Cloud(x: real, y: real, width: real, height: real, speed: real, opacity: real, layer: int)
  datatype Tree = Tree(x: real, baseY: real, height: real, swayOffset: real, swaySpeed: real, swayAmount: real)
  datatype Gravestone = Gravestone(x: real, y: real, height: real, wobblePhase: real)
  datatype LavaBubble = LavaBubble(x: real, y: real, size: real, speed: real, phase: real)
  datatype LavaPool = LavaPool(x: real, y: real, width: real, bubbles: seq<LavaBubble>)
  datatype Icicle = Icicle(x: real, y: real, height: real, dripTimer: real, dripPhase: real)
  datatype Sparkle = Sparkle(x: real, y: real, phase: real, maxSize: real)
  datatype Bird = Bird(x: real, y: real, speed: real, wingPhase: real, amplitude: real)

  /** The seven element lists of a backdrop. */
  datatype Scene = Scene(
    clouds: seq<Cloud>,
    trees: seq<Tree>,
    gravestones: seq<Gravestone>,
    lavaPools: seq<LavaPool>,
    icicles: seq<Icicle>,
    sparkles: seq<Sparkle>,
    birds: seq<Bird>)

  const EmptyScene := Scene([], [], [], [], [], [], [])

  /** A value Math.random may return. */
  predicate IsDraw(r: real) {
    0.0 <= r < 1.0
  }

  /** A random stream: every draw lies in [0, 1). */
  ghost predicate IsStream(rnd: nat -> real) {
    forall k :: IsDraw(rnd(k))
  }

  /** A draw scaled to a positive span lies in [0, span). */
  lemma ScaledDraw(r: real, span: real)
    requires IsDraw(r) && span > 0.0
    ensures 0.0 <= r * span < span
  {
  }

  /** A draw scaled to a full turn, as `Math.random() * Math.PI * 2`, lies in [0, 2π). */
  lemma PhaseDraw(r: real)
    requires IsDraw(r)
    ensures 0.0 <= r * Pi * 2.0 < TwoPi
  {
    ScaledDraw(r, Pi);
  }

  // ---- Layout ----

  /** How a level scatters its sparkles: each coordinate is a base plus a draw times a span. */
  datatype SparkleRecipe = SparkleRecipe(x0: real, xSpan: real, y0: real, ySpan: real, size0: real, sizeSpan: real)

  /** The sparkle made from four consecutive draws starting at `k`. */
  function MakeSparkle(recipe: SparkleRecipe, rnd: nat -> real, k: nat): Sparkle {
    Sparkle(recipe.x0 + rnd(k) * recipe.xSpan,
            recipe.y0 + rnd(k + 1) * recipe.ySpan,
            rnd(k + 2) * Pi * 2.0,
            recipe.size0 + rnd(k + 3) * recipe.sizeSpan)
  }

  function Sparkles(count: nat, recipe: SparkleRecipe, rnd: nat -> real, base: nat): seq<Sparkle> {
    seq(count, i requires 0 <= i < count => MakeSparkle(recipe, rnd, base + 4 * i))
  }

  predicate InRecipe(recipe: SparkleRecipe, s: Sparkle) {
    && recipe.x0 <= s.x < recipe.x0 + recipe.xSpan
    && recipe.y0 <= s.y < recipe.y0 + recipe.ySpan
    && 0.0 <= s.phase < TwoPi
    && recipe.size0 <= s.maxSize < recipe.size0 + recipe.sizeSpan
  }

  /** Every sparkle lies in its recipe's box, with a phase in [0, 2π). */
  lemma SparkleInRecipe(recipe: SparkleRecipe, rnd: nat -> real, k: nat)
    requires IsDraw(rnd(k)) && IsDraw(rnd(k + 1)) && IsDraw(rnd(k + 2)) && IsDraw(rnd(k + 3))
    requires recipe.xSpan > 0.0 && recipe.ySpan > 0.0 && recipe.sizeSpan > 0.0
    ensures InRecipe(recipe, MakeSparkle(recipe, rnd, k))
  {
    var x, y := rnd(k) * recipe.xSpan, rnd(k + 1) * recipe.ySpan;
    var phase, size := rnd(k + 2) * Pi * 2.0, rnd(k + 3) * recipe.sizeSpan;
    ScaledDraw(rnd(k), recipe.xSpan);
    ScaledDraw(rnd(k + 1), recipe.ySpan);
    PhaseDraw(rnd(k + 2));
    ScaledDraw(rnd(k + 3), recipe.sizeSpan);
    assert MakeSparkle(recipe, rnd, k) == Sparkle(recipe.x0 + x, recipe.y0 + y, phase, recipe.size0 + size);
  }

  /** Sparkles scattered from a random stream all lie in their recipe's box. */
  lemma {:induction false} SparklesInRecipe(count: nat, recipe: SparkleRecipe, rnd: nat -> real, base: nat)
    requires IsStream(rnd) && recipe.xSpan > 0.0 && recipe.ySpan > 0.0 && recipe.sizeSpan > 0.0
    ensures forall i :: 0 <= i < count ==> InRecipe(recipe, Sparkles(count, recipe, rnd, base)[i])
  {
    forall i | 0 <= i < count
      ensures InRecipe(recipe, Sparkles(count, recipe, rnd, base)[i])
    {
      var k := base + 4 * i;
      assert IsDraw(rnd(k)) && IsDraw(rnd(k + 1)) && IsDraw(rnd(k + 2)) && IsDraw(rnd(k + 3));
      SparkleInRecipe(recipe, rnd, k);
    }
  }

  /** The bubble made from four consecutive draws starting at `k`. */
  function MakeBubble(poolX: real, poolY: real, poolWidth: real, rnd: nat -> real, k: nat): LavaBubble {
    LavaBubble(poolX + rnd(k) * poolWidth, poolY, 3.0 + rnd(k + 1) * 5.0, 0.5 + rnd(k + 2) * 1.5, rnd(k + 3) * Pi * 2.0)
  }

  function LavaBubbles(poolX: real, poolY: real, poolWidth: real, count: nat, rnd: nat -> real, base: nat): seq<LavaBubble> {
    seq(count, i requires 0 <= i < count => MakeBubble(poolX, poolY, poolWidth, rnd, base + 4 * i))
  }

  const IciclePositions: seq<real> := [50.0, 150.0, 280.0, 420.0, 550.0, 680.0, 750.0]

  /** Icicle `i` at its fixed position, sized by `i mod 3`, with two draws for its drip. */
  function MakeIcicle(i: nat, rnd: nat -> real): Icicle
    requires i < |IciclePositions|
  {
    Icicle(IciclePositions[i], 80.0, 40.0 + (i % 3) as real * 20.0, rnd(2 * i) * 200.0, rnd(2 * i + 1) * Pi * 2.0)
  }

  function Icicles(rnd: nat -> real): seq<Icicle> {
    seq(|IciclePositions|, i requires 0 <= i < |IciclePositions| => MakeIcicle(i, rnd))
  }

  function ForestScene(groundY: real): Scene {
    EmptyScene.(
      clouds := [
        Cloud(50.0, 50.0, 80.0, 30.0, 0.15, 0.6, 0),
        Cloud(200.0, 80.0, 100.0, 35.0, 0.2, 0.7, 1),
        Cloud(450.0, 40.0, 70.0, 25.0, 0.12, 0.5, 0),
        Cloud(600.0, 90.0, 90.0, 32.0, 0.25, 0.8, 2),
        Cloud(750.0, 60.0, 75.0, 28.0, 0.18, 0.65, 1)],
      trees := [
        Tree(50.0, groundY, 80.0, 0.0, 1.2, 3.0),
        Tree(150.0, groundY, 90.0, Pi / 3.0, 1.0, 4.0),
        Tree(650.0, groundY, 85.0, Pi / 2.0, 1.3, 3.5),
        Tree(750.0, groundY, 75.0, Pi, 1.1, 2.5)],
      birds := [
        Bird(100.0, 120.0, 1.5, 0.0, 15.0),
        Bird(300.0, 80.0, 1.2, Pi / 2.0, 20.0),
        Bird(500.0, 150.0, 1.8, Pi, 12.0)])
  }

  function GraveyardWisps(width: real, groundY: real): SparkleRecipe {
    SparkleRecipe(0.0, width, 100.0, groundY - 150.0, 3.0, 4.0)
  }

  function GraveyardScene(width: real, groundY: real, rnd: nat -> real): Scene {
    EmptyScene.(
      gravestones := [
        Gravestone(80.0, groundY, 55.0, 0.0),
        Gravestone(200.0, groundY, 40.0, Pi / 4.0),
        Gravestone(350.0, groundY, 70.0, Pi / 2.0),
        Gravestone(500.0, groundY, 45.0, Pi * 0.75),
        Gravestone(680.0, groundY, 60.0, Pi)],
      sparkles := Sparkles(12, GraveyardWisps(width, groundY), rnd, 0))
  }

  function MountainScene(): Scene {
    EmptyScene.(
      clouds := [
        Cloud(30.0, 60.0, 100.0, 40.0, 0.1, 0.7, 0),
        Cloud(180.0, 100.0, 120.0, 45.0, 0.15, 0.8, 1),
        Cloud(380.0, 45.0, 90.0, 35.0, 0.08, 0.6, 0),
        Cloud(550.0, 85.0, 110.0, 42.0, 0.2, 0.75, 1),
        Cloud(720.0, 55.0, 85.0, 32.0, 0.12, 0.65, 0)],
      birds := [
        Bird(200.0, 100.0, 1.0, 0.0, 20.0),
        Bird(400.0, 130.0, 0.8, Pi / 3.0, 25.0),
        Bird(600.0, 90.0, 1.2, Pi * 0.7, 18.0)])
  }

  function IceSparkles(width: real, groundY: real): SparkleRecipe {
    SparkleRecipe(0.0, width, 100.0, groundY - 150.0, 2.0, 3.0)
  }

  /** The icicles draw 14 values, then the 20 sparkles draw theirs. */
  function IceCaveScene(width: real, groundY: real, rnd: nat -> real): Scene {
    EmptyScene.(
      icicles := Icicles(rnd),
      sparkles := Sparkles(20, IceSparkles(width, groundY), rnd, 14))
  }

  function Embers(groundY: real): SparkleRecipe {
    SparkleRecipe(300.0, 200.0, groundY - 200.0, 100.0, 2.0, 4.0)
  }

  /** The first pool's five bubbles draw first, then the second pool's six, then the embers. */
  function VolcanoScene(groundY: real, rnd: nat -> real): Scene {
    EmptyScene.(
      lavaPools := [
        LavaPool(100.0, groundY + 30.0, 80.0, LavaBubbles(100.0, groundY + 30.0, 80.0, 5, rnd, 0)),
        LavaPool(600.0, groundY + 35.0, 100.0, LavaBubbles(600.0, groundY + 35.0, 100.0, 6, rnd, 20))],
      sparkles := Sparkles(15, Embers(groundY), rnd, 44))
  }

  function CastleWisps(groundY: real): SparkleRecipe {
    SparkleRecipe(100.0, 600.0, groundY - 200.0, 100.0, 4.0, 5.0)
  }

  function CastleScene(groundY: real, rnd: nat -> real): Scene {
    EmptyScene.(
      birds := [
        Bird(150.0, 80.0, 2.0, 0.0, 30.0),
        Bird(350.0, 120.0, 1.8, Pi / 2.0, 25.0),
        Bird(550.0, 70.0, 2.2, Pi, 35.0),
        Bird(700.0, 100.0, 1.5, Pi * 1.5, 28.0)],
      sparkles := Sparkles(8, CastleWisps(groundY), rnd, 0))
  }

  const Backgrounds: set<string> := {"forest", "graveyard", "mountains", "skyCastle", "iceCave", "volcano", "castle"}

  /**
   * The elements a background starts with; sky castle shares the
   * mountains, and a name not listed gets an empty backdrop.
   */
  function Layout(background: string, width: real, groundY: real, rnd: nat -> real): (s: Scene)
    ensures background !in Backgrounds ==> s == EmptyScene
    ensures background == "forest" ==>
      |s.clouds| == 5 && |s.trees| == 4 && |s.birds| == 3
      && |s.gravestones| + |s.lavaPools| + |s.icicles| + |s.sparkles| == 0
    ensures background == "graveyard" ==>
      |s.gravestones| == 5 && |s.sparkles| == 12
      && |s.clouds| + |s.trees| + |s.birds| + |s.lavaPools| + |s.icicles| == 0
    ensures background in {"mountains", "skyCastle"} ==>
      |s.clouds| == 5 && |s.birds| == 3
      && |s.trees| + |s.gravestones| + |s.lavaPools| + |s.icicles| + |s.sparkles| == 0
    ensures background == "iceCave" ==>
      |s.icicles| == 7 && |s.sparkles| == 20
      && |s.clouds| + |s.trees| + |s.birds| + |s.lavaPools| + |s.gravestones| == 0
    ensures background == "volcano" ==>
      |s.lavaPools| == 2 && |s.lavaPools[0].bubbles| == 5 && |s.lavaPools[1].bubbles| == 6 && |s.sparkles| == 15
      && |s.clouds| + |s.trees| + |s.birds| + |s.icicles| + |s.gravestones| == 0
    ensures background == "castle" ==>
      |s.birds| == 4 && |s.sparkles| == 8
      && |s.clouds| + |s.trees| + |s.lavaPools| + |s.icicles| + |s.gravestones| == 0
  {
    match background
    case "forest" => ForestScene(groundY)
    case "graveyard" => GraveyardScene(width, groundY, rnd)
    case "mountains" => MountainScene()
    case "skyCastle" => MountainScene()
    case "iceCave" => IceCaveScene(width, groundY, rnd)
    case "volcano" => VolcanoScene(groundY, rnd)
    case "castle" => CastleScene(groundY, rnd)
    case _ => EmptyScene
  }

  // ---- One update ----

  /** A cloud drifts by its speed; once past the right edge by its own width it re-enters at the left. */
  function MoveCloud(c: Cloud, width: real): (r: Cloud)
    ensures r == c.(x := r.x)
    ensures r.x == c.x + c.speed || r.x == -c.width
  {
    var x := c.x + c.speed;
    c.(x := if x > width + c.width then -c.width else x)
  }

  /** A bird flies by its speed and flaps by 0.2; past the right edge by 50 it re-enters at -50. */
  function FlyBird(b: Bird, width: real): (r: Bird)
    ensures r == b.(x := r.x, wingPhase := b.wingPhase + 0.2)
    ensures r.x == b.x + b.speed || r.x == -50.0
  {
    var x := b.x + b.speed;
    b.(x := if x > width + 50.0 then -50.0 else x, wingPhase := b.wingPhase + 0.2)
  }

  /** A bubble's phase grows by a tenth of its speed; past 2π it pops and reappears at a drawn spot in its pool. */
  function RiseBubble(b: LavaBubble, pool: LavaPool, r: real): (n: LavaBubble)
    ensures n.y == b.y && n.size == b.size && n.speed == b.speed
    ensures n.phase == b.phase + b.speed * 0.1 || (n.phase == 0.0 && n.x == pool.x + r * pool.width)
  {
    var phase := b.phase + b.speed * 0.1;
    if phase > Pi * 2.0 then b.(phase := 0.0, x := pool.x + r * pool.width) else b.(phase := phase)
  }

  function StepPool(pool: LavaPool, i: nat, draw: (nat, nat) -> real): LavaPool {
    pool.(bubbles := seq(|pool.bubbles|, j requires 0 <= j < |pool.bubbles| => RiseBubble(pool.bubbles[j], pool, draw(i, j))))
  }

  /** An icicle's drip timer counts up by one and restarts after 180. */
  function DripIcicle(ic: Icicle): (r: Icicle)
    ensures r == ic.(dripTimer := r.dripTimer)
    ensures r.dripTimer == ic.dripTimer + 1.0 || r.dripTimer == 0.0
  {
    var t := ic.dripTimer + 1.0;
    ic.(dripTimer := if t > 180.0 then 0.0 else t)
  }

  function StepClouds(clouds: seq<Cloud>, width: real): seq<Cloud> {
    seq(|clouds|, i requires 0 <= i < |clouds| => MoveCloud(clouds[i], width))
  }

  function StepBirds(birds: seq<Bird>, width: real): seq<Bird> {
    seq(|birds|, i requires 0 <= i < |birds| => FlyBird(birds[i], width))
  }

  function StepPools(pools: seq<LavaPool>, draw: (nat, nat) -> real): seq<LavaPool> {
    seq(|pools|, i requires 0 <= i < |pools| => StepPool(pools[i], i, draw))
  }

  function StepIcicles(icicles: seq<Icicle>): seq<Icicle> {
    seq(|icicles|, i requires 0 <= i < |icicles| => DripIcicle(icicles[i]))
  }

  /** Every moving element takes one step; trees, gravestones and sparkles stay as they are. */
  function StepScene(s: Scene, width: real, draw: (nat, nat) -> real): Scene {
    s.(clouds := StepClouds(s.clouds, width), birds := StepBirds(s.birds, width),
       lavaPools := StepPools(s.lavaPools, draw), icicles := StepIcicles(s.icicles))
  }

  // ---- Ranges the update keeps ----

  predicate CloudInBand(c: Cloud, width: real) {
    c.speed >= 0.0 && -c.width <= c.x <= width + c.width
  }

  predicate BirdInBand(b: Bird, width: real) {
    b.speed >= 0.0 && -50.0 <= b.x <= width + 50.0
  }

  predicate BubbleInCycle(b: LavaBubble) {
    b.speed >= 0.0 && 0.0 <= b.phase <= TwoPi
  }

  predicate PoolInCycle(p: LavaPool) {
    forall j :: 0 <= j < |p.bubbles| ==> BubbleInCycle(p.bubbles[j])
  }

  /** Drifting elements inside their wrap bands, bubbles inside one cycle, drip timers not negative. */
  predicate SceneInv(s: Scene, width: real) {
    && (forall i :: 0 <= i < |s.clouds| ==> CloudInBand(s.clouds[i], width))
    && (forall i :: 0 <= i < |s.birds| ==> BirdInBand(s.birds[i], width))
    && (forall i :: 0 <= i < |s.lavaPools| ==> PoolInCycle(s.lavaPools[i]))
    && (forall i :: 0 <= i < |s.icicles| ==> s.icicles[i].dripTimer >= 0.0)
  }

  /** A cloud that starts inside its band stays inside it. */
  lemma CloudStaysInBand(c: Cloud, width: real)
    requires CloudInBand(c, width)
    ensures CloudInBand(MoveCloud(c, width), width)
  {
  }

  /** A bird that starts inside its band stays inside it. */
  lemma BirdStaysInBand(b: Bird, width: real)
    requires BirdInBand(b, width)
    ensures BirdInBand(FlyBird(b, width), width)
  {
  }

  /** A bubble inside [0, 2π] with a non-negative speed stays inside it. */
  lemma BubbleStaysInCycle(b: LavaBubble, pool: LavaPool, r: real)
    requires BubbleInCycle(b)
    ensures BubbleInCycle(RiseBubble(b, pool, r))
  {
  }

  /** A popped bubble reappears inside its pool. */
  lemma PoppedBubbleInPool(b: LavaBubble, pool: LavaPool, r: real)
    requires IsDraw(r) && pool.width > 0.0
    requires b.phase + b.speed * 0.1 > TwoPi
    ensures RiseBubble(b, pool, r).phase == 0.0
    ensures pool.x <= RiseBubble(b, pool, r).x < pool.x + pool.width
  {
    BubblePops(b, pool, r);
    ShiftedDraw(r, pool.x, pool.width);
  }

  /** Past one cycle, a bubble restarts at phase 0 at its drawn place in the pool. */
  lemma BubblePops(b: LavaBubble, pool: LavaPool, r: real)
    requires b.phase + b.speed * 0.1 > TwoPi
    ensures RiseBubble(b, pool, r) == b.(phase := 0.0, x := pool.x + r * pool.width)
  {
    assert b.phase + b.speed * 0.1 > Pi * 2.0;
  }

  /** A draw scaled to a positive span and shifted by `lo` lies in [lo, lo + span). */
  lemma ShiftedDraw(r: real, lo: real, span: real)
    requires IsDraw(r) && span > 0.0
    ensures lo <= lo + r * span < lo + span
  {
    ScaledDraw(r, span);
  }

  /** From any non-negative start the drip timer lands in [0, 180]. */
  lemma DripTimerBounded(ic: Icicle)
    requires ic.dripTimer >= 0.0
    ensures 0.0 <= DripIcicle(ic).dripTimer <= 180.0
  {
  }

  /** One update keeps every range above. */
  lemma {:induction false} StepKeepsInv(s: Scene, width: real, draw: (nat, nat) -> real)
    requires SceneInv(s, width)
    ensures SceneInv(StepScene(s, width, draw), width)
  {
    var t := StepScene(s, width, draw);
    forall i | 0 <= i < |s.clouds|
      ensures CloudInBand(t.clouds[i], width)
    {
      CloudStaysInBand(s.clouds[i], width);
    }
    forall i | 0 <= i < |s.birds|
      ensures BirdInBand(t.birds[i], width)
    {
      BirdStaysInBand(s.birds[i], width);
    }
    forall i | 0 <= i < |s.lavaPools|
      ensures PoolInCycle(t.lavaPools[i])
    {
      var p := s.lavaPools[i];
      assert PoolInCycle(p);
      forall j | 0 <= j < |p.bubbles|
        ensures BubbleInCycle(t.lavaPools[i].bubbles[j])
      {
        BubbleStaysInCycle(p.bubbles[j], p, draw(i, j));
      }
    }
    forall i | 0 <= i < |s.icicles|
      ensures t.icicles[i].dripTimer >= 0.0
    {
      DripTimerBounded(s.icicles[i]);
    }
  }

  /** After an update every drip timer lies in [0, 180]. */
  lemma {:induction false} StepBoundsDrips(s: Scene, width: real, draw: (nat, nat) -> real)
    requires SceneInv(s, width)
    ensures var t := StepScene(s, width, draw);
      forall i :: 0 <= i < |t.icicles| ==> 0.0 <= t.icicles[i].dripTimer <= 180.0
  {
    forall i | 0 <= i < |s.icicles|
      ensures 0.0 <= DripIcicle(s.icicles[i]).dripTimer <= 180.0
    {
      DripTimerBounded(s.icicles[i]);
    }
  }

  /** Every layout drawn from a random stream starts inside the ranges, on a canvas at least 700 wide. */
  lemma {:induction false} LayoutSatisfiesInv(background: string, width: real, groundY: real, rnd: nat -> real)
    requires IsStream(rnd) && width >= 700.0
    ensures SceneInv(Layout(background, width, groundY, rnd), width)
  {
    var s := Layout(background, width, groundY, rnd);
    forall i | 0 <= i < |s.lavaPools|
      ensures PoolInCycle(s.lavaPools[i])
    {
      var p := s.lavaPools[i];
      forall j | 0 <= j < |p.bubbles|
        ensures BubbleInCycle(p.bubbles[j])
      {
        var k: nat := (if i == 0 then 0 else 20) + 4 * j;
        assert p.bubbles[j] == MakeBubble(p.x, p.y, p.width, rnd, k);
        assert IsDraw(rnd(k + 2)) && IsDraw(rnd(k + 3));
        PhaseDraw(rnd(k + 3));
      }
    }
    forall i | 0 <= i < |s.icicles|
      ensures s.icicles[i].dripTimer >= 0.0
    {
      assert IsDraw(rnd(2 * i));
    }
  }

  class BackgroundAnimator {
    var time: real
    var clouds: seq<Cloud>
    var trees: seq<Tree>
    var gravestones: seq<Gravestone>
    var lavaPools: seq<LavaPool>
    var icicles: seq<Icicle>
    var sparkles: seq<Sparkle>
    var birds: seq<Bird>
    var width: real
    var groundY: real
    var currentBackground: string

    function Elements(): Scene
      reads this
    {
      Scene(clouds, trees, gravestones, lavaPools, icicles, sparkles, birds)
    }

    constructor()
      ensures time == 0.0 && Elements() == EmptyScene
      ensures width == 800.0 && groundY == 420.0 && currentBackground == ""
    {
      width := 800.0;
      groundY := 420.0;
      currentBackground := "";
      time := 0.0;
      clouds, trees, gravestones, lavaPools, icicles, sparkles, birds := [], [], [], [], [], [], [];
    }

    method Reset()
      modifies this
      ensures time == 0.0 && Elements() == EmptyScene
      ensures width == old(width) && groundY == old(groundY) && currentBackground == old(currentBackground)
    {
      time := 0.0;
      clouds := [];
      trees := [];
      gravestones := [];
      lavaPools := [];
      icicles := [];
      sparkles := [];
      birds := [];
    }

    /** Scatters `count` sparkles, four draws each from `base` on. */
    static method SpawnSparkles(count: nat, recipe: SparkleRecipe, rnd: nat -> real, base: nat) returns (s: seq<Sparkle>)
      ensures s == Sparkles(count, recipe, rnd, base)
    {
      s := [];
      var i := 0;
      while i < count
        invariant 0 <= i <= count && |s| == i
        invariant forall k :: 0 <= k < i ==> s[k] == MakeSparkle(recipe, rnd, base + 4 * k)
      {
        var k := base + 4 * i;
        s := s + [Sparkle(recipe.x0 + rnd(k) * recipe.xSpan, recipe.y0 + rnd(k + 1) * recipe.ySpan,
                          rnd(k + 2) * Pi * 2.0, recipe.size0 + rnd(k + 3) * recipe.sizeSpan)];
        i := i + 1;
      }
    }

    static method CreateLavaBubbles(poolX: real, poolY: real, poolWidth: real, count: nat, rnd: nat -> real, base: nat)
      returns (bubbles: seq<LavaBubble>)
      ensures bubbles == LavaBubbles(poolX, poolY, poolWidth, count, rnd, base)
    {
      bubbles := [];
      var i := 0;
      while i < count
        invariant 0 <= i <= count && |bubbles| == i
        invariant forall k :: 0 <= k < i ==> bubbles[k] == MakeBubble(poolX, poolY, poolWidth, rnd, base + 4 * k)
      {
        var k := base + 4 * i;
        bubbles := bubbles + [LavaBubble(poolX + rnd(k) * poolWidth, poolY, 3.0 + rnd(k + 1) * 5.0,
                                         0.5 + rnd(k + 2) * 1.5, rnd(k + 3) * Pi * 2.0)];
        i := i + 1;
      }
    }

    /** A background already set up is left alone; any other is laid out afresh on a reset scene. */
    method SetupForLevel(background: string, width: real, groundY: real, rnd: nat -> real)
      modifies this
      ensures old(currentBackground) == background ==>
        Elements() == old(Elements()) && time == old(time)
        && this.width == old(this.width) && this.groundY == old(this.groundY) && currentBackground == background
      ensures old(currentBackground) != background ==>
        Elements() == Layout(background, width, groundY, rnd) && time == 0.0
        && this.width == width && this.groundY == groundY && currentBackground == background
    {
      if currentBackground == background {
        return;
      }
      currentBackground := background;
      this.width := width;
      this.groundY := groundY;
      Reset();
      Populate(background, rnd);
    }

    /** Lays out the elements of `background` on an emptied scene. */
    method Populate(background: string, rnd: nat -> real)
      requires Elements() == EmptyScene
      modifies this
      ensures Elements() == Layout(background, width, groundY, rnd)
      ensures time == old(time) && width == old(width) && groundY == old(groundY)
      ensures currentBackground == old(currentBackground)
    {
      match background
      case "forest" =>
        var s := ForestScene(groundY);
        clouds, trees, birds := s.clouds, s.trees, s.birds;
      case "graveyard" =>
        gravestones := GraveyardScene(width, groundY, rnd).gravestones;
        sparkles := SpawnSparkles(12, GraveyardWisps(width, groundY), rnd, 0);
      case "mountains" =>
        clouds, birds := MountainScene().clouds, MountainScene().birds;
      case "skyCastle" =>
        clouds, birds := MountainScene().clouds, MountainScene().birds;
      case "iceCave" =>
        icicles := Icicles(rnd);
        sparkles := SpawnSparkles(20, IceSparkles(width, groundY), rnd, 14);
      case "volcano" =>
        var first := CreateLavaBubbles(100.0, groundY + 30.0, 80.0, 5, rnd, 0);
        var second := CreateLavaBubbles(600.0, groundY + 35.0, 100.0, 6, rnd, 20);
        lavaPools := [LavaPool(100.0, groundY + 30.0, 80.0, first), LavaPool(600.0, groundY + 35.0, 100.0, second)];
        sparkles := SpawnSparkles(15, Embers(groundY), rnd, 44);
      case "castle" =>
        birds := CastleScene(groundY, rnd).birds;
        sparkles := SpawnSparkles(8, CastleWisps(groundY), rnd, 0);
      case _ =>
    }

    /** One frame: the clock advances by deltaTime * 0.016 and every moving element takes its step. */
    method Update(deltaTime: real, draw: (nat, nat) -> real)
      modifies this
      ensures time == old(time) + deltaTime * 0.016
      ensures Elements() == StepScene(old(Elements()), width, draw)
      ensures width == old(width) && groundY == old(groundY) && currentBackground == old(currentBackground)
    {
      time := time + deltaTime * 0.016;
      MoveClouds();
      FlyBirds();
      RiseBubbles(draw);
      DripIcicles();
    }

    method MoveClouds()
      modifies this
      ensures clouds == StepClouds(old(clouds), width)
      ensures Elements() == old(Elements()).(clouds := clouds)
      ensures time == old(time) && width == old(width) && groundY == old(groundY) && currentBackground == old(currentBackground)
    {
      var i := 0;
      while i < |clouds|
        invariant 0 <= i <= |clouds| == |old(clouds)|
        invariant forall k :: 0 <= k < i ==> clouds[k] == MoveCloud(old(clouds)[k], width)
        invariant forall k :: i <= k < |clouds| ==> clouds[k] == old(clouds)[k]
        invariant Elements() == old(Elements()).(clouds := clouds)
        invariant time == old(time) && width == old(width) && groundY == old(groundY) && currentBackground == old(currentBackground)
      {
        var cloud := clouds[i];
        cloud := cloud.(x := cloud.x + cloud.speed);
        if cloud.x > width + cloud.width {
          cloud := cloud.(x := -cloud.width);
        }
        clouds := clouds[i := cloud];
        i := i + 1;
      }
    }

    method FlyBirds()
      modifies this
      ensures birds == StepBirds(old(birds), width)
      ensures Elements() == old(Elements()).(birds := birds)
      ensures time == old(time) && width == old(width) && groundY == old(groundY) && currentBackground == old(currentBackground)
    {
      var i := 0;
      while i < |birds|
        invariant 0 <= i <= |birds| == |old(birds)|
        invariant forall k :: 0 <= k < i ==> birds[k] == FlyBird(old(birds)[k], width)
        invariant forall k :: i <= k < |birds| ==> birds[k] == old(birds)[k]
        invariant Elements() == old(Elements()).(birds := birds)
        invariant time == old(time) && width == old(width) && groundY == old(groundY) && currentBackground == old(currentBackground)
      {
        var bird := birds[i];
        bird := bird.(x := bird.x + bird.speed);
        bird := bird.(wingPhase := bird.wingPhase + 0.2);
        if bird.x > width + 50.0 {
          bird := bird.(x := -50.0);
        }
        birds := birds[i := bird];
        i := i + 1;
      }
    }

    method RiseBubbles(draw: (nat, nat) -> real)
      modifies this
      ensures lavaPools == StepPools(old(lavaPools), draw)
      ensures Elements() == old(Elements()).(lavaPools := lavaPools)
      ensures time == old(time) && width == old(width) && groundY == old(groundY) && currentBackground == old(currentBackground)
    {
      var i := 0;
      while i < |lavaPools|
        invariant 0 <= i <= |lavaPools| == |old(lavaPools)|
        invariant forall k :: 0 <= k < i ==> lavaPools[k] == StepPool(old(lavaPools)[k], k, draw)
        invariant forall k :: i <= k < |lavaPools| ==> lavaPools[k] == old(lavaPools)[k]
        invariant Elements() == old(Elements()).(lavaPools := lavaPools)
        invariant time == old(time) && width == old(width) && groundY == old(groundY) && currentBackground == old(currentBackground)
      {
        var pool := lavaPools[i];
        var bubbles := pool.bubbles;
        var j := 0;
        while j < |bubbles|
          invariant 0 <= j <= |bubbles| == |pool.bubbles|
          invariant forall k :: 0 <= k < j ==> bubbles[k] == RiseBubble(pool.bubbles[k], pool, draw(i, k))
          invariant forall k :: j <= k < |bubbles| ==> bubbles[k] == pool.bubbles[k]
        {
          var bubble := bubbles[j];
          bubble := bubble.(phase := bubble.phase + bubble.speed * 0.1);
          if bubble.phase > Pi * 2.0 {
            bubble := bubble.(phase := 0.0);
            bubble := bubble.(x := pool.x + draw(i, j) * pool.width);
          }
          bubbles := bubbles[j := bubble];
          j := j + 1;
        }
        lavaPools := lavaPools[i := pool.(bubbles := bubbles)];
        i := i + 1;
      }
    }

    method DripIcicles()
      modifies this
      ensures icicles == StepIcicles(old(icicles))
      ensures Elements() == old(Elements()).(icicles := icicles)
      ensures time == old(time) && width == old(width) && groundY == old(groundY) && currentBackground == old(currentBackground)
    {
      var i := 0;
      while i < |icicles|
        invariant 0 <= i <= |icicles| == |old(icicles)|
        invariant forall k :: 0 <= k < i ==> icicles[k] == DripIcicle(old(icicles)[k])
        invariant forall k :: i <= k < |icicles| ==> icicles[k] == old(icicles)[k]
        invariant Elements() == old(Elements()).(icicles := icicles)
        invariant time == old(time) && width == old(width) && groundY == old(groundY) && currentBackground == old(currentBackground)
      {
        var icicle := icicles[i];
        icicle := icicle.(dripTimer := icicle.dripTimer + 1.0);
        if icicle.dripTimer > 180.0 {
          icicle := icicle.(dripTimer := 0.0);
        }
        icicles := icicles[i := icicle];
        i := i + 1;
      }
    }

    function GetTime(): real
      reads this
    {
      time
    }
  }
}
