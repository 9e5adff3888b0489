/**
 * The level manager: which level and wave is being played, the enemies
 * and fireballs in play, and the wave clock. Each frame every enemy and
 * fireball is updated and the ones that report themselves gone are
 * dropped; once a wave is cleared a 90-frame break runs, after which the
 * next wave spawns or, after the last wave, the level is complete.
 *
 * The manager runs over a level table: the registry of `LevelRegistry`
 * for the typed game, or the inline table of `LevelsJs` for the older
 * one, whose manager is the same code. Random draws are parameters:
 * `rolls(i)` holds the position jitter and gold draw of the `i`-th
 * enemy of a wave, `draws(i)` the cooldown draw of the `i`-th enemy in
 * play.
 */
module Levels {
  import opened Wrappers
  import opened Utils
  import opened LevelRegistry
  import opened Enemies

  /** The ground line enemies spawn and walk on. */
  const GroundLine: real := 420.0
  /** Frames between clearing a wave and the next one. */
  const WaveBreak: int := 90

  /** The random draws for one spawned enemy: its position jitter and its gold. */
  datatype SpawnRoll = SpawnRoll(jitter: real, gold: real)

  predicate Fair(r: SpawnRoll) {
    0.0 <= r.jitter < 1.0 && 0.0 <= r.gold < 1.0
  }

  /** The `index`-th enemy of a wave enters from the right, 100 pixels apart, jittered by up to 20. */
  function SpawnX(index: nat, jitter: real): (x: real)
    ensures 0.0 <= jitter < 1.0 ==> 580.0 + 100.0 * index as real <= x <= 620.0 + 100.0 * index as real
  {
    600.0 + index as real * 100.0 + RandomInt(jitter, -20, 20) as real
  }

  predicate Distinct<T(==)>(s: seq<T>) {
    forall i, j :: 0 <= i < j < |s| ==> s[i] != s[j]
  }

  /**
   * Whether an enemy is still in play after its next frame, judged before
   * it: a living enemy always is, a dead one while its death timer, one
   * frame on, is below the 30-frame fade.
   */
  predicate WillLinger(e: Enemy)
    reads e
  {
    !e.dead || e.deathTimer + 1 < DeathFrames
  }

  /** The enemies still in play after their frame, in order. */
  function Survivors(es: seq<Enemy>): (r: seq<Enemy>)
    reads set e | e in es
    ensures |r| <= |es|
  {
    if |es| == 0 then []
    else
      var last := es[|es| - 1];
      Survivors(es[..|es| - 1]) + (if WillLinger(last) then [last] else [])
  }

  /** The survivors are exactly the enemies that linger. */
  lemma {:induction false} SurvivorsLinger(es: seq<Enemy>)
    ensures forall i :: 0 <= i < |Survivors(es)| ==> Survivors(es)[i] in es && WillLinger(Survivors(es)[i])
    ensures forall i :: 0 <= i < |es| && WillLinger(es[i]) ==> es[i] in Survivors(es)
  {
    if |es| > 0 {
      SurvivorsLinger(es[..|es| - 1]);
      assert es == es[..|es| - 1] + [es[|es| - 1]];
    }
  }

  /** Each enemy's `WillLinger`, in order. */
  function LingerFlags(es: seq<Enemy>): (r: seq<bool>)
    reads set e | e in es
    ensures |r| == |es| && forall j :: 0 <= j < |es| ==> (r[j] <==> WillLinger(es[j]))
  {
    if |es| == 0 then [] else LingerFlags(es[..|es| - 1]) + [WillLinger(es[|es| - 1])]
  }

  /** The entries of `s` whose flag is set, in order. */
  function Keep<T>(s: seq<T>, flags: seq<bool>): (r: seq<T>)
    requires |flags| == |s|
    ensures |r| <= |s|
  {
    if |s| == 0 then []
    else Keep(s[..|s| - 1], flags[..|s| - 1]) + (if flags[|s| - 1] then [s[|s| - 1]] else [])
  }

  /** Keeping from a longer sequence keeps what the shorter one did, then maybe the new entry. */
  lemma KeepSnoc<T>(s: seq<T>, flags: seq<bool>, x: T, b: bool)
    requires |flags| == |s|
    ensures Keep(s + [x], flags + [b]) == Keep(s, flags) + (if b then [x] else [])
  {
    assert (s + [x])[..|s|] == s && (flags + [b])[..|s|] == flags;
  }

  /** Keeping some entries of a sequence without repeats gives one without repeats, drawn from it. */
  lemma {:induction false} KeepDistinct<T>(s: seq<T>, flags: seq<bool>)
    requires |flags| == |s| && Distinct(s)
    ensures Distinct(Keep(s, flags)) && forall i :: 0 <= i < |Keep(s, flags)| ==> Keep(s, flags)[i] in s
  {
    if |s| > 0 {
      KeepDistinct(s[..|s| - 1], flags[..|s| - 1]);
      assert s[|s| - 1] !in s[..|s| - 1];
    }
  }

  /** Keeping the enemies flagged as lingering is keeping the survivors. */
  lemma {:induction false} KeepIsSurvivors(es: seq<Enemy>)
    ensures Keep(es, LingerFlags(es)) == Survivors(es)
  {
    if |es| > 0 {
      KeepIsSurvivors(es[..|es| - 1]);
      assert LingerFlags(es)[..|es| - 1] == LingerFlags(es[..|es| - 1]);
    }
  }

  /** The enemies of `wave`, as spawned: types in order, positions from the draws, alive. */
  ghost predicate Spawned(es: seq<Enemy>, wave: seq<string>, rolls: nat -> SpawnRoll)
    reads set e | e in es
  {
    && |es| == |wave|
    && forall i :: 0 <= i < |es| ==>
      && es[i].kind == wave[i] && es[i].levelBackground == ""
      && es[i].x == SpawnX(i, rolls(i).jitter) && es[i].y == GroundLine - 60.0
      && !es[i].dead && es[i].health == es[i].maxHealth
  }

  /** A spawned list grows by one enemy spawned from the next entry. */
  lemma SpawnedSnoc(es: seq<Enemy>, wave: seq<string>, e: Enemy, kind: string, rolls: nat -> SpawnRoll)
    requires Spawned(es, wave, rolls)
    requires e.kind == kind && e.levelBackground == ""
    requires e.x == SpawnX(|es|, rolls(|es|).jitter) && e.y == GroundLine - 60.0
    requires !e.dead && e.health == e.maxHealth
    ensures Spawned(es + [e], wave + [kind], rolls)
  {
  }

  /** One frame of an enemy, as `Enemy.Update` performs it. */
  twostate predicate Advanced(e: Enemy, ts: seq<Target>, u: real, hover: real)
    reads e
  {
    && (old(e.dead) ==> e.deathTimer == old(e.deathTimer) + 1 && e.FoeOf() == old(e.FoeOf()))
    && (!old(e.dead) ==>
          e.FoeOf() == FoeStep(old(e.FoeOf()), ts, e.speed, e.width, e.height, e.canFly, GroundLine, u, hover))
    && e.dead == old(e.dead)
  }

  /** The wave clock: whether the field is cleared and how long the break still runs. */
  datatype Clock = Clock(waveComplete: bool, waveDelay: int)

  /**
   * One frame of the clock. A newly cleared field starts a 90-frame
   * break; a running break counts down and, on the frame it reaches 0,
   * calls for the next wave (the second component).
   */
  function ClockStep(c: Clock, cleared: bool): (r: (Clock, bool))
    ensures c.waveDelay >= 0 ==> r.0.waveDelay >= 0
    ensures r.1 ==> r.0.waveComplete && r.0.waveDelay == 0
    ensures !c.waveComplete && !cleared ==> r == (c, false)
  {
    var c1 := if cleared && !c.waveComplete then Clock(true, WaveBreak) else c;
    if c1.waveComplete && c1.waveDelay > 0 then
      (Clock(true, c1.waveDelay - 1), c1.waveDelay - 1 <= 0)
    else
      (c1, false)
  }

  /** `n` frames of the clock over a cleared field. */
  function ClockRun(c: Clock, n: nat): Clock
  {
    if n == 0 then c else ClockStep(ClockRun(c, n - 1), true).0
  }

  /**
   * Once a wave is cleared, the break lasts exactly 90 frames: on the
   * `n`-th frame the delay left is `90 - n`, and the next wave is called
   * for on the 90th frame and on no earlier one.
   */
  lemma {:induction false} BreakLasts(c: Clock, n: nat)
    requires !c.waveComplete && 1 <= n <= WaveBreak
    ensures ClockRun(c, n) == Clock(true, WaveBreak - n)
    ensures ClockStep(ClockRun(c, n - 1), true).1 <==> n == WaveBreak
  {
    if n > 1 {
      BreakLasts(c, n - 1);
    }
  }

  class LevelManager {
    const table: seq<Level>
    var currentLevelIndex: int
    var currentWaveIndex: int
    var enemies: seq<Enemy>
    var projectiles: seq<Fireball>
    var waveComplete: bool
    var waveDelay: int
    var levelComplete: bool

    ghost predicate Valid()
      reads this
    {
      && PlayableTable(table)
      && 0 <= currentLevelIndex < |table| && 0 <= currentWaveIndex && 0 <= waveDelay
      && Distinct(enemies) && Distinct(projectiles)
    }

    function ClockOf(): Clock
      reads this
    {
      Clock(waveComplete, waveDelay)
    }

    /** A manager at the first wave of the first level, with nothing in play. */
    constructor(table: seq<Level>)
      requires PlayableTable(table)
      ensures Valid() && this.table == table
      ensures currentLevelIndex == 0 && currentWaveIndex == 0 && enemies == [] && projectiles == []
      ensures !waveComplete && waveDelay == 0 && !levelComplete
    {
      this.table := table;
      currentLevelIndex := 0;
      currentWaveIndex := 0;
      enemies := [];
      projectiles := [];
      waveComplete := false;
      waveDelay := 0;
      levelComplete := false;
    }

    function CurrentLevel(): Level
      reads this
      requires 0 <= currentLevelIndex < |table|
    {
      table[currentLevelIndex]
    }

    function CurrentWave(): seq<string>
      reads this
      requires 0 <= currentLevelIndex < |table|
      requires 0 <= currentWaveIndex < |CurrentLevel().waves|
    {
      CurrentLevel().waves[currentWaveIndex]
    }

    predicate IsLastLevel()
      reads this
    {
      currentLevelIndex >= |table| - 1
    }

    predicate IsLastWave()
      reads this
      requires 0 <= currentLevelIndex < |table|
    {
      currentWaveIndex >= |CurrentLevel().waves| - 1
    }

    /**
     * Start a level: the index is capped at the last level, play restarts
     * at its first wave with the field emptied and both flags cleared,
     * and the first wave spawns.
     */
    method StartLevel(levelIndex: int, rolls: nat -> SpawnRoll)
      requires Valid() && levelIndex >= 0
      requires forall i: nat :: Fair(rolls(i))
      modifies this`currentLevelIndex, this`currentWaveIndex, this`enemies, this`projectiles,
               this`waveComplete, this`levelComplete
      ensures Valid()
      ensures currentLevelIndex == (if levelIndex < |table| - 1 then levelIndex else |table| - 1)
      ensures currentWaveIndex == 0 && projectiles == [] && !waveComplete && !levelComplete
      ensures Spawned(enemies, CurrentLevel().waves[0], rolls)
      ensures forall e :: e in enemies ==> fresh(e)
    {
      currentLevelIndex := if levelIndex < |table| - 1 then levelIndex else |table| - 1;
      currentWaveIndex := 0;
      enemies := [];
      projectiles := [];
      waveComplete := false;
      levelComplete := false;
      SpawnWave(rolls);
    }

    /** Add one new enemy per entry of the current wave, after the ones in play, and reopen the wave. */
    method SpawnWave(rolls: nat -> SpawnRoll)
      requires Valid() && currentWaveIndex < |CurrentLevel().waves|
      requires forall i: nat :: Fair(rolls(i))
      modifies this`enemies, this`waveComplete
      ensures Valid() && !waveComplete
      ensures |enemies| == |old(enemies)| + |CurrentWave()|
      ensures enemies[..|old(enemies)|] == old(enemies)
      ensures Spawned(enemies[|old(enemies)|..], CurrentWave(), rolls)
      ensures forall i :: |old(enemies)| <= i < |enemies| ==> fresh(enemies[i])
    {
      var spawned := Recruit(CurrentWave(), rolls);
      assert forall j :: 0 <= j < |enemies| ==> enemies[j] !in spawned;
      enemies := enemies + spawned;
      assert enemies[|old(enemies)|..] == spawned;
      waveComplete := false;
    }

    /** One new enemy per entry of `wave`, in order, placed by the draws. */
    static method Recruit(wave: seq<string>, rolls: nat -> SpawnRoll) returns (es: seq<Enemy>)
      requires forall i: nat :: Fair(rolls(i))
      ensures Distinct(es) && Spawned(es, wave, rolls)
      ensures forall j :: 0 <= j < |es| ==> fresh(es[j])
    {
      es := [];
      var i := 0;
      while i < |wave|
        invariant 0 <= i <= |wave| && |es| == i
        invariant forall j :: 0 <= j < i ==> fresh(es[j])
        invariant Distinct(es)
        invariant Spawned(es, wave[..i], rolls)
      {
        var roll := rolls(i);
        var e := new Enemy(SpawnX(i, roll.jitter), GroundLine - 60.0, wave[i], "", roll.gold);
        assert Spawned(es, wave[..i], rolls);
        SpawnedSnoc(es, wave[..i], e, wave[i], rolls);
        es := es + [e];
        assert wave[..i + 1] == wave[..i] + [wave[i]];
        i := i + 1;
      }
      assert wave[..i] == wave;
    }

    /** The effect of moving to the next wave, as `NextWave` performs it. */
    twostate predicate WaveAdvanced(rolls: nat -> SpawnRoll)
      reads this, set e | e in enemies
      requires 0 <= currentLevelIndex < |table| && 0 <= currentWaveIndex
      requires |old(enemies)| <= |enemies|
    {
      && currentWaveIndex == old(currentWaveIndex) + 1
      && (currentWaveIndex >= |CurrentLevel().waves| ==>
            levelComplete && enemies == old(enemies) && waveComplete == old(waveComplete))
      && (currentWaveIndex < |CurrentLevel().waves| ==>
            && !waveComplete && levelComplete == old(levelComplete)
            && enemies[..|old(enemies)|] == old(enemies)
            && Spawned(enemies[|old(enemies)|..], CurrentWave(), rolls))
    }

    /** Move to the next wave: spawn it, or mark the level complete when there is none. */
    method NextWave(rolls: nat -> SpawnRoll)
      requires Valid()
      requires forall i: nat :: Fair(rolls(i))
      modifies this`currentWaveIndex, this`enemies, this`waveComplete, this`levelComplete
      ensures Valid() && |old(enemies)| <= |enemies| && currentLevelIndex == old(currentLevelIndex)
      ensures WaveAdvanced(rolls)
      ensures forall i :: |old(enemies)| <= i < |enemies| ==> fresh(enemies[i])
    {
      currentWaveIndex := currentWaveIndex + 1;
      if currentWaveIndex >= |CurrentLevel().waves| {
        levelComplete := true;
      } else {
        SpawnWave(rolls);
      }
    }

    /**
     * Advance to the next level at its first wave, unless this is the
     * last level: then nothing changes and the game is won.
     */
    method NextLevel() returns (advanced: bool)
      requires Valid()
      modifies this`currentLevelIndex, this`currentWaveIndex, this`levelComplete
      ensures Valid()
      ensures advanced <==> !old(IsLastLevel())
      ensures advanced ==> currentLevelIndex == old(currentLevelIndex) + 1 && currentWaveIndex == 0 && !levelComplete
      ensures !advanced ==>
        && currentLevelIndex == old(currentLevelIndex)
        && currentWaveIndex == old(currentWaveIndex) && levelComplete == old(levelComplete)
    {
      if currentLevelIndex < |table| - 1 {
        currentLevelIndex := currentLevelIndex + 1;
        currentWaveIndex := 0;
        levelComplete := false;
        return true;
      }
      return false;
    }

    /**
     * One frame: every enemy, then every fireball (including the ones
     * breathed this frame) is updated and the gone ones dropped; then the
     * wave clock runs, calling for the next wave when the break ends.
     */
    method Update(ts: seq<Target>, draws: nat -> real, hover: real, rolls: nat -> SpawnRoll)
      requires Valid()
      requires forall i: nat :: 0.0 <= draws(i) < 1.0
      requires forall i: nat :: Fair(rolls(i))
      modifies this`enemies, this`projectiles, this`waveComplete, this`waveDelay,
               this`currentWaveIndex, this`levelComplete, enemies, projectiles
      ensures Valid() && currentLevelIndex == old(currentLevelIndex)
      ensures forall j :: 0 <= j < |old(enemies)| ==> Advanced(old(enemies)[j], ts, draws(j), hover)
      ensures forall p :: p in old(projectiles) ==> p.ShotOf() == ShotStep(old(p.ShotOf()))
      ensures forall p :: p in old(projectiles) ==> (p in projectiles <==> InFlight(p.ShotOf()))
      ensures forall p :: p in projectiles ==> InFlight(p.ShotOf()) && (p in old(projectiles) || fresh(p))
      ensures var survivors := old(Survivors(enemies));
        var (c, fire) := ClockStep(old(ClockOf()), |survivors| == 0);
        && (!fire ==> enemies == survivors && ClockOf() == c
                      && currentWaveIndex == old(currentWaveIndex) && levelComplete == old(levelComplete))
        && (fire ==> waveDelay == 0 && currentWaveIndex == old(currentWaveIndex) + 1
                     && |survivors| <= |enemies| && enemies[..|survivors|] == survivors)
    {
      MoveEverything(ts, draws, hover);
      RunClock(rolls);
    }

    /** The enemies' and then the fireballs' part of a frame: everything moves, and the gone are dropped. */
    method MoveEverything(ts: seq<Target>, draws: nat -> real, hover: real)
      requires Valid()
      requires forall i: nat :: 0.0 <= draws(i) < 1.0
      modifies this`enemies, this`projectiles, enemies, projectiles
      ensures Valid() && enemies == old(Survivors(enemies))
      ensures forall j :: 0 <= j < |old(enemies)| ==> Advanced(old(enemies)[j], ts, draws(j), hover)
      ensures forall p :: p in old(projectiles) ==> p.ShotOf() == ShotStep(old(p.ShotOf()))
      ensures forall p :: p in old(projectiles) ==> (p in projectiles <==> InFlight(p.ShotOf()))
      ensures forall p :: p in projectiles ==> InFlight(p.ShotOf()) && (p in old(projectiles) || fresh(p))
    {
      var flames := UpdateEnemies(ts, draws, hover);
      UpdateProjectiles(flames);
    }

    /** One enemy's frame, as the manager sees it: its step, whether it stays, and its new fireball. */
    static method Advance(e: Enemy, ts: seq<Target>, u: real, hover: real) returns (alive: bool, flame: Option<Fireball>)
      requires 0.0 <= u < 1.0
      modifies e`x, e`y, e`facing, e`attackTimer, e`attackCooldown, e`animFrame, e`animTimer,
               e`knockbackX, e`deathTimer
      ensures Advanced(e, ts, u, hover)
      ensures alive <==> old(WillLinger(e))
      ensures flame.Some? ==> fresh(flame.value)
    {
      alive, flame := e.Update(ts, GroundLine, u, hover);
    }

    /** Update every enemy once, keep the ones still in play, and collect the fireballs they breathe. */
    method UpdateEnemies(ts: seq<Target>, draws: nat -> real, hover: real) returns (flames: seq<Fireball>)
      requires Valid()
      requires forall i: nat :: 0.0 <= draws(i) < 1.0
      modifies this`enemies, enemies
      ensures Valid()
      ensures enemies == old(Survivors(enemies))
      ensures forall j :: 0 <= j < |old(enemies)| ==> Advanced(old(enemies)[j], ts, draws(j), hover)
      ensures Distinct(flames) && fresh(set f | f in flames)
    {
      ghost var goal := LingerFlags(enemies);
      KeepIsSurvivors(enemies);
      var alive;
      alive, flames := AdvanceAll(enemies, ts, draws, hover);
      assert alive == goal;
      KeepDistinct(enemies, alive);
      enemies := Keep(enemies, alive);
    }

    /**
     * Update each enemy of `es` once, in order: whether each stays in play,
     * and the fireballs breathed, in order.
     */
    static method AdvanceAll(es: seq<Enemy>, ts: seq<Target>, draws: nat -> real, hover: real)
        returns (alive: seq<bool>, flames: seq<Fireball>)
      requires Distinct(es) && forall i: nat :: 0.0 <= draws(i) < 1.0
      modifies set e | e in es
      ensures |alive| == |es| && forall j :: 0 <= j < |es| ==> (alive[j] <==> old(WillLinger(es[j])))
      ensures forall j :: 0 <= j < |es| ==> Advanced(es[j], ts, draws(j), hover)
      ensures Distinct(flames) && forall f :: f in flames ==> fresh(f)
    {
      alive := [];
      flames := [];
      var i := 0;
      while i < |es|
        invariant 0 <= i <= |es| && |alive| == i
        invariant forall j :: 0 <= j < i ==> (alive[j] <==> old(WillLinger(es[j])))
        invariant forall j :: 0 <= j < i ==> Advanced(es[j], ts, draws(j), hover)
        invariant forall j :: i <= j < |es| ==> unchanged(es[j])
        invariant Distinct(flames) && forall f :: f in flames ==> fresh(f)
      {
        var stays, flame := Advance(es[i], ts, draws(i), hover);
        alive := alive + [stays];
        if flame.Some? {
          flames := flames + [flame.value];
        }
        i := i + 1;
      }
    }

    /** Update every fireball once (the new ones last) and keep the ones still flying. */
    method UpdateProjectiles(flames: seq<Fireball>)
      requires Valid() && Distinct(flames)
      requires forall f :: f in flames ==> f !in projectiles
      modifies this`projectiles, projectiles, flames
      ensures Valid()
      ensures forall p :: p in old(projectiles) ==> p.ShotOf() == ShotStep(old(p.ShotOf()))
      ensures forall p :: p in old(projectiles) + flames ==> (p in projectiles <==> InFlight(p.ShotOf()))
      ensures forall p :: p in projectiles ==> p in old(projectiles) + flames && InFlight(p.ShotOf())
    {
      var ps := projectiles + flames;
      var kept: seq<Fireball> := [];
      var i := 0;
      while i < |ps|
        invariant 0 <= i <= |ps|
        invariant Distinct(kept)
        invariant forall p :: p in kept <==> p in ps[..i] && InFlight(p.ShotOf())
        invariant forall j :: 0 <= j < i && ps[j] in old(projectiles) ==> ps[j].ShotOf() == ShotStep(old(ps[j].ShotOf()))
        invariant forall j :: i <= j < |ps| && ps[j] in old(projectiles) ==> unchanged(ps[j])
      {
        var p := ps[i];
        var alive := p.Update();
        if alive {
          kept := kept + [p];
        }
        assert ps[..i + 1] == ps[..i] + [p];
        i := i + 1;
      }
      assert ps[..i] == ps;
      projectiles := kept;
    }

    /** The wave clock's frame: start the break on a cleared field, count it down, and call the next wave. */
    method RunClock(rolls: nat -> SpawnRoll)
      requires Valid()
      requires forall i: nat :: Fair(rolls(i))
      modifies this`waveComplete, this`waveDelay, this`currentWaveIndex, this`enemies, this`levelComplete
      ensures Valid() && currentLevelIndex == old(currentLevelIndex)
      ensures var (c, fire) := ClockStep(old(ClockOf()), |old(enemies)| == 0);
        && (!fire ==> ClockOf() == c && enemies == old(enemies)
                      && currentWaveIndex == old(currentWaveIndex) && levelComplete == old(levelComplete))
        && (fire ==> waveDelay == 0 && |old(enemies)| <= |enemies| && WaveAdvanced(rolls))
      ensures forall i :: |old(enemies)| <= i < |enemies| ==> fresh(enemies[i])
    {
      if |enemies| == 0 && !waveComplete {
        waveComplete := true;
        waveDelay := WaveBreak;
      }
      if waveComplete && waveDelay > 0 {
        waveDelay := waveDelay - 1;
        if waveDelay <= 0 {
          NextWave(rolls);
        }
      }
    }
  }

  /** A colour as three channels. */
  datatype Rgb = Rgb(r: real, g: real, b: real)

  function HexDigit(c: char): (d: Option<int>)
    ensures d.Some? ==> 0 <= d.value < 16
  {
    if '0' <= c <= '9' then Some(c as int - '0' as int)
    else if 'a' <= c <= 'f' then Some(c as int - 'a' as int + 10)
    else if 'A' <= c <= 'F' then Some(c as int - 'A' as int + 10)
    else None
  }

  /** The number of hexadecimal digits a string starts with. */
  function HexRun(s: string): (n: nat)
    ensures n <= |s| && forall i :: 0 <= i < n ==> HexDigit(s[i]).Some?
    ensures n < |s| ==> HexDigit(s[n]).None?
  {
    if |s| == 0 || HexDigit(s[0]).None? then 0 else 1 + HexRun(s[1..])
  }

  /** The value of a string of hexadecimal digits. */
  function HexValue(s: string): (v: nat)
    requires forall i :: 0 <= i < |s| ==> HexDigit(s[i]).Some?
  {
    if |s| == 0 then 0 else 16 * HexValue(s[..|s| - 1]) + HexDigit(s[|s| - 1]).value
  }

  /**
   * The byte of a parsed number that a 32-bit right shift by the width
   * of `scale` and a mask of 255 read (`scale` is 1, 256 or 65536); a
   * number that did not parse reads as 0.
   */
  function Channel(num: Option<nat>, scale: nat): (c: int)
    requires scale > 0
    ensures 0 <= c < 256
  {
    if num.None? then 0 else (num.value % 0x1_0000_0000) / scale % 256
  }

  /** The number a colour string spells after its first character, in base 16. */
  function ParseColour(hex: string): Option<nat>
  {
    var s := if |hex| > 0 then hex[1..] else "";
    var n := HexRun(s);
    if n == 0 then None else Some(HexValue(s[..n]))
  }

  /** Lighten a colour: add `amount` to each channel, capped at 255. */
  function AdjustColor(hex: string, amount: real): (c: Rgb)
    ensures c.r <= 255.0 && c.g <= 255.0 && c.b <= 255.0
    ensures amount >= 0.0 ==> c.r >= 0.0 && c.g >= 0.0 && c.b >= 0.0
  {
    var num := ParseColour(hex);
    Rgb(Min(255.0, Channel(num, 65536) as real + amount),
        Min(255.0, Channel(num, 256) as real + amount),
        Min(255.0, Channel(num, 1) as real + amount))
  }

  /** A number below 2^24 splits into its three bytes. */
  lemma Bytes(r: int, g: int, b: int)
    requires 0 <= r < 256 && 0 <= g < 256 && 0 <= b < 256
    ensures var num := r * 65536 + g * 256 + b;
      && num % 0x1_0000_0000 == num
      && num / 65536 % 256 == r && num / 256 % 256 == g && num % 256 == b
  {
    var num := r * 65536 + g * 256 + b;
    assert num / 65536 == r;
    assert num / 256 == r * 256 + g;
    assert (r * 256 + g) % 256 == g;
  }

  /**
   * On a `#rrggbb` colour each channel is the value of its two digits,
   * so each rises by `amount` up to the cap of 255.
   */
  lemma AdjustSixDigits(hex: string, amount: real)
    requires |hex| == 7 && forall i :: 1 <= i < 7 ==> HexDigit(hex[i]).Some?
    ensures var d := (i: int) requires 1 <= i < 7 => HexDigit(hex[i]).value;
      AdjustColor(hex, amount) == Rgb(Min(255.0, (16 * d(1) + d(2)) as real + amount),
                                      Min(255.0, (16 * d(3) + d(4)) as real + amount),
                                      Min(255.0, (16 * d(5) + d(6)) as real + amount))
  {
    var s := hex[1..];
    assert HexRun(s) == 6 by {
      assert HexRun(s[6..]) == 0;
      assert HexRun(s[5..]) == 1;
      assert HexRun(s[4..]) == 2;
      assert HexRun(s[3..]) == 3;
      assert HexRun(s[2..]) == 4;
      assert HexRun(s[1..]) == 5;
    }
    assert s[..6] == s;
    var d1, d2, d3 := HexDigit(s[0]).value, HexDigit(s[1]).value, HexDigit(s[2]).value;
    var d4, d5, d6 := HexDigit(s[3]).value, HexDigit(s[4]).value, HexDigit(s[5]).value;
    assert HexValue(s[..1]) == d1 by {
      assert s[..1][..0] == [];
    }
    assert HexValue(s[..2]) == 16 * d1 + d2 by {
      assert s[..2][..1] == s[..1];
    }
    assert HexValue(s[..3]) == 256 * d1 + 16 * d2 + d3 by {
      assert s[..3][..2] == s[..2];
    }
    assert HexValue(s[..4]) == 4096 * d1 + 256 * d2 + 16 * d3 + d4 by {
      assert s[..4][..3] == s[..3];
    }
    assert HexValue(s[..5]) == 65536 * d1 + 4096 * d2 + 256 * d3 + 16 * d4 + d5 by {
      assert s[..5][..4] == s[..4];
    }
    assert HexValue(s) == (16 * d1 + d2) * 65536 + (16 * d3 + d4) * 256 + (16 * d5 + d6) by {
      assert s[..5] == s[..|s| - 1];
    }
    Bytes(16 * d1 + d2, 16 * d3 + d4, 16 * d5 + d6);
  }
}
