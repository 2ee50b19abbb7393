/**
 * screens/GameScreen.java's frame: the pause and menu key handling, the
 * frame time the world is stepped with, and the camera-shake and flash
 * timers that run down in rendering by the real frame time. The world logic
 * the screen carries a copy of is World.GameWorld with variant ScreenCopy.
 */
module Screens {
  import opened WorldRules
  import World
  import Spawning

  /**
   * render(delta)'s simulation step: nothing while paused, a quarter of the
   * frame time in slow motion, the whole of it otherwise.
   */
  function EffectiveDt(paused: bool, slowmo: real, delta: real): (dt: real)
    ensures paused ==> dt == 0.0
    ensures !paused && slowmo > 0.0 ==> dt == delta / 4.0
    ensures !paused && slowmo <= 0.0 ==> dt == delta
  {
    if paused then 0.0 else delta * (if slowmo > 0.0 then 0.25 else 1.0)
  }

  /** When not paused the step is the world's getTimeScale() applied to the frame time, and never longer than it. */
  lemma EffectiveDtIsTimeScaled(slowmo: real, delta: real)
    requires delta >= 0.0
    ensures EffectiveDt(false, slowmo, delta) == delta * TimeScaleFor(slowmo)
    ensures 0.0 <= EffectiveDt(false, slowmo, delta) <= delta
  {
  }

  /** The keys update(dt) polls with isKeyJustPressed. */
  datatype Keys = Keys(esc: bool, p: bool, enter: bool)

  /** The screen the game switches to: none, the main menu, or a new game. */
  datatype Next = Stay | ToMenu | Restart

  /** The outcome of the key handling: the new pause flag, the screen switch, and whether the world ticks. */
  datatype Frame = Frame(paused: bool, next: Next, simulate: bool)

  /**
   * The key handling at the head of update(dt). While the game runs: ESC
   * pauses a running game and leaves a paused one for the menu; P toggles
   * the pause and a frame that pauses stops there; ENTER resumes a paused
   * game. Once the game is over: ENTER restarts and ESC goes to the menu
   * (both at once: the menu, the later switch), and nothing ticks.
   */
  function KeyStep(paused: bool, gameOver: bool, keys: Keys): (f: Frame)
    ensures f.simulate ==> !gameOver && !f.paused && f.next == Stay
    ensures gameOver ==>
      && !f.simulate && f.paused == paused
      && f.next == (if keys.esc then ToMenu else if keys.enter then Restart else Stay)
    ensures !gameOver && keys.esc ==>
      !f.simulate && f.paused && f.next == (if paused then ToMenu else Stay)
    ensures !gameOver && !keys.esc ==>
      && f.next == Stay
      && (f.simulate <==> !f.paused)
      && (f.paused <==> (!paused && keys.p) || (paused && !keys.p && !keys.enter))
  {
    if !gameOver then
      if keys.esc then
        if !paused then Frame(true, Stay, false) else Frame(paused, ToMenu, false)
      else
        var toggled := if keys.p then !paused else paused;
        if keys.p && toggled then Frame(true, Stay, false)
        else
          var resumed := if toggled && keys.enter then false else toggled;
          Frame(resumed, Stay, !resumed)
    else
      var next := if keys.esc then ToMenu else if keys.enter then Restart else Stay;
      Frame(paused, next, false)
  }

  /** A running game with no key pressed keeps running, and a paused one stays paused. */
  lemma NoKeysNoChange(paused: bool)
    ensures KeyStep(paused, false, Keys(false, false, false)) == Frame(paused, Stay, !paused)
  {
  }

  /** ESC from play pauses; a second ESC goes to the menu without ticking the world. */
  lemma EscapeTwiceReachesMenu()
    ensures var f1 := KeyStep(false, false, Keys(true, false, false));
      && f1 == Frame(true, Stay, false)
      && KeyStep(f1.paused, false, Keys(true, false, false)) == Frame(true, ToMenu, false)
  {
  }

  /** P pauses and a second P resumes; ENTER also resumes a paused game. */
  lemma PauseAndResume()
    ensures var f1 := KeyStep(false, false, Keys(false, true, false));
      && f1 == Frame(true, Stay, false)
      && KeyStep(f1.paused, false, Keys(false, true, false)) == Frame(false, Stay, true)
      && KeyStep(f1.paused, false, Keys(false, false, true)) == Frame(false, Stay, true)
  {
  }

  /**
   * A frame that resumes a paused game ticks the world, but with the step
   * render computed while still paused: zero.
   */
  lemma ResumeFrameIsFrozen(slowmo: real, delta: real, keys: Keys)
    requires KeyStep(true, false, keys).simulate
    ensures EffectiveDt(true, slowmo, delta) == 0.0
    ensures !keys.esc && (keys.p || keys.enter)
  {
  }

  /**
   * A ticked frame is stepped exactly when the screen was running or is
   * being resumed, and never once the game is over or a switch is due.
   */
  lemma SimulateExactly(paused: bool, gameOver: bool, keys: Keys)
    ensures KeyStep(paused, gameOver, keys).simulate <==>
      !gameOver && !keys.esc && (if paused then keys.p || keys.enter else !keys.p)
  {
  }

  /** GameScreen: the pause flag and the world's logic. */
  class GameScreen {
    var paused: bool
    const world: World.GameWorld

    ghost predicate Valid()
      reads this, world, world.player, world.playerBullets, world.enemyBullets, world.boss
    {
      world.variant == World.ScreenCopy && world.Valid()
    }

    /** GameScreen(game): a running screen whose world starts its first wave. */
    constructor (playerH: real, bossH: real, spawn: nat -> Spawning.SpawnRoll)
      requires playerH > 0.0 && bossH > 0.0 && World.SpawnRollsInRange(spawn)
      ensures Valid() && fresh(world) && !paused
      ensures world.wave == 1 && !world.gameOver && world.score == 0
    {
      paused := false;
      world := new World.GameWorld(World.ScreenCopy, playerH, bossH, spawn);
    }

    /**
     * render(delta): the step is fixed before the keys are read, the keys
     * decide the pause flag, the switch and whether the world ticks (by that
     * step), and then the shake and flash timers run down by the real frame
     * time whether or not the world ticked. jitter says whether the camera
     * is shaken this frame.
     */
    method Render(delta: real, keys: Keys, input: World.Input, rng: World.TickRandom) returns (next: Next, jitter: bool)
      requires Valid() && World.SpawnRollsInRange(rng.spawn)
      modifies this`paused, world, world.player, world.playerBullets, world.enemyBullets, world.boss
      ensures Valid()
      ensures var f := KeyStep(old(paused), old(world.gameOver), keys);
        && next == f.next && paused == f.paused
        && (!f.simulate ==>
              && world.score == old(world.score) && world.wave == old(world.wave)
              && world.enemies == old(world.enemies) && world.gameOver == old(world.gameOver)
              && world.boss == old(world.boss)
              && world.powerups == old(world.powerups) && world.bossesDefeated == old(world.bossesDefeated)
              && world.slowmo == old(world.slowmo) && world.diff == old(world.diff)
              && world.highScoreRequests == old(world.highScoreRequests)
              && world.poolFree == old(world.poolFree) && world.created == old(world.created)
              && (world.boss != null ==> unchanged(world.boss))
              && unchanged(world.player, world.playerBullets, world.enemyBullets)
              && (jitter <==> old(world.shakeTime) > 0.0)
              && world.shakeTime == (if jitter then old(world.shakeTime) - delta else old(world.shakeTime))
              && world.shakeStrength == old(world.shakeStrength)
              && world.flashTime == (if old(world.flashTime) > 0.0 then old(world.flashTime) - delta else old(world.flashTime)))
      ensures var f := KeyStep(old(paused), old(world.gameOver), keys);
        var dt := EffectiveDt(old(paused), old(world.slowmo), delta);
        f.simulate && world.bossesDefeated == old(world.bossesDefeated) ==>
          world.slowmo == (if old(world.slowmo) > 0.0 then old(world.slowmo) - dt else old(world.slowmo))
      ensures old(world.gameOver) ==> world.gameOver && world.score == old(world.score)
      ensures world.score >= old(world.score)
    {
      var dt := EffectiveDt(paused, world.slowmo, delta);
      var f := KeyStep(paused, world.gameOver, keys);
      paused := f.paused;
      if f.simulate {
        world.Update(dt, input, rng);
      }
      jitter := world.ApplyCameraShake(delta);
      world.DecayFlash(delta);
      next := f.next;
    }
  }
}
