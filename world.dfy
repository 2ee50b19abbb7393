/**
 * world/GameWorld.java: the orchestrator. It owns the player, the boss, the
 * two bullet lists, the enemies and the pickups, the score and the wave and
 * boss counters, the difficulty scalars and the camera feedback timers, and
 * runs the fixed-order tick.
 *
 * The same class also models the copy of this logic inside
 * screens/GameScreen.java (variant ScreenCopy); the copies differ only in the
 * boss's hit-point rule, in taking the boss's and the spread shot's bullets
 * from the pool, and in recomputing the difficulty in the constructor.
 */
module World {
  import opened Numerics
  import opened Wrappers
  import opened GameObjects
  import opened Bullets
  import opened WorldRules
  import opened PowerUpTypes
  import Players
  import Enemies
  import PowerUps
  import Bosses
  import Spawning
  import Constants

  datatype Variant = WorldClass | ScreenCopy

  /** The keys the player update polls: left (A or LEFT), right (D or RIGHT), SPACE. */
  datatype Input = Input(left: bool, right: bool, fire: bool)

  /**
   * The random draws and transcendental values of one tick: the sine drift
   * of enemy i, the MathUtils.random() behind enemy i's randomBoolean, the
   * boss-hit drop-chance draw and the maybeDrop draw made for player bullet
   * i, the sideways speed of the boss's i-th bullet, and the spawn draws of
   * the enemy with index i in a new wave.
   */
  datatype TickRandom = TickRandom(sine: nat -> real, fireRoll: nat -> real, hitRoll: nat -> real,
                                   dropRoll: nat -> real, aimVx: nat -> real, spawn: nat -> Spawning.SpawnRoll)

  /** MathUtils' guarantee for the spawn draws. */
  ghost predicate SpawnRollsInRange(spawn: nat -> Spawning.SpawnRoll)
  {
    forall i: nat :: spawn(i).InRange()
  }

  /** What one player bullet did in the player-bullet pass. */
  datatype Outcome = Expired | Miss | EnemyHit(index: nat, killed: bool) | BossHit

  /** An enemy whose shoot timer has elapsed fires when its randomBoolean(fireChance) draw succeeds. */
  predicate Fires(m: Enemies.Enemy, fireRoll: real)
  {
    m.ReadyToShoot() && fireRoll < m.fireChance
  }

  /** The enemy after the fire check: one that fires has its shoot timer reset. */
  function AfterFireCheck(m: Enemies.Enemy, fireRoll: real): (e: Enemies.Enemy)
    ensures Fires(m, fireRoll) ==> e.shootTimer == m.reload
    ensures e.(shootTimer := m.shootTimer) == m
  {
    if Fires(m, fireRoll) then m.ResetShootTimer() else m
  }

  /** fireEnemy(e.centerX(), e.getY()): the shot of enemy m. */
  function EnemyShot(m: Enemies.Enemy): Bullet
  {
    Fresh.Set(m.Body().CenterX() - 4.0, m.y - 4.0, 8.0, 8.0, -260.0)
  }

  /** Some enemy's rectangle overlaps the hitbox. */
  predicate AnyOverlap(hb: Rect, enemies: seq<Enemies.Enemy>)
  {
    exists k :: 0 <= k < |enemies| && Overlaps(hb, enemies[k].Body().Rect())
  }

  /** The hit points of a new boss: Boss.java's level rule, or GameScreen's wave rule. */
  function BossHp(variant: Variant, wave: int, diffBossHP: real): (hp: int)
    ensures hp >= 1
  {
    if variant == WorldClass then Bosses.LevelHp(diffBossHP) else Bosses.WaveHp(wave, diffBossHP)
  }

  /** The pickups maybeDrop(x, y) adds for the draw r: none, or one of the band's type at (x, y). */
  function DropOf(r: real, x: real, y: real): (s: seq<PowerUps.PowerUp>)
    ensures |s| <= 1
    ensures |s| == 1 <==> r < 0.28
    ensures |s| == 1 ==> s[0] == PowerUps.Make(DropFor(r).value, x, y)
  {
    match DropFor(r)
    case None => []
    case Some(t) => [PowerUps.Make(t, x, y)]
  }

  class GameWorld {
    const variant: Variant
    const player: Players.Player
    var boss: Bosses.Boss?
    const playerBullets: BulletList
    const enemyBullets: BulletList
    var enemies: seq<Enemies.Enemy>
    var powerups: seq<PowerUps.PowerUp>
    var wave: int
    var score: int
    var bossesDefeated: int
    /** diffEnemySpeed, diffEnemyFire, diffSpawn, diffBossHP, diffBossFire. */
    var diff: Difficulty
    /** Camera feedback. */
    var shakeTime: real
    var shakeStrength: real
    var flashTime: real
    var slowmo: real
    var gameOver: bool
    /** The bullet pool as counts: objects waiting in its free list, and objects ever allocated. */
    var poolFree: nat
    var created: nat
    /** The scores handed to game.maybeSetHighScore, in order. */
    var highScoreRequests: seq<int>
    /** The scaled height of the boss sprite. */
    const bossH: real

    /**
     * The world invariant: the entities are valid, a boss is always the one
     * of the next level, no bullet object is lost (each allocated bullet is in
     * a list or in the pool), the counters are non-negative and the
     * difficulty scalars are those of the bosses defeated.
     */
    ghost predicate Valid()
      reads this, player, playerBullets, enemyBullets, boss
    {
      && playerBullets != enemyBullets
      && bossH > 0.0
      && player.Valid()
      && (boss != null ==> boss.Valid() && boss.level == bossesDefeated + 1 && boss.h == bossH)
      && (forall k :: 0 <= k < |enemies| ==> enemies[k].Valid())
      && |playerBullets.items| + |enemyBullets.items| + poolFree == created
      && wave >= 0 && score >= 0 && bossesDefeated >= 0
      && diff == DifficultyFor(bossesDefeated)
    }

    /**
     * GameWorld(game) and GameScreen(game): a fresh player, empty lists, the
     * initial difficulty (GameScreen recomputes it, which changes nothing at
     * zero bosses) and the first wave: four enemies.
     */
    constructor (variant: Variant, playerH: real, bossH: real, spawn: nat -> Spawning.SpawnRoll)
      requires playerH > 0.0 && bossH > 0.0 && SpawnRollsInRange(spawn)
      ensures Valid()
      ensures this.variant == variant && fresh(player) && fresh(playerBullets) && fresh(enemyBullets)
      ensures wave == 1 && boss == null && |enemies| == 4 && powerups == []
      ensures score == 0 && bossesDefeated == 0 && diff == Initial && !gameOver
      ensures playerBullets.items == [] && enemyBullets.items == [] && poolFree == 0 && created == 0
      ensures player.lives == 3 && slowmo == 0.0 && highScoreRequests == []
    {
      this.variant := variant;
      this.bossH := bossH;
      player := new Players.Player(playerH);
      playerBullets := new BulletList();
      enemyBullets := new BulletList();
      boss := null;
      enemies, powerups := [], [];
      wave, score, bossesDefeated := 0, 0, 0;
      diff := Initial;
      shakeTime, shakeStrength, flashTime, slowmo := 0.0, 0.0, 0.0, 0.0;
      gameOver := false;
      poolFree, created := 0, 0;
      highScoreRequests := [];
      new;
      DifficultyAtStart();
      if variant == ScreenCopy {
        RecalcDifficulty();
      }
      FirstWaveHasFour();
      NextWave(spawn);
    }

    /** recalcDifficulty(). */
    method RecalcDifficulty()
      modifies this`diff
      ensures diff == DifficultyFor(bossesDefeated)
    {
      diff := DifficultyFor(bossesDefeated);
    }

    /**
     * nextWave(): the wave counter rises by one; every fifth wave brings one
     * boss of the next level and no enemies, any other wave its roster of
     * WaveEnemyCount enemies appended to the list.
     */
    method NextWave(spawn: nat -> Spawning.SpawnRoll)
      requires Valid() && SpawnRollsInRange(spawn)
      modifies this`wave, this`boss, this`enemies
      ensures Valid()
      ensures wave == old(wave) + 1
      ensures IsBossWave(wave) ==>
        && boss != null && fresh(boss) && enemies == old(enemies)
        && boss.level == bossesDefeated + 1
        && boss.hp == boss.maxHp == BossHp(variant, wave, diff.bossHp)
      ensures !IsBossWave(wave) ==>
        && boss == old(boss)
        && |enemies| == old(|enemies|) + WaveEnemyCount(wave, diff.spawn)
        && enemies[..old(|enemies|)] == old(enemies)
        && forall k :: old(|enemies|) <= k < |enemies| ==>
             enemies[k] == Spawning.FromRoll(spawn(k - old(|enemies|)), wave, diff.enemySpeed, diff.enemyFire)
    {
      wave := wave + 1;
      if IsBossWave(wave) {
        if variant == WorldClass {
          boss := new Bosses.Boss.FromLevel(bossesDefeated + 1, diff.bossHp, diff.bossFire, bossH);
        } else {
          boss := new Bosses.Boss.FromWave(bossesDefeated + 1, wave, diff.bossHp, diff.bossFire, bossH);
        }
        return;
      }
      var count := WaveEnemyCount(wave, diff.spawn);
      var roster := Spawning.SpawnEnemies(count, wave, diff.enemySpeed, diff.enemyFire, spawn);
      enemies := enemies + roster;
    }

    /** bossBulletCapReached(). */
    predicate BossBulletCapReached()
      reads this, enemyBullets
    {
      Bullets.CapReached(|enemyBullets.items|)
    }

    /** getTimeScale(). */
    function TimeScale(): real
      reads this
    {
      TimeScaleFor(slowmo)
    }

    /** shake(t, s): both values only ever grow to the stronger request. */
    method Shake(t: real, s: real)
      modifies this`shakeTime, this`shakeStrength
      ensures shakeTime == MaxR(old(shakeTime), t) && shakeStrength == MaxR(old(shakeStrength), s)
    {
      shakeTime := MaxR(shakeTime, t);
      shakeStrength := MaxR(shakeStrength, s);
    }

    /** flash(t). */
    method Flash(t: real)
      modifies this`flashTime
      ensures flashTime == MaxR(old(flashTime), t)
    {
      flashTime := MaxR(flashTime, t);
    }

    /** applyCameraShake's timer: while shaking, the shake timer runs down by the real frame time. */
    method ApplyCameraShake(delta: real) returns (jitter: bool)
      modifies this`shakeTime
      ensures jitter <==> old(shakeTime) > 0.0
      ensures shakeTime == (if jitter then old(shakeTime) - delta else old(shakeTime))
    {
      jitter := shakeTime > 0.0;
      if jitter {
        shakeTime := shakeTime - delta;
      }
    }

    /** The flash timer of renderFlash(dt) and of GameScreen.render: it runs down while positive. */
    method DecayFlash(d: real)
      modifies this`flashTime
      ensures flashTime == (if old(flashTime) > 0.0 then old(flashTime) - d else old(flashTime))
    {
      if flashTime > 0.0 {
        flashTime := flashTime - d;
      }
    }

    /** bulletPool.obtain(): reuse a free object if there is one, else allocate one. */
    method Obtain()
      modifies this`poolFree, this`created
      ensures old(poolFree) > 0 ==> poolFree == old(poolFree) - 1 && created == old(created)
      ensures old(poolFree) == 0 ==> poolFree == 0 && created == old(created) + 1
      ensures created - poolFree == old(created - poolFree) + 1
    {
      if poolFree > 0 {
        poolFree := poolFree - 1;
      } else {
        created := created + 1;
      }
    }

    /** k calls of obtain(). */
    method ObtainMany(k: nat)
      modifies this`poolFree, this`created
      ensures poolFree == old(poolFree) - MinI(k, old(poolFree))
      ensures created == old(created) + (k - MinI(k, old(poolFree)))
    {
      var take := MinI(k, poolFree);
      poolFree := poolFree - take;
      created := created + (k - take);
    }

    /** firePlayer(x, y): a pooled 7x7 bullet centred on x, moving up at 420. */
    method FirePlayer(x: real, y: real)
      requires Valid()
      modifies playerBullets, this`poolFree, this`created
      ensures Valid()
      ensures playerBullets.items == old(playerBullets.items) + [Fresh.Set(x - 3.5, y, 7.0, 7.0, 420.0)]
      ensures created - poolFree == old(created - poolFree) + 1
    {
      playerBullets.Add(Fresh.Set(x - 3.5, y, 7.0, 7.0, 420.0));
      Obtain();
    }

    /** fireEnemy(x, y): a pooled 8x8 bullet centred on (x, y), moving down at 260. */
    method FireEnemy(x: real, y: real)
      requires Valid()
      modifies enemyBullets, this`poolFree, this`created
      ensures Valid()
      ensures enemyBullets.items == old(enemyBullets.items) + [Fresh.Set(x - 4.0, y - 4.0, 8.0, 8.0, -260.0)]
      ensures created - poolFree == old(created - poolFree) + 1
    {
      enemyBullets.Add(Fresh.Set(x - 4.0, y - 4.0, 8.0, 8.0, -260.0));
      Obtain();
    }

    /** addPlayerBullet(b) for a bullet the caller made with new Bullet(). */
    method AddPlayerBullet(b: Bullet)
      requires Valid()
      modifies playerBullets, this`created
      ensures Valid()
      ensures playerBullets.items == old(playerBullets.items) + [b]
      ensures created == old(created) + 1
    {
      playerBullets.Add(b);
      created := created + 1;
    }

    /** freePlayerBullet(idx): ordered removal, and the object goes back to the pool. */
    method FreePlayerBullet(idx: int)
      requires Valid() && 0 <= idx < |playerBullets.items|
      modifies playerBullets, this`poolFree
      ensures Valid()
      ensures playerBullets.items == old(playerBullets.items[..idx] + playerBullets.items[idx + 1..])
      ensures poolFree == old(poolFree) + 1
    {
      var b := playerBullets.RemoveIndex(idx);
      poolFree := poolFree + 1;
    }

    /** freeEnemyBullet(idx). */
    method FreeEnemyBullet(idx: int)
      requires Valid() && 0 <= idx < |enemyBullets.items|
      modifies enemyBullets, this`poolFree
      ensures Valid()
      ensures enemyBullets.items == old(enemyBullets.items[..idx] + enemyBullets.items[idx + 1..])
      ensures poolFree == old(poolFree) + 1
    {
      var b := enemyBullets.RemoveIndex(idx);
      poolFree := poolFree + 1;
    }

    /**
     * Player.shoot() on the world's side: the lead bullet from the pool and,
     * for a spread volley, the two side bullets (new objects in GameWorld,
     * pooled ones in GameScreen).
     */
    method Shoot(v: Players.Volley)
      requires Valid()
      modifies playerBullets, this`poolFree, this`created
      ensures Valid()
      ensures playerBullets.items == old(playerBullets.items) + Players.VolleyBullets(v)
    {
      FirePlayer(v.cx, v.top);
      if v.spread {
        if variant == WorldClass {
          AddPlayerBullet(Players.SideBullet(v, -120.0));
          AddPlayerBullet(Players.SideBullet(v, 120.0));
        } else {
          playerBullets.Add(Players.SideBullet(v, -120.0));
          Obtain();
          playerBullets.Add(Players.SideBullet(v, 120.0));
          Obtain();
        }
      }
    }

    /** maybeDrop(x, y) with its draw r. */
    method MaybeDrop(x: real, y: real, r: real)
      modifies this`powerups
      ensures powerups == old(powerups) + DropOf(r, x, y)
    {
      var t := DropFor(r);
      if t.Some? {
        powerups := powerups + [PowerUps.Make(t.value, x, y)];
      }
    }

    /**
     * The effect of hitPlayer() since the previous state: with a shield up the
     * shield is spent and the camera shakes a little; otherwise a life goes,
     * the game is over exactly when none is left (and the score is offered as
     * a high score) or else the ship blinks for 1.2 s, and the camera shakes
     * harder.
     */
    twostate predicate PlayerHit()
      reads this, player
    {
      && (old(player.shieldTimer) > 0.0 ==>
            && player.shieldTimer == 0.0 && player.lives == old(player.lives)
            && gameOver == old(gameOver) && highScoreRequests == old(highScoreRequests)
            && player.blinkTimer == old(player.blinkTimer)
            && shakeTime == MaxR(old(shakeTime), 0.15) && shakeStrength == MaxR(old(shakeStrength), 4.0))
      && (old(player.shieldTimer) <= 0.0 ==>
            && player.shieldTimer == old(player.shieldTimer) && player.lives == old(player.lives) - 1
            && (gameOver <==> old(gameOver) || player.lives <= 0)
            && highScoreRequests == old(highScoreRequests) + (if player.lives <= 0 then [score] else [])
            && player.blinkTimer == (if player.lives <= 0 then old(player.blinkTimer) else 1.2)
            && shakeTime == MaxR(old(shakeTime), 0.25) && shakeStrength == MaxR(old(shakeStrength), 6.0))
    }

    /** The hit state of the player and the world is as it was: no hit happened. */
    twostate predicate PlayerSpared()
      reads this, player
    {
      && player.shieldTimer == old(player.shieldTimer) && player.lives == old(player.lives)
      && player.blinkTimer == old(player.blinkTimer)
      && gameOver == old(gameOver) && highScoreRequests == old(highScoreRequests)
      && shakeTime == old(shakeTime) && shakeStrength == old(shakeStrength)
    }

    /**
     * hitPlayer(): an active shield absorbs the hit whole; otherwise a life
     * is lost, and the game is over exactly when no life is left (the score
     * is then offered as a high score), else the ship blinks for 1.2 s.
     */
    method HitPlayer()
      requires Valid()
      modifies this`gameOver, this`shakeTime, this`shakeStrength, this`highScoreRequests,
               player`shieldTimer, player`lives, player`blinkTimer
      ensures Valid()
      ensures PlayerHit()
    {
      var absorbed := player.ConsumeShieldIfAny();
      if absorbed {
        Shake(0.15, 4.0);
        return;
      }
      player.LoseLife();
      Shake(0.25, 6.0);
      if player.lives <= 0 {
        gameOver := true;
        highScoreRequests := highScoreRequests + [score];
      } else {
        player.Blink(1.2);
      }
    }
  

    /** boss.update(dt), with the pool bookkeeping for the bullets it fires. */
    method StepBoss(dt: real, aimVx: nat -> real)
      requires Valid() && boss != null
      modifies boss, enemyBullets, this`poolFree, this`created
      ensures Valid()
      ensures Bosses.Stepped(boss, enemyBullets, dt, aimVx)
      ensures variant == WorldClass ==> poolFree == old(poolFree)
      ensures old(enemyBullets.items) <= enemyBullets.items
      ensures Bullets.CapReached(old(|enemyBullets.items|)) ==> enemyBullets.items == old(enemyBullets.items)
      ensures !Bullets.CapReached(old(|enemyBullets.items|)) ==> |enemyBullets.items| <= Constants.BossBulletLimit
    {
      var before := |enemyBullets.items|;
      boss.Update(dt, enemyBullets, aimVx);
      var fired := |enemyBullets.items| - before;
      if variant == WorldClass {
        created := created + fired;
      } else {
        ObtainMany(fired);
      }
    }

    /**
     * The boss step of update(dt): the boss updates and, if its hit points
     * are gone, is defeated: exactly once the score gains 1000, the boss is
     * removed, the defeated count rises by one, the difficulty is recomputed,
     * the screen flashes and shakes and slow motion starts. Bullets the boss
     * fires are new objects in GameWorld and pooled ones in GameScreen.
     */
    method BossPhase(dt: real, aimVx: nat -> real)
      requires Valid()
      modifies this`boss, this`score, this`bossesDefeated, this`diff, this`flashTime, this`slowmo,
               this`shakeTime, this`shakeStrength, this`poolFree, this`created, boss, enemyBullets
      ensures Valid()
      ensures old(boss) == null ==>
        && boss == null && score == old(score) && bossesDefeated == old(bossesDefeated)
        && slowmo == old(slowmo) && enemyBullets.items == old(enemyBullets.items)
        && flashTime == old(flashTime) && shakeTime == old(shakeTime) && shakeStrength == old(shakeStrength)
        && poolFree == old(poolFree) && created == old(created) && diff == old(diff)
      ensures old(boss) != null ==> Bosses.Stepped(old(boss), enemyBullets, dt, aimVx)
      ensures old(boss) != null && old(boss.hp) > 0 ==>
        && boss == old(boss) && score == old(score) && bossesDefeated == old(bossesDefeated)
        && slowmo == old(slowmo) && flashTime == old(flashTime) && diff == old(diff)
        && shakeTime == old(shakeTime) && shakeStrength == old(shakeStrength)
      ensures old(boss) != null && old(boss.hp) <= 0 ==>
        && boss == null && score == old(score) + 1000 && bossesDefeated == old(bossesDefeated) + 1
        && diff == DifficultyFor(bossesDefeated) && slowmo == 1.2
        && flashTime == MaxR(old(flashTime), 0.4)
        && shakeTime == MaxR(old(shakeTime), 0.4) && shakeStrength == MaxR(old(shakeStrength), 8.0)
      ensures boss == old(boss) || boss == null
      ensures old(enemyBullets.items) <= enemyBullets.items
      ensures Bullets.CapReached(old(|enemyBullets.items|)) ==> enemyBullets.items == old(enemyBullets.items)
      ensures !Bullets.CapReached(old(|enemyBullets.items|)) ==> |enemyBullets.items| <= Constants.BossBulletLimit
    {
      if boss == null {
        return;
      }
      StepBoss(dt, aimVx);
      if boss.hp <= 0 {
        DefeatBoss();
      }
    }

    /** The boss-defeat bookkeeping of update(dt). */
    method DefeatBoss()
      requires Valid() && boss != null
      modifies this`boss, this`score, this`bossesDefeated, this`diff, this`flashTime, this`slowmo,
               this`shakeTime, this`shakeStrength
      ensures Valid()
      ensures boss == null && score == old(score) + 1000 && bossesDefeated == old(bossesDefeated) + 1
      ensures diff == DifficultyFor(bossesDefeated) && slowmo == 1.2
      ensures flashTime == MaxR(old(flashTime), 0.4)
      ensures shakeTime == MaxR(old(shakeTime), 0.4) && shakeStrength == MaxR(old(shakeStrength), 8.0)
    {
      score := score + 1000;
      boss := null;
      bossesDefeated := bossesDefeated + 1;
      RecalcDifficulty();
      Flash(0.4);
      slowmo := 1.2;
      Shake(0.4, 8.0);
    }

    /**
     * The enemy pass of update(dt), from the last enemy to the first (see
     * StepEnemy). Afterwards every enemy left is on or above the bottom edge
     * and clear of the player, and the enemy-bullet list has only gained
     * enemy shots.
     */
    method EnemiesPhase(dt: real, sine: nat -> real, fireRoll: nat -> real)
      requires Valid()
      modifies this`enemies, this`poolFree, this`created, enemyBullets,
               this`gameOver, this`shakeTime, this`shakeStrength, this`highScoreRequests,
               player`shieldTimer, player`lives, player`blinkTimer
      ensures Valid()
      ensures |enemies| <= old(|enemies|)
      ensures forall k :: 0 <= k < |enemies| ==> Settled(enemies[k])
      ensures old(enemyBullets.items) <= enemyBullets.items
      ensures forall k :: old(|enemyBullets.items|) <= k < |enemyBullets.items| ==> IsEnemyShot(enemyBullets.items[k])
      ensures player.lives <= old(player.lives)
      ensures old(gameOver) ==> gameOver
    {
      var i := |enemies|;
      while i > 0
        invariant 0 <= i <= |enemies| <= old(|enemies|)
        invariant Valid()
        invariant player.x == old(player.x)
        invariant forall k :: i <= k < |enemies| ==> Settled(enemies[k])
        invariant old(enemyBullets.items) <= enemyBullets.items
        invariant forall k :: old(|enemyBullets.items|) <= k < |enemyBullets.items| ==> IsEnemyShot(enemyBullets.items[k])
        invariant player.lives <= old(player.lives)
        invariant old(gameOver) ==> gameOver
      {
        i := i - 1;
        StepEnemy(i, dt, sine(i), fireRoll(i));
      }
    }

    /** An enemy the enemy pass keeps: on or above the bottom edge and clear of the player. */
    ghost predicate Settled(e: Enemies.Enemy)
      reads this, player
    {
      e.y + e.h >= 0.0 && !Overlaps(e.Body().Rect(), player.Body().Rect())
    }

    /** fireEnemy's bullet shape. */
    predicate IsEnemyShot(b: Bullet)
    {
      b.vy == -260.0 && b.w == 8.0
    }

    /**
     * One enemy of the enemy pass: it moves; one that has left the bottom
     * edge is removed, else one whose shoot timer has elapsed fires when its
     * chance roll succeeds; one that touches the player is removed and hits
     * the player. A removed enemy never also touches the player (the player
     * flies at height 40), so the source's second removeIndex for the same
     * enemy is unreachable. The enemies before i are untouched, the ones
     * after it shift down only if this one goes.
     */
    method StepEnemy(i: nat, dt: real, sine: real, fireRoll: real)
      requires Valid() && i < |enemies|
      modifies this`enemies, this`poolFree, this`created, enemyBullets,
               this`gameOver, this`shakeTime, this`shakeStrength, this`highScoreRequests,
               player`shieldTimer, player`lives, player`blinkTimer
      ensures Valid()
      ensures player.x == old(player.x)
      ensures var m := old(enemies[i]).Updated(dt, old(player.Body().CenterX()), sine);
        && enemyBullets.items == old(enemyBullets.items) + (if m.y + m.h >= 0.0 && Fires(m, fireRoll) then [EnemyShot(m)] else [])
        && (m.y + m.h >= 0.0 && !Overlaps(m.Body().Rect(), player.Body().Rect()) ==>
              enemies == old(enemies)[i := AfterFireCheck(m, fireRoll)] && Settled(enemies[i]) && PlayerSpared())
        && (m.y + m.h < 0.0 ==> enemies == old(enemies[..i] + enemies[i + 1..]) && PlayerSpared())
        && (m.y + m.h >= 0.0 && Overlaps(m.Body().Rect(), player.Body().Rect()) ==>
              enemies == old(enemies[..i] + enemies[i + 1..]) && PlayerHit())
      ensures old(enemyBullets.items) <= enemyBullets.items
      ensures |enemyBullets.items| <= old(|enemyBullets.items|) + 1
      ensures forall k :: old(|enemyBullets.items|) <= k < |enemyBullets.items| ==> IsEnemyShot(enemyBullets.items[k])
      ensures player.lives <= old(player.lives)
      ensures old(gameOver) ==> gameOver
    {
      var e, culled := AdvanceEnemy(i, dt, sine, fireRoll);
      if Overlaps(e.Body().Rect(), player.Body().Rect()) {
        assert !culled;
        enemies := enemies[..i] + enemies[i + 1..];
        HitPlayer();
      }
    }

    /**
     * The first half of StepEnemy: the move, then the removal below the
     * bottom edge or the shot. e is the moved enemy, with its shoot timer
     * reset if it fired; a removed enemy does not fire.
     */
    method AdvanceEnemy(i: nat, dt: real, sine: real, fireRoll: real) returns (e: Enemies.Enemy, culled: bool)
      requires Valid() && i < |enemies|
      modifies this`enemies, this`poolFree, this`created, enemyBullets
      ensures Valid()
      ensures var m := old(enemies[i]).Updated(dt, player.Body().CenterX(), sine);
        && (culled <==> m.y + m.h < 0.0)
        && e == (if culled then m else AfterFireCheck(m, fireRoll))
        && enemyBullets.items == old(enemyBullets.items) + (if !culled && Fires(m, fireRoll) then [EnemyShot(m)] else [])
      ensures culled ==> enemies == old(enemies[..i] + enemies[i + 1..])
      ensures !culled ==> |enemies| == old(|enemies|) && enemies == old(enemies)[i := e]
      ensures old(enemyBullets.items) <= enemyBullets.items
      ensures |enemyBullets.items| <= old(|enemyBullets.items|) + 1
      ensures forall k :: old(|enemyBullets.items|) <= k < |enemyBullets.items| ==> IsEnemyShot(enemyBullets.items[k])
    {
      e := enemies[i].Updated(dt, player.Body().CenterX(), sine);
      enemies := enemies[i := e];
      culled := e.y + e.h < 0.0;
      if culled {
        enemies := enemies[..i] + enemies[i + 1..];
      } else if Fires(e, fireRoll) {
        e := e.ResetShootTimer();
        enemies := enemies[i := e];
        FireEnemy(e.Body().CenterX(), e.y);
      }
    }

    /**
     * One player bullet of the player-bullet pass: it moves; above the top
     * edge it is freed; else it hits at most one target: the last enemy in
     * the list that its hitbox overlaps (damaged by one, and on death scored,
     * removed and given its drop roll) or, only when no enemy overlaps, the
     * boss (damaged by one, 10 points and a 20% chance of a drop roll). A
     * bullet that hits anything leaves the list; one that hits nothing stays
     * at its new position.
     */
    method ResolvePlayerBullet(i: nat, dt: real, hitRoll: real, dropRoll: real) returns (outcome: Outcome)
      requires Valid() && i < |playerBullets.items|
      modifies playerBullets, this`poolFree, this`enemies, this`score, this`powerups,
               this`shakeTime, this`shakeStrength, boss
      ensures Valid()
      ensures var b := old(playerBullets.items[i]).Moved(dt);
        && (outcome == Expired <==> b.y > Constants.H)
        && (outcome.EnemyHit? <==> b.y <= Constants.H && AnyOverlap(b.HitRect(), old(enemies)))
        && (outcome == BossHit <==>
              b.y <= Constants.H && !AnyOverlap(b.HitRect(), old(enemies)) &&
              old(boss) != null && Overlaps(b.HitRect(), old(boss.Body().Rect())))
        && (outcome == Miss ==> playerBullets.items == old(playerBullets.items)[i := b])
      ensures outcome != Miss ==> playerBullets.items == old(playerBullets.items[..i] + playerBullets.items[i + 1..])
      ensures outcome.EnemyHit? ==>
        && IsLastOverlap(old(playerBullets.items[i]).Moved(dt).HitRect(), old(enemies), outcome.index)
        && (outcome.killed <==> old(enemies)[outcome.index].hp <= 1)
      ensures outcome.EnemyHit? && outcome.killed ==>
        var j := outcome.index;
        && enemies == old(enemies[..j] + enemies[j + 1..])
        && score == old(score) + old(enemies)[j].scoreValue
        && powerups == old(powerups) + DropOf(dropRoll, old(enemies)[j].Body().CenterX(), old(enemies)[j].Body().CenterY())
        && shakeTime == MaxR(old(shakeTime), 0.08) && shakeStrength == MaxR(old(shakeStrength), 2.2)
      ensures outcome.EnemyHit? && !outcome.killed ==>
        var j := outcome.index;
        enemies == old(enemies)[j := old(enemies)[j].Damaged(1)] && score == old(score) && powerups == old(powerups)
      ensures outcome == BossHit ==>
        && Bosses.Damaged(boss, 1) && enemies == old(enemies)
        && shakeTime == MaxR(old(shakeTime), 0.02) && shakeStrength == MaxR(old(shakeStrength), 1.2)
        && score == old(score) + Constants.BossHitScore
        && powerups == old(powerups) +
             (if hitRoll < Constants.BossHitPowerupChance
              then DropOf(dropRoll, old(boss.Body().CenterX()), old(boss.Body().CenterY())) else [])
      ensures outcome != BossHit && old(boss) != null ==> unchanged(boss)
      ensures outcome == Expired || outcome == Miss || (outcome.EnemyHit? && !outcome.killed) ==>
        shakeTime == old(shakeTime) && shakeStrength == old(shakeStrength)
      ensures outcome == Expired || outcome == Miss ==>
        enemies == old(enemies) && score == old(score) && powerups == old(powerups)
    {
      var b := playerBullets.items[i].Moved(dt);
      playerBullets.Replace(i, b);
      if b.y > Constants.H {
        FreePlayerBullet(i);
        return Expired;
      }
      var hb := b.HitRect();
      var target := FindTarget(hb, enemies);
      if target.Some? {
        var killed := HitEnemy(i, target.value, dropRoll);
        return EnemyHit(target.value, killed);
      }
      if boss != null && Overlaps(hb, boss.Body().Rect()) {
        HitBoss(i, hitRoll, dropRoll);
        return BossHit;
      }
      return Miss;
    }

    /**
     * Player bullet i hits enemy j: the enemy loses a hit point and the bullet
     * is freed; a killed enemy then rolls for a drop, adds its score value
     * and is removed.
     */
    method HitEnemy(i: nat, j: nat, dropRoll: real) returns (killed: bool)
      requires Valid() && i < |playerBullets.items| && j < |enemies|
      modifies playerBullets, this`poolFree, this`enemies, this`score, this`powerups,
               this`shakeTime, this`shakeStrength
      ensures Valid()
      ensures playerBullets.items == old(playerBullets.items[..i] + playerBullets.items[i + 1..])
      ensures killed <==> old(enemies)[j].hp <= 1
      ensures killed ==>
        && enemies == old(enemies[..j] + enemies[j + 1..])
        && score == old(score) + old(enemies)[j].scoreValue
        && powerups == old(powerups) + DropOf(dropRoll, old(enemies)[j].Body().CenterX(), old(enemies)[j].Body().CenterY())
        && shakeTime == MaxR(old(shakeTime), 0.08) && shakeStrength == MaxR(old(shakeStrength), 2.2)
      ensures !killed ==>
        && enemies == old(enemies)[j := old(enemies)[j].Damaged(1)] && score == old(score) && powerups == old(powerups)
        && shakeTime == old(shakeTime) && shakeStrength == old(shakeStrength)
    {
      var e := enemies[j].Damaged(1);
      FreePlayerBullet(i);
      killed := e.IsDead();
      if killed {
        MaybeDrop(e.Body().CenterX(), e.Body().CenterY(), dropRoll);
        score := score + e.scoreValue;
        enemies := enemies[..j] + enemies[j + 1..];
        Shake(0.08, 2.2);
      } else {
        enemies := enemies[j := e];
      }
    }

    /**
     * Player bullet i hits the boss: one hit point, BOSS_HIT_SCORE points, a
     * drop roll when the chance draw is below BOSS_HIT_POWERUP_CHANCE, and the
     * bullet is freed.
     */
    method HitBoss(i: nat, hitRoll: real, dropRoll: real)
      requires Valid() && i < |playerBullets.items| && boss != null
      modifies playerBullets, this`poolFree, this`score, this`powerups, this`shakeTime, this`shakeStrength, boss
      ensures Valid()
      ensures playerBullets.items == old(playerBullets.items[..i] + playerBullets.items[i + 1..])
      ensures Bosses.Damaged(boss, 1) && score == old(score) + Constants.BossHitScore
      ensures shakeTime == MaxR(old(shakeTime), 0.02) && shakeStrength == MaxR(old(shakeStrength), 1.2)
      ensures powerups == old(powerups) +
        (if hitRoll < Constants.BossHitPowerupChance
         then DropOf(dropRoll, old(boss.Body().CenterX()), old(boss.Body().CenterY())) else [])
    {
      boss.Damage(1);
      score := score + Constants.BossHitScore;
      if hitRoll < Constants.BossHitPowerupChance {
        MaybeDrop(boss.Body().CenterX(), boss.Body().CenterY(), dropRoll);
      }
      FreePlayerBullet(i);
      Shake(0.02, 1.2);
    }

    /**
     * The player-bullet pass of update(dt), from the last bullet to the
     * first. The score never drops, every bullet left is below the top edge,
     * and the boss loses at most one hit point per bullet.
     */
    method PlayerBulletsPhase(dt: real, hitRoll: nat -> real, dropRoll: nat -> real)
      requires Valid()
      modifies playerBullets, this`poolFree, this`enemies, this`score, this`powerups,
               this`shakeTime, this`shakeStrength, boss
      ensures Valid()
      ensures score >= old(score)
      ensures |enemies| <= old(|enemies|)
      ensures |playerBullets.items| <= old(|playerBullets.items|)
      ensures forall k :: 0 <= k < |playerBullets.items| ==> playerBullets.items[k].y <= Constants.H
      ensures old(boss) != null ==> boss.hp >= old(boss.hp) - old(|playerBullets.items|)
    {
      var i := |playerBullets.items|;
      while i > 0
        invariant 0 <= i <= |playerBullets.items| <= old(|playerBullets.items|)
        invariant Valid()
        invariant forall k :: i <= k < |playerBullets.items| ==> playerBullets.items[k].y <= Constants.H
        invariant score >= old(score)
        invariant |enemies| <= old(|enemies|)
        invariant old(boss) != null ==> boss.hp >= old(boss.hp) - (old(|playerBullets.items|) - i)
      {
        i := i - 1;
        var outcome := ResolvePlayerBullet(i, dt, hitRoll(i), dropRoll(i));
      }
    }

    /**
     * One enemy bullet of the enemy-bullet pass: it moves; below the bottom
     * edge it is freed; touching the player it is freed and hits the player.
     */
    method StepEnemyBullet(i: nat, dt: real)
      requires Valid() && i < |enemyBullets.items|
      modifies enemyBullets, this`poolFree,
               this`gameOver, this`shakeTime, this`shakeStrength, this`highScoreRequests,
               player`shieldTimer, player`lives, player`blinkTimer
      ensures Valid()
      ensures var b := old(enemyBullets.items[i]).Moved(dt);
        && (b.y + b.h >= 0.0 && !Overlaps(b.HitRect(), player.Body().Rect()) ==>
              enemyBullets.items == old(enemyBullets.items)[i := b] && PlayerSpared())
        && (b.y + b.h < 0.0 ==>
              enemyBullets.items == old(enemyBullets.items[..i] + enemyBullets.items[i + 1..]) && PlayerSpared())
        && (b.y + b.h >= 0.0 && Overlaps(b.HitRect(), player.Body().Rect()) ==>
              enemyBullets.items == old(enemyBullets.items[..i] + enemyBullets.items[i + 1..]) && PlayerHit())
      ensures player.x == old(player.x)
      ensures player.lives >= old(player.lives) - 1
      ensures old(gameOver) ==> gameOver
    {
      var b := enemyBullets.items[i].Moved(dt);
      enemyBullets.Replace(i, b);
      if b.y + b.h < 0.0 {
        FreeEnemyBullet(i);
      } else if Overlaps(b.HitRect(), player.Body().Rect()) {
        FreeEnemyBullet(i);
        HitPlayer();
      }
    }

    /**
     * The enemy-bullet pass of update(dt), from the last bullet to the first.
     * Every bullet left is on or above the bottom edge and clear of the
     * player, and each bullet costs at most one life.
     */
    method EnemyBulletsPhase(dt: real)
      requires Valid()
      modifies enemyBullets, this`poolFree,
               this`gameOver, this`shakeTime, this`shakeStrength, this`highScoreRequests,
               player`shieldTimer, player`lives, player`blinkTimer
      ensures Valid()
      ensures |enemyBullets.items| <= old(|enemyBullets.items|)
      ensures forall k :: 0 <= k < |enemyBullets.items| ==>
        enemyBullets.items[k].y + enemyBullets.items[k].h >= 0.0 &&
        !Overlaps(enemyBullets.items[k].HitRect(), player.Body().Rect())
      ensures player.lives >= old(player.lives) - old(|enemyBullets.items|)
      ensures old(gameOver) ==> gameOver
    {
      var i := |enemyBullets.items|;
      while i > 0
        invariant 0 <= i <= |enemyBullets.items| <= old(|enemyBullets.items|)
        invariant Valid()
        invariant player.x == old(player.x)
        invariant forall k :: i <= k < |enemyBullets.items| ==>
          enemyBullets.items[k].y + enemyBullets.items[k].h >= 0.0 &&
          !Overlaps(enemyBullets.items[k].HitRect(), player.Body().Rect())
        invariant player.lives >= old(player.lives) - (old(|enemyBullets.items|) - i)
        invariant old(gameOver) ==> gameOver
      {
        i := i - 1;
        StepEnemyBullet(i, dt);
      }
    }

    /**
     * One pickup of the pickup pass: it falls; below the bottom edge it is
     * removed; touching the player it applies its type to the player and is
     * removed.
     */
    method StepPowerUp(i: nat, dt: real)
      requires Valid() && i < |powerups|
      modifies this`powerups, player
      ensures Valid()
      ensures var p := old(powerups[i]).Updated(dt);
        || (powerups == old(powerups)[i := p] && p.y + p.size >= 0.0 &&
            !Overlaps(p.Rect(), player.Body().Rect()) && player.PowerState() == old(player.PowerState()))
        || (powerups == old(powerups[..i] + powerups[i + 1..]) && p.y + p.size < 0.0 &&
            player.PowerState() == old(player.PowerState()))
        || (powerups == old(powerups[..i] + powerups[i + 1..]) && Overlaps(p.Rect(), player.Body().Rect()) &&
            player.PowerState() == Players.Applied(old(player.PowerState()), p.kind))
      ensures player.x == old(player.x) && player.lives >= old(player.lives)
      ensures player.cdTimer == old(player.cdTimer) && player.blinkTimer == old(player.blinkTimer)
      ensures player.externalMoveAxis == old(player.externalMoveAxis) && player.externalFire == old(player.externalFire)
    {
      var p := powerups[i].Updated(dt);
      powerups := powerups[i := p];
      if p.y + p.size < 0.0 {
        powerups := powerups[..i] + powerups[i + 1..];
        return;
      }
      if Overlaps(p.Rect(), player.Body().Rect()) {
        PowerUps.Apply(p, player);
        powerups := powerups[..i] + powerups[i + 1..];
      }
    }

    /**
     * The pickup pass of update(dt), from the last pickup to the first.
     * Pickups never cost a life, and every pickup left is on or above the
     * bottom edge and clear of the player.
     */
    method PowerUpsPhase(dt: real)
      requires Valid()
      modifies this`powerups, player
      ensures Valid()
      ensures |powerups| <= old(|powerups|)
      ensures forall k :: 0 <= k < |powerups| ==>
        powerups[k].y + powerups[k].size >= 0.0 && !Overlaps(powerups[k].Rect(), player.Body().Rect())
      ensures player.x == old(player.x) && player.lives >= old(player.lives)
    {
      var i := |powerups|;
      while i > 0
        invariant 0 <= i <= |powerups| <= old(|powerups|)
        invariant Valid()
        invariant player.x == old(player.x) && player.lives >= old(player.lives)
        invariant forall k :: i <= k < |powerups| ==>
          powerups[k].y + powerups[k].size >= 0.0 && !Overlaps(powerups[k].Rect(), player.Body().Rect())
      {
        i := i - 1;
        StepPowerUp(i, dt);
      }
    }

    /**
     * update(dt): nothing at all once the game is over; otherwise slow motion
     * runs down, the player moves and shoots, a new wave starts when neither
     * boss nor enemies are left, and the boss, enemy, player-bullet,
     * enemy-bullet and pickup passes run in this order. The score never
     * drops, and the wave and the defeated-boss counters rise by at most one.
     */
    method Update(dt: real, input: Input, rng: TickRandom)
      requires Valid() && SpawnRollsInRange(rng.spawn)
      modifies this, player, playerBullets, enemyBullets, boss
      ensures Valid()
      ensures old(gameOver) ==> unchanged(this, player, playerBullets, enemyBullets) && (boss != null ==> unchanged(boss))
      ensures old(gameOver) ==> gameOver
      ensures score >= old(score)
      ensures old(wave) <= wave <= old(wave) + 1
      ensures old(bossesDefeated) <= bossesDefeated <= old(bossesDefeated) + 1
      ensures !old(gameOver) ==>
        slowmo == (if bossesDefeated == old(bossesDefeated)
                   then (if old(slowmo) > 0.0 then old(slowmo) - dt else old(slowmo))
                   else 1.2)
    {
      if gameOver {
        return;
      }
      var volley := StartTick(dt, input, rng.spawn);
      BossPhase(dt, rng.aimVx);
      CombatPhases(dt, rng);
    }

    /** The enemy, player-bullet, enemy-bullet and pickup passes of update(dt). */
    method CombatPhases(dt: real, rng: TickRandom)
      requires Valid()
      modifies this`enemies, this`poolFree, this`created, this`score, this`powerups,
               this`gameOver, this`shakeTime, this`shakeStrength, this`highScoreRequests,
               player, playerBullets, enemyBullets, boss
      ensures Valid()
      ensures score >= old(score)
      ensures old(gameOver) ==> gameOver
    {
      EnemiesPhase(dt, rng.sine, rng.fireRoll);
      PlayerBulletsPhase(dt, rng.hitRoll, rng.dropRoll);
      EnemyBulletsPhase(dt);
      PowerUpsPhase(dt);
    }

    /** player.update(dt): the ship moves, and the volley it fires joins the player-bullet list. */
    method PlayerStep(dt: real, input: Input) returns (volley: Option<Players.Volley>)
      requires Valid()
      modifies player, playerBullets, this`poolFree, this`created
      ensures Valid()
      ensures Players.Stepped(player, dt, input.left, input.right, input.fire, volley)
      ensures playerBullets.items == old(playerBullets.items) + (if volley.Some? then Players.VolleyBullets(volley.value) else [])
    {
      volley := player.Update(dt, input.left, input.right, input.fire);
      if volley.Some? {
        Shoot(volley.value);
      }
    }

    /**
     * The start of a live tick: slow motion runs down, the player moves and
     * shoots, and a new wave starts when neither boss nor enemies are left.
     */
    method StartTick(dt: real, input: Input, spawn: nat -> Spawning.SpawnRoll) returns (volley: Option<Players.Volley>)
      requires Valid() && SpawnRollsInRange(spawn)
      modifies this`slowmo, this`wave, this`boss, this`enemies, this`poolFree, this`created,
               player, playerBullets
      ensures Valid()
      ensures slowmo == (if old(slowmo) > 0.0 then old(slowmo) - dt else old(slowmo))
      ensures Players.Stepped(player, dt, input.left, input.right, input.fire, volley)
      ensures playerBullets.items == old(playerBullets.items) + (if volley.Some? then Players.VolleyBullets(volley.value) else [])
      ensures wave == old(wave) + (if old(boss) == null && old(|enemies|) == 0 then 1 else 0)
      ensures !(old(boss) == null && old(|enemies|) == 0) ==> boss == old(boss) && enemies == old(enemies)
      ensures old(boss) == null && old(|enemies|) == 0 && IsBossWave(wave) ==>
        && boss != null && fresh(boss) && enemies == []
        && boss.hp == boss.maxHp == BossHp(variant, wave, diff.bossHp)
      ensures old(boss) == null && old(|enemies|) == 0 && !IsBossWave(wave) ==>
        && boss == null && |enemies| == WaveEnemyCount(wave, diff.spawn)
        && forall k :: 0 <= k < |enemies| ==>
             enemies[k] == Spawning.FromRoll(spawn(k), wave, diff.enemySpeed, diff.enemyFire)
      ensures boss == old(boss) || fresh(boss)
    {
      if slowmo > 0.0 {
        slowmo := slowmo - dt;
      }
      volley := PlayerStep(dt, input);
      if boss == null && |enemies| == 0 {
        NextWave(spawn);
      }
    }
  }
}
