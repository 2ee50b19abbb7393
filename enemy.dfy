/**
 * entities/Enemy.java: a wave enemy of one of three movement variants
 * (0 sine-weave, 1 shooter, 2 chaser). Its stats are derived once at spawn
 * from the wave number and two difficulty scalars.
 */
module Enemies {
  import opened Numerics
  import opened GameObjects
  import Constants

  /** Sprite width: the sprite is scaled to this target width. */
  const ShipWidth: real := 28.0
  /** Length of the red hit flash. */
  const HitFlash: real := 0.12

  /** Fields of an Enemy (t is its own clock, hitTimer the cosmetic hit flash). */
  datatype Enemy = Enemy(kind: int, x: real, y: real, w: real, h: real, hp: int, t: real,
                         speed: real, shootTimer: real, reload: real, fireChance: real,
                         scoreValue: int, hitTimer: real)
  {
    /** The GameObject view. */
    function Body(): Body { GameObjects.Body(x, y, w, h) }

    /** What the world keeps true of every enemy in its list. */
    predicate Valid()
    {
      0 <= kind <= 2 && w == ShipWidth && h > 0.0 && hp >= 1 && scoreValue >= 0 &&
      0.0 <= x <= Constants.W - w
    }

    /** readyToShoot(). */
    predicate ReadyToShoot() { shootTimer <= 0.0 }

    /** resetShootTimer(): shootTimer = reload. */
    function ResetShootTimer(): Enemy
    {
      this.(shootTimer := reload)
    }

    /** damage(d): hp -= d and the hit flash restarts. */
    function Damaged(d: int): Enemy
    {
      this.(hp := hp - d, hitTimer := HitFlash)
    }

    /** isDead(). */
    predicate IsDead() { hp <= 0 }

    /**
     * update(dt): advance the clock and the shoot timer, decay the hit flash,
     * move according to the variant, then clamp x to the playfield. sine
     * stands for MathUtils.sin of the variant's phase (trigonometry is not
     * modelled) and playerCx for the player's current centre.
     */
    function Updated(dt: real, playerCx: real, sine: real): (e: Enemy)
      ensures e.kind == kind && e.w == w && e.h == h && e.hp == hp && e.speed == speed
      ensures e.reload == reload && e.fireChance == fireChance && e.scoreValue == scoreValue
      ensures e.t == t + dt && e.shootTimer == shootTimer - dt
      ensures e.hitTimer == (if hitTimer > 0.0 then hitTimer - dt else hitTimer)
      ensures e.y == y - Descent(kind, speed, dt)
      ensures w <= Constants.W ==> 0.0 <= e.x <= Constants.W - w
    {
      var y1 := y - Descent(kind, speed, dt);
      var x1 :=
        if kind == 0 then x + sine * 80.0 * dt
        else if kind == 1 then x + sine * 50.0 * dt
        else if kind == 2 then x + Signum(playerCx - (x + w / 2.0)) * (speed * 1.3) * dt
        else x;
      this.(t := t + dt, shootTimer := shootTimer - dt,
            hitTimer := if hitTimer > 0.0 then hitTimer - dt else hitTimer,
            x := Clamp(x1, 0.0, 800.0 - w), y := y1)
    }
  }

  /** Vertical drop of one update: speed * dt for the sine-weaver, 0.8 times that for the shooter, 1.1 times for the chaser. */
  function Descent(kind: int, speed: real, dt: real): real
  {
    if kind == 0 then speed * dt
    else if kind == 1 then speed * 0.8 * dt
    else if kind == 2 then speed * 1.1 * dt
    else 0.0
  }

  /** No variant ever climbs or drops faster than 1.1 * speed * dt. */
  lemma DescentBounded(kind: int, speed: real, dt: real)
    requires speed >= 0.0 && dt >= 0.0
    ensures 0.0 <= Descent(kind, speed, dt) <= 1.1 * speed * dt
    ensures 0 <= kind <= 2 ==> speed * 0.8 * dt <= Descent(kind, speed, dt)
  {
    var p := speed * dt;
    assert p >= 0.0;
    assert speed * 0.8 * dt == 0.8 * p && speed * 1.1 * dt == 1.1 * p;
  }

  /**
   * The chaser moves toward the player's centre: starting inside the
   * playfield, its x never moves away from the player.
   */
  lemma ChaserHeadsForPlayer(e: Enemy, dt: real, playerCx: real, sine: real)
    requires e.kind == 2 && e.speed >= 0.0 && dt >= 0.0
    requires 0.0 <= e.x <= Constants.W - e.w
    ensures playerCx > e.Body().CenterX() ==> e.Updated(dt, playerCx, sine).x >= e.x
    ensures playerCx < e.Body().CenterX() ==> e.Updated(dt, playerCx, sine).x <= e.x
    ensures playerCx == e.Body().CenterX() ==> e.Updated(dt, playerCx, sine).x == e.x
  {
    var step := e.speed * 1.3 * dt;
    assert step >= 0.0 by {
      assert e.speed * 1.3 >= 0.0;
    }
  }

  /** After resetShootTimer, the enemy is ready again exactly when a full reload has elapsed. */
  lemma ReadyAgainAfterReload(e: Enemy, dt: real, playerCx: real, sine: real)
    ensures e.ResetShootTimer().Updated(dt, playerCx, sine).ReadyToShoot() <==> dt >= e.reload
  {
  }

  /** The enemy after k hits of one point each. */
  function HitTimes(e: Enemy, k: nat): Enemy
  {
    if k == 0 then e else HitTimes(e, k - 1).Damaged(1)
  }

  /** An enemy with hp points dies on exactly its hp-th unit hit. */
  lemma {:induction false} DiesAfterHpHits(e: Enemy, k: nat)
    ensures HitTimes(e, k).hp == e.hp - k
    ensures HitTimes(e, k).IsDead() <==> k >= e.hp
  {
    if k > 0 {
      DiesAfterHpHits(e, k - 1);
    }
  }

  /** Hit points: 2 for a shooter after wave 6, else 1. */
  function HpFor(kind: int, wave: int): (hp: int)
    ensures hp == 2 <==> kind == 1 && wave > 6
    ensures hp == 1 || hp == 2
  {
    if kind == 1 && wave > 6 then 2 else 1
  }

  /** Descent speed: (45 + 3 wave) * diffEnemySpeed. */
  function SpeedFor(wave: int, diffEnemySpeed: real): real
  {
    (45.0 + wave as real * 3.0) * diffEnemySpeed
  }

  /** Per-tick fire chance once ready: (0.03 + 0.0015 wave) * diffEnemyFire. */
  function FireChanceFor(wave: int, diffEnemyFire: real): real
  {
    (0.03 + wave as real * 0.0015) * diffEnemyFire
  }

  /** Score for a kill: 20 + 3 wave. */
  function ScoreFor(wave: int): int
  {
    20 + wave * 3
  }

  /**
   * Reload: (1.1 - min(0.5, 0.02 wave)) / max(0.6, diffEnemyFire), times
   * 0.85 for the chaser. It is positive for every wave and difficulty.
   */
  function ReloadFor(kind: int, wave: int, diffEnemyFire: real): (r: real)
    ensures r > 0.0
  {
    var base := (1.1 - MinR(0.5, wave as real * 0.02)) / MaxR(0.6, diffEnemyFire);
    if kind == 2 then base * 0.85 else base
  }

  /**
   * The constructor: a sprite of width 28 and height h centred on cx, with
   * the hit points, speed, reload, fire chance and score value of its wave.
   * shootTimer0 is the random initial shoot timer in [0.3, 2).
   */
  function Spawn(kind: int, cx: real, y: real, wave: int, diffEnemySpeed: real, diffEnemyFire: real,
                 h: real, shootTimer0: real): (e: Enemy)
    ensures e.kind == kind && e.x + e.w / 2.0 == cx && e.y == y && e.w == ShipWidth && e.h == h
    ensures e.hp == HpFor(kind, wave) && e.speed == SpeedFor(wave, diffEnemySpeed)
    ensures e.fireChance == FireChanceFor(wave, diffEnemyFire) && e.scoreValue == ScoreFor(wave)
    ensures e.reload == ReloadFor(kind, wave, diffEnemyFire) && e.reload > 0.0
    ensures e.t == 0.0 && e.hitTimer == 0.0 && e.shootTimer == shootTimer0
  {
    Enemy(kind, cx - ShipWidth / 2.0, y, ShipWidth, h, HpFor(kind, wave), 0.0,
          SpeedFor(wave, diffEnemySpeed), shootTimer0, ReloadFor(kind, wave, diffEnemyFire),
          FireChanceFor(wave, diffEnemyFire), ScoreFor(wave), 0.0)
  }

  /**
   * Later waves are harder: for the same variant and difficulty, speed,
   * fire chance and score value never drop and the reload never grows.
   */
  lemma StatsRampWithWave(kind: int, w1: int, w2: int, ds: real, df: real)
    requires w1 <= w2 && ds >= 0.0 && df >= 0.0
    ensures SpeedFor(w1, ds) <= SpeedFor(w2, ds)
    ensures FireChanceFor(w1, df) <= FireChanceFor(w2, df)
    ensures ScoreFor(w1) <= ScoreFor(w2)
    ensures ReloadFor(kind, w2, df) <= ReloadFor(kind, w1, df)
  {
    assert SpeedFor(w1, ds) <= SpeedFor(w2, ds) by {
      ScaleMonotone(45.0 + w1 as real * 3.0, 45.0 + w2 as real * 3.0, ds);
    }
    assert FireChanceFor(w1, df) <= FireChanceFor(w2, df) by {
      ScaleMonotone(0.03 + w1 as real * 0.0015, 0.03 + w2 as real * 0.0015, df);
    }
    ReloadShrinksWithWave(kind, w1, w2, df);
  }

  /** The reload never grows with the wave. */
  lemma ReloadShrinksWithWave(kind: int, w1: int, w2: int, df: real)
    requires w1 <= w2
    ensures ReloadFor(kind, w2, df) <= ReloadFor(kind, w1, df)
  {
    var m := MaxR(0.6, df);
    var a1 := 1.1 - MinR(0.5, w1 as real * 0.02);
    var a2 := 1.1 - MinR(0.5, w2 as real * 0.02);
    assert a2 <= a1;
    QuotientMonotone(a2, a1, m);
    if kind == 2 {
      ScaleMonotone(a2 / m, a1 / m, 0.85);
      assert ReloadFor(kind, w2, df) == a2 / m * 0.85 && ReloadFor(kind, w1, df) == a1 / m * 0.85;
    } else {
      assert ReloadFor(kind, w2, df) == a2 / m && ReloadFor(kind, w1, df) == a1 / m;
    }
  }

  lemma ScaleMonotone(a: real, b: real, k: real)
    requires a <= b && k >= 0.0
    ensures a * k <= b * k
  {
    assert (b - a) * k >= 0.0;
  }

  lemma QuotientMonotone(a: real, b: real, m: real)
    requires a <= b && m > 0.0
    ensures a / m <= b / m
  {
    assert (b - a) / m >= 0.0;
  }
}
