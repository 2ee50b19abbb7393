/**
 * entities/Boss.java: the boss of every fifth wave. It sweeps left and right
 * and fires one of three attack patterns chosen by its remaining hit-point
 * share, unlocked by its level, and gated by the global enemy-bullet cap.
 * The inner Boss class of screens/GameScreen.java is the same machine with a
 * wave-based hit-point rule (constructor FromWave).
 */
module Bosses {
  import opened Numerics
  import opened GameObjects
  import opened Bullets
  import Constants

  /** Sprite width: the sprite is scaled to this target width. */
  const ShipWidth: real := 140.0
  const SweepSpeed: real := 100.0
  /** The sweep turns when the boss is closer than this to a side. */
  const EdgeMargin: real := 20.0
  /** While the cap is reached, the fire timer is held at least at this re-check interval. */
  const CapRecheck: real := 0.15
  const HitFlash: real := 0.12

  /** Boss.java: hp = max(1, round((120 + 30) / 2 * diffBossHP)), whatever the level or wave. */
  function LevelHp(diffBossHP: real): (hp: int)
    ensures hp >= 1
    ensures 75.0 * diffBossHP >= 0.5 ==> 75.0 * diffBossHP - 0.5 < hp as real <= 75.0 * diffBossHP + 0.5
  {
    MaxI(1, Round((150 as real / 2.0) * diffBossHP))
  }

  /** GameScreen's inner Boss: hp = max(1, round((120 + 30 wave) / 2 * diffBossHP)). */
  function WaveHp(wave: int, diffBossHP: real): (hp: int)
    ensures hp >= 1
    ensures var v := (120 + wave * 30) as real / 2.0 * diffBossHP;
            v >= 0.5 ==> v - 0.5 < hp as real <= v + 0.5
  {
    MaxI(1, Round(((120 + wave * 30) as real / 2.0) * diffBossHP))
  }

  /**
   * The two hit-point rules agree at wave 1, where no boss appears. At
   * every wave the screen's boss is at least as tough, and from wave 2 on
   * strictly tougher once diffBossHP is at its clamp floor 0.7 or above; at
   * that initial difficulty the first boss has 95 points against 53.
   */
  lemma HpRulesDiverge(wave: int, diffBossHP: real)
    requires wave >= 1 && diffBossHP >= 0.0
    ensures WaveHp(1, diffBossHP) == LevelHp(diffBossHP)
    ensures WaveHp(wave, diffBossHP) >= LevelHp(diffBossHP)
    ensures wave >= 2 && diffBossHP >= 0.7 ==> WaveHp(wave, diffBossHP) > LevelHp(diffBossHP)
    ensures WaveHp(5, 0.7) == 95 && LevelHp(0.7) == 53
  {
    var a := 150 as real / 2.0 * diffBossHP;
    var b := (120 + wave * 30) as real / 2.0 * diffBossHP;
    assert a <= b by {
      assert (120 + wave * 30) as real / 2.0 - 150 as real / 2.0 >= 0.0;
      ScaleUp(150 as real / 2.0, (120 + wave * 30) as real / 2.0, diffBossHP);
    }
    RoundMonotone(a, b);
    if wave >= 2 && diffBossHP >= 0.7 {
      assert b - a == (15 * (wave - 1)) as real * diffBossHP;
      ScaleUp(15.0, (15 * (wave - 1)) as real, diffBossHP);
    }
    assert Round(94.5) == 95;
    assert Round(52.5) == 53;
  }

  lemma ScaleUp(a: real, b: real, k: real)
    requires a <= b && k >= 0.0
    ensures a * k <= b * k
  {
    assert (b - a) * k >= 0.0;
  }

  /** The attack phase, chosen by the share of hit points left. */
  datatype Phase = Early | Middle | Late

  /** hpPct = hp / maxHp: above 0.66 early, above 0.33 middle, else late. */
  function PhaseOf(hp: int, maxHp: int): (p: Phase)
    requires maxHp > 0
    ensures p == Early <==> hp as real > 0.66 * maxHp as real
    ensures p == Middle <==> 0.33 * maxHp as real < hp as real <= 0.66 * maxHp as real
    ensures p == Late <==> hp as real <= 0.33 * maxHp as real
  {
    var pct := hp as real / maxHp as real;
    ShareBelow(hp, maxHp, 0.66);
    ShareBelow(hp, maxHp, 0.33);
    if pct > 0.66 then Early else if pct > 0.33 then Middle else Late
  }

  lemma ShareBelow(hp: int, maxHp: int, k: real)
    requires maxHp > 0
    ensures hp as real / maxHp as real > k <==> hp as real > k * maxHp as real
  {
    var m := maxHp as real;
    assert hp as real == (hp as real / m) * m;
    if hp as real / m > k {
      ScaleStrict(k, hp as real / m, m);
    } else {
      ScaleUp(hp as real / m, k, m);
    }
  }

  lemma ScaleStrict(a: real, b: real, k: real)
    requires a < b && k > 0.0
    ensures a * k < b * k
  {
    assert (b - a) * k > 0.0;
  }

  /** The emission patterns (aimedVolley, fan, spiral) with count and bullet speed; Hold fires nothing. */
  datatype Pattern =
    | Aimed(count: int, speed: real)
    | Fan(fromDeg: real, toDeg: real, count: int, speed: real)
    | Spiral(count: int, speed: real)
    | Hold
  {
    function Count(): int
    {
      if Hold? then 0 else count
    }

    function Speed(): real
    {
      if Hold? then 0.0 else speed
    }
  }

  /** Pattern slots: 2 + (level - 1), at most 3. */
  function PatternSlots(level: int): int
  {
    MinI(2 + (level - 1), 3)
  }

  predicate AllowAimed(level: int) { true }
  predicate AllowFan(level: int) { PatternSlots(level) >= 2 }
  predicate AllowSpiral(level: int) { PatternSlots(level) >= 3 }

  /** Bullet counts: level 1 stays at 2 / 5 / 5. */
  function EarlyVolley(level: int): int
  {
    if level == 1 then 2 else MinI(2 + level, 6)
  }

  function MidFan(level: int): int
  {
    if level == 1 then 5 else MinI(5 + (level - 1), 10)
  }

  function LateSpiral(level: int): int
  {
    if level == 1 then 5 else MinI(6 + (level - 1), 12)
  }

  /**
   * Every boss may aim and fan; spiral is unlocked from level 2. For the
   * levels that occur (1 and up) the slots are 2 or 3.
   */
  lemma PatternUnlocks(level: int)
    ensures AllowSpiral(level) <==> level >= 2
    ensures AllowFan(level) <==> level >= 1
    ensures level >= 1 ==> PatternSlots(level) == (if level == 1 then 2 else 3)
  {
  }

  /**
   * For levels from 1 up, the counts grow with the level to their caps: the
   * aimed volley from 2 to 6, the fan from 5 to 10, the spiral from 5 to 12.
   */
  lemma CountsGrowToCaps(level: int, higher: int)
    requires 1 <= level <= higher
    ensures 2 <= EarlyVolley(level) <= EarlyVolley(higher) <= 6
    ensures 5 <= MidFan(level) <= MidFan(higher) <= 10
    ensures 5 <= LateSpiral(level) <= LateSpiral(higher) <= 12
    ensures level >= 4 ==> EarlyVolley(level) == 6
    ensures level >= 6 ==> MidFan(level) == 10
    ensures level >= 7 ==> LateSpiral(level) == 12
  {
  }

  /**
   * The pattern of a phase: the phase's preferred pattern when the level
   * allows it, else the fallback the source lists.
   */
  function Attack(level: int, phase: Phase): Pattern
  {
    match phase
    case Early =>
      if AllowAimed(level) then Aimed(EarlyVolley(level), 140.0)
      else if AllowFan(level) then Fan(-45.0, 45.0, EarlyVolley(level), 160.0)
      else Hold
    case Middle =>
      if AllowFan(level) then Fan(-45.0, 45.0, MidFan(level), 180.0)
      else if AllowAimed(level) then Aimed(MaxI(2, JavaDiv(MidFan(level), 2)), 150.0)
      else Hold
    case Late =>
      if AllowSpiral(level) then Spiral(LateSpiral(level), 160.0)
      else if AllowFan(level) then Fan(-50.0, 50.0, MaxI(5, LateSpiral(level)), 170.0)
      else if AllowAimed(level) then Aimed(MaxI(3, EarlyVolley(level) + 1), 160.0)
      else Hold
  }

  /**
   * For every real level the plan is: aimed volley early, fan in the middle,
   * and late a spiral from level 2 on or a wider fan of at least 5 at level 1.
   */
  lemma AttackByPhase(level: int)
    requires level >= 1
    ensures Attack(level, Early) == Aimed(EarlyVolley(level), 140.0)
    ensures Attack(level, Middle) == Fan(-45.0, 45.0, MidFan(level), 180.0)
    ensures level >= 2 ==> Attack(level, Late) == Spiral(LateSpiral(level), 160.0)
    ensures level == 1 ==> Attack(level, Late) == Fan(-50.0, 50.0, 5, 170.0)
    ensures Attack(level, Early).Count() >= 2 && Attack(level, Late).Count() >= 5
  {
  }

  /** intervalScale = ATTACK_SLOW_FACTOR / max(1, diffBossFire): never above 1.5, always positive. */
  function IntervalScale(diffBossFire: real): (s: real)
    ensures 0.0 < s <= Constants.AttackSlowFactor
    ensures diffBossFire <= 1.0 ==> s == Constants.AttackSlowFactor
  {
    var m := MaxR(1.0, diffBossFire);
    assert Constants.AttackSlowFactor / m <= Constants.AttackSlowFactor by {
      assert Constants.AttackSlowFactor == (Constants.AttackSlowFactor / m) * m;
      ScaleUp(1.0, m, Constants.AttackSlowFactor / m);
    }
    Constants.AttackSlowFactor / m
  }

  /** The cooldown set after firing: 1.4, 1.2 or 1.0 times the interval scale. */
  function CooldownFor(phase: Phase, diffBossFire: real): (c: real)
    ensures 0.0 < c <= 1.4 * Constants.AttackSlowFactor
  {
    var base := match phase case Early => 1.4 case Middle => 1.2 case Late => 1.0;
    ScaleUp(IntervalScale(diffBossFire), Constants.AttackSlowFactor, base);
    base * IntervalScale(diffBossFire)
  }

  /** The boss fires faster as it weakens: each later phase has a shorter cooldown. */
  lemma CooldownShrinksWithPhase(diffBossFire: real)
    ensures CooldownFor(Late, diffBossFire) < CooldownFor(Middle, diffBossFire) < CooldownFor(Early, diffBossFire)
  {
  }

  /** The opening of the first boss at difficulty 0.8 and 90% hit points: an aimed pair, then a 2.1 s cooldown. */
  lemma FirstBossOpening()
    ensures PhaseOf(9, 10) == Early
    ensures Attack(1, PhaseOf(9, 10)) == Aimed(2, 140.0)
    ensures CooldownFor(Early, 0.8) == 2.1
  {
  }

  /**
   * Bullets a pattern of count n adds to a list of the given size: it checks
   * the cap before every bullet, so it stops once the list holds 60.
   */
  function EmitCount(n: int, size: int): (k: int)
    ensures 0 <= k && k <= MaxI(n, 0)
    ensures Bullets.CapReached(size) ==> k == 0
    ensures !Bullets.CapReached(size) ==> size + k <= Constants.BossBulletLimit
    ensures size + n <= Constants.BossBulletLimit ==> k == MaxI(n, 0)
    ensures k < MaxI(n, 0) ==> size + k >= Constants.BossBulletLimit
  {
    if Bullets.CapReached(size) then 0 else MinI(MaxI(n, 0), Constants.BossBulletLimit - size)
  }

  /**
   * The i-th bullet of a pattern fired from (cx, cy): an 8x8 bullet centred
   * on the muzzle moving down at the pattern's speed; its vx comes from the
   * pattern's trigonometry and is given as vx.
   */
  function PatternBullet(p: Pattern, cx: real, cy: real, vx: real): Bullet
  {
    Fresh.Set(cx - 4.0, cy - 4.0, 8.0, 8.0, -p.Speed()).(vx := vx)
  }

  /** The first k bullets of a pattern, vx of bullet i being vxOf(i). */
  function Emitted(p: Pattern, cx: real, cy: real, vxOf: nat -> real, k: nat): (s: seq<Bullet>)
    ensures |s| == k
    ensures forall i :: 0 <= i < k ==> s[i] == PatternBullet(p, cx, cy, vxOf(i))
  {
    if k == 0 then [] else Emitted(p, cx, cy, vxOf, k - 1) + [PatternBullet(p, cx, cy, vxOf(k - 1))]
  }

  /** The horizontal sweep: move by dir * 100 * dt, and turn when outside the lane [20, W - 20 - w]. */
  function Sweep(x: real, dir: real, w: real, dt: real): (r: (real, real))
    ensures r.0 == x + dir * SweepSpeed * dt
    ensures (dir == 1.0 || dir == -1.0) ==> (r.1 == 1.0 || r.1 == -1.0)
    ensures r.1 == (if r.0 < EdgeMargin || r.0 + w > Constants.W - EdgeMargin then -dir else dir)
  {
    var nx := x + dir * SweepSpeed * dt;
    (nx, if nx < EdgeMargin || nx + w > Constants.W - EdgeMargin then dir * -1.0 else dir)
  }

  /**
   * A boss that has wandered past a margin is turned back toward the lane:
   * after the turn it heads right at the left edge and left at the right edge.
   */
  lemma SweepTurnsBack(x: real, dir: real, w: real, dt: real)
    requires dir == 1.0 || dir == -1.0
    requires w >= 0.0 && w <= Constants.W - 2.0 * EdgeMargin
    ensures Sweep(x, dir, w, dt).0 < EdgeMargin && dir == -1.0 ==> Sweep(x, dir, w, dt).1 == 1.0
    ensures Sweep(x, dir, w, dt).0 + w > Constants.W - EdgeMargin && dir == 1.0 ==> Sweep(x, dir, w, dt).1 == -1.0
  {
  }

  /**
   * The effect of update(dt) on boss b and the bullet list: the clock and the
   * hit flash advance, the boss sweeps; at the cap nothing is fired and the
   * fire timer is held at least CapRecheck and run down; below it the fire
   * timer runs down and, once elapsed, the phase's pattern is emitted and
   * the phase's cooldown set. Hit points are untouched.
   */
  twostate predicate Stepped(b: Boss, bullets: BulletList, dt: real, vxOf: nat -> real)
    reads b, bullets
  {
    && b.maxHp >= 1 && b.hp == old(b.hp) && b.t == old(b.t) + dt
    && b.hitTimer == (if old(b.hitTimer) > 0.0 then old(b.hitTimer) - dt else old(b.hitTimer))
    && (b.x, b.dir) == Sweep(old(b.x), old(b.dir), b.w, dt)
    && (Bullets.CapReached(old(|bullets.items|)) ==>
          bullets.items == old(bullets.items) && b.fireTimer == MaxR(old(b.fireTimer), CapRecheck) - dt)
    && (!Bullets.CapReached(old(|bullets.items|)) && old(b.fireTimer) - dt > 0.0 ==>
          bullets.items == old(bullets.items) && b.fireTimer == old(b.fireTimer) - dt)
    && (!Bullets.CapReached(old(|bullets.items|)) && old(b.fireTimer) - dt <= 0.0 ==>
          var p := Attack(b.level, PhaseOf(b.hp, b.maxHp));
          && bullets.items == old(bullets.items) +
               Emitted(p, b.Body().CenterX(), b.y, vxOf, EmitCount(p.Count(), old(|bullets.items|)))
          && b.fireTimer == CooldownFor(PhaseOf(b.hp, b.maxHp), b.diffBossFire))
  }

  /** The effect of damage(d) on boss b: hp drops by exactly d and the hit flash restarts; nothing else moves. */
  twostate predicate Damaged(b: Boss, d: int)
    reads b
  {
    && b.hp == old(b.hp) - d && b.hitTimer == HitFlash
    && b.x == old(b.x) && b.dir == old(b.dir) && b.t == old(b.t) && b.fireTimer == old(b.fireTimer)
  }

  class Boss {
    /** 1 for the first boss. */
    const level: int
    var hp: int
    const maxHp: int
    /** Elapsed time (drives the spiral's rotation), sweep direction, timers. */
    var t: real
    var dir: real
    var fireTimer: real
    var hitTimer: real
    const diffBossFire: real
    var x: real
    const y: real
    const w: real
    const h: real

    ghost predicate Valid()
      reads this
    {
      w == ShipWidth && h > 0.0 && maxHp >= 1 && (dir == 1.0 || dir == -1.0)
    }

    /** The GameObject view. */
    function Body(): Body
      reads this
    {
      GameObjects.Body(x, y, w, h)
    }

    /** Boss.java's constructor: at (W/2 - 60, H - 120) with the level-independent hit points. */
    constructor FromLevel(level: int, diffBossHP: real, diffBossFire: real, h: real)
      requires h > 0.0
      ensures Valid()
      ensures this.level == level && this.diffBossFire == diffBossFire && this.h == h
      ensures hp == maxHp == LevelHp(diffBossHP)
      ensures x == Constants.W / 2.0 - 60.0 && y == Constants.H - 120.0
      ensures t == 0.0 && dir == 1.0 && fireTimer == 0.0 && hitTimer == 0.0
    {
      this.level := level;
      this.diffBossFire := diffBossFire;
      w := ShipWidth;
      this.h := h;
      x := Constants.W / 2.0 - 60.0;
      y := Constants.H - 120.0;
      hp := LevelHp(diffBossHP);
      maxHp := LevelHp(diffBossHP);
      t, dir, fireTimer, hitTimer := 0.0, 1.0, 0.0, 0.0;
    }

    /** GameScreen's inner Boss: the same, with hit points scaled by the wave number. */
    constructor FromWave(level: int, wave: int, diffBossHP: real, diffBossFire: real, h: real)
      requires h > 0.0
      ensures Valid()
      ensures this.level == level && this.diffBossFire == diffBossFire && this.h == h
      ensures hp == maxHp == WaveHp(wave, diffBossHP)
      ensures x == Constants.W / 2.0 - 60.0 && y == Constants.H - 120.0
      ensures t == 0.0 && dir == 1.0 && fireTimer == 0.0 && hitTimer == 0.0
    {
      this.level := level;
      this.diffBossFire := diffBossFire;
      w := ShipWidth;
      this.h := h;
      x := Constants.W / 2.0 - 60.0;
      y := Constants.H - 120.0;
      hp := WaveHp(wave, diffBossHP);
      maxHp := WaveHp(wave, diffBossHP);
      t, dir, fireTimer, hitTimer := 0.0, 1.0, 0.0, 0.0;
    }

    /**
     * aimedVolley / fan / spiral: up to p.Count() bullets from the boss's
     * centre-top, each added only while the list is below the cap.
     */
    method Emit(p: Pattern, bullets: BulletList, vxOf: nat -> real)
      modifies bullets
      ensures bullets.items == old(bullets.items) +
        Emitted(p, Body().CenterX(), y, vxOf, EmitCount(p.Count(), old(|bullets.items|)))
    {
      var cx, cy := x + w / 2.0, y;
      ghost var size0 := |bullets.items|;
      var n := p.Count();
      var i := 0;
      while i < n
        invariant 0 <= i <= EmitCount(n, size0)
        invariant bullets.items == old(bullets.items) + Emitted(p, cx, cy, vxOf, i)
      {
        if Bullets.CapReached(|bullets.items|) {
          break;
        }
        bullets.Add(PatternBullet(p, cx, cy, vxOf(i)));
        i := i + 1;
      }
    }

    /**
     * update(dt): advance the clock and the hit flash, sweep, then either back
     * off at the cap (fire timer held at least 0.15 and run down) or run the
     * fire timer down and, once it has elapsed, fire the phase's pattern and
     * restart the cooldown.
     */
    method Update(dt: real, bullets: BulletList, vxOf: nat -> real)
      requires Valid()
      modifies this, bullets
      ensures Valid()
      ensures Stepped(this, bullets, dt, vxOf)
      ensures !Bullets.CapReached(old(|bullets.items|)) ==> |bullets.items| <= Constants.BossBulletLimit
      ensures |bullets.items| >= old(|bullets.items|)
    {
      t := t + dt;
      if hitTimer > 0.0 {
        hitTimer := hitTimer - dt;
      }

      var sweep := Sweep(x, dir, w, dt);
      x, dir := sweep.0, sweep.1;

      if Bullets.CapReached(|bullets.items|) {
        fireTimer := MaxR(fireTimer, CapRecheck);
        fireTimer := fireTimer - dt;
        return;
      }

      var phase := PhaseOf(hp, maxHp);
      fireTimer := fireTimer - dt;
      if fireTimer <= 0.0 {
        Emit(Attack(level, phase), bullets, vxOf);
        fireTimer := CooldownFor(phase, diffBossFire);
      }
    }

    /** damage(d): hp drops by exactly d and the hit flash restarts; maxHp is a constant. */
    method Damage(d: int)
      requires Valid()
      modifies this`hp, this`hitTimer
      ensures Valid()
      ensures Damaged(this, d)
    {
      hp := hp - d;
      hitTimer := HitFlash;
    }
  }
}
