/**
 * The pure rules of world/GameWorld.java (and of their copies in
 * screens/GameScreen.java): the difficulty curve, the wave size, the
 * pickup-drop bands, the slow-motion time scale and the search for the
 * enemy a player bullet hits.
 */
module WorldRules {
  import opened Numerics
  import opened Wrappers
  import opened GameObjects
  import opened PowerUpTypes
  import opened Enemies

  /** The five difficulty scalars. */
  datatype Difficulty = Difficulty(enemySpeed: real, enemyFire: real, spawn: real, bossHp: real, bossFire: real)

  /** The field initialisers: the game starts easy. */
  const Initial: Difficulty := Difficulty(0.8, 0.75, 0.75, 0.7, 0.8)

  /** The ranges recalcDifficulty clamps the scalars to. */
  predicate InRanges(d: Difficulty)
  {
    0.8 <= d.enemySpeed <= 3.0 && 0.6 <= d.enemyFire <= 3.0 && 0.6 <= d.spawn <= 2.5 &&
    0.7 <= d.bossHp <= 3.0 && 0.7 <= d.bossFire <= 3.0
  }

  /** tier = 1 + 0.35 per boss defeated. */
  function Tier(bossesDefeated: int): real
  {
    1.0 + bossesDefeated as real * 0.35
  }

  /** recalcDifficulty(): each base value times the tier, clamped to its range (for any count, even a negative one). */
  function DifficultyFor(bossesDefeated: int): (d: Difficulty)
    ensures InRanges(d)
  {
    var tier := Tier(bossesDefeated);
    Difficulty(Clamp(0.80 * tier, 0.80, 3.0), Clamp(0.75 * tier, 0.60, 3.0), Clamp(0.75 * tier, 0.60, 2.5),
               Clamp(0.70 * tier, 0.70, 3.0), Clamp(0.80 * tier, 0.70, 3.0))
  }

  /** Before any boss is defeated the curve gives exactly the initial values, so recomputing then changes nothing. */
  lemma DifficultyAtStart()
    ensures DifficultyFor(0) == Initial
  {
  }

  /** Every scalar is non-decreasing in the number of bosses defeated. */
  lemma DifficultyNonDecreasing(a: int, b: int)
    requires a <= b
    ensures DifficultyFor(a).enemySpeed <= DifficultyFor(b).enemySpeed
    ensures DifficultyFor(a).enemyFire <= DifficultyFor(b).enemyFire
    ensures DifficultyFor(a).spawn <= DifficultyFor(b).spawn
    ensures DifficultyFor(a).bossHp <= DifficultyFor(b).bossHp
    ensures DifficultyFor(a).bossFire <= DifficultyFor(b).bossFire
  {
    var ta, tb := Tier(a), Tier(b);
    assert ta <= tb;
    ScaleTier(0.80, ta, tb);
    ScaleTier(0.75, ta, tb);
    ScaleTier(0.70, ta, tb);
    ClampMonotone(0.80 * ta, 0.80 * tb, 0.80, 3.0);
    ClampMonotone(0.75 * ta, 0.75 * tb, 0.60, 3.0);
    ClampMonotone(0.75 * ta, 0.75 * tb, 0.60, 2.5);
    ClampMonotone(0.70 * ta, 0.70 * tb, 0.70, 3.0);
    ClampMonotone(0.80 * ta, 0.80 * tb, 0.70, 3.0);
  }

  lemma ScaleTier(k: real, ta: real, tb: real)
    requires k >= 0.0 && ta <= tb
    ensures k * ta <= k * tb
  {
    assert k * (tb - ta) >= 0.0;
  }

  /** Every fifth wave is a boss wave (a zero remainder means the same under Java's and Dafny's %). */
  predicate IsBossWave(wave: int)
  {
    wave % 5 == 0
  }

  /** base = 4 + round(min(wave, 6) * 0.6). */
  function BaseCount(wave: int): int
  {
    4 + Round(MinI(wave, 6) as real * 0.6)
  }

  /** count = max(4, round(base * diffSpawn)): never fewer than four enemies. */
  function WaveEnemyCount(wave: int, diffSpawn: real): (n: int)
    ensures n >= 4
    ensures Round(BaseCount(wave) as real * diffSpawn) >= 4 ==> n == Round(BaseCount(wave) as real * diffSpawn)
  {
    MaxI(4, Round(BaseCount(wave) as real * diffSpawn))
  }

  /** The first wave is an ordinary wave of four enemies at the initial spawn scalar. */
  lemma FirstWaveHasFour()
    ensures !IsBossWave(1)
    ensures BaseCount(1) == 5
    ensures WaveEnemyCount(1, Initial.spawn) == 4
  {
    assert Round(0.6) == 1;
    assert Round(3.75) == 4;
  }

  /**
   * The base grows with the wave up to wave 6 and then stays at 8, and the
   * wave size never shrinks from one wave to a later one at the same or a
   * higher spawn scalar.
   */
  lemma WaveSizeGrows(w1: int, w2: int, s1: real, s2: real)
    requires 0 <= w1 <= w2 && 0.0 <= s1 <= s2
    ensures BaseCount(w1) <= BaseCount(w2)
    ensures w1 >= 6 ==> BaseCount(w1) == 8
    ensures WaveEnemyCount(w1, s1) <= WaveEnemyCount(w2, s2)
  {
    RoundMonotone(MinI(w1, 6) as real * 0.6, MinI(w2, 6) as real * 0.6);
    if w1 >= 6 {
      assert Round(6 as real * 0.6) == 4;
    }
    ProductMonotone(BaseCount(w1) as real, BaseCount(w2) as real, s1, s2);
    RoundMonotone(BaseCount(w1) as real * s1, BaseCount(w2) as real * s2);
  }

  lemma ProductMonotone(a1: real, a2: real, b1: real, b2: real)
    requires 0.0 <= a1 <= a2 && 0.0 <= b1 <= b2
    ensures a1 * b1 <= a2 * b2
  {
    ScaleTier(a1, b1, b2);
    ScaleTier(b2, a1, a2);
  }

  /** maybeDrop's cascade of thresholds on r = MathUtils.random(). */
  function DropFor(r: real): (t: Option<PowerUpType>)
    ensures t.Some? <==> r < 0.28
  {
    if r < 0.10 then Some(Rapid)
    else if r < 0.18 then Some(Spread)
    else if r < 0.24 then Some(Shield)
    else if r < 0.28 then Some(Life)
    else None
  }

  /** The band of each pickup as a table: [lo, hi) of width 0.10, 0.08, 0.06, 0.04. */
  function Band(t: PowerUpType): (real, real)
  {
    match t
    case Rapid => (0.0, 0.10)
    case Spread => (0.10, 0.18)
    case Shield => (0.18, 0.24)
    case Life => (0.24, 0.28)
  }

  /**
   * For a draw in [0, 1) the cascade picks the pickup whose band holds the
   * draw, and nothing for a draw from 0.28 up: the bands are disjoint, so at
   * most one pickup drops.
   */
  lemma DropMatchesBands(r: real, t: PowerUpType)
    requires 0.0 <= r < 1.0
    ensures DropFor(r) == Some(t) <==> Band(t).0 <= r < Band(t).1
    ensures DropFor(r).None? <==> 0.28 <= r
    ensures Band(t).0 < Band(t).1
  {
  }

  /** getTimeScale(): 0.25 during slow motion, else 1. */
  function TimeScaleFor(slowmo: real): (s: real)
    ensures s == 0.25 || s == 1.0
    ensures s < 1.0 <==> slowmo > 0.0
  {
    if slowmo > 0.0 then 0.25 else 1.0
  }

  /** The enemy a player bullet's hitbox hits: the overlapping enemy of highest index, found scanning from the end. */
  predicate IsLastOverlap(hb: Rect, enemies: seq<Enemy>, j: int)
  {
    0 <= j < |enemies| && Overlaps(hb, enemies[j].Body().Rect()) &&
    forall k :: j < k < |enemies| ==> !Overlaps(hb, enemies[k].Body().Rect())
  }

  /**
   * The inner loop of the player-bullet pass: scan the enemies from the end
   * and stop at the first overlap. None means no enemy overlaps.
   */
  method FindTarget(hb: Rect, enemies: seq<Enemy>) returns (target: Option<nat>)
    ensures target.Some? ==> IsLastOverlap(hb, enemies, target.value)
    ensures target.None? <==> forall k :: 0 <= k < |enemies| ==> !Overlaps(hb, enemies[k].Body().Rect())
  {
    var j := |enemies|;
    while j > 0
      invariant 0 <= j <= |enemies|
      invariant forall k :: j <= k < |enemies| ==> !Overlaps(hb, enemies[k].Body().Rect())
    {
      j := j - 1;
      if Overlaps(hb, enemies[j].Body().Rect()) {
        return Some(j);
      }
    }
    return None;
  }
}
