/**
 * world/Spawner.java: creates a wave's enemies above the top edge of the
 * screen, each with a random variant and a random entry point.
 */
module Spawning {
  import opened Numerics
  import opened Enemies
  import Constants

  /**
   * The random draws for one enemy: MathUtils.random(0, 2) for the variant,
   * random(40, W - 80) for the centre x, random(30, 200) for the height above
   * the top edge, random(0.3, 2) for the initial shoot timer; h is the
   * scaled sprite height.
   */
  datatype SpawnRoll = SpawnRoll(kind: int, cx: real, yOffset: int, shootTimer: real, h: real)
  {
    /** What MathUtils guarantees of the draws (integer ranges inclusive, real ranges half-open). */
    predicate InRange()
    {
      0 <= kind <= 2 && 40.0 <= cx < Constants.W - 80.0 && 30 <= yOffset <= 200 &&
      0.3 <= shootTimer < 2.0 && h > 0.0
    }
  }

  /** new Enemy(world, sprite, type, x, H + yOffset, wave, diffEnemySpeed, diffEnemyFire). */
  function FromRoll(r: SpawnRoll, wave: int, diffEnemySpeed: real, diffEnemyFire: real): Enemy
  {
    Spawn(r.kind, r.cx, Constants.H + r.yOffset as real, wave, diffEnemySpeed, diffEnemyFire, r.h, r.shootTimer)
  }

  /**
   * spawnEnemies: count enemies (none for a count of zero or less), the i-th
   * from the i-th roll. With rolls in range and a wave from 0 up, every enemy
   * is a valid roster member that starts fully inside the playfield's width
   * and 30 to 200 units above the top edge.
   */
  method SpawnEnemies(count: int, wave: int, diffEnemySpeed: real, diffEnemyFire: real, roll: nat -> SpawnRoll)
    returns (roster: seq<Enemy>)
    ensures |roster| == MaxI(count, 0)
    ensures forall i :: 0 <= i < |roster| ==> roster[i] == FromRoll(roll(i), wave, diffEnemySpeed, diffEnemyFire)
    ensures forall i :: 0 <= i < |roster| ==> roster[i].kind == roll(i).kind && roster[i].hp == HpFor(roll(i).kind, wave)
    ensures (forall i :: 0 <= i < |roster| ==> roll(i).InRange()) && wave >= 0 ==>
      forall i :: 0 <= i < |roster| ==>
        && roster[i].Valid()
        && Constants.H + 30.0 <= roster[i].y <= Constants.H + 200.0
        && 40.0 <= roster[i].x + roster[i].w / 2.0 < Constants.W - 80.0
  {
    roster := [];
    var i := 0;
    while i < count
      invariant 0 <= i <= MaxI(count, 0)
      invariant |roster| == i
      invariant forall j :: 0 <= j < i ==> roster[j] == FromRoll(roll(j), wave, diffEnemySpeed, diffEnemyFire)
    {
      roster := roster + [FromRoll(roll(i), wave, diffEnemySpeed, diffEnemyFire)];
      i := i + 1;
    }
  }
}
