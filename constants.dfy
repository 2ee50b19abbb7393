/** The gameplay constants of config/Constants.java. */
module Constants {
  /** Virtual world size. */
  const W: real := 800.0
  const H: real := 480.0

  /** Enemy-bullet count at which a boss stops firing. */
  const BossBulletLimit: int := 60
  /** Bullets collide with a centred sub-rectangle of this scale. */
  const BulletHitboxScale: real := 0.6
  /** Random aim jitter of the boss, in degrees (only feeds the trigonometry). */
  const BossMissDeg: real := 10.0
  /** All boss cooldowns are stretched by this factor. */
  const AttackSlowFactor: real := 1.5

  const BossHitScore: int := 10
  const BossHitPowerupChance: real := 0.2
}
