# Galaxy Invaders: a verified model of the game core

This project models the simulation core of Galaxy Invaders, a single-player
arcade shooter built on libGDX, and proves what its rules promise.

- A player ship moves along the bottom edge and fires upward.
- Waves of enemies of three movement variants (sine-weaver, shooter, chaser) descend and fire back.
- Every fifth wave brings a boss. It sweeps sideways and fires aimed volleys, fans and spirals, chosen by its remaining hit points and its level.
- Killed enemies and boss hits can drop pickups: rapid fire, spread shot, shield, extra life.
- Five difficulty scalars ramp with the number of bosses defeated.

The game carries this logic twice:
- `world/GameWorld.java`, with the entity classes under `entities/`.
- A monolithic copy inside `screens/GameScreen.java`, which is the screen the menu launches.

Both copies are modelled. `World.GameWorld` runs either copy, chosen by a `variant` constant. `Screens.GameScreen` adds what only the screen has: the pause and menu key handling, and the frame-time rule.

Modules, one per source unit:

| module | file | models |
|---|---|---|
| `Numerics` | numerics.dfy | `Math.round`, `MathUtils.clamp`, `Math.signum`, Java integer division |
| `Constants` | constants.dfy | `config/Constants.java` |
| `GameObjects` | game_object.dfy | `GameObject` queries, `Rectangle`, overlap |
| `Bullets` | bullet.dfy | `Bullet`, and the `Array<Bullet>` lists as class `BulletList` |
| `PowerUpTypes`, `PowerUps` | powerup_type.dfy, powerup.dfy | `PowerUp` |
| `Players` | player.dfy | `Player` (a class: its fields change in place) |
| `Enemies` | enemy.dfy | `Enemy` (a value written back into the world's list) |
| `Bosses` | boss.dfy | `Boss` (a class), both hit-point rules |
| `Spawning` | spawner.dfy | `Spawner.spawnEnemies` |
| `WorldRules` | world_rules.dfy | the pure rules of `GameWorld`: difficulty, wave size, drop bands, time scale, target search |
| `World` | world.dfy | `GameWorld` (a class), its tick and its events |
| `Screens` | screen.dfy | `GameScreen`'s frame: effective dt, pause/menu/retry, shake and flash decay |
| `Wrappers` | wrappers.dfy | `Option` |

Modelling choices:
- Floats are `real` and `Math.round` is `Floor(x + 0.5)`.
- Every `MathUtils.random*` draw and every transcendental value (the sine drift, the boss bullets' `vx`) is a parameter. In one tick these arrive as `World.TickRandom`, indexed by enemy or bullet index. The spawn draws satisfy `World.SpawnRollsInRange`: type in {0,1,2}, x in [40, 720), y offset in [30, 200], shoot timer in [0.3, 2).
- The bullet pool is two counters on the world: free objects and objects ever allocated. `World.GameWorld.Valid` keeps `|playerBullets| + |enemyBullets| + free == allocated`, so no bullet object is lost.
- `maybeSetHighScore` is recorded as an event: the score is appended to `highScoreRequests`.
- `Rectangle.overlaps` is assumed to be strict overlap of the two intervals on both axes. Its libGDX source is not part of this model.

## Model

| member | source | states |
|---|---|---|
| Numerics.Round | core/src/main/java/com/rgs/galaxyinvaders/world/GameWorld.java:214-215 | `Math.round` returns the integer within half a unit of its argument |
| Numerics.Clamp | core/src/main/java/com/rgs/galaxyinvaders/world/GameWorld.java:201-205 | `MathUtils.clamp` lands in `[lo, hi]`, keeps in-range values and maps values below the range to `lo` and values above it to `hi` |
| Numerics.Signum | core/src/main/java/com/rgs/galaxyinvaders/entities/Enemy.java:44 | `Math.signum` is one of -1, 0, 1, with the sign of its argument |
| GameObjects.CenterWithinRect | core/src/main/java/com/rgs/galaxyinvaders/entities/GameObject.java:13-17 | `rect()` is exactly (x, y, w, h); for non-negative size, `centerX`/`centerY` lie in it, equally far from both edges |
| Bullets.Bullet.Set | core/src/main/java/com/rgs/galaxyinvaders/entities/Bullet.java:9-11 | `set` overwrites x, y, w, h, vy and resets vx to 0 |
| Bullets.SetForgetsPreviousLife | core/src/main/java/com/rgs/galaxyinvaders/entities/Bullet.java:9-11 | a recycled bullet after `set` equals a fresh one after the same `set`, whatever its previous state |
| Bullets.Bullet.HitRect | core/src/main/java/com/rgs/galaxyinvaders/entities/Bullet.java:12-18 | the hitbox is 0.6 w by 0.6 h, centred on (cx, cy), and lies inside the sprite rectangle when the size is non-negative |
| Bullets.HitboxSmaller | core/src/main/java/com/rgs/galaxyinvaders/entities/Bullet.java:12-18 | for positive size the hitbox is strictly smaller and strictly inside the sprite's corner |
| Bullets.Bullet.Radius | core/src/main/java/com/rgs/galaxyinvaders/entities/Bullet.java:22 | the radius is half the width |
| Bullets.Bullet.Moved | core/src/main/java/com/rgs/galaxyinvaders/world/GameWorld.java:97 | one tick of integration moves the bullet by (vx·dt, vy·dt) and changes nothing else |
| Bullets.BulletList.constructor | core/src/main/java/com/rgs/galaxyinvaders/world/GameWorld.java:23-24 | a new list is empty |
| Bullets.BulletList.Add | core/src/main/java/com/rgs/galaxyinvaders/world/GameWorld.java:253 | `add` appends at the end |
| Bullets.BulletList.RemoveIndex | core/src/main/java/com/rgs/galaxyinvaders/world/GameWorld.java:263-264 | ordered `removeIndex` returns element i, and the later elements shift down by one |
| Bullets.BulletList.Replace | core/src/main/java/com/rgs/galaxyinvaders/world/GameWorld.java:97 | the in-place update of bullet i changes that element only |
| PowerUps.PowerUp.Updated | core/src/main/java/com/rgs/galaxyinvaders/entities/PowerUp.java:18 | `update` lowers y by 65·dt and keeps x, type, size and vy |
| PowerUps.PowerUp.Rect | core/src/main/java/com/rgs/galaxyinvaders/entities/PowerUp.java:32 | `rect` is the square of side 2·size centred on (x, y) |
| PowerUps.Make | core/src/main/java/com/rgs/galaxyinvaders/entities/PowerUp.java:9-11 | the private constructor sets the type and (x, y), with size 14 and vy -65 |
| PowerUps.FactoriesTagTheirType | core/src/main/java/com/rgs/galaxyinvaders/entities/PowerUp.java:13-16 | each factory tags its own type, and the four differ only in that tag |
| PowerUps.Apply | core/src/main/java/com/rgs/galaxyinvaders/entities/PowerUp.java:19 | `apply` has exactly the effect of `applyPower` with the pickup's type and leaves position, cooldown, blink and external input alone |
| Players.MoveAxis | core/src/main/java/com/rgs/galaxyinvaders/entities/Player.java:37-40 | the axis is in [-1, 1]; with no key it is the external axis; a key pressed alone with no external axis the other way gives full speed that way |
| Players.Decay | core/src/main/java/com/rgs/galaxyinvaders/entities/Player.java:53-56 | a timer runs down by dt only while positive, and never grows for dt ≥ 0 |
| Players.Trigger | core/src/main/java/com/rgs/galaxyinvaders/entities/Player.java:45-51 | a shot fires iff fire is wanted and the decremented cooldown is ≤ 0; then the cooldown is 0.07 with rapid fire and the base value otherwise |
| Players.NoShotWithinCooldown | core/src/main/java/com/rgs/galaxyinvaders/entities/Player.java:45-51 | after a shot, a following frame shorter than the cooldown just set cannot fire |
| Players.VolleyBullets | core/src/main/java/com/rgs/galaxyinvaders/entities/Player.java:62-70 | a volley is 1 bullet, or 3 while spread is active: all 7x7 at the muzzle moving up at 420, the lead with vx 0 and the sides with vx -120 and +120 |
| Players.Applied | core/src/main/java/com/rgs/galaxyinvaders/entities/Player.java:77-84 | rapid/spread/shield become max(current, 8/8/10) and LIFE makes lives min(lives+1, 5); nothing else changes |
| Players.AppliedIdempotent | core/src/main/java/com/rgs/galaxyinvaders/entities/Player.java:77-84 | grants do not stack: the same timed pickup twice equals once, and a life pickup at 5 lives does nothing |
| Players.RapidRefreshesToGrant | core/src/main/java/com/rgs/galaxyinvaders/entities/Player.java:79 | a rapid timer at 3 becomes 8, not 11 |
| Players.Player.constructor | core/src/main/java/com/rgs/galaxyinvaders/entities/Player.java:23-33 | the ship is 36 wide and centred at the bottom (y 40), with 3 lives, all timers 0 and no external input |
| Players.Player.Update | core/src/main/java/com/rgs/galaxyinvaders/entities/Player.java:35-60 | `Players.Stepped` holds: x becomes the clamped move into [6, 800-w-6]; the volley fires exactly when Trigger says, with the moved muzzle and the pre-decay spread flag; the four timers decay; lives and external input are unchanged |
| Players.Player.ApplyPower | core/src/main/java/com/rgs/galaxyinvaders/entities/Player.java:77-84 | the power-up fields become Applied of the old ones, and position, cooldown, blink and external input are unchanged |
| Players.Player.ConsumeShieldIfAny | core/src/main/java/com/rgs/galaxyinvaders/entities/Player.java:86 | returns true iff the shield was active, and then zeroes it; otherwise nothing changes |
| Players.Player.LoseLife | core/src/main/java/com/rgs/galaxyinvaders/entities/Player.java:87 | lives drop by exactly one |
| Players.Player.Blink | core/src/main/java/com/rgs/galaxyinvaders/entities/Player.java:88 | the blink timer is set to t |
| Players.Player.SetExternalMoveAxis | core/src/main/java/com/rgs/galaxyinvaders/entities/Player.java:91 | stores the argument clamped to [-1, 1] |
| Players.Player.SetExternalFire | core/src/main/java/com/rgs/galaxyinvaders/entities/Player.java:92 | stores the fire flag |
| Enemies.HpFor | core/src/main/java/com/rgs/galaxyinvaders/entities/Enemy.java:31 | hp is 2 iff the type is 1 and the wave is past 6, else 1 |
| Enemies.ReloadFor | core/src/main/java/com/rgs/galaxyinvaders/entities/Enemy.java:33-36 | the reload is positive for every wave and difficulty |
| Enemies.Spawn | core/src/main/java/com/rgs/galaxyinvaders/entities/Enemy.java:20-37 | the enemy is 28 wide and centred on cx at y; hp, speed, fire chance, score value and reload follow the wave formulas with no other adjustment; its clocks start at 0 |
| Enemies.StatsRampWithWave | core/src/main/java/com/rgs/galaxyinvaders/entities/Enemy.java:32-36 | for a fixed variant and difficulty, a later wave never lowers speed, fire chance or score value, and never raises the reload |
| Enemies.ReloadShrinksWithWave | core/src/main/java/com/rgs/galaxyinvaders/entities/Enemy.java:33-36 | for a fixed variant and difficulty the reload, including the chaser's 0.85 factor, never grows with the wave |
| Enemies.Enemy.Updated | core/src/main/java/com/rgs/galaxyinvaders/entities/Enemy.java:39-48 | the clock and shoot timer advance by dt; the hit flash decays while positive; y drops by the variant's descent; x ends in [0, 800-w]; the stats are unchanged |
| Enemies.DescentBounded | core/src/main/java/com/rgs/galaxyinvaders/entities/Enemy.java:42-45 | `Enemies.Descent`, the vertical drop per tick, is between 0.8 and 1.1 times speed·dt for every variant |
| Enemies.ChaserHeadsForPlayer | core/src/main/java/com/rgs/galaxyinvaders/entities/Enemy.java:44-45 | the chaser's x moves toward the player's centre, never away from it |
| Enemies.ReadyAgainAfterReload | core/src/main/java/com/rgs/galaxyinvaders/entities/Enemy.java:60-61 | `ReadyToShoot` and `ResetShootTimer`: after `resetShootTimer`, the enemy is ready to shoot after an update of dt exactly when dt ≥ reload |
| Enemies.DiesAfterHpHits | core/src/main/java/com/rgs/galaxyinvaders/entities/Enemy.java:63-64 | `Damaged` and `IsDead`: k unit hits lower hp by k, and `isDead` holds exactly from the hp-th hit on |
| Spawning.SpawnEnemies | core/src/main/java/com/rgs/galaxyinvaders/world/Spawner.java:11-20 | exactly max(count, 0) enemies, the i-th built from the i-th draw with the same wave and scalars; with draws in range each is valid, starts above the playfield in [H+30, H+200], and has its centre in [40, 720) |
| Bosses.LevelHp | core/src/main/java/com/rgs/galaxyinvaders/entities/Boss.java:38-41 | Boss.java's hit points are at least 1, whatever the level or wave, and within half a point of 75 × diffBossHP once that is at least 0.5 |
| Bosses.WaveHp | core/src/main/java/com/rgs/galaxyinvaders/screens/GameScreen.java:564-567 | GameScreen's hit points are at least 1, and within half a point of (120+30·wave)/2 × diffBossHP once that is at least 0.5 |
| Bosses.HpRulesDiverge | core/src/main/java/com/rgs/galaxyinvaders/screens/GameScreen.java:565-566 | the rules agree at wave 1; at every wave the screen's boss is at least as tough, and strictly tougher from wave 2 at any difficulty from the clamp floor 0.7 up; at wave 5 and difficulty 0.7 it has 95 points against 53 |
| Bosses.Boss.FromLevel | core/src/main/java/com/rgs/galaxyinvaders/entities/Boss.java:21-42 | a new boss has hp == maxHp == LevelHp, starts at (W/2-60, H-120) heading right, and its timers are 0 |
| Bosses.Boss.FromWave | core/src/main/java/com/rgs/galaxyinvaders/screens/GameScreen.java:555-568 | the same with hp == maxHp == WaveHp of the current wave |
| Bosses.Sweep | core/src/main/java/com/rgs/galaxyinvaders/entities/Boss.java:50-51 | x moves by dir·100·dt; dir stays ±1 and flips exactly when the new x is left of 20 or the right side is past W-20 |
| Bosses.SweepTurnsBack | core/src/main/java/com/rgs/galaxyinvaders/entities/Boss.java:50-51 | past the left margin while heading left the boss turns right, and past the right margin while heading right it turns left |
| Bosses.PatternUnlocks | core/src/main/java/com/rgs/galaxyinvaders/entities/Boss.java:61-64 | `PatternSlots`, `AllowFan` and `AllowSpiral`: spiral is allowed iff level ≥ 2; fan iff level ≥ 1; slots are 2 at level 1 and 3 after it |
| Bosses.CountsGrowToCaps | core/src/main/java/com/rgs/galaxyinvaders/entities/Boss.java:67-69 | `EarlyVolley`, `MidFan` and `LateSpiral`: the counts start at 2/5/5 at level 1, never drop with the level, top out at 6/10/12, and reach those caps at levels 4, 6 and 7 |
| Bosses.PhaseOf | core/src/main/java/com/rgs/galaxyinvaders/entities/Boss.java:74-85 | early iff hp > 0.66·maxHp, middle iff 0.33·maxHp < hp ≤ 0.66·maxHp, late iff hp ≤ 0.33·maxHp |
| Bosses.AttackByPhase | core/src/main/java/com/rgs/galaxyinvaders/entities/Boss.java:76-90 | `Bosses.Attack` at every real level: an aimed volley early, a fan in the middle, and late a spiral from level 2 or a fan of 5 at level 1 |
| Bosses.IntervalScale | core/src/main/java/com/rgs/galaxyinvaders/entities/Boss.java:72 | the interval scale is positive and at most 1.5, and exactly 1.5 when diffBossFire ≤ 1 |
| Bosses.CooldownFor | core/src/main/java/com/rgs/galaxyinvaders/entities/Boss.java:80-89 | the cooldown set after firing is positive and at most 1.4 × 1.5 |
| Bosses.CooldownShrinksWithPhase | core/src/main/java/com/rgs/galaxyinvaders/entities/Boss.java:80-89 | the boss fires faster as it weakens: the late cooldown is shorter than the middle one, which is shorter than the early one, at every difficulty |
| Bosses.FirstBossOpening | core/src/main/java/com/rgs/galaxyinvaders/entities/Boss.java:72-80 | the first boss at 90% hp and bossFire 0.8 fires an aimed pair and then waits 2.1 s |
| Bosses.EmitCount | core/src/main/java/com/rgs/galaxyinvaders/entities/Boss.java:96-97 | with the cap test `Bullets.CapReached` (count ≥ 60, `GameWorld.java:261`), a pattern of n adds at most n bullets, none at the cap, all n when they fit, and never takes a list below the cap past 60 |
| Bosses.Emitted | core/src/main/java/com/rgs/galaxyinvaders/entities/Boss.java:96-103 | the first k pattern bullets, in order, each an 8x8 bullet centred on the muzzle moving down at the pattern's speed |
| Bosses.Boss.Emit | core/src/main/java/com/rgs/galaxyinvaders/entities/Boss.java:94-128 | the list gains exactly the first EmitCount bullets of the pattern, because the cap is checked before every add |
| Bosses.Boss.Update | core/src/main/java/com/rgs/galaxyinvaders/entities/Boss.java:45-92 | `Bosses.Stepped` holds: hp is kept, the clock and flash advance and the sweep applies. At the cap: no bullets, and the fire timer becomes max(timer, 0.15) - dt. Below it, when the timer elapses: the phase's pattern fires and the phase's cooldown is set. The list never shrinks, and from below the cap it ends at ≤ 60 |
| Bosses.Boss.Damage | core/src/main/java/com/rgs/galaxyinvaders/entities/Boss.java:161 | `Bosses.Damaged` holds: hp drops by exactly d (maxHp is a constant), the hit flash restarts, and position, direction, clock and fire timer are kept |
| WorldRules.DifficultyFor | core/src/main/java/com/rgs/galaxyinvaders/world/GameWorld.java:199-206 | for any count, the five scalars lie in [0.8,3], [0.6,3], [0.6,2.5], [0.7,3] and [0.7,3] |
| WorldRules.DifficultyAtStart | core/src/main/java/com/rgs/galaxyinvaders/world/GameWorld.java:36 | at zero bosses the curve gives exactly the field initialisers |
| WorldRules.DifficultyNonDecreasing | core/src/main/java/com/rgs/galaxyinvaders/world/GameWorld.java:199-206 | each scalar is non-decreasing in the number of bosses defeated |
| WorldRules.WaveEnemyCount | core/src/main/java/com/rgs/galaxyinvaders/world/GameWorld.java:214-215 | a wave requests at least 4 enemies, and exactly round(base × diffSpawn) when that is at least 4 |
| WorldRules.FirstWaveHasFour | core/src/main/java/com/rgs/galaxyinvaders/world/GameWorld.java:208-215 | `WorldRules.IsBossWave` and `WorldRules.BaseCount`: wave 1 is not a boss wave; its base is 5 and at the initial difficulty it has 4 enemies |
| WorldRules.WaveSizeGrows | core/src/main/java/com/rgs/galaxyinvaders/world/GameWorld.java:214-215 | `WorldRules.BaseCount` grows with the wave up to 8 from wave 6, and the enemy count never drops for a later wave or a higher spawn scalar |
| WorldRules.DropFor | core/src/main/java/com/rgs/galaxyinvaders/world/GameWorld.java:234-240 | a draw drops something iff it is below 0.28 |
| WorldRules.DropMatchesBands | core/src/main/java/com/rgs/galaxyinvaders/world/GameWorld.java:234-240 | a draw in [0,1) drops type t iff it lies in t's band: [0,0.10) rapid, [0.10,0.18) spread, [0.18,0.24) shield, [0.24,0.28) life |
| WorldRules.TimeScaleFor | core/src/main/java/com/rgs/galaxyinvaders/world/GameWorld.java:269 | the time scale is 0.25 or 1, and below 1 exactly while slow motion is active |
| WorldRules.FindTarget | core/src/main/java/com/rgs/galaxyinvaders/world/GameWorld.java:101-116 | the backward scan finds the highest-index overlapping enemy (the first one the scan meets); it reports none iff no enemy overlaps |
| World.BossHp | core/src/main/java/com/rgs/galaxyinvaders/world/GameWorld.java:211 | a new boss has at least 1 hit point under either copy's rule |
| World.DropOf | core/src/main/java/com/rgs/galaxyinvaders/world/GameWorld.java:234-240 | maybeDrop adds at most one pickup: one iff the draw is below 0.28, of the band's type, at (x, y) |
| World.GameWorld.constructor | core/src/main/java/com/rgs/galaxyinvaders/world/GameWorld.java:48-52 | the new world is valid: wave 1 with 4 enemies, no boss, score 0, 3 lives, the initial difficulty, empty lists and an empty pool |
| World.GameWorld.RecalcDifficulty | core/src/main/java/com/rgs/galaxyinvaders/world/GameWorld.java:199-206 | the scalars become DifficultyFor(bossesDefeated) |
| World.GameWorld.NextWave | core/src/main/java/com/rgs/galaxyinvaders/world/GameWorld.java:208-217 | wave rises by 1. A multiple of 5 creates one fresh boss of level bossesDefeated+1, with the variant's hp, and no enemies. Any other wave appends exactly WaveEnemyCount enemies built from the spawn draws |
| World.GameWorld.Shake | core/src/main/java/com/rgs/galaxyinvaders/world/GameWorld.java:267 | time and strength each become the max of old and requested |
| World.GameWorld.Flash | core/src/main/java/com/rgs/galaxyinvaders/world/GameWorld.java:268 | the flash timer becomes the max of old and requested |
| World.GameWorld.ApplyCameraShake | core/src/main/java/com/rgs/galaxyinvaders/world/GameWorld.java:190-196 | the camera jitters iff the shake timer was positive, and then the timer runs down by the real frame time |
| World.GameWorld.DecayFlash | core/src/main/java/com/rgs/galaxyinvaders/world/GameWorld.java:181-188 | the flash timer runs down by the given time only while positive |
| World.GameWorld.Obtain | core/src/main/java/com/rgs/galaxyinvaders/world/GameWorld.java:252 | `obtain` reuses a free object if there is one, else allocates one; either way one more object is in use |
| World.GameWorld.ObtainMany | core/src/main/java/com/rgs/galaxyinvaders/screens/GameScreen.java:627 | k obtains take min(k, free) from the free list and allocate the rest |
| World.GameWorld.FirePlayer | core/src/main/java/com/rgs/galaxyinvaders/world/GameWorld.java:251-254 | appends a pooled 7x7 bullet centred on x moving up at 420, keeping the pool balanced |
| World.GameWorld.FireEnemy | core/src/main/java/com/rgs/galaxyinvaders/world/GameWorld.java:255-258 | appends a pooled 8x8 bullet centred on (x, y) moving down at 260 |
| World.GameWorld.AddPlayerBullet | core/src/main/java/com/rgs/galaxyinvaders/world/GameWorld.java:259 | appends a bullet made with `new`, which counts as one more allocated object |
| World.GameWorld.FreePlayerBullet | core/src/main/java/com/rgs/galaxyinvaders/world/GameWorld.java:263 | ordered removal of bullet idx, and one more free object |
| World.GameWorld.FreeEnemyBullet | core/src/main/java/com/rgs/galaxyinvaders/world/GameWorld.java:264 | the same for the enemy list |
| World.GameWorld.Shoot | core/src/main/java/com/rgs/galaxyinvaders/entities/Player.java:62-70 | the player list gains exactly the volley's bullets, in order |
| World.GameWorld.MaybeDrop | core/src/main/java/com/rgs/galaxyinvaders/world/GameWorld.java:234-240 | the pickups gain exactly DropOf of the draw |
| World.GameWorld.HitPlayer | core/src/main/java/com/rgs/galaxyinvaders/world/GameWorld.java:222-232 | `World.GameWorld.PlayerHit` holds. With a shield: the shield is zeroed, lives are kept and there is a shake of (0.15, 4). Without one, a shake of (0.25, 6) and: a life is lost; the game is over iff no life is left, and then the score is offered as a high score; otherwise the ship blinks for 1.2 s |
| World.GameWorld.StepBoss | core/src/main/java/com/rgs/galaxyinvaders/world/GameWorld.java:64 | the boss and the enemy-bullet list change exactly as `Bosses.Stepped` says for `Boss.update` (sweep, clocks, fire timer, the emitted pattern); GameWorld's copy takes nothing from the pool; the list only grows, not at all at the cap and from below it to at most 60 |
| World.GameWorld.BossPhase | core/src/main/java/com/rgs/galaxyinvaders/world/GameWorld.java:63-76 | with no boss nothing changes: boss, score, counters, difficulty, slow motion, flash, shake, pool and enemy bullets are kept. A boss that was there has taken its `Bosses.Stepped` step. A surviving boss stays, with score, counters, difficulty, flash and shake kept. A boss at hp ≤ 0 is removed exactly once: score +1000, defeated +1, difficulty recomputed, flash 0.4, slow motion 1.2, shake (0.4, 8) |
| World.GameWorld.DefeatBoss | core/src/main/java/com/rgs/galaxyinvaders/world/GameWorld.java:65-72 | the defeat bookkeeping: boss gone, score +1000, defeated +1, recomputed scalars, flash, slow motion and shake |
| World.GameWorld.AdvanceEnemy | core/src/main/java/com/rgs/galaxyinvaders/world/GameWorld.java:80-86 | the enemy moves. One below the bottom edge is removed and does not fire. Otherwise it fires exactly when `World.Fires` holds (ready to shoot and the chance draw below its fire chance): its shoot timer is reset to the reload and the enemy list gains exactly the 8x8 shot at its centre; otherwise no bullet is added and it is kept exactly as moved |
| World.GameWorld.StepEnemy | core/src/main/java/com/rgs/galaxyinvaders/world/GameWorld.java:80-91 | the enemy-bullet list gains the moved enemy's shot exactly when it is above the edge and `World.Fires` holds. An enemy above the edge and clear of the player is kept as `AfterFireCheck` of the moved enemy, settled, and the player is not hit (`PlayerSpared`). One below the edge is removed, and the player is not hit. One touching the player is removed and hits the player (`PlayerHit`). Lives never rise and a game over is never undone |
| World.GameWorld.EnemiesPhase | core/src/main/java/com/rgs/galaxyinvaders/world/GameWorld.java:79-92 | afterwards every enemy is settled, the list has not grown, only enemy shots were added, and lives never rise |
| World.GameWorld.ResolvePlayerBullet | core/src/main/java/com/rgs/galaxyinvaders/world/GameWorld.java:95-125 | a bullet past the top is freed. Otherwise it damages at most one target: the found enemy, or the boss only if no enemy overlaps. A kill adds the score value, removes the enemy, rolls a drop and shakes (0.08, 2.2). A boss hit is `Bosses.Damaged` by one, 10 points and a shake of (0.02, 1.2). Otherwise the shake is kept, and a boss that was not hit is unchanged. A bullet that hits leaves the list; a miss stays at its new position |
| World.GameWorld.HitEnemy | core/src/main/java/com/rgs/galaxyinvaders/world/GameWorld.java:103-114 | the bullet is freed and the enemy loses one hp; it is killed iff it had at most 1, and then it is removed, scored, rolls a drop and shakes the camera by (0.08, 2.2); an enemy that survives leaves the shake as it was |
| World.GameWorld.HitBoss | core/src/main/java/com/rgs/galaxyinvaders/world/GameWorld.java:117-125 | `Bosses.Damaged(boss, 1)`: one hp less, the hit flash restarted and every other boss field kept; the camera shakes by (0.02, 1.2), the score rises by 10, a drop is rolled iff the chance draw is below 0.2, and the bullet is freed |
| World.GameWorld.PlayerBulletsPhase | core/src/main/java/com/rgs/galaxyinvaders/world/GameWorld.java:95-126 | score never drops, no enemy is added, every remaining bullet is at or below the top edge, and the boss loses at most one hp per bullet |
| World.GameWorld.StepEnemyBullet | core/src/main/java/com/rgs/galaxyinvaders/world/GameWorld.java:130-138 | a moved bullet clear of the player stays, and the player is not hit; one below the bottom edge is freed, and the player is not hit; one touching the player is freed and hits the player (`PlayerHit`) |
| World.GameWorld.EnemyBulletsPhase | core/src/main/java/com/rgs/galaxyinvaders/world/GameWorld.java:129-139 | every remaining bullet is on screen and clear of the player, and each bullet costs at most one life |
| World.GameWorld.StepPowerUp | core/src/main/java/com/rgs/galaxyinvaders/world/GameWorld.java:143-150 | the pickup either stays, fallen and clear of the player, or is removed below the edge, or is removed after applying its type to the player; position, cooldown, blink timer and external input are kept |
| World.GameWorld.PowerUpsPhase | core/src/main/java/com/rgs/galaxyinvaders/world/GameWorld.java:142-151 | every remaining pickup is on screen and clear of the player, and pickups never cost a life |
| World.GameWorld.StartTick | core/src/main/java/com/rgs/galaxyinvaders/world/GameWorld.java:57-61 | slow motion runs down; the player takes its `Players.Stepped` step and the player list gains exactly the reported volley's bullets; the wave advances iff neither boss nor enemies were left, and then holds exactly the new boss with the variant's hit points or exactly the spawned roster; otherwise boss and enemies are kept |
| World.GameWorld.PlayerStep | core/src/main/java/com/rgs/galaxyinvaders/world/GameWorld.java:59 | the player takes its `Players.Stepped` step and the player-bullet list gains exactly `VolleyBullets` of the volley it fired, nothing when it did not fire |
| World.AfterFireCheck | core/src/main/java/com/rgs/galaxyinvaders/world/GameWorld.java:83-85 | an enemy that fires has its shoot timer set to its reload, and nothing but the shoot timer ever changes |
| World.GameWorld.CombatPhases | core/src/main/java/com/rgs/galaxyinvaders/world/GameWorld.java:78-151 | the four list passes keep the world valid, never lower the score and never undo a game over |
| World.GameWorld.Update | core/src/main/java/com/rgs/galaxyinvaders/world/GameWorld.java:55-157 | once the game is over nothing changes at all. Otherwise the world stays valid, the score never drops, wave and bosses defeated each rise by at most one, and slow motion has run down by the step dt, or is 1.2 when a boss was defeated |
| Screens.EffectiveDt | core/src/main/java/com/rgs/galaxyinvaders/screens/GameScreen.java:102 | the step is 0 while paused, delta/4 in slow motion, and delta otherwise |
| Screens.EffectiveDtIsTimeScaled | core/src/main/java/com/rgs/galaxyinvaders/screens/GameScreen.java:102 | unpaused, the step is delta times the world's time scale, and never longer than delta |
| Screens.KeyStep | core/src/main/java/com/rgs/galaxyinvaders/screens/GameScreen.java:197-229 | the world ticks only when the game is live, unpaused and not switching. In game over: ESC goes to the menu, else ENTER restarts. While live: ESC pauses, or goes to the menu if already paused. Without ESC the new pause flag is exactly "P from play, or paused with neither P nor ENTER" |
| Screens.NoKeysNoChange | core/src/main/java/com/rgs/galaxyinvaders/screens/GameScreen.java:199-229 | with no key, a running game keeps running and a paused one stays paused |
| Screens.EscapeTwiceReachesMenu | core/src/main/java/com/rgs/galaxyinvaders/screens/GameScreen.java:201-209 | ESC from play pauses without ticking; a second ESC goes to the menu |
| Screens.PauseAndResume | core/src/main/java/com/rgs/galaxyinvaders/screens/GameScreen.java:211-218 | P pauses and stops the frame; a second P, or ENTER, resumes and ticks |
| Screens.ResumeFrameIsFrozen | core/src/main/java/com/rgs/galaxyinvaders/screens/GameScreen.java:102 | a frame that resumes from pause ticks the world with a step of 0, and only P or ENTER can resume |
| Screens.SimulateExactly | core/src/main/java/com/rgs/galaxyinvaders/screens/GameScreen.java:199-229 | the world ticks iff the game is live, ESC is not pressed, and P is not pressed from play, or the game is resumed from pause by P or ENTER |
| Screens.GameScreen.constructor | core/src/main/java/com/rgs/galaxyinvaders/screens/GameScreen.java:75-90 | a new screen is unpaused and its world (the screen's copy, which recomputes the difficulty before the first wave) starts at wave 1 with score 0 |
| Screens.GameScreen.Render | core/src/main/java/com/rgs/galaxyinvaders/screens/GameScreen.java:101-161 | the switch and pause flag are KeyStep's; a frame that does not tick leaves the world's entities (player, bullets, enemies, pickups, boss and the boss's own fields), score, wave, bosses defeated, difficulty, slow-motion timer, high-score offers and pool counters alone; such a frame runs the shake and flash timers down by the real frame time and jitters the camera iff shaking; a ticked frame steps the world by `EffectiveDt` of the old pause flag and slow motion, as its slow-motion timer shows; after game over nothing but the camera timers changes; the score never drops |

Notes on the model:
- The spread-shot side bullets and the boss's bullets are made with `new Bullet()` in `GameWorld` and taken from the pool in `GameScreen`. `World.GameWorld.Shoot` and `World.GameWorld.StepBoss` follow the variant. `GameScreen`'s boss patterns also return before their loop when the cap is reached. That is the cap check of the first loop iteration, so `Bosses.Boss.Emit` covers both copies.
- `GameScreen` recomputes the difficulty in its constructor. At zero bosses this gives exactly the initial scalars (`WorldRules.DifficultyAtStart`).
- The two copies' boss hit-point rules (`Boss.java:39-40` and `GameScreen.java:565-566`) are both modelled and deliberately left different. `Bosses.HpRulesDiverge` states how they differ.
- The first boss's opening cooldown is 1.4 × 1.5 / max(1, 0.8) = 2.1 s (`Bosses.FirstBossOpening`).
- The boss-defeat check runs after the boss's own update, so a boss brought to 0 hp by the previous tick's bullets updates once more, and may fire, before it is removed. The model keeps this order.
- In the enemy pass the source can call `removeIndex(i)` twice for one enemy: once for leaving the bottom edge and once for touching the player. The second call is unreachable, because the player flies at y = 40. `World.GameWorld.StepEnemy` proves this in place.
- Several hits in one tick can take the lives below 0 and offer the score as a high score more than once. `highScoreRequests` records every offer.
- `GameScreen`'s inner player reads only the keyboard. In the screen copy the external axis stays 0 and external fire stays off, because nothing calls the setters.
- The flash timer runs down in rendering. `renderFlash` in `GameWorld` takes its step as a parameter, so a step of 0 leaves the timer where it is. `GameScreen.render` runs it down inline by the real frame time. `World.GameWorld.DecayFlash` models the step taken as a parameter, and `Screens.GameScreen.Render` calls it with the real frame time.

## Left out
- Rendering: every `render`, HUD, shield and flash drawing, `Starfield`, `Explosion`, sprite sizing from textures (sprite heights are positive parameters), `MenuScreen` and the UI helpers, because they have no effect on gameplay.
- Sound effects, asset loading, and the high-score persistence of the game shell, because they are I/O. The high-score offer is kept as the `highScoreRequests` event list.
- Device input polling and the touch controls, because they depend on the device. Keys and the move axis are method arguments.
- Trigonometry: the enemies' sine drift, and the `atan2`/`cos`/`lerp` aim of the boss patterns, because these are floating-point transcendental functions. The sine value and each boss bullet's vx are free parameters; bullet counts, positions and vy are modelled.
- Randomness: every draw is a parameter, with its range stated where the proofs need it.
- The pool's internals, pool `reset()` and `Pool.Poolable`, because the model keeps counters instead. `World.GameWorld.Valid` keeps the counters balanced.
- Float precision and 32-bit overflow, because reals and unbounded integers stand in for `float` and `int`. No property here depends on the precision of a single operation.
- Object identity of enemies, pickups and bullets: they are values written back into the lists, not shared objects. Nothing in the source keeps a second reference to a list element across a tick.
- The explosions list and its ticking in `update`, because it is purely visual.
- A global 60-bullet bound on the enemy-bullet list is not claimed, because ordinary enemy shots are not capped. Only the boss's emission respects the cap.
- World.GameWorld.Update: states validity, the freeze after game over, score monotonicity and the counters' steps. It does not restate each pass's full contract; those contracts are on the pass methods (`StartTick`, `PlayerStep`, `BossPhase`, `StepBoss`, `EnemiesPhase`, `StepEnemy`, `AdvanceEnemy`, `PlayerBulletsPhase`, `EnemyBulletsPhase`, `PowerUpsPhase`).
- Screens.GameScreen.Render: the screen switch is returned as a value. Building the next `MenuScreen` or `GameScreen` is left to the caller. The camera offset of a shaking frame is a random draw that is not computed; `Render` returns only whether the camera jitters.
