/**
 * entities/PowerUp.java: a falling pickup with a type tag. Its position is
 * the pickup's centre; the collision box is the square of side 2 * size
 * around it.
 */
module PowerUps {
  import opened GameObjects
  import opened PowerUpTypes
  import Players

  /** Half the side of the pickup square, and the falling speed. */
  const Size: real := 14.0
  const FallSpeed: real := -65.0

  datatype PowerUp = PowerUp(kind: PowerUpType, x: real, y: real, size: real, vy: real) {

    /** update(dt): y += vy * dt. */
    function Updated(dt: real): (p: PowerUp)
      ensures p.kind == kind && p.x == x && p.size == size && p.vy == vy
      ensures vy == FallSpeed ==> p.y == y - 65.0 * dt
    {
      this.(y := y + vy * dt)
    }

    /** rect(): the square of side 2 * size centred on (x, y). */
    function Rect(): (r: Rect)
      ensures r.w == r.h == 2.0 * size
      ensures r.x + r.w / 2.0 == x && r.y + r.h / 2.0 == y
    {
      Rectangle(x - size, y - size, size * 2.0, size * 2.0)
    }
  }

  /** The private constructor with the field initialisers size = 14, vy = -65. */
  function Make(t: PowerUpType, x: real, y: real): (p: PowerUp)
    ensures p.kind == t && p.x == x && p.y == y && p.size == Size && p.vy == FallSpeed
  {
    PowerUp(t, x, y, Size, FallSpeed)
  }

  /** The four factories: each tags the pickup with its own type at (x, y). */
  function Rapid(x: real, y: real): PowerUp
  {
    Make(PowerUpTypes.Rapid, x, y)
  }

  function Spread(x: real, y: real): PowerUp
  {
    Make(PowerUpTypes.Spread, x, y)
  }

  function Shield(x: real, y: real): PowerUp
  {
    Make(PowerUpTypes.Shield, x, y)
  }

  function Life(x: real, y: real): PowerUp
  {
    Make(PowerUpTypes.Life, x, y)
  }

  /** The factories differ only in the type tag. */
  lemma FactoriesTagTheirType(x: real, y: real)
    ensures Rapid(x, y).kind == PowerUpTypes.Rapid && Spread(x, y).kind == PowerUpTypes.Spread
    ensures Shield(x, y).kind == PowerUpTypes.Shield && Life(x, y).kind == PowerUpTypes.Life
    ensures Rapid(x, y).(kind := PowerUpTypes.Life) == Life(x, y)
    ensures Spread(x, y).(kind := PowerUpTypes.Life) == Life(x, y)
    ensures Shield(x, y).(kind := PowerUpTypes.Life) == Life(x, y)
  {
  }

  /** apply(player): the player's applyPower with this pickup's type. */
  method Apply(p: PowerUp, pl: Players.Player)
    requires pl.Valid()
    modifies pl
    ensures pl.Valid()
    ensures pl.PowerState() == Players.Applied(old(pl.PowerState()), p.kind)
    ensures pl.x == old(pl.x) && pl.cdTimer == old(pl.cdTimer) && pl.blinkTimer == old(pl.blinkTimer)
    ensures pl.externalMoveAxis == old(pl.externalMoveAxis) && pl.externalFire == old(pl.externalFire)
  {
    pl.ApplyPower(p.kind);
  }
}
