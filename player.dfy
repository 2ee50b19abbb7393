/**
 * entities/Player.java: the player ship. Movement and firing are driven by
 * the keyboard (passed in as booleans) and by the touch controls' external
 * axis and fire flag (stored through the setters).
 */
module Players {
  import opened Numerics
  import opened Wrappers
  import opened GameObjects
  import opened Bullets
  import opened PowerUpTypes
  import Constants

  /** Horizontal margin the ship keeps from both edges. */
  const Margin: real := 6.0
  /** Sprite width: the sprite is scaled to this target width. */
  const ShipWidth: real := 36.0
  /** Cooldown while rapid fire is active. */
  const RapidCooldown: real := 0.07
  /** Power-up grant durations. */
  const RapidGrant: real := 8.0
  const SpreadGrant: real := 8.0
  const ShieldGrant: real := 10.0
  const MaxLives: int := 5

  /**
   * Movement intent: the external axis, minus 1 for A/LEFT, plus 1 for
   * D/RIGHT, clamped to [-1, 1].
   */
  function MoveAxis(external: real, left: bool, right: bool): (a: real)
    ensures -1.0 <= a <= 1.0
    ensures -1.0 <= external <= 1.0 && !left && !right ==> a == external
    ensures left && !right && external <= 0.0 ==> a == -1.0
    ensures right && !left && external >= 0.0 ==> a == 1.0
  {
    var d := external - (if left then 1.0 else 0.0) + (if right then 1.0 else 0.0);
    Clamp(d, -1.0, 1.0)
  }

  /** Distance covered along one axis: axis * speed * dt. */
  function Travel(axis: real, speed: real, dt: real): real
  {
    axis * speed * dt
  }

  /** A power-up or blink timer counts down by dt, but only while positive. */
  function Decay(timer: real, dt: real): (r: real)
    ensures timer > 0.0 ==> r == timer - dt
    ensures timer <= 0.0 ==> r == timer
    ensures dt >= 0.0 ==> r <= timer
  {
    if timer > 0.0 then timer - dt else timer
  }

  /**
   * The fire gate of update(): the cooldown runs down by dt; a shot is taken
   * when fire is wanted and the cooldown has elapsed, and then the cooldown
   * restarts at 0.07 with rapid fire, else at the base value.
   */
  function Trigger(cdTimer: real, dt: real, want: bool, rapid: bool, base: real): (r: (bool, real))
    ensures r.0 <==> want && cdTimer - dt <= 0.0
    ensures r.0 ==> r.1 == (if rapid then RapidCooldown else base)
    ensures !r.0 ==> r.1 == cdTimer - dt
  {
    var cd := cdTimer - dt;
    if want && cd <= 0.0 then (true, if rapid then RapidCooldown else base) else (false, cd)
  }

  /**
   * Fire-rate gating: after a shot, a following frame shorter than the
   * cooldown just set cannot shoot again.
   */
  lemma {:induction false} NoShotWithinCooldown(cd: real, dt1: real, dt2: real, want1: bool, want2: bool,
                                                rapid1: bool, rapid2: bool, base: real)
    requires Trigger(cd, dt1, want1, rapid1, base).0
    requires dt2 < (if rapid1 then RapidCooldown else base)
    ensures !Trigger(Trigger(cd, dt1, want1, rapid1, base).1, dt2, want2, rapid2, base).0
  {
    var first := Trigger(cd, dt1, want1, rapid1, base);
    assert first.1 == (if rapid1 then RapidCooldown else base);
    assert first.1 - dt2 > 0.0;
  }

  /** The shot of one update: the muzzle point and whether spread was active. */
  datatype Volley = Volley(cx: real, top: real, spread: bool)

  /** The lead bullet, from world.firePlayer(cx, top). */
  function LeadBullet(v: Volley): Bullet
  {
    Fresh.Set(v.cx - 3.5, v.top, 7.0, 7.0, 420.0)
  }

  /** A spread side bullet, created with new Bullet() and given a sideways speed. */
  function SideBullet(v: Volley, vx: real): Bullet
  {
    Fresh.Set(v.cx - 3.5, v.top, 7.0, 7.0, 420.0).(vx := vx)
  }

  /**
   * shoot(): the bullets one volley adds to the player-bullet list, in order:
   * the lead bullet and, while spread is active, a left and a right bullet.
   */
  function VolleyBullets(v: Volley): (s: seq<Bullet>)
    ensures |s| == (if v.spread then 3 else 1)
    ensures forall i :: 0 <= i < |s| ==>
      s[i].x == v.cx - 3.5 && s[i].y == v.top && s[i].w == 7.0 && s[i].h == 7.0 && s[i].vy == 420.0
    ensures s[0].vx == 0.0
    ensures v.spread ==> s[1].vx == -120.0 && s[2].vx == 120.0
  {
    [LeadBullet(v)] + (if v.spread then [SideBullet(v, -120.0), SideBullet(v, 120.0)] else [])
  }

  /** The power-up state that applyPower touches. */
  datatype Buffs = Buffs(rapid: real, spread: real, shield: real, lives: int)

  /**
   * applyPower(type): a timed power-up refreshes its timer to the larger of
   * the remaining time and its grant; LIFE adds a life capped at five.
   */
  function Applied(b: Buffs, t: PowerUpType): (r: Buffs)
    ensures r.rapid >= b.rapid && r.spread >= b.spread && r.shield >= b.shield
    ensures b.lives <= MaxLives ==> r.lives <= MaxLives
    ensures t != Life ==> r.lives == b.lives
    ensures t == Rapid ==> r == b.(rapid := MaxR(b.rapid, RapidGrant))
    ensures t == Spread ==> r == b.(spread := MaxR(b.spread, SpreadGrant))
    ensures t == Shield ==> r == b.(shield := MaxR(b.shield, ShieldGrant))
    ensures t == Life ==> r == b.(lives := MinI(b.lives + 1, MaxLives))
  {
    match t
    case Rapid => b.(rapid := MaxR(b.rapid, RapidGrant))
    case Spread => b.(spread := MaxR(b.spread, SpreadGrant))
    case Shield => b.(shield := MaxR(b.shield, ShieldGrant))
    case Life => b.(lives := MinI(b.lives + 1, MaxLives))
  }

  /**
   * Grants do not stack: picking up the same timed power-up twice has the
   * effect of picking it up once, and a life pickup at five lives does nothing.
   */
  lemma AppliedIdempotent(b: Buffs, t: PowerUpType)
    requires t != Life || b.lives >= MaxLives
    requires b.lives <= MaxLives
    ensures Applied(Applied(b, t), t) == Applied(b, t)
    ensures t == Life ==> Applied(b, t) == b
  {
  }

  /** Example: a rapid timer at 3 becomes 8, not 11. */
  lemma RapidRefreshesToGrant(b: Buffs)
    requires b.rapid == 3.0
    ensures Applied(b, Rapid).rapid == 8.0
  {
  }

  /**
   * The effect of update(dt) with the keys left, right and space on p, and
   * the volley it reports: the clamped move, the fire gate on the old
   * timers (rapid fire holds the trigger down), the volley from the moved
   * muzzle with the spread flag before its decay, and the four timers run
   * down; lives, size and the external input are kept.
   */
  twostate predicate Stepped(p: Player, dt: real, left: bool, right: bool, space: bool, new volley: Option<Volley>)
    reads p
  {
    var gate := Trigger(old(p.cdTimer), dt, old(p.externalFire) || space || old(p.rapidTimer) > 0.0,
                        old(p.rapidTimer) > 0.0, p.cooldown);
    && p.x == Clamp(old(p.x) + Travel(MoveAxis(old(p.externalMoveAxis), left, right), p.speed, dt),
                    Margin, Constants.W - p.w - Margin)
    && volley.Some? == gate.0 && p.cdTimer == gate.1
    && (volley.Some? ==> volley.value == Volley(p.x + p.w / 2.0, p.y + p.h, old(p.spreadTimer) > 0.0))
    && p.rapidTimer == Decay(old(p.rapidTimer), dt) && p.spreadTimer == Decay(old(p.spreadTimer), dt)
    && p.shieldTimer == Decay(old(p.shieldTimer), dt) && p.blinkTimer == Decay(old(p.blinkTimer), dt)
    && p.lives == old(p.lives)
    && p.externalMoveAxis == old(p.externalMoveAxis) && p.externalFire == old(p.externalFire)
  }

  class Player {
    var x: real
    const y: real
    const w: real
    const h: real
    const speed: real
    /** Base fire cooldown. */
    const cooldown: real
    var cdTimer: real
    var lives: int
    var rapidTimer: real
    var spreadTimer: real
    var shieldTimer: real
    var blinkTimer: real
    /** Input from the touch controls: an axis in [-1, 1] and a held fire flag. */
    var externalMoveAxis: real
    var externalFire: bool

    /** The ship stays inside the playfield, never holds more than five lives and keeps a clamped axis. */
    ghost predicate Valid()
      reads this
    {
      w == ShipWidth && h > 0.0 && y == 40.0 && speed == 320.0 && cooldown == 0.22 &&
      Margin <= x <= Constants.W - w - Margin &&
      lives <= MaxLives &&
      -1.0 <= externalMoveAxis <= 1.0
    }

    /** The GameObject view. */
    function Body(): Body
      reads this
    {
      GameObjects.Body(x, y, w, h)
    }

    function PowerState(): Buffs
      reads this
    {
      Buffs(rapidTimer, spreadTimer, shieldTimer, lives)
    }

    /** A new ship of sprite height h, centred at the bottom with three lives. */
    constructor (h: real)
      requires h > 0.0
      ensures Valid()
      ensures x == 400.0 - ShipWidth / 2.0 && this.h == h
      ensures lives == 3 && cdTimer == 0.0
      ensures rapidTimer == 0.0 && spreadTimer == 0.0 && shieldTimer == 0.0 && blinkTimer == 0.0
      ensures externalMoveAxis == 0.0 && !externalFire
    {
      w := ShipWidth;
      this.h := h;
      x := 800.0 / 2.0 - ShipWidth / 2.0;
      y := 40.0;
      speed := 320.0;
      cooldown := 0.22;
      cdTimer := 0.0;
      lives := 3;
      rapidTimer, spreadTimer, shieldTimer, blinkTimer := 0.0, 0.0, 0.0, 0.0;
      externalMoveAxis := 0.0;
      externalFire := false;
    }

    /**
     * update(dt): move by the clamped axis and clamp to the playfield, run the
     * fire gate (returning the volley shoot() fires, if any), then decay the
     * four timers. The volley uses the moved position and the spread timer
     * before its decay.
     */
    method Update(dt: real, left: bool, right: bool, space: bool) returns (volley: Option<Volley>)
      requires Valid()
      modifies this
      ensures Valid()
      ensures Stepped(this, dt, left, right, space, volley)
    {
      var dir := MoveAxis(externalMoveAxis, left, right);
      x := x + Travel(dir, speed, dt);
      x := Clamp(x, Margin, 800.0 - w - Margin);

      var autoFire := rapidTimer > 0.0;
      var gate := Trigger(cdTimer, dt, externalFire || space || autoFire, rapidTimer > 0.0, cooldown);
      cdTimer := gate.1;
      if gate.0 {
        volley := Some(Volley(x + w / 2.0, y + h, spreadTimer > 0.0));
      } else {
        volley := None;
      }

      rapidTimer := Decay(rapidTimer, dt);
      spreadTimer := Decay(spreadTimer, dt);
      shieldTimer := Decay(shieldTimer, dt);
      blinkTimer := Decay(blinkTimer, dt);
    }

    /** applyPower(type): exactly the effect of Applied; nothing else changes. */
    method ApplyPower(t: PowerUpType)
      requires Valid()
      modifies this
      ensures Valid()
      ensures PowerState() == Applied(old(PowerState()), t)
      ensures x == old(x) && cdTimer == old(cdTimer) && blinkTimer == old(blinkTimer)
      ensures externalMoveAxis == old(externalMoveAxis) && externalFire == old(externalFire)
    {
      match t
      case Rapid => rapidTimer := MaxR(rapidTimer, RapidGrant);
      case Spread => spreadTimer := MaxR(spreadTimer, SpreadGrant);
      case Shield => shieldTimer := MaxR(shieldTimer, ShieldGrant);
      case Life => lives := MinI(lives + 1, MaxLives);
    }

    /** consumeShieldIfAny(): an active shield is spent whole; otherwise nothing changes. */
    method ConsumeShieldIfAny() returns (consumed: bool)
      requires Valid()
      modifies this`shieldTimer
      ensures Valid()
      ensures consumed <==> old(shieldTimer) > 0.0
      ensures shieldTimer == (if consumed then 0.0 else old(shieldTimer))
    {
      if shieldTimer > 0.0 {
        shieldTimer := 0.0;
        consumed := true;
      } else {
        consumed := false;
      }
    }

    /** loseLife(). */
    method LoseLife()
      requires Valid()
      modifies this`lives
      ensures Valid()
      ensures lives == old(lives) - 1
    {
      lives := lives - 1;
    }

    /** blink(t). */
    method Blink(t: real)
      modifies this`blinkTimer
      ensures blinkTimer == t
    {
      blinkTimer := t;
    }

    /** setExternalMoveAxis(a): stores the axis clamped to [-1, 1]. */
    method SetExternalMoveAxis(a: real)
      requires Valid()
      modifies this`externalMoveAxis
      ensures Valid()
      ensures externalMoveAxis == Clamp(a, -1.0, 1.0)
    {
      externalMoveAxis := Clamp(a, -1.0, 1.0);
    }

    /** setExternalFire(f). */
    method SetExternalFire(f: bool)
      modifies this`externalFire
      ensures externalFire == f
    {
      externalFire := f;
    }
  }
}
