/**
 * entities/Bullet.java: a projectile record with a scaled, centred hitbox,
 * and the libGDX Array<Bullet> that holds the live bullets of one side.
 */
module Bullets {
  import opened GameObjects
  import Constants

  /** Fields x, y, w, h, vy, vx of a Bullet. */
  datatype Bullet = Bullet(x: real, y: real, w: real, h: real, vy: real, vx: real) {

    /**
     * set(x, y, w, h, vy): overwrites every field of a (possibly recycled)
     * bullet; vx is reset to 0.
     */
    function Set(nx: real, ny: real, nw: real, nh: real, nvy: real): (b: Bullet)
      ensures b.x == nx && b.y == ny && b.w == nw && b.h == nh && b.vy == nvy
      ensures b.vx == 0.0
    {
      Bullet(nx, ny, nw, nh, nvy, 0.0)
    }

    /** rect(): the hitbox, scaled by the hitbox factor around the sprite's centre. */
    function HitRect(): (r: Rect)
      ensures r.w == Constants.BulletHitboxScale * w && r.h == Constants.BulletHitboxScale * h
      ensures r.x + r.w / 2.0 == Cx() && r.y + r.h / 2.0 == Cy()
      ensures w >= 0.0 && h >= 0.0 ==> Inside(r, Rectangle(x, y, w, h))
    {
      var sw := w * Constants.BulletHitboxScale;
      var sh := h * Constants.BulletHitboxScale;
      var sx := x + (w - sw) / 2.0;
      var sy := y + (h - sh) / 2.0;
      Rectangle(sx, sy, sw, sh)
    }

    /** cx(), cy(): the visual centre. */
    function Cx(): real { x + w / 2.0 }
    function Cy(): real { y + h / 2.0 }

    /** radius(): half the width (a bullet is drawn as a circle). */
    function Radius(): (r: real)
      ensures 2.0 * r == w
    {
      w / 2.0
    }

    /** The world's per-tick integration: b.x += b.vx * dt; b.y += b.vy * dt. */
    function Moved(dt: real): (b: Bullet)
      ensures b.w == w && b.h == h && b.vx == vx && b.vy == vy
      ensures b.x - x == vx * dt && b.y - y == vy * dt
    {
      this.(x := x + vx * dt, y := y + vy * dt)
    }
  }

  /** A fresh object (new Bullet()) has every field 0. */
  const Fresh: Bullet := Bullet(0.0, 0.0, 0.0, 0.0, 0.0, 0.0)

  /**
   * A recycled bullet keeps nothing of its previous life: set gives the same
   * value whatever object the pool hands out.
   */
  lemma SetForgetsPreviousLife(a: Bullet, b: Bullet, x: real, y: real, w: real, h: real, vy: real)
    ensures a.Set(x, y, w, h, vy) == b.Set(x, y, w, h, vy)
    ensures a.Set(x, y, w, h, vy) == Fresh.Set(x, y, w, h, vy)
  {
  }

  /** The hitbox is strictly smaller than a sprite of positive size. */
  lemma HitboxSmaller(b: Bullet)
    requires b.w > 0.0 && b.h > 0.0
    ensures b.HitRect().w < b.w && b.HitRect().h < b.h
    ensures b.HitRect().x > b.x && b.HitRect().y > b.y
  {
  }

  /** The boss-bullet back-pressure test: count >= BOSS_BULLET_LIMIT. */
  predicate CapReached(count: int)
  {
    count >= Constants.BossBulletLimit
  }

  /** libGDX Array<Bullet> (ordered): the live bullets of one side, in order. */
  class BulletList {
    var items: seq<Bullet>

    constructor ()
      ensures items == []
    {
      items := [];
    }

    /** add(b): appends at the end. */
    method Add(b: Bullet)
      modifies this
      ensures items == old(items) + [b]
    {
      items := items + [b];
    }

    /** removeIndex(i) of an ordered Array: later elements shift down by one. */
    method RemoveIndex(i: int) returns (b: Bullet)
      requires 0 <= i < |items|
      modifies this
      ensures b == old(items[i])
      ensures items == old(items[..i] + items[i + 1..])
      ensures |items| == old(|items|) - 1
    {
      b := items[i];
      items := items[..i] + items[i + 1..];
    }

    /** An in-place field update of the bullet at index i. */
    method Replace(i: int, b: Bullet)
      requires 0 <= i < |items|
      modifies this
      ensures items == old(items[i := b])
    {
      items := items[i := b];
    }
  }
}
