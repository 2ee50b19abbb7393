/**
 * entities/GameObject.java: the positional state shared by every sprite
 * entity (corner x, y and size w, h) and its pure queries, plus the libGDX
 * Rectangle those queries return.
 */
module GameObjects {

  /** com.badlogic.gdx.math.Rectangle: lower-left corner (x, y), width w, height h. */
  datatype Rect = Rectangle(x: real, y: real, w: real, h: real)

  /**
   * Rectangle.overlaps / Intersector.overlaps. The libGDX source is not part
   * of this model; it is assumed to be strict interval overlap on both axes.
   */
  predicate Overlaps(a: Rect, b: Rect)
  {
    a.x < b.x + b.w && a.x + a.w > b.x && a.y < b.y + b.h && a.y + a.h > b.y
  }

  /** The point (px, py) lies in the closed rectangle r. */
  predicate Contains(r: Rect, px: real, py: real)
  {
    r.x <= px <= r.x + r.w && r.y <= py <= r.y + r.h
  }

  /** r lies inside the closed rectangle outer. */
  predicate Inside(r: Rect, outer: Rect)
  {
    outer.x <= r.x && r.x + r.w <= outer.x + outer.w &&
    outer.y <= r.y && r.y + r.h <= outer.y + outer.h
  }

  /** The fields x, y, w, h of a GameObject. */
  datatype Body = Body(x: real, y: real, w: real, h: real) {

    /** rect(): the full bounding box. */
    function Rect(): Rect { Rectangle(x, y, w, h) }

    function CenterX(): real { x + w / 2.0 }
    function CenterY(): real { y + h / 2.0 }
  }

  /**
   * rect() is exactly the box (x, y, w, h), and for a non-negative size the
   * centre returned by centerX()/centerY() lies in it, half a size from the corner.
   */
  lemma CenterWithinRect(b: Body)
    requires b.w >= 0.0 && b.h >= 0.0
    ensures b.Rect() == Rectangle(b.x, b.y, b.w, b.h)
    ensures Contains(b.Rect(), b.CenterX(), b.CenterY())
    ensures b.CenterX() - b.x == b.x + b.w - b.CenterX()
    ensures b.CenterY() - b.y == b.y + b.h - b.CenterY()
  {
  }
}
