/** The engine services the game's core relies on: points, rectangles and their
    overlap test, textures (only their pixel size matters here) and linear
    interpolation. Coordinates are mathematical reals; floating-point rounding is
    not modelled. */
module Engine {

  /** A point or vector in world coordinates. */
  datatype Vec2 = Vec2(x: real, y: real)

  /** An axis-aligned rectangle with bottom-left corner (x, y), width w, height h. */
  datatype Rect = Rect(x: real, y: real, w: real, h: real) {

    /** Moves the corner to (nx, ny) and keeps the size. */
    function SetPosition(nx: real, ny: real): (r: Rect) {
      Rect(nx, ny, w, h)
    }
  }

  /** The engine's strict overlap test: the open projections on both axes intersect.
      Two boxes that are together flat on one axis can never overlap. */
  predicate Overlaps(a: Rect, b: Rect)
    ensures Overlaps(a, b) ==> a.w + b.w > 0.0 && a.h + b.h > 0.0
  {
    a.x < b.x + b.w && a.x + a.w > b.x && a.y < b.y + b.h && a.y + a.h > b.y
  }

  lemma OverlapsSymmetric(a: Rect, b: Rect)
    ensures Overlaps(a, b) <==> Overlaps(b, a)
  {
  }

  /** Rectangles whose x projections are disjoint (touching edges included) never
      overlap, whatever their y. */
  lemma DisjointXNeverOverlaps(a: Rect, b: Rect)
    requires a.x + a.w <= b.x
    ensures !Overlaps(a, b) && !Overlaps(b, a)
  {
  }

  lemma OverlapsItself(a: Rect)
    requires a.w > 0.0 && a.h > 0.0
    ensures Overlaps(a, a)
  {
  }

  /** An image resource. Its identity is the object; its size is fixed. */
  class Texture {
    const width: nat
    const height: nat

    constructor (width: nat, height: nat)
      ensures this.width == width && this.height == height
    {
      this.width := width;
      this.height := height;
    }
  }

  /** Linear interpolation from `from` towards `to` by the fraction `progress`:
      the distance left to `to` shrinks by the factor 1 - progress. */
  function Lerp(from: real, to: real, progress: real): (r: real)
    ensures to - r == (1.0 - progress) * (to - from)
  {
    from + (to - from) * progress
  }
}
