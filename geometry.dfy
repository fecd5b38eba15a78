/**
 * Canvas constants and the axis-aligned box overlap test of
 * `collides` / `boxCollides` (assets/script/app.js:323-333).
 */
module Geometry {

  /** The canvas is 512 by 480 pixels (assets/script/app.js:4-5). */
  const Width: real := 512.0
  const Height: real := 480.0

  /** A two-element `[x, y]` array of the source, as a value. */
  datatype Vec = Vec(x: real, y: real)

  /**
   * `collides(x, y, r, b, x2, y2, r2, b2)`: the first box spans x..r, y..b and
   * the second x2..r2, y2..b2. The inequalities are kept exactly as written:
   * `<=` on the first box's right/bottom edge, `>` on its left/top edge.
   */
  predicate Collides(x: real, y: real, r: real, b: real, x2: real, y2: real, r2: real, b2: real)
    // the first box's right (bottom) edge on the second's left (top) edge: a miss
    ensures r == x2 || b == y2 ==> !Collides(x, y, r, b, x2, y2, r2, b2)
    // the first box's left edge on the second's right edge, rows shared: a hit
    ensures x == r2 && x2 < r2 && x < r && y == y2 && y < b && y2 < b2
            ==> Collides(x, y, r, b, x2, y2, r2, b2)
  {
    !(r <= x2 || x > r2 || b <= y2 || y > b2)
  }

  /** `boxCollides(pos, size, pos2, size2)`: boxes given by corner and size. */
  predicate BoxCollides(pos: Vec, size: Vec, pos2: Vec, size2: Vec)
    ensures size.x > 0.0 && size.y > 0.0 && pos == pos2 && size == size2 ==> BoxCollides(pos, size, pos2, size2)
    ensures pos.x + size.x <= pos2.x || pos.y + size.y <= pos2.y ==> !BoxCollides(pos, size, pos2, size2)
  {
    Collides(pos.x, pos.y, pos.x + size.x, pos.y + size.y,
             pos2.x, pos2.y, pos2.x + size2.x, pos2.y + size2.y)
  }

  /**
   * Reference definition of the overlap: the point (px, py) lies in the first
   * box taken half-open, [x, x+w) by [y, y+h), and in the second box taken
   * closed, [x2, x2+w2] by [y2, y2+h2].
   */
  predicate SharedPoint(px: real, py: real, pos: Vec, size: Vec, pos2: Vec, size2: Vec)
  {
    && pos.x <= px < pos.x + size.x && pos.y <= py < pos.y + size.y
    && pos2.x <= px <= pos2.x + size2.x && pos2.y <= py <= pos2.y + size2.y
  }

  /**
   * For boxes of positive size, `boxCollides` holds exactly when some point lies
   * in the first box (half-open) and in the second box (closed). This is the
   * precise edge convention of the source.
   */
  lemma BoxCollidesIffSharedPoint(pos: Vec, size: Vec, pos2: Vec, size2: Vec)
    requires size.x > 0.0 && size.y > 0.0 && size2.x >= 0.0 && size2.y >= 0.0
    ensures BoxCollides(pos, size, pos2, size2)
            <==> exists px, py :: SharedPoint(px, py, pos, size, pos2, size2)
  {
    if BoxCollides(pos, size, pos2, size2) {
      var px := if pos.x < pos2.x then pos2.x else pos.x;
      var py := if pos.y < pos2.y then pos2.y else pos.y;
      assert SharedPoint(px, py, pos, size, pos2, size2);
    }
  }

  /** Touching with the first box's right edge on the second's left edge is no collision. */
  lemma RightEdgeTouchMisses(pos: Vec, size: Vec, pos2: Vec, size2: Vec)
    requires pos.x + size.x == pos2.x
    ensures !BoxCollides(pos, size, pos2, size2)
  {
  }

  /**
   * Touching with the first box's left edge on the second's right edge IS a
   * collision (when the boxes share rows), so swapping the two boxes changes
   * the answer.
   */
  lemma LeftEdgeTouchHits(pos: Vec, size: Vec, pos2: Vec, size2: Vec)
    requires size.x > 0.0 && size2.x > 0.0 && size.y > 0.0 && size2.y > 0.0
    requires pos.x == pos2.x + size2.x && pos.y == pos2.y
    ensures BoxCollides(pos, size, pos2, size2)
    ensures !BoxCollides(pos2, size2, pos, size)
  {
  }

  /** Boxes strictly apart on either axis do not collide, in either order. */
  lemma SeparatedBoxesMiss(pos: Vec, size: Vec, pos2: Vec, size2: Vec)
    requires size.x >= 0.0 && size.y >= 0.0 && size2.x >= 0.0 && size2.y >= 0.0
    requires || pos.x + size.x < pos2.x || pos2.x + size2.x < pos.x
             || pos.y + size.y < pos2.y || pos2.y + size2.y < pos.y
    ensures !BoxCollides(pos, size, pos2, size2)
    ensures !BoxCollides(pos2, size2, pos, size)
  {
  }

  /** Away from exact edge contact the test is symmetric. */
  lemma BoxCollidesSymmetricOffEdges(pos: Vec, size: Vec, pos2: Vec, size2: Vec)
    requires pos.x + size.x != pos2.x && pos2.x + size2.x != pos.x
    requires pos.y + size.y != pos2.y && pos2.y + size2.y != pos.y
    ensures BoxCollides(pos, size, pos2, size2) == BoxCollides(pos2, size2, pos, size)
  {
  }
}
