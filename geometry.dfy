/** Integer axis-aligned rectangles and the overlap test that drives every
    collision in the game (pygame's `Rect.colliderect`, which
    `sprite.spritecollide` applies to each member of a group). */
module Geometry {

  /** A rectangle with top-left corner (x, y), width w and height h, in pixels. */
  datatype Rect = Rect(x: int, y: int, w: int, h: int)

  /** The rectangle moved horizontally by dx, as `rect.x += dx` does. */
  function Translate(r: Rect, dx: int): Rect
  {
    r.(x := r.x + dx)
  }

  /** One of the spans [a0, a0 + aLen) and [b0, b0 + bLen) starts inside the other. */
  predicate SpansMeet(a0: int, aLen: int, b0: int, bLen: int)
  {
    (b0 <= a0 < b0 + bLen) || (a0 <= b0 < a0 + aLen)
  }

  /** colliderect: the two rectangles' spans meet on both axes. For
      rectangles of positive size this is the usual strict box test: each
      rectangle starts before the other one ends, on both axes. */
  predicate Overlaps(a: Rect, b: Rect)
    ensures a.w > 0 && a.h > 0 && b.w > 0 && b.h > 0 ==>
      (Overlaps(a, b) <==> a.x < b.x + b.w && b.x < a.x + a.w && a.y < b.y + b.h && b.y < a.y + a.h)
  {
    SpansMeet(a.x, a.w, b.x, b.w) && SpansMeet(a.y, a.h, b.y, b.h)
  }

  /** The pixel (px, py) lies in r; the right and bottom edges are exclusive. */
  predicate Contains(r: Rect, px: int, py: int)
  {
    r.x <= px < r.x + r.w && r.y <= py < r.y + r.h
  }

  /** For rectangles of positive size, the overlap test holds exactly when the
      two rectangles share a pixel: the test is a true intersection test. */
  lemma OverlapsIffCommonPixel(a: Rect, b: Rect)
    requires a.w > 0 && a.h > 0 && b.w > 0 && b.h > 0
    ensures Overlaps(a, b) <==> exists px, py :: Contains(a, px, py) && Contains(b, px, py)
  {
    if Overlaps(a, b) {
      var px := if a.x < b.x then b.x else a.x;
      var py := if a.y < b.y then b.y else a.y;
      assert Contains(a, px, py) && Contains(b, px, py);
    }
    if exists px, py :: Contains(a, px, py) && Contains(b, px, py) {
      var px, py :| Contains(a, px, py) && Contains(b, px, py);
      assert SpansMeet(a.x, a.w, b.x, b.w);
      assert SpansMeet(a.y, a.h, b.y, b.h);
    }
  }

  /** The overlap test does not depend on which rectangle is the sprite. */
  lemma OverlapsSymmetric(a: Rect, b: Rect)
    ensures Overlaps(a, b) <==> Overlaps(b, a)
  {
  }

  /** Moving both rectangles by the same amount does not change whether they overlap. */
  lemma OverlapsTranslate(a: Rect, b: Rect, dx: int)
    ensures Overlaps(Translate(a, dx), Translate(b, dx)) <==> Overlaps(a, b)
  {
  }
}
