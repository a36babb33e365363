/** The scrolling two-column card grid shared in shape by the Shows and the
    Videos screens (screens/shows.py, screens/videos.py): card layout,
    clamped scrolling, and the classification of a press-drag-release into
    a scroll, a tap or a horizontal swipe. */
module Scrolling {
  import opened Kit

  /** The constants of one grid: outer margin, gaps between columns and
      rows, card size, and the y of the first row. */
  datatype Layout = Layout(margin: int, gapX: int, gapY: int, cardW: int, cardH: int, gridTop: int) {
    /** Cards have a size and gaps are not negative, as in both screens. */
    predicate Spaced() {
      gapX >= 0 && gapY >= 0 && cardW >= 0 && cardH >= 0
    }
  }

  /** `_card_rect`: card `i` sits in column `i % 2` and row `i // 2`, and
      the whole grid is shifted up by the scroll offset. */
  function CardRect(g: Layout, i: nat, scroll: int): (r: Rect)
    ensures r.w == g.cardW && r.h == g.cardH
  {
    Rect(g.margin + (i % 2) * (g.cardW + g.gapX), g.gridTop + (i / 2) * (g.cardH + g.gapY) - scroll, g.cardW, g.cardH)
  }

  /** The grid shape: even cards are in the left column, odd ones in the
      right column one card width and gap further, card `i + 2` is one
      card height and gap below card `i`, and scrolling by `s` moves every
      card up by `s`. */
  lemma GridShape(g: Layout, i: nat, s: int)
    ensures CardRect(g, i, s).x == g.margin + (if i % 2 == 0 then 0 else g.cardW + g.gapX)
    ensures CardRect(g, i + 2, s).x == CardRect(g, i, s).x
    ensures CardRect(g, i + 2, s).y == CardRect(g, i, s).y + g.cardH + g.gapY
    ensures CardRect(g, i, s).y == CardRect(g, i, 0).y - s
  {
    assert (i + 2) % 2 == i % 2 && (i + 2) / 2 == i / 2 + 1;
    var k := g.cardH + g.gapY;
    assert (i / 2 + 1) * k == (i / 2) * k + k;
  }

  /** Two rows of a spaced grid never overlap. */
  lemma RowsApart(k: int, h: int, a: nat, b: nat)
    requires 0 <= h <= k && a < b
    ensures a * k + h <= b * k
  {
    assert b * k == a * k + (b - a) * k;
    assert (b - a) * k >= k by {
      assert (b - a) * k == k + (b - a - 1) * k;
    }
  }

  /** No point lies in two different cards of a spaced grid, so a tap can
      activate at most one card. */
  lemma CardsDisjoint(g: Layout, i: nat, j: nat, scroll: int, p: Point)
    requires g.Spaced() && i != j
    ensures !(CardRect(g, i, scroll).Contains(p) && CardRect(g, j, scroll).Contains(p))
  {
    if CardRect(g, i, scroll).Contains(p) && CardRect(g, j, scroll).Contains(p) {
      if i % 2 != j % 2 {
        assert false;
      }
      assert i / 2 != j / 2;
      var k := g.cardH + g.gapY;
      if i / 2 < j / 2 {
        RowsApart(k, g.cardH, i / 2, j / 2);
      } else {
        RowsApart(k, g.cardH, j / 2, i / 2);
      }
    }
  }

  /** `_clamp_scroll`: `max(0, min(v, hi))`. */
  function Clamp(v: int, hi: int): (r: int)
    ensures hi >= 0 ==> 0 <= r <= hi
    ensures 0 <= v <= hi ==> r == v
    ensures v < 0 ==> r == 0
    ensures v > hi && hi >= 0 ==> r == hi
  {
    Max(0, Min(v, hi))
  }

  /** Scrolling engages once the travel from the press point is more than
      10 pixels vertically and more vertical than horizontal. */
  predicate EngagesScroll(down: Point, pos: Point) {
    Abs(pos.y - down.y) > 10 && Abs(pos.y - down.y) > Abs(pos.x - down.x)
  }

  /** The scroll offset and the scrolling flag after a motion event. */
  datatype Drag = Drag(scroll: int, scrolling: bool)

  /** A motion event while a touch is down: once scrolling, the content
      follows the finger by the vertical step since the previous event,
      clamped to `[0, hi]`. */
  function Motion(scroll: int, hi: int, down: Point, prevY: int, scrolling: bool, pos: Point): (r: Drag)
    ensures r.scrolling <==> scrolling || EngagesScroll(down, pos)
    ensures !r.scrolling ==> r.scroll == scroll
    ensures 0 <= scroll <= hi ==> 0 <= r.scroll <= hi
  {
    var now := scrolling || EngagesScroll(down, pos);
    Drag(if now then Clamp(scroll - (pos.y - prevY), hi) else scroll, now)
  }

  /** The content moves opposite to the finger: dragging down never raises
      the offset and dragging up never lowers it; inside the range the
      offset moves by exactly the step. */
  lemma MotionFollowsFinger(scroll: int, hi: int, down: Point, prevY: int, scrolling: bool, pos: Point)
    requires 0 <= scroll <= hi
    ensures var r := Motion(scroll, hi, down, prevY, scrolling, pos);
      && (pos.y >= prevY ==> r.scroll <= scroll)
      && (pos.y <= prevY ==> r.scroll >= scroll)
      && (r.scrolling && 0 <= scroll - (pos.y - prevY) <= hi ==> r.scroll == scroll - (pos.y - prevY))
  {
  }

  /** What a release means. */
  datatype Gesture = Swipe(leftward: bool) | Tap | NoGesture

  /** A release `(dx, dy)` away from the press point, not while scrolling:
      more than 80 pixels sideways and more than one and a half times the
      vertical travel is a swipe; less than 15 pixels both ways is a tap.
      `abs(dx) > abs(dy) * 1.5` is compared on whole numbers as
      `2 * |dx| > 3 * |dy|`, which is the same test. */
  function Classify(dx: int, dy: int, scrolling: bool): (r: Gesture)
    ensures r.Swipe? <==> !scrolling && Abs(dx) > 80 && 2 * Abs(dx) > 3 * Abs(dy)
    ensures r.Swipe? ==> (r.leftward <==> dx < 0)
    ensures r == Tap <==> !scrolling && Abs(dx) < 15 && Abs(dy) < 15
    ensures scrolling ==> r == NoGesture
  {
    if !scrolling && Abs(dx) > 80 && 2 * Abs(dx) > 3 * Abs(dy) then Swipe(dx < 0)
    else if !scrolling && Abs(dx) < 15 && Abs(dy) < 15 then Tap
    else NoGesture
  }

  /** A card can be tapped when it contains the point and its top edge is
      not scrolled above `minTop` (under the header). */
  predicate Tappable(g: Layout, i: nat, scroll: int, pos: Point, minTop: int) {
    CardRect(g, i, scroll).Contains(pos) && CardRect(g, i, scroll).y >= minTop
  }

  /** The `for i in range(n)` search with its `break`: the first tappable
      card. In a spaced grid no other card even contains the point. */
  method FindCard(g: Layout, n: nat, scroll: int, pos: Point, minTop: int) returns (k: Option<nat>)
    ensures k.Some? ==> k.value < n && Tappable(g, k.value, scroll, pos, minTop)
    ensures k.Some? ==> forall j :: 0 <= j < k.value ==> !Tappable(g, j, scroll, pos, minTop)
    ensures k.None? ==> forall j :: 0 <= j < n ==> !Tappable(g, j, scroll, pos, minTop)
    ensures k.Some? && g.Spaced() ==>
      forall j: nat :: j != k.value ==> !CardRect(g, j, scroll).Contains(pos)
  {
    var i := 0;
    while i < n
      invariant 0 <= i <= n
      invariant forall j :: 0 <= j < i ==> !Tappable(g, j, scroll, pos, minTop)
    {
      if Tappable(g, i, scroll, pos, minTop) {
        k := Some(i);
        if g.Spaced() {
          forall j: nat | j != i
            ensures !CardRect(g, j, scroll).Contains(pos)
          {
            CardsDisjoint(g, i, j, scroll, pos);
          }
        }
        return;
      }
      i := i + 1;
    }
    k := None;
  }
}
