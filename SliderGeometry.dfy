/**
 * The arithmetic of the slider base class: how a touch x becomes a position
 * in [0, 1], how an x coordinate becomes the selector's offset, and the
 * three nested rectangles the bar is drawn in.
 *
 * Widths are whole pixels; Java `float` values are `real`.
 */
module SliderGeometry {
  import opened JavaNumerics

  /** Left end of the touch track: one full selector width from the edge. */
  function TrackLeft(selectorWidth: int): real
  {
    selectorWidth as real
  }

  /** Right end of the touch track: one full selector width from the right edge. */
  function TrackRight(width: int, selectorWidth: int): real
  {
    (width - selectorWidth) as real
  }

  /** `x` moved into [lo, hi]. */
  function Clamp(x: real, lo: real, hi: real): (r: real)
    requires lo <= hi
    ensures lo <= r <= hi
    ensures lo <= x <= hi ==> r == x
  {
    if x < lo then lo else if x > hi then hi else x
  }

  /**
   * The position a touch at `eventX` reports. On a track wider than two
   * selectors it is the clamped touch x as a fraction of the track; on a
   * narrower one the two clamps both land on the right end, so it is 1.0.
   * A track of exactly two selector widths divides by zero and is excluded.
   */
  function TouchPosition(eventX: real, width: int, selectorWidth: int): (p: real)
    requires width != 2 * selectorWidth
    ensures 0.0 <= p <= 1.0
  {
    var left, right := TrackLeft(selectorWidth), TrackRight(width, selectorWidth);
    if right < left then 1.0
    else
      FractionInRange(Clamp(eventX, left, right), left, right);
      (Clamp(eventX, left, right) - left) / (right - left)
  }

  /** A point of [left, right] lies at a fraction in [0, 1] of that interval. */
  lemma FractionInRange(x: real, left: real, right: real)
    requires left <= x <= right && left < right
    ensures 0.0 <= (x - left) / (right - left) <= 1.0
  {
    var d := right - left;
    assert (x - left) / d * d == x - left;
  }

  /** A touch at or left of the track's left end reports position 0. */
  lemma TouchPositionAtLeftEnd(eventX: real, width: int, selectorWidth: int)
    requires width > 2 * selectorWidth
    requires eventX <= TrackLeft(selectorWidth)
    ensures TouchPosition(eventX, width, selectorWidth) == 0.0
  {
  }

  /** A touch at or right of the track's right end reports position 1. */
  lemma TouchPositionAtRightEnd(eventX: real, width: int, selectorWidth: int)
    requires width != 2 * selectorWidth
    requires eventX >= TrackRight(width, selectorWidth)
    ensures TouchPosition(eventX, width, selectorWidth) == 1.0
  {
  }

  /** Moving the touch to the right never lowers the reported position. */
  lemma TouchPositionMonotone(x1: real, x2: real, width: int, selectorWidth: int)
    requires width != 2 * selectorWidth
    requires x1 <= x2
    ensures TouchPosition(x1, width, selectorWidth) <= TouchPosition(x2, width, selectorWidth)
  {
    var left, right := TrackLeft(selectorWidth), TrackRight(width, selectorWidth);
    if left < right {
      DivideMonotone(Clamp(x1, left, right) - left, Clamp(x2, left, right) - left, right - left);
    }
  }

  /** Dividing by a positive number preserves order. */
  lemma DivideMonotone(a: real, b: real, d: real)
    requires a <= b && 0.0 < d
    ensures a / d <= b / d
  {
    assert a / d * d == a && b / d * d == b;
  }

  /**
   * A touch placed at fraction `p` of the track reports exactly `p`: the
   * touch mapping inverts the placement of a position along the track.
   */
  lemma TouchPositionRoundTrip(p: real, width: int, selectorWidth: int)
    requires width > 2 * selectorWidth
    requires 0.0 <= p <= 1.0
    ensures TouchPosition(TrackLeft(selectorWidth) + p * (TrackRight(width, selectorWidth) - TrackLeft(selectorWidth)),
                          width, selectorWidth) == p
  {
    var left, right := TrackLeft(selectorWidth), TrackRight(width, selectorWidth);
    var d := right - left;
    var x := left + p * d;
    assert left <= x <= right by {
      assert 0.0 <= p * d <= d;
    }
    assert Clamp(x, left, right) - left == p * d;
  }

  /**
   * The position set by `updateSelectorX(x)`: the same fraction as a touch,
   * capped above at 1.0 but with no lower clamp.
   */
  function UpdatePosition(x: int, width: int, selectorWidth: int): (p: real)
    requires width != 2 * selectorWidth
    ensures p <= 1.0
  {
    var left, right := TrackLeft(selectorWidth), TrackRight(width, selectorWidth);
    MinOne((x as real - left) / (right - left))
  }

  /** Inside the track, `updateSelectorX` and a touch at the same x agree. */
  lemma UpdateAgreesWithTouch(x: int, width: int, selectorWidth: int)
    requires width > 2 * selectorWidth
    requires TrackLeft(selectorWidth) <= x as real <= TrackRight(width, selectorWidth)
    ensures UpdatePosition(x, width, selectorWidth) == TouchPosition(x as real, width, selectorWidth)
  {
  }

  /** Left of the track, `updateSelectorX` yields a negative position. */
  lemma UpdatePositionBelowTrack(x: int, width: int, selectorWidth: int)
    requires width > 2 * selectorWidth
    requires (x as real) < TrackLeft(selectorWidth)
    ensures UpdatePosition(x, width, selectorWidth) < 0.0
  {
    var d := TrackRight(width, selectorWidth) - TrackLeft(selectorWidth);
    var a := x as real - TrackLeft(selectorWidth);
    assert a / d * d == a;
  }

  /**
   * `getBoundaryX(x)`: the selector offset for an x coordinate. It is the
   * right-most offset `maxPos = width - selectorSize` at or beyond maxPos,
   * 0 at or left of one selector width, and `x - selectorSize` between.
   */
  function BoundaryX(x: real, width: int, selectorSize: int): (b: real)
    ensures 0 <= selectorSize <= width ==> 0.0 <= b <= (width - selectorSize) as real
    ensures 0 <= selectorSize ==> b <= x || b == 0.0
  {
    var maxPos := width - selectorSize;
    if x >= maxPos as real then maxPos as real
    else if x <= selectorSize as real then 0.0
    else x - selectorSize as real
  }

  /**
   * `setSelectorPosition(p)` does not put the selector where a touch that
   * reports p puts it: on a 200-pixel bar with a 20-pixel selector and no
   * borders, p = 0.5 aims at x = 200 * 0.5 - 20 and lands at offset 60, while
   * the touch that reports 0.5 is at x = 100 and lands at offset 80.
   */
  lemma SetterAndTouchOffsetsDiffer()
    ensures TouchPosition(100.0, 200, 20) == 0.5
    ensures BoundaryX(100.0, 200, 20) == 80.0
    ensures BoundaryX(200.0 * 0.5 - 20.0 - 0.0, 200, 20) == 60.0
  {
    assert Clamp(100.0, 20.0, 180.0) == 100.0;
  }

  /** A larger x never moves the selector to the left. */
  lemma BoundaryXMonotone(x1: real, x2: real, width: int, selectorSize: int)
    requires 0 <= selectorSize <= width - selectorSize
    requires x1 <= x2
    ensures BoundaryX(x1, width, selectorSize) <= BoundaryX(x2, width, selectorSize)
  {
  }

  /** On a whole-pixel x the offset is whole, so the `(int)` cast of it is exact. */
  lemma BoundaryXOfInt(k: int, width: int, selectorSize: int)
    ensures FloatToInt(BoundaryX(k as real, width, selectorSize)) as real == BoundaryX(k as real, width, selectorSize)
  {
    var maxPos := width - selectorSize;
    if k >= maxPos {
      FloatToIntOfInt(maxPos);
    } else if k <= selectorSize {
      FloatToIntOfInt(0);
    } else {
      assert BoundaryX(k as real, width, selectorSize) == (k - selectorSize) as real;
      FloatToIntOfInt(k - selectorSize);
    }
  }

  /**
   * Adding the selector size back to an offset and passing it through
   * `getBoundaryX` restores the offset, as long as the sum stays left of
   * maxPos; this is how a saved offset is replayed when a slider is inflated.
   */
  lemma BoundaryXRestoresOffset(s: int, width: int, selectorSize: int)
    requires 0 <= selectorSize
    requires 0 <= s && s + selectorSize < width - selectorSize
    ensures BoundaryX((s + selectorSize) as real, width, selectorSize) == s as real
  {
  }

  /**
   * From whole-pixel x coordinates the offset never lands in
   * [width - 2 * selectorSize, maxPos): it follows x up to
   * width - 2 * selectorSize - 1 and then jumps to maxPos.
   */
  lemma BoundaryXSkipsBeforeRightEnd(k: int, width: int, selectorSize: int)
    requires 0 <= selectorSize && width > 2 * selectorSize
    ensures var b := BoundaryX(k as real, width, selectorSize);
            b == (width - selectorSize) as real || b <= (width - 2 * selectorSize - 1) as real
  {
    if k < width - selectorSize && k > selectorSize {
      assert k <= width - selectorSize - 1;
      assert BoundaryX(k as real, width, selectorSize) == (k - selectorSize) as real;
    }
  }

  /**
   * Inside the track a whole-pixel touch puts the selector at
   * `x - selectorWidth` and reports that offset as a fraction of the
   * track: the drawn selector and the reported position agree.
   */
  lemma TouchOffsetMatchesPosition(k: int, width: int, selectorWidth: int)
    requires 0 <= selectorWidth && width > 2 * selectorWidth
    requires selectorWidth <= k < width - selectorWidth
    ensures BoundaryX(k as real, width, selectorWidth) == (k - selectorWidth) as real
    ensures TouchPosition(k as real, width, selectorWidth) * (width - 2 * selectorWidth) as real
            == BoundaryX(k as real, width, selectorWidth)
  {
  }

  /** An axis-aligned rectangle, as `RectF(left, top, right, bottom)`. */
  datatype Rect = Rect(left: real, top: real, right: real, bottom: real)

  /** `inner` lies inside `outer` (edges may coincide). */
  predicate Within(inner: Rect, outer: Rect)
  {
    outer.left <= inner.left && outer.top <= inner.top &&
    inner.right <= outer.right && inner.bottom <= outer.bottom
  }

  /** `getBorderSize()`: the outer plus the inner border width. */
  function BorderSize(outerBorderWidth: int, innerBorderWidth: int): int
  {
    outerBorderWidth + innerBorderWidth
  }

  /** Inset of the colour bar: the whole border. */
  function DrawOffset(outerBorderWidth: int, innerBorderWidth: int): real
  {
    BorderSize(outerBorderWidth, innerBorderWidth) as real
  }

  /** Inset of the inner border's stroke: half its width past the outer border. */
  function InnerBorderOffset(outerBorderWidth: int, innerBorderWidth: int): real
  {
    innerBorderWidth as real / 2.0 + outerBorderWidth as real
  }

  /** Inset of the outer border's stroke: half its width. */
  function OuterBorderOffset(outerBorderWidth: int): real
  {
    outerBorderWidth as real / 2.0
  }

  /**
   * The rectangle of a `w` by `h` view inset by `offset` on the left and
   * right and by `offset + padding` at the top and bottom.
   */
  function BarRect(w: int, h: int, offset: real, padding: int): (r: Rect)
    ensures r.left == offset && w as real - r.right == offset
    ensures r.top == offset + padding as real && h as real - r.bottom == offset + padding as real
  {
    Rect(offset, offset + padding as real, w as real - offset, h as real - offset - padding as real)
  }

  /** A larger inset gives a rectangle inside the one of a smaller inset. */
  lemma BarRectsNest(w: int, h: int, small: real, large: real, padding: int)
    requires small <= large
    ensures Within(BarRect(w, h, large, padding), BarRect(w, h, small, padding))
  {
  }

  /**
   * With non-negative border widths the three rectangles of `onSizeChanged`
   * nest: the colour bar inside the inner border inside the outer border.
   */
  lemma LayoutNests(w: int, h: int, outerBorderWidth: int, innerBorderWidth: int, padding: int)
    requires 0 <= outerBorderWidth && 0 <= innerBorderWidth
    ensures Within(BarRect(w, h, DrawOffset(outerBorderWidth, innerBorderWidth), padding),
                   BarRect(w, h, InnerBorderOffset(outerBorderWidth, innerBorderWidth), padding))
    ensures Within(BarRect(w, h, InnerBorderOffset(outerBorderWidth, innerBorderWidth), padding),
                   BarRect(w, h, OuterBorderOffset(outerBorderWidth), padding))
  {
    BarRectsNest(w, h, InnerBorderOffset(outerBorderWidth, innerBorderWidth),
                 DrawOffset(outerBorderWidth, innerBorderWidth), padding);
    BarRectsNest(w, h, OuterBorderOffset(outerBorderWidth),
                 InnerBorderOffset(outerBorderWidth, innerBorderWidth), padding);
  }
}
