// OscUtils' pixel drawing: a texture is an array2 of colour ids indexed
// [x, y]; SetPixel clamps coordinates into the texture (the textures use
// the Clamp wrap mode), and lines are drawn with integer Bresenham steps.

module Raster {
  import opened Numerics

  datatype Point = Point(x: int, y: int)

  /** One SetPixel call. */
  datatype Stroke = Stroke(x: int, y: int, color: int)

  /** A texture the drawing code can address: at least one pixel each way. */
  predicate IsTexture(tex: array2<int>)
  {
    tex.Length0 >= 1 && tex.Length1 >= 1
  }

  /** Does the stroke land on pixel (px, py) once its coordinates are clamped? */
  predicate Lands(s: Stroke, w: int, h: int, px: int, py: int)
  {
    ClampIndex(s.x, w) == px && ClampIndex(s.y, h) == py
  }

  /** The colour of pixel (px, py) after the strokes, in order, on a w x h texture where it was `before`. */
  function Paint(strokes: seq<Stroke>, w: int, h: int, px: int, py: int, before: int): int
    decreases |strokes|
  {
    if |strokes| == 0 then before
    else if Lands(strokes[|strokes| - 1], w, h, px, py) then strokes[|strokes| - 1].color
    else Paint(strokes[..|strokes| - 1], w, h, px, py, before)
  }

  /** Painting two batches is painting the second over the result of the first. */
  lemma {:induction false} PaintAppend(a: seq<Stroke>, b: seq<Stroke>, w: int, h: int, px: int, py: int, before: int)
    ensures Paint(a + b, w, h, px, py, before) == Paint(b, w, h, px, py, Paint(a, w, h, px, py, before))
    decreases |b|
  {
    if |b| > 0 {
      var n := |b| - 1;
      assert (a + b)[..|a + b| - 1] == a + b[..n];
      assert (a + b)[|a + b| - 1] == b[n];
      PaintAppend(a, b[..n], w, h, px, py, before);
    } else {
      assert a + b == a;
    }
  }

  /** Some stroke lands on the pixel. */
  predicate Hit(strokes: seq<Stroke>, w: int, h: int, px: int, py: int)
  {
    exists k :: 0 <= k < |strokes| && Lands(strokes[k], w, h, px, py)
  }

  /** With a single colour, a pixel ends in that colour exactly when some stroke lands on it. */
  lemma {:induction false} PaintUniform(strokes: seq<Stroke>, color: int, w: int, h: int, px: int, py: int, before: int)
    requires forall k :: 0 <= k < |strokes| ==> strokes[k].color == color
    ensures Paint(strokes, w, h, px, py, before) == if Hit(strokes, w, h, px, py) then color else before
    decreases |strokes|
  {
    if |strokes| > 0 {
      var n := |strokes| - 1;
      var front := strokes[..n];
      PaintUniform(front, color, w, h, px, py, before);
      if Hit(strokes, w, h, px, py) && !Lands(strokes[n], w, h, px, py) {
        var k :| 0 <= k < |strokes| && Lands(strokes[k], w, h, px, py);
        assert front[k] == strokes[k];
      }
      if Hit(front, w, h, px, py) {
        var k :| 0 <= k < |front| && Lands(front[k], w, h, px, py);
        assert strokes[k] == front[k];
      }
    }
  }

  /** The texture now holds the old one painted over with the strokes. */
  twostate predicate Repainted(tex: array2<int>, strokes: seq<Stroke>)
    reads tex
  {
    forall i, j :: 0 <= i < tex.Length0 && 0 <= j < tex.Length1 ==>
      tex[i, j] == Paint(strokes, tex.Length0, tex.Length1, i, j, old(tex[i, j]))
  }

  /** The colours of the texture, column by column. */
  ghost function Snapshot(tex: array2<int>): (s: seq<seq<int>>)
    reads tex
    ensures |s| == tex.Length0
    ensures forall i :: 0 <= i < |s| ==> |s[i]| == tex.Length1
    ensures forall i, j :: 0 <= i < tex.Length0 && 0 <= j < tex.Length1 ==> s[i][j] == tex[i, j]
  {
    seq(tex.Length0, i requires 0 <= i < tex.Length0 reads tex =>
      seq(tex.Length1, j requires 0 <= j < tex.Length1 reads tex => tex[i, j]))
  }

  /** The texture holds the colours `base` painted over with the strokes. */
  ghost predicate PaintedOver(tex: array2<int>, base: seq<seq<int>>, strokes: seq<Stroke>)
    reads tex
  {
    && |base| == tex.Length0
    && (forall i :: 0 <= i < |base| ==> |base[i]| == tex.Length1)
    && forall i, j :: 0 <= i < tex.Length0 && 0 <= j < tex.Length1 ==>
         tex[i, j] == Paint(strokes, tex.Length0, tex.Length1, i, j, base[i][j])
  }

  /** The colours `prev` are the colours `base` painted over with the strokes. */
  ghost predicate Layered(prev: seq<seq<int>>, base: seq<seq<int>>, strokes: seq<Stroke>, w: int, h: int)
  {
    && |prev| == |base| == w
    && (forall i :: 0 <= i < w ==> |prev[i]| == |base[i]| == h)
    && forall i, j :: 0 <= i < w && 0 <= j < h ==> prev[i][j] == Paint(strokes, w, h, i, j, base[i][j])
  }

  /** The colours of a texture painted over `base` are `base` painted over. */
  lemma Checkpoint(tex: array2<int>, base: seq<seq<int>>, done: seq<Stroke>) returns (prev: seq<seq<int>>)
    requires PaintedOver(tex, base, done)
    ensures prev == Snapshot(tex)
    ensures Layered(prev, base, done, tex.Length0, tex.Length1)
  {
    prev := Snapshot(tex);
  }

  /** A drawing step over the checkpoint after the strokes so far: the texture is now painted with both, in order. */
  lemma PaintedThen(tex: array2<int>, base: seq<seq<int>>, done: seq<Stroke>, prev: seq<seq<int>>, more: seq<Stroke>)
    requires Layered(prev, base, done, tex.Length0, tex.Length1)
    requires PaintedOver(tex, prev, more)
    ensures PaintedOver(tex, base, done + more)
  {
    forall i, j | 0 <= i < tex.Length0 && 0 <= j < tex.Length1
      ensures tex[i, j] == Paint(done + more, tex.Length0, tex.Length1, i, j, base[i][j])
    {
      PaintAppend(done, more, tex.Length0, tex.Length1, i, j, base[i][j]);
    }
  }

  /** Texture2D.SetPixel with the Clamp wrap mode. */
  method SetPixel(tex: array2<int>, x: int, y: int, color: int)
    requires IsTexture(tex)
    modifies tex
    ensures Repainted(tex, [Stroke(x, y, color)])
    ensures tex[ClampIndex(x, tex.Length0), ClampIndex(y, tex.Length1)] == color
  {
    tex[ClampIndex(x, tex.Length0), ClampIndex(y, tex.Length1)] := color;
  }

  /** Texture2D.SetPixels with a buffer of one colour: every pixel gets it. */
  method Fill(tex: array2<int>, color: int)
    modifies tex
    ensures forall i, j :: 0 <= i < tex.Length0 && 0 <= j < tex.Length1 ==> tex[i, j] == color
  {
    var i := 0;
    while i < tex.Length0
      invariant 0 <= i <= tex.Length0
      invariant forall a, b :: 0 <= a < i && 0 <= b < tex.Length1 ==> tex[a, b] == color
    {
      var j := 0;
      while j < tex.Length1
        invariant 0 <= j <= tex.Length1
        invariant forall a, b :: 0 <= a < i && 0 <= b < tex.Length1 ==> tex[a, b] == color
        invariant forall b :: 0 <= b < j ==> tex[i, b] == color
      {
        tex[i, j] := color;
        j := j + 1;
      }
      i := i + 1;
    }
  }

  /** The strokes that set each point to one colour. */
  function Strokes(points: seq<Point>, color: int): (s: seq<Stroke>)
    ensures |s| == |points|
    ensures forall k :: 0 <= k < |s| ==> s[k] == Stroke(points[k].x, points[k].y, color)
  {
    seq(|points|, k requires 0 <= k < |points| => Stroke(points[k].x, points[k].y, color))
  }

  lemma StrokesAppend(a: seq<Point>, b: seq<Point>, color: int)
    ensures Strokes(a + b, color) == Strokes(a, color) + Strokes(b, color)
  {
  }

  // ---------------------------------------------------------------------
  // Bresenham
  // ---------------------------------------------------------------------

  /**
   * The points PlotLineLow visits from column x on, with error term d and
   * current row y: one point per column up to x1, stepping the row by yi
   * whenever the error term is positive.
   */
  function LowFrom(x: int, x1: int, y: int, d: int, dx: int, dy: int, yi: int): seq<Point>
    decreases x1 - x + 1
  {
    if x > x1 then []
    else if d > 0 then [Point(x, y)] + LowFrom(x + 1, x1, y + yi, d - 2 * dx + 2 * dy, dx, dy, yi)
    else [Point(x, y)] + LowFrom(x + 1, x1, y, d + 2 * dy, dx, dy, yi)
  }

  /** The row step of PlotLineLow: the sign of y1 - y0. */
  function StepOf(delta: int): int
  {
    if delta < 0 then -1 else 1
  }

  /** The points of PlotLineLow(x0, y0, x1, y1). */
  function LowPoints(x0: int, y0: int, x1: int, y1: int): seq<Point>
  {
    LowFrom(x0, x1, y0, 2 * AbsInt(y1 - y0) - (x1 - x0), x1 - x0, AbsInt(y1 - y0), StepOf(y1 - y0))
  }

  function Swap(p: Point): Point
  {
    Point(p.y, p.x)
  }

  function SwapAll(points: seq<Point>): (s: seq<Point>)
    ensures |s| == |points|
    ensures forall k {:trigger s[k]} :: 0 <= k < |s| ==> s[k] == Swap(points[k])
  {
    seq(|points|, k requires 0 <= k < |points| => Swap(points[k]))
  }

  /** PlotLineHigh is PlotLineLow with the axes exchanged. */
  function HighPoints(x0: int, y0: int, x1: int, y1: int): seq<Point>
  {
    SwapAll(LowPoints(y0, x0, y1, x1))
  }

  /** The points PlotLine sets: shallow lines go by column, steep ones by row, each from the lower end. */
  function LinePoints(x0: int, y0: int, x1: int, y1: int): seq<Point>
  {
    if AbsInt(y1 - y0) < AbsInt(x1 - x0) then
      if x0 > x1 then LowPoints(x1, y1, x0, y0) else LowPoints(x0, y0, x1, y1)
    else
      if y0 > y1 then HighPoints(x1, y1, x0, y0) else HighPoints(x0, y0, x1, y1)
  }

  /** PlotLine does not depend on the order of its endpoints. */
  lemma LineSymmetric(x0: int, y0: int, x1: int, y1: int)
    ensures LinePoints(x0, y0, x1, y1) == LinePoints(x1, y1, x0, y0)
  {
  }

  /** A line whose endpoints coincide takes the steep branch and sets one pixel. */
  lemma LineSinglePoint(x: int, y: int)
    ensures LinePoints(x, y, x, y) == [Point(x, y)]
  {
    assert LowFrom(y, y, x, 0, 0, 0, 1) == [Point(y, x)];
  }

  /** One point per column, consecutive columns, rows moving by 0 or yi. */
  lemma {:induction false} LowFromColumns(x: int, x1: int, y: int, d: int, dx: int, dy: int, yi: int)
    ensures var pts := LowFrom(x, x1, y, d, dx, dy, yi);
              && |pts| == (if x > x1 then 0 else x1 - x + 1)
              && (|pts| > 0 ==> pts[0] == Point(x, y))
              && (forall k :: 0 <= k < |pts| ==> pts[k].x == x + k)
              && (forall k :: 0 <= k < |pts| - 1 ==> pts[k + 1].y - pts[k].y in {0, yi})
    decreases x1 - x + 1
  {
    if x <= x1 {
      if d > 0 {
        LowFromColumns(x + 1, x1, y + yi, d - 2 * dx + 2 * dy, dx, dy, yi);
      } else {
        LowFromColumns(x + 1, x1, y, d + 2 * dy, dx, dy, yi);
      }
    }
  }

  /** a <= b and c >= 0 give a * c <= b * c. */
  lemma {:induction false} MulMonotone(a: int, b: int, c: int)
    requires a <= b && c >= 0
    ensures a * c <= b * c
    decreases b - a
  {
    if a < b {
      MulMonotone(a + 1, b, c);
    }
  }

  /** An error term confined to (-dx, dx] around zero forces zero remaining rows. */
  lemma ZeroFromBounds(dx: int, e: int)
    requires dx > 0 && -dx < 2 * dx * e <= dx
    ensures e == 0
  {
    if e >= 1 {
      MulMonotone(1, e, 2 * dx);
    } else if e <= -1 {
      MulMonotone(e, -1, 2 * dx);
    }
  }

  /**
   * After k of the dx + 1 points, with m row steps taken, the error term is
   * 2dy(k+1) - dx - 2dx*m and stays in (2dy - 2dx, 2dy]; hence the last
   * point is (x1, y0 + yi*dy).
   */
  lemma {:induction false} LowFromEnd(x0: int, x1: int, y0: int, dx: int, dy: int, yi: int,
                                      k: int, m: int, y: int, d: int)
    requires x1 - x0 == dx && 0 <= dy < dx
    requires 0 <= k <= dx
    requires y == y0 + yi * m
    requires d == 2 * dy * (k + 1) - dx - 2 * dx * m
    requires 2 * dy - 2 * dx < d <= 2 * dy
    ensures var pts := LowFrom(x0 + k, x1, y, d, dx, dy, yi);
              |pts| > 0 && pts[|pts| - 1] == Point(x1, y0 + yi * dy)
    decreases dx - k
  {
    if k == dx {
      LastRowArith(dx, dy, m, d);
    } else {
      NextErrorArith(dx, dy, yi, k, m, d);
      if d > 0 {
        LowFromEnd(x0, x1, y0, dx, dy, yi, k + 1, m + 1, y + yi, d - 2 * dx + 2 * dy);
      } else {
        LowFromEnd(x0, x1, y0, dx, dy, yi, k + 1, m, y, d + 2 * dy);
      }
    }
  }

  /** At the last column the bounds on the error term leave exactly dy row steps taken. */
  lemma LastRowArith(dx: int, dy: int, m: int, d: int)
    requires 0 <= dy < dx
    requires d == 2 * dy * (dx + 1) - dx - 2 * dx * m
    requires 2 * dy - 2 * dx < d <= 2 * dy
    ensures m == dy
  {
    assert d == 2 * dx * (dy - m) + 2 * dy - dx;
    ZeroFromBounds(dx, dy - m);
  }

  /** The error term and the row after one more column, with or without a row step. */
  lemma NextErrorArith(dx: int, dy: int, yi: int, k: int, m: int, d: int)
    requires d == 2 * dy * (k + 1) - dx - 2 * dx * m
    ensures d - 2 * dx + 2 * dy == 2 * dy * (k + 2) - dx - 2 * dx * (m + 1)
    ensures d + 2 * dy == 2 * dy * (k + 2) - dx - 2 * dx * m
    ensures yi * m + yi == yi * (m + 1)
  {
  }

  /**
   * PlotLineLow on a line no steeper than the diagonal (|y1 - y0| <= x1 - x0, x0 < x1) sets one pixel per
   * column x0..x1, starting at (x0, y0) and ending at (x1, y1), with the row
   * changing by at most one between neighbouring columns.
   */
  lemma LowLine(x0: int, y0: int, x1: int, y1: int)
    requires AbsInt(y1 - y0) <= x1 - x0 && x0 < x1
    ensures var pts := LowPoints(x0, y0, x1, y1);
              && |pts| == x1 - x0 + 1
              && pts[0] == Point(x0, y0) && pts[|pts| - 1] == Point(x1, y1)
              && (forall k :: 0 <= k < |pts| ==> pts[k].x == x0 + k)
              && (forall k :: 0 <= k < |pts| - 1 ==> AbsInt(pts[k + 1].y - pts[k].y) <= 1)
  {
    var dy, yi := AbsInt(y1 - y0), StepOf(y1 - y0);
    LowFromColumns(x0, x1, y0, 2 * dy - (x1 - x0), x1 - x0, dy, yi);
    if dy < x1 - x0 {
      LowFromEnd(x0, x1, y0, x1 - x0, dy, yi, 0, 0, y0, 2 * dy - (x1 - x0));
    } else {
      LowFromDiagonal(x0, x1, y0, dy, yi);
    }
    assert y0 + yi * dy == y1;
  }

  /** On the diagonal the error term stays positive, so the row steps at every column. */
  lemma {:induction false} LowFromDiagonal(x: int, x1: int, y: int, dx: int, yi: int)
    requires x <= x1 && dx > 0
    ensures var pts := LowFrom(x, x1, y, dx, dx, dx, yi);
              |pts| > 0 && pts[|pts| - 1] == Point(x1, y + yi * (x1 - x))
    decreases x1 - x
  {
    var rest := LowFrom(x + 1, x1, y + yi, dx, dx, dx, yi);
    assert LowFrom(x, x1, y, dx, dx, dx, yi) == [Point(x, y)] + rest by {
      assert dx - 2 * dx + 2 * dx == dx;
    }
    if x < x1 {
      LowFromDiagonal(x + 1, x1, y + yi, dx, yi);
      assert y + yi + yi * (x1 - (x + 1)) == y + yi * (x1 - x);
    }
  }

  /**
   * PlotLineHigh on a steep line (|x1 - x0| <= y1 - y0, y0 < y1) sets one
   * pixel per row y0..y1, from (x0, y0) to (x1, y1), the column changing by
   * at most one between neighbouring rows.
   */
  lemma HighLine(x0: int, y0: int, x1: int, y1: int)
    requires AbsInt(x1 - x0) <= y1 - y0 && y0 < y1
    ensures var pts := HighPoints(x0, y0, x1, y1);
              && |pts| == y1 - y0 + 1
              && pts[0] == Point(x0, y0) && pts[|pts| - 1] == Point(x1, y1)
              && (forall k :: 0 <= k < |pts| ==> pts[k].y == y0 + k)
              && (forall k :: 0 <= k < |pts| - 1 ==> AbsInt(pts[k + 1].x - pts[k].x) <= 1)
  {
    LowLine(y0, x0, y1, x1);
  }

  /** Whatever the direction and slope, PlotLine sets both of its endpoints. */
  lemma LineEnds(x0: int, y0: int, x1: int, y1: int)
    ensures Point(x0, y0) in LinePoints(x0, y0, x1, y1) && Point(x1, y1) in LinePoints(x0, y0, x1, y1)
  {
    if AbsInt(y1 - y0) < AbsInt(x1 - x0) {
      if x0 > x1 {
        LowLine(x1, y1, x0, y0);
      } else {
        LowLine(x0, y0, x1, y1);
      }
    } else if y0 > y1 {
      HighLine(x1, y1, x0, y0);
    } else if y0 < y1 {
      HighLine(x0, y0, x1, y1);
    } else {
      LineSinglePoint(x0, y0);
    }
  }

  /** A horizontal or vertical run stays on its row or column. */
  lemma {:induction false} LowFromFlat(x: int, x1: int, y: int, d: int, dx: int, yi: int)
    requires d <= 0
    ensures forall k :: 0 <= k < |LowFrom(x, x1, y, d, dx, 0, yi)| ==> LowFrom(x, x1, y, d, dx, 0, yi)[k].y == y
    decreases x1 - x + 1
  {
    if x <= x1 {
      LowFromFlat(x + 1, x1, y, d, dx, yi);
    }
  }

  /** A horizontal segment covers every column between its ends, on its row. */
  lemma HorizontalLine(xa: int, xb: int, y: int)
    ensures forall i :: (xa <= i <= xb || xb <= i <= xa) ==> Point(i, y) in LinePoints(xa, y, xb, y)
  {
    var lo, hi := if xa <= xb then xa else xb, if xa <= xb then xb else xa;
    if lo == hi {
      LineSinglePoint(lo, y);
    } else {
      LineSymmetric(xa, y, xb, y);
      var pts := LowPoints(lo, y, hi, y);
      assert LinePoints(xa, y, xb, y) == pts;
      LowFromColumns(lo, hi, y, -(hi - lo), hi - lo, 0, 1);
      LowFromFlat(lo, hi, y, -(hi - lo), hi - lo, 1);
      forall i | lo <= i <= hi
        ensures Point(i, y) in pts
      {
        assert pts[i - lo] == Point(i, y);
      }
    }
  }

  /** A vertical segment covers every row between its ends, in its column. */
  lemma VerticalLine(x: int, ya: int, yb: int)
    ensures forall j :: (ya <= j <= yb || yb <= j <= ya) ==> Point(x, j) in LinePoints(x, ya, x, yb)
  {
    var lo, hi := if ya <= yb then ya else yb, if ya <= yb then yb else ya;
    LineSymmetric(x, ya, x, yb);
    var pts := HighPoints(x, lo, x, hi);
    assert LinePoints(x, ya, x, yb) == pts;
    var low := LowPoints(lo, x, hi, x);
    LowFromColumns(lo, hi, x, -(hi - lo), hi - lo, 0, 1);
    LowFromFlat(lo, hi, x, -(hi - lo), hi - lo, 1);
    forall j | lo <= j <= hi
      ensures Point(x, j) in pts
    {
      assert low[j - lo] == Point(j, x);
      assert pts[j - lo] == Point(x, j);
    }
  }

  // ---------------------------------------------------------------------
  // The drawing methods
  // ---------------------------------------------------------------------

  method PlotLine(tex: array2<int>, x0: int, y0: int, x1: int, y1: int, color: int)
    requires IsTexture(tex)
    modifies tex
    ensures Repainted(tex, Strokes(LinePoints(x0, y0, x1, y1), color))
  {
    if AbsInt(y1 - y0) < AbsInt(x1 - x0) {
      if x0 > x1 {
        PlotLineLow(tex, x1, y1, x0, y0, color);
      } else {
        PlotLineLow(tex, x0, y0, x1, y1, color);
      }
    } else {
      if y0 > y1 {
        PlotLineHigh(tex, x1, y1, x0, y0, color);
      } else {
        PlotLineHigh(tex, x0, y0, x1, y1, color);
      }
    }
  }

  /** Moving one point from the front of the rest to the end of the points done. */
  lemma AppendShift(done: seq<Point>, p: Point, rest: seq<Point>)
    ensures done + ([p] + rest) == (done + [p]) + rest
  {
  }

  /** One SetPixel of a line, over the points set so far. */
  method PlotPoint(tex: array2<int>, x: int, y: int, color: int, ghost base: seq<seq<int>>, ghost done: seq<Point>)
    requires IsTexture(tex) && PaintedOver(tex, base, Strokes(done, color))
    modifies tex
    ensures PaintedOver(tex, base, Strokes(done + [Point(x, y)], color))
  {
    ghost var prev := Checkpoint(tex, base, Strokes(done, color));
    SetPixel(tex, x, y, color);
    PaintedThen(tex, base, Strokes(done, color), prev, [Stroke(x, y, color)]);
    StrokesAppend(done, [Point(x, y)], color);
    assert Strokes([Point(x, y)], color) == [Stroke(x, y, color)];
  }

  /** One SetPixel of a steep line, at (x, y) for the walk's point (y, x). */
  method PlotSwapped(tex: array2<int>, y: int, x: int, color: int, ghost base: seq<seq<int>>, ghost doneLow: seq<Point>)
    requires IsTexture(tex) && PaintedOver(tex, base, Strokes(SwapAll(doneLow), color))
    modifies tex
    ensures PaintedOver(tex, base, Strokes(SwapAll(doneLow + [Point(y, x)]), color))
  {
    SwapSnoc(doneLow, Point(y, x));
    PlotPoint(tex, x, y, color, base, SwapAll(doneLow));
  }

  method PlotLineLow(tex: array2<int>, x0: int, y0: int, x1: int, y1: int, color: int)
    requires IsTexture(tex)
    modifies tex
    ensures Repainted(tex, Strokes(LowPoints(x0, y0, x1, y1), color))
  {
    var dx := x1 - x0;
    var dy := y1 - y0;
    var yi := 1;
    if dy < 0 {
      yi := -1;
      dy := -dy;
    }
    var d := 2 * dy - dx;
    var y := y0;
    ghost var done: seq<Point> := [];
    ghost var base := Snapshot(tex);
    ghost var walk := LowPoints(x0, y0, x1, y1);
    var x := x0;
    while x <= x1
      invariant done + LowFrom(x, x1, y, d, dx, dy, yi) == walk
      invariant PaintedOver(tex, base, Strokes(done, color))
      decreases x1 - x + 1
    {
      PlotPoint(tex, x, y, color, base, done);
      LowStep(x, x1, y, d, dx, dy, yi);
      ghost var p := Point(x, y);
      y, d := if d > 0 then y + yi else y, (if d > 0 then d - 2 * dx else d) + 2 * dy;
      x := x + 1;
      AppendShift(done, p, LowFrom(x, x1, y, d, dx, dy, yi));
      done := done + [p];
    }
    assert LowFrom(x, x1, y, d, dx, dy, yi) == [];
    assert done == walk;
  }

  method PlotLineHigh(tex: array2<int>, x0: int, y0: int, x1: int, y1: int, color: int)
    requires IsTexture(tex)
    modifies tex
    ensures Repainted(tex, Strokes(HighPoints(x0, y0, x1, y1), color))
  {
    var dx := x1 - x0;
    var dy := y1 - y0;
    var xi := 1;
    if dx < 0 {
      xi := -1;
      dx := -dx;
    }
    var d := 2 * dx - dy;
    var x := x0;
    assert dx == AbsInt(x1 - x0) && xi == StepOf(x1 - x0);
    // The walk of PlotLineLow with the axes exchanged: doneLow holds the
    // points set so far, each written (y, x).
    ghost var doneLow: seq<Point> := [];
    ghost var base := Snapshot(tex);
    ghost var walk := LowPoints(y0, x0, y1, x1);
    var y := y0;
    while y <= y1
      invariant doneLow + LowFrom(y, y1, x, d, dy, dx, xi) == walk
      invariant PaintedOver(tex, base, Strokes(SwapAll(doneLow), color))
      decreases y1 - y + 1
    {
      ghost var p := Point(y, x);
      PlotSwapped(tex, y, x, color, base, doneLow);
      LowStep(y, y1, x, d, dy, dx, xi);
      x, d := if d > 0 then x + xi else x, (if d > 0 then d - 2 * dy else d) + 2 * dx;
      y := y + 1;
      AppendShift(doneLow, p, LowFrom(y, y1, x, d, dy, dx, xi));
      doneLow := doneLow + [p];
    }
    assert LowFrom(y, y1, x, d, dy, dx, xi) == [];
    assert doneLow == walk;
  }


  /** One loop step of the low-slope walk: emit the current point, then move on. */
  lemma LowStep(x: int, x1: int, y: int, d: int, dx: int, dy: int, yi: int)
    requires x <= x1
    ensures LowFrom(x, x1, y, d, dx, dy, yi) ==
      [Point(x, y)] + LowFrom(x + 1, x1, if d > 0 then y + yi else y, (if d > 0 then d - 2 * dx else d) + 2 * dy, dx, dy, yi)
  {
  }

  lemma SwapSnoc(points: seq<Point>, p: Point)
    ensures SwapAll(points + [p]) == SwapAll(points) + [Swap(p)]
  {
    assert SwapAll(points + [p])[|points|] == Swap(p);
  }

  /** PlotRectangle: left, bottom, top and right edges, in that order. */
  function RectanglePoints(x1: int, y1: int, x2: int, y2: int): seq<Point>
  {
    LinePoints(x1, y1, x1, y2) + LinePoints(x1, y1, x2, y1) +
    LinePoints(x2, y2, x1, y2) + LinePoints(x2, y2, x2, y1)
  }

  /** The four edges cover the whole border between the two corners, in either order. */
  lemma RectangleBorder(x1: int, y1: int, x2: int, y2: int)
    ensures forall i :: (x1 <= i <= x2 || x2 <= i <= x1) ==>
              Point(i, y1) in RectanglePoints(x1, y1, x2, y2) && Point(i, y2) in RectanglePoints(x1, y1, x2, y2)
    ensures forall j :: (y1 <= j <= y2 || y2 <= j <= y1) ==>
              Point(x1, j) in RectanglePoints(x1, y1, x2, y2) && Point(x2, j) in RectanglePoints(x1, y1, x2, y2)
  {
    VerticalLine(x1, y1, y2);
    HorizontalLine(x1, x2, y1);
    HorizontalLine(x2, x1, y2);
    VerticalLine(x2, y2, y1);
  }

  method PlotRectangle(tex: array2<int>, x1: int, y1: int, x2: int, y2: int, color: int)
    requires IsTexture(tex)
    modifies tex
    ensures Repainted(tex, Strokes(RectanglePoints(x1, y1, x2, y2), color))
  {
    ghost var left := Strokes(LinePoints(x1, y1, x1, y2), color);
    ghost var bottom := Strokes(LinePoints(x1, y1, x2, y1), color);
    ghost var top := Strokes(LinePoints(x2, y2, x1, y2), color);
    ghost var right := Strokes(LinePoints(x2, y2, x2, y1), color);
    PlotLine(tex, x1, y1, x1, y2, color);
    label l1:
    PlotLine(tex, x1, y1, x2, y1, color);
    label l2:
    PlotLine(tex, x2, y2, x1, y2, color);
    label l3:
    PlotLine(tex, x2, y2, x2, y1, color);
    forall i, j | 0 <= i < tex.Length0 && 0 <= j < tex.Length1
      ensures tex[i, j] == Paint(left + bottom + top + right, tex.Length0, tex.Length1, i, j, old(tex[i, j]))
    {
      var w, h := tex.Length0, tex.Length1;
      PaintAppend(left, bottom, w, h, i, j, old(tex[i, j]));
      PaintAppend(left + bottom, top, w, h, i, j, old(tex[i, j]));
      PaintAppend(left + bottom + top, right, w, h, i, j, old(tex[i, j]));
      assert old@l1(tex[i, j]) == Paint(left, w, h, i, j, old(tex[i, j]));
      assert old@l2(tex[i, j]) == Paint(bottom, w, h, i, j, old@l1(tex[i, j]));
      assert old@l3(tex[i, j]) == Paint(top, w, h, i, j, old@l2(tex[i, j]));
    }
    StrokesAppend(LinePoints(x1, y1, x1, y2), LinePoints(x1, y1, x2, y1), color);
    StrokesAppend(LinePoints(x1, y1, x1, y2) + LinePoints(x1, y1, x2, y1), LinePoints(x2, y2, x1, y2), color);
    StrokesAppend(LinePoints(x1, y1, x1, y2) + LinePoints(x1, y1, x2, y1) + LinePoints(x2, y2, x1, y2),
                  LinePoints(x2, y2, x2, y1), color);
  }
}
