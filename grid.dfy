// The oscilloscope grid: a texture of its own, cleared to the background and
// then drawn with dotted lines through the centre every division, dotted
// ruler bars beside the centre lines, and a frame around the screen. Any
// change of the three flags asks for a redraw, which the next Update does.

module Grid {
  import opened Numerics
  import opened Raster
  import Settings

  // ---------------------------------------------------------------------
  // Dotted lines
  // ---------------------------------------------------------------------

  /** The first loop of PlotDotedLineHorizontal: x, x + step, ... while below w. */
  function DotsRight(x: int, y: int, step: int, w: int): seq<Point>
    requires step > 0
    decreases w - x
  {
    if x >= w then [] else [Point(x, y)] + DotsRight(x + step, y, step, w)
  }

  /** The second loop of PlotDotedLineHorizontal: x, x - step, ... while not negative. */
  function DotsLeft(x: int, y: int, step: int): seq<Point>
    requires step > 0
    decreases x + 1
  {
    if x < 0 then [] else [Point(x, y)] + DotsLeft(x - step, y, step)
  }

  /** The first loop of PlotDotedLineVertical: y, y + step, ... while below h. */
  function DotsUp(x: int, y: int, step: int, h: int): seq<Point>
    requires step > 0
    decreases h - y
  {
    if y >= h then [] else [Point(x, y)] + DotsUp(x, y + step, step, h)
  }

  /** The second loop of PlotDotedLineVertical: y, y - step, ... while not negative. */
  function DotsDown(x: int, y: int, step: int): seq<Point>
    requires step > 0
    decreases y + 1
  {
    if y < 0 then [] else [Point(x, y)] + DotsDown(x, y - step, step)
  }

  /** The pixels PlotDotedLineHorizontal sets on a texture w pixels wide, in order. */
  function HLine(x: int, y: int, step: int, w: int): seq<Point>
    requires step > 0
  {
    DotsRight(x, y, step, w) + DotsLeft(x, y, step)
  }

  /** The pixels PlotDotedLineVertical sets on a texture h pixels high, in order. */
  function VLine(x: int, y: int, step: int, h: int): seq<Point>
    requires step > 0
  {
    DotsUp(x, y, step, h) + DotsDown(x, y, step)
  }

  /** The Euclidean remainder is the r of any a == q * step + r with 0 <= r < step. */
  lemma ModUnique(a: int, step: int, q: int, r: int)
    requires step > 0 && 0 <= r < step && a == q * step + r
    ensures a % step == r
  {
    var q0, r0 := a / step, a % step;
    assert (q0 - q) * step == r - r0;
    if q0 > q {
      MulAtLeast(q0 - q, step);
    } else if q0 < q {
      MulAtLeast(q - q0, step);
    }
  }

  lemma MulAtLeast(d: int, step: int)
    requires d >= 1 && step > 0
    ensures d * step >= step
  {
  }

  /** Shifting by one step keeps the remainder; a positive offset below one step is not a multiple. */
  lemma ModStep(a: int, step: int)
    requires step > 0
    ensures (a + step) % step == a % step
    ensures (-a) % step == 0 <==> a % step == 0
    ensures 0 < a < step ==> a % step != 0
  {
    var q := a / step;
    ModUnique(a + step, step, q + 1, a % step);
    if a % step == 0 {
      ModUnique(-a, step, -q, 0);
    }
    if (-a) % step == 0 {
      ModUnique(a, step, -((-a) / step), 0);
    }
    if 0 < a < step {
      ModUnique(a, step, 0, a);
    }
  }

  /** A non-negative multiple of step is zero or a multiple one step further down. */
  lemma MultipleStep(a: int, step: int)
    requires step > 0
    ensures (a >= 0 && a % step == 0) <==> (a == 0 || (a >= step && (a - step) % step == 0))
  {
    ModStep(a - step, step);
    ModStep(a, step);
  }

  lemma {:induction false} DotsRightHas(x: int, y: int, step: int, w: int, p: Point)
    requires step > 0
    ensures p in DotsRight(x, y, step, w) <==> p.y == y && x <= p.x < w && (p.x - x) % step == 0
    decreases w - x
  {
    if x < w {
      DotsRightHas(x + step, y, step, w, p);
      MultipleStep(p.x - x, step);
    }
  }

  lemma {:induction false} DotsLeftHas(x: int, y: int, step: int, p: Point)
    requires step > 0
    ensures p in DotsLeft(x, y, step) <==> p.y == y && 0 <= p.x <= x && (x - p.x) % step == 0
    decreases x + 1
  {
    if x >= 0 {
      DotsLeftHas(x - step, y, step, p);
      MultipleStep(x - p.x, step);
    }
  }

  lemma {:induction false} DotsUpHas(x: int, y: int, step: int, h: int, p: Point)
    requires step > 0
    ensures p in DotsUp(x, y, step, h) <==> p.x == x && y <= p.y < h && (p.y - y) % step == 0
    decreases h - y
  {
    if y < h {
      DotsUpHas(x, y + step, step, h, p);
      MultipleStep(p.y - y, step);
    }
  }

  lemma {:induction false} DotsDownHas(x: int, y: int, step: int, p: Point)
    requires step > 0
    ensures p in DotsDown(x, y, step) <==> p.x == x && 0 <= p.y <= y && (y - p.y) % step == 0
    decreases y + 1
  {
    if y >= 0 {
      DotsDownHas(x, y - step, step, p);
      MultipleStep(y - p.y, step);
    }
  }

  /** A horizontal dotted line through an on-screen (x, y) holds exactly the row's points a whole number of steps from x. */
  lemma HLineHas(x: int, y: int, step: int, w: int, p: Point)
    requires step > 0 && 0 <= x < w
    ensures p in HLine(x, y, step, w) <==> p.y == y && 0 <= p.x < w && (p.x - x) % step == 0
  {
    DotsRightHas(x, y, step, w, p);
    DotsLeftHas(x, y, step, p);
    ModStep(p.x - x, step);
  }

  /** A vertical dotted line through an on-screen (x, y) holds exactly the column's points a whole number of steps from y. */
  lemma VLineHas(x: int, y: int, step: int, h: int, p: Point)
    requires step > 0 && 0 <= y < h
    ensures p in VLine(x, y, step, h) <==> p.x == x && 0 <= p.y < h && (p.y - y) % step == 0
  {
    DotsUpHas(x, y, step, h, p);
    DotsDownHas(x, y, step, p);
    ModStep(p.y - y, step);
  }

  /** On a texture, a stroke at an on-screen point lands on that pixel and no other. */
  lemma LandsInside(points: seq<Point>, color: int, w: int, h: int, px: int, py: int)
    requires forall p :: p in points ==> 0 <= p.x < w && 0 <= p.y < h
    ensures Hit(Strokes(points, color), w, h, px, py) <==> Point(px, py) in points
  {
    var s := Strokes(points, color);
    if Point(px, py) in points {
      var k :| 0 <= k < |points| && points[k] == Point(px, py);
      assert Lands(s[k], w, h, px, py);
    }
    if Hit(s, w, h, px, py) {
      var k :| 0 <= k < |s| && Lands(s[k], w, h, px, py);
      assert points[k] in points;
    }
  }

  /**
   * PlotDotedLineHorizontal through an on-screen point colours exactly the
   * pixels of its row a whole number of steps away, and leaves the rest.
   */
  lemma HLinePixels(x: int, y: int, step: int, w: int, h: int, color: int, px: int, py: int, before: int)
    requires step > 0 && 0 <= x < w && 0 <= y < h && 0 <= px < w && 0 <= py < h
    ensures Paint(Strokes(HLine(x, y, step, w), color), w, h, px, py, before) ==
            if py == y && (px - x) % step == 0 then color else before
  {
    var points := HLine(x, y, step, w);
    forall p | p in points
      ensures 0 <= p.x < w && 0 <= p.y < h
    {
      HLineHas(x, y, step, w, p);
    }
    LandsInside(points, color, w, h, px, py);
    HLineHas(x, y, step, w, Point(px, py));
    PaintUniform(Strokes(points, color), color, w, h, px, py, before);
  }

  /**
   * PlotDotedLineVertical through an on-screen point colours exactly the
   * pixels of its column a whole number of steps away, and leaves the rest.
   */
  lemma VLinePixels(x: int, y: int, step: int, w: int, h: int, color: int, px: int, py: int, before: int)
    requires step > 0 && 0 <= x < w && 0 <= y < h && 0 <= px < w && 0 <= py < h
    ensures Paint(Strokes(VLine(x, y, step, h), color), w, h, px, py, before) ==
            if px == x && (py - y) % step == 0 then color else before
  {
    var points := VLine(x, y, step, h);
    forall p | p in points
      ensures 0 <= p.x < w && 0 <= p.y < h
    {
      VLineHas(x, y, step, h, p);
    }
    LandsInside(points, color, w, h, px, py);
    VLineHas(x, y, step, h, Point(px, py));
    PaintUniform(Strokes(points, color), color, w, h, px, py, before);
  }

  // ---------------------------------------------------------------------
  // The whole grid
  // ---------------------------------------------------------------------

  /** The three drawing flags of the grid. */
  datatype Flags = Flags(drawGrid: bool, drawRulerX: bool, drawRulerY: bool)

  /** The geometry PlotGrid reads from the settings: size, centre, division and subdivision in pixels. */
  datatype Layout = Layout(w: int, h: int, xc: int, yc: int, pxDiv: int, pxSub: int)

  /**
   * PlotGrid's loops end: every step it draws with is positive. A step of
   * zero or less never leaves a loop that draws (StalledDotsNeverEnd).
   */
  predicate Drawable(f: Flags, lay: Layout)
  {
    (f.drawGrid ==> lay.pxDiv > 0) && (f.drawGrid || f.drawRulerX || f.drawRulerY ==> lay.pxSub > 0)
  }

  /**
   * With a step of zero or less, the position of an upward dotted-line loop
   * (`ix += step` while `ix < w`) is still below the bound after any number
   * of passes: the loop never ends.
   */
  lemma {:induction false} StalledDotsNeverEnd(x: int, w: int, step: int, n: nat)
    requires step <= 0 && x < w
    ensures x + n * step < w
  {
    if n > 0 {
      StalledDotsNeverEnd(x, w, step, n - 1);
      assert x + n * step == x + (n - 1) * step + step;
    }
  }

  /**
   * More subdivisions than pixels per division truncate the dot step
   * (pixelsPerDivision / subdivisions) to zero, so every dotted line of the
   * grid starting on screen loops for ever.
   */
  lemma DenseSubdivisionsStall(pixelsPerDivision: int, subdivisions: int, x: int, w: int, n: nat)
    requires 0 <= pixelsPerDivision < subdivisions && x < w
    ensures DivT(pixelsPerDivision, subdivisions) == 0
    ensures x + n * DivT(pixelsPerDivision, subdivisions) < w
  {
    StalledDotsNeverEnd(x, w, DivT(pixelsPerDivision, subdivisions), n);
  }

  /** Vertical dotted lines at x, x + pxDiv, ... below w, crossing row yc. */
  function ColumnsRight(x: int, lay: Layout, th: int): seq<Point>
    requires lay.pxDiv > 0 && lay.pxSub > 0
    decreases lay.w - x
  {
    if x >= lay.w then [] else VLine(x, lay.yc, lay.pxSub, th) + ColumnsRight(x + lay.pxDiv, lay, th)
  }

  /** Vertical dotted lines at x, x - pxDiv, ... down to 0, crossing row yc. */
  function ColumnsLeft(x: int, lay: Layout, th: int): seq<Point>
    requires lay.pxDiv > 0 && lay.pxSub > 0
    decreases x + 1
  {
    if x < 0 then [] else VLine(x, lay.yc, lay.pxSub, th) + ColumnsLeft(x - lay.pxDiv, lay, th)
  }

  /** Horizontal dotted lines at y, y + pxDiv, ... below h, crossing column xc. */
  function RowsUp(y: int, lay: Layout, tw: int): seq<Point>
    requires lay.pxDiv > 0 && lay.pxSub > 0
    decreases lay.h - y
  {
    if y >= lay.h then [] else HLine(lay.xc, y, lay.pxSub, tw) + RowsUp(y + lay.pxDiv, lay, tw)
  }

  /** Horizontal dotted lines at y, y - pxDiv, ... down to 0, crossing column xc. */
  function RowsDown(y: int, lay: Layout, tw: int): seq<Point>
    requires lay.pxDiv > 0 && lay.pxSub > 0
    decreases y + 1
  {
    if y < 0 then [] else HLine(lay.xc, y, lay.pxSub, tw) + RowsDown(y - lay.pxDiv, lay, tw)
  }

  /** The main grid: columns right of and through the centre, then left, then rows up, then down. */
  function MainGrid(lay: Layout, tw: int, th: int): seq<Point>
    requires lay.pxDiv > 0 && lay.pxSub > 0
  {
    ColumnsRight(lay.xc, lay, th) + ColumnsLeft(lay.xc - lay.pxDiv, lay, th) +
    RowsUp(lay.yc, lay, tw) + RowsDown(lay.yc - lay.pxDiv, lay, tw)
  }

  /** The horizontal ruler bar: dotted rows two and one above and one and two below the centre. */
  function RulerX(lay: Layout, tw: int): seq<Point>
    requires lay.pxSub > 0
  {
    HLine(lay.xc, lay.yc + 2, lay.pxSub, tw) + HLine(lay.xc, lay.yc + 1, lay.pxSub, tw) +
    HLine(lay.xc, lay.yc - 1, lay.pxSub, tw) + HLine(lay.xc, lay.yc - 2, lay.pxSub, tw)
  }

  /** The vertical ruler bar: dotted columns two and one right and one and two left of the centre. */
  function RulerY(lay: Layout, th: int): seq<Point>
    requires lay.pxSub > 0
  {
    VLine(lay.xc + 2, lay.yc, lay.pxSub, th) + VLine(lay.xc + 1, lay.yc, lay.pxSub, th) +
    VLine(lay.xc - 1, lay.yc, lay.pxSub, th) + VLine(lay.xc - 2, lay.yc, lay.pxSub, th)
  }

  /** Everything PlotGrid draws on a tw x th texture, in order; the frame comes last whatever the flags. */
  function GridPoints(f: Flags, lay: Layout, tw: int, th: int): seq<Point>
    requires Drawable(f, lay)
  {
    FlagLines(f, lay, tw, th) + Frame(lay.w, lay.h)
  }

  /** The dotted lines the flags ask for: main grid, then horizontal ruler, then vertical ruler. */
  function FlagLines(f: Flags, lay: Layout, tw: int, th: int): seq<Point>
    requires Drawable(f, lay)
  {
    (if f.drawGrid then MainGrid(lay, tw, th) else []) +
    (if f.drawRulerX then RulerX(lay, tw) else []) +
    (if f.drawRulerY then RulerY(lay, th) else [])
  }

  /** Pixel (px, py) is on the outermost ring of a w x h screen. */
  predicate OnBorder(px: int, py: int, w: int, h: int)
  {
    px == 0 || px == w - 1 || py == 0 || py == h - 1
  }

  /** The frame PlotGrid draws around a w x h screen: PlotRectangle from (0, 0) to (w - 1, h - 1). */
  function Frame(w: int, h: int): seq<Point>
  {
    RectanglePoints(0, 0, w - 1, h - 1)
  }

  /** The pixel of the k-th point is coloured by strokes of one colour. */
  lemma PointPainted(points: seq<Point>, k: int, color: int, w: int, h: int, px: int, py: int, before: int)
    requires 0 <= px < w && 0 <= py < h && 0 <= k < |points| && points[k] == Point(px, py)
    ensures Paint(Strokes(points, color), w, h, px, py, before) == color
  {
    assert Lands(Strokes(points, color)[k], w, h, px, py);
    PaintUniform(Strokes(points, color), color, w, h, px, py, before);
  }

  /** Every point on the border of a rectangle is a point of PlotRectangle's outline. */
  lemma FrameHas(x1: int, y1: int, x2: int, y2: int, px: int, py: int) returns (k: int)
    requires x1 <= px <= x2 && y1 <= py <= y2
    requires px == x1 || px == x2 || py == y1 || py == y2
    ensures 0 <= k < |RectanglePoints(x1, y1, x2, y2)| && RectanglePoints(x1, y1, x2, y2)[k] == Point(px, py)
  {
    RectangleBorder(x1, y1, x2, y2);
    k :| 0 <= k < |RectanglePoints(x1, y1, x2, y2)| && RectanglePoints(x1, y1, x2, y2)[k] == Point(px, py);
  }

  /** Every border pixel of a w x h screen is a point of the frame. */
  lemma FrameIndex(w: int, h: int, px: int, py: int) returns (k: int)
    requires w >= 1 && h >= 1 && 0 <= px < w && 0 <= py < h
    requires px == 0 || px == w - 1 || py == 0 || py == h - 1
    ensures 0 <= k < |Frame(w, h)| && Frame(w, h)[k] == Point(px, py)
  {
    var r := RectanglePoints(0, 0, w - 1, h - 1);
    k := FrameHas(0, 0, w - 1, h - 1, px, py);
    assert 0 <= k < |r| && r[k] == Point(px, py);
    assert Frame(w, h) == r;
  }

  /** A point of the last batch is coloured whatever came before it. */
  lemma TailPainted(front: seq<Point>, frame: seq<Point>, k: int, color: int, w: int, h: int, px: int, py: int, before: int)
    requires 0 <= px < w && 0 <= py < h && 0 <= k < |frame| && frame[k] == Point(px, py)
    ensures Paint(Strokes(front + frame, color), w, h, px, py, before) == color
  {
    assert (front + frame)[|front| + k] == Point(px, py);
    PointPainted(front + frame, |front| + k, color, w, h, px, py, before);
  }

  /**
   * Whatever the flags, PlotGrid on a texture of the settings' size leaves
   * every pixel of its border in the grid colour: the frame is drawn last.
   */
  lemma FrameAlwaysDrawn(f: Flags, lay: Layout, color: int, px: int, py: int, before: int)
    requires Drawable(f, lay) && lay.w >= 1 && lay.h >= 1
    requires 0 <= px < lay.w && 0 <= py < lay.h
    requires OnBorder(px, py, lay.w, lay.h)
    ensures Paint(Strokes(GridPoints(f, lay, lay.w, lay.h), color), lay.w, lay.h, px, py, before) == color
  {
    var k := FrameIndex(lay.w, lay.h, px, py);
    TailPainted(FlagLines(f, lay, lay.w, lay.h), Frame(lay.w, lay.h), k, color, lay.w, lay.h, px, py, before);
  }

  /** A pixel of the screen that is one of the points is coloured by strokes of one colour. */
  lemma MemberPainted(points: seq<Point>, color: int, w: int, h: int, px: int, py: int, before: int)
    requires 0 <= px < w && 0 <= py < h && Point(px, py) in points
    ensures Paint(Strokes(points, color), w, h, px, py, before) == color
  {
    var k :| 0 <= k < |points| && points[k] == Point(px, py);
    PointPainted(points, k, color, w, h, px, py, before);
  }

  /**
   * With the main grid on, every on-screen pixel of the centre column a
   * whole number of subdivisions from the centre row is in the grid colour.
   */
  lemma CentreColumnDrawn(f: Flags, lay: Layout, color: int, py: int, before: int)
    requires Drawable(f, lay) && f.drawGrid
    requires 0 <= lay.xc < lay.w && 0 <= lay.yc < lay.h
    requires 0 <= py < lay.h && (py - lay.yc) % lay.pxSub == 0
    ensures Paint(Strokes(GridPoints(f, lay, lay.w, lay.h), color), lay.w, lay.h, lay.xc, py, before) == color
  {
    var p := Point(lay.xc, py);
    VLineHas(lay.xc, lay.yc, lay.pxSub, lay.h, p);
    assert p in ColumnsRight(lay.xc, lay, lay.h);
    assert p in MainGrid(lay, lay.w, lay.h);
    assert p in FlagLines(f, lay, lay.w, lay.h);
    MemberPainted(GridPoints(f, lay, lay.w, lay.h), color, lay.w, lay.h, lay.xc, py, before);
  }

  /**
   * With the main grid on, every on-screen pixel of the centre row a whole
   * number of subdivisions from the centre column is in the grid colour.
   */
  lemma CentreRowDrawn(f: Flags, lay: Layout, color: int, px: int, before: int)
    requires Drawable(f, lay) && f.drawGrid
    requires 0 <= lay.xc < lay.w && 0 <= lay.yc < lay.h
    requires 0 <= px < lay.w && (px - lay.xc) % lay.pxSub == 0
    ensures Paint(Strokes(GridPoints(f, lay, lay.w, lay.h), color), lay.w, lay.h, px, lay.yc, before) == color
  {
    var p := Point(px, lay.yc);
    HLineHas(lay.xc, lay.yc, lay.pxSub, lay.w, p);
    assert p in RowsUp(lay.yc, lay, lay.w);
    assert p in MainGrid(lay, lay.w, lay.h);
    assert p in FlagLines(f, lay, lay.w, lay.h);
    MemberPainted(GridPoints(f, lay, lay.w, lay.h), color, lay.w, lay.h, px, lay.yc, before);
  }

  // ---------------------------------------------------------------------
  // Drawing
  // ---------------------------------------------------------------------

  /** PlotDotedLineHorizontal: the dots right of x and through it, then the dots left of it and through it. */
  method PlotDotedLineHorizontal(tex: array2<int>, x: int, y: int, step: int, color: int)
    requires IsTexture(tex) && step > 0
    modifies tex
    ensures Repainted(tex, Strokes(HLine(x, y, step, tex.Length0), color))
  {
    var w := tex.Length0;
    ghost var base := Snapshot(tex);
    ghost var done: seq<Point> := [];
    var ix := x;
    while ix < w
      invariant done + DotsRight(ix, y, step, w) == DotsRight(x, y, step, w)
      invariant PaintedOver(tex, base, Strokes(done, color))
      decreases w - ix
    {
      PlotPoint(tex, ix, y, color, base, done);
      AppendShift(done, Point(ix, y), DotsRight(ix + step, y, step, w));
      done := done + [Point(ix, y)];
      ix := ix + step;
    }
    assert done == DotsRight(x, y, step, w);
    ix := x;
    while ix >= 0
      invariant done + DotsLeft(ix, y, step) == HLine(x, y, step, w)
      invariant PaintedOver(tex, base, Strokes(done, color))
      decreases ix + 1
    {
      PlotPoint(tex, ix, y, color, base, done);
      AppendShift(done, Point(ix, y), DotsLeft(ix - step, y, step));
      done := done + [Point(ix, y)];
      ix := ix - step;
    }
    assert done == HLine(x, y, step, w);
  }

  /** PlotDotedLineVertical: the dots above y and through it, then the dots below it and through it. */
  method PlotDotedLineVertical(tex: array2<int>, x: int, y: int, step: int, color: int)
    requires IsTexture(tex) && step > 0
    modifies tex
    ensures Repainted(tex, Strokes(VLine(x, y, step, tex.Length1), color))
  {
    var h := tex.Length1;
    ghost var base := Snapshot(tex);
    ghost var done: seq<Point> := [];
    var iy := y;
    while iy < h
      invariant done + DotsUp(x, iy, step, h) == DotsUp(x, y, step, h)
      invariant PaintedOver(tex, base, Strokes(done, color))
      decreases h - iy
    {
      PlotPoint(tex, x, iy, color, base, done);
      AppendShift(done, Point(x, iy), DotsUp(x, iy + step, step, h));
      done := done + [Point(x, iy)];
      iy := iy + step;
    }
    assert done == DotsUp(x, y, step, h);
    iy := y;
    while iy >= 0
      invariant done + DotsDown(x, iy, step) == VLine(x, y, step, h)
      invariant PaintedOver(tex, base, Strokes(done, color))
      decreases iy + 1
    {
      PlotPoint(tex, x, iy, color, base, done);
      AppendShift(done, Point(x, iy), DotsDown(x, iy - step, step));
      done := done + [Point(x, iy)];
      iy := iy - step;
    }
    assert done == VLine(x, y, step, h);
  }

  /** PlotDotedLineHorizontal as one step of a drawing, over the points drawn so far. */
  method HLineOver(tex: array2<int>, x: int, y: int, step: int, color: int, ghost base: seq<seq<int>>, ghost done: seq<Point>)
    requires IsTexture(tex) && step > 0 && PaintedOver(tex, base, Strokes(done, color))
    modifies tex
    ensures PaintedOver(tex, base, Strokes(done + HLine(x, y, step, tex.Length0), color))
  {
    ghost var prev := Checkpoint(tex, base, Strokes(done, color));
    PlotDotedLineHorizontal(tex, x, y, step, color);
    PaintedThen(tex, base, Strokes(done, color), prev, Strokes(HLine(x, y, step, tex.Length0), color));
    StrokesAppend(done, HLine(x, y, step, tex.Length0), color);
  }

  /** PlotDotedLineVertical as one step of a drawing, over the points drawn so far. */
  method VLineOver(tex: array2<int>, x: int, y: int, step: int, color: int, ghost base: seq<seq<int>>, ghost done: seq<Point>)
    requires IsTexture(tex) && step > 0 && PaintedOver(tex, base, Strokes(done, color))
    modifies tex
    ensures PaintedOver(tex, base, Strokes(done + VLine(x, y, step, tex.Length1), color))
  {
    ghost var prev := Checkpoint(tex, base, Strokes(done, color));
    PlotDotedLineVertical(tex, x, y, step, color);
    PaintedThen(tex, base, Strokes(done, color), prev, Strokes(VLine(x, y, step, tex.Length1), color));
    StrokesAppend(done, VLine(x, y, step, tex.Length1), color);
  }

  /** The first loop of PlotGrid: columns from the centre rightwards, one division apart. */
  method PlotColumnsRight(tex: array2<int>, lay: Layout, color: int, ghost base: seq<seq<int>>, ghost done: seq<Point>)
    requires IsTexture(tex) && lay.pxDiv > 0 && lay.pxSub > 0 && PaintedOver(tex, base, Strokes(done, color))
    modifies tex
    ensures PaintedOver(tex, base, Strokes(done + ColumnsRight(lay.xc, lay, tex.Length1), color))
  {
    var x := lay.xc;
    ghost var drawn := done;
    while x < lay.w
      invariant drawn + ColumnsRight(x, lay, tex.Length1) == done + ColumnsRight(lay.xc, lay, tex.Length1)
      invariant PaintedOver(tex, base, Strokes(drawn, color))
      decreases lay.w - x
    {
      VLineOver(tex, x, lay.yc, lay.pxSub, color, base, drawn);
      assert drawn + (VLine(x, lay.yc, lay.pxSub, tex.Length1) + ColumnsRight(x + lay.pxDiv, lay, tex.Length1)) == (drawn + VLine(x, lay.yc, lay.pxSub, tex.Length1)) + ColumnsRight(x + lay.pxDiv, lay, tex.Length1);
      drawn := drawn + VLine(x, lay.yc, lay.pxSub, tex.Length1);
      x := x + lay.pxDiv;
    }
    assert drawn == done + ColumnsRight(lay.xc, lay, tex.Length1);
  }

  /** The second loop of PlotGrid: columns left of the centre, one division apart. */
  method PlotColumnsLeft(tex: array2<int>, lay: Layout, color: int, ghost base: seq<seq<int>>, ghost done: seq<Point>)
    requires IsTexture(tex) && lay.pxDiv > 0 && lay.pxSub > 0 && PaintedOver(tex, base, Strokes(done, color))
    modifies tex
    ensures PaintedOver(tex, base, Strokes(done + ColumnsLeft(lay.xc - lay.pxDiv, lay, tex.Length1), color))
  {
    var x := lay.xc - lay.pxDiv;
    ghost var drawn := done;
    while x >= 0
      invariant drawn + ColumnsLeft(x, lay, tex.Length1) == done + ColumnsLeft(lay.xc - lay.pxDiv, lay, tex.Length1)
      invariant PaintedOver(tex, base, Strokes(drawn, color))
      decreases x + 1
    {
      VLineOver(tex, x, lay.yc, lay.pxSub, color, base, drawn);
      assert drawn + (VLine(x, lay.yc, lay.pxSub, tex.Length1) + ColumnsLeft(x - lay.pxDiv, lay, tex.Length1)) == (drawn + VLine(x, lay.yc, lay.pxSub, tex.Length1)) + ColumnsLeft(x - lay.pxDiv, lay, tex.Length1);
      drawn := drawn + VLine(x, lay.yc, lay.pxSub, tex.Length1);
      x := x - lay.pxDiv;
    }
    assert drawn == done + ColumnsLeft(lay.xc - lay.pxDiv, lay, tex.Length1);
  }

  /** The third loop of PlotGrid: rows from the centre upwards, one division apart. */
  method PlotRowsUp(tex: array2<int>, lay: Layout, color: int, ghost base: seq<seq<int>>, ghost done: seq<Point>)
    requires IsTexture(tex) && lay.pxDiv > 0 && lay.pxSub > 0 && PaintedOver(tex, base, Strokes(done, color))
    modifies tex
    ensures PaintedOver(tex, base, Strokes(done + RowsUp(lay.yc, lay, tex.Length0), color))
  {
    var y := lay.yc;
    ghost var drawn := done;
    while y < lay.h
      invariant drawn + RowsUp(y, lay, tex.Length0) == done + RowsUp(lay.yc, lay, tex.Length0)
      invariant PaintedOver(tex, base, Strokes(drawn, color))
      decreases lay.h - y
    {
      HLineOver(tex, lay.xc, y, lay.pxSub, color, base, drawn);
      assert drawn + (HLine(lay.xc, y, lay.pxSub, tex.Length0) + RowsUp(y + lay.pxDiv, lay, tex.Length0)) == (drawn + HLine(lay.xc, y, lay.pxSub, tex.Length0)) + RowsUp(y + lay.pxDiv, lay, tex.Length0);
      drawn := drawn + HLine(lay.xc, y, lay.pxSub, tex.Length0);
      y := y + lay.pxDiv;
    }
    assert drawn == done + RowsUp(lay.yc, lay, tex.Length0);
  }

  /** The fourth loop of PlotGrid: rows below the centre, one division apart. */
  method PlotRowsDown(tex: array2<int>, lay: Layout, color: int, ghost base: seq<seq<int>>, ghost done: seq<Point>)
    requires IsTexture(tex) && lay.pxDiv > 0 && lay.pxSub > 0 && PaintedOver(tex, base, Strokes(done, color))
    modifies tex
    ensures PaintedOver(tex, base, Strokes(done + RowsDown(lay.yc - lay.pxDiv, lay, tex.Length0), color))
  {
    var y := lay.yc - lay.pxDiv;
    ghost var drawn := done;
    while y >= 0
      invariant drawn + RowsDown(y, lay, tex.Length0) == done + RowsDown(lay.yc - lay.pxDiv, lay, tex.Length0)
      invariant PaintedOver(tex, base, Strokes(drawn, color))
      decreases y + 1
    {
      HLineOver(tex, lay.xc, y, lay.pxSub, color, base, drawn);
      assert drawn + (HLine(lay.xc, y, lay.pxSub, tex.Length0) + RowsDown(y - lay.pxDiv, lay, tex.Length0)) == (drawn + HLine(lay.xc, y, lay.pxSub, tex.Length0)) + RowsDown(y - lay.pxDiv, lay, tex.Length0);
      drawn := drawn + HLine(lay.xc, y, lay.pxSub, tex.Length0);
      y := y - lay.pxDiv;
    }
    assert drawn == done + RowsDown(lay.yc - lay.pxDiv, lay, tex.Length0);
  }

  /** The main grid block of PlotGrid: its four loops in order. */
  method PlotMainGrid(tex: array2<int>, lay: Layout, color: int, ghost base: seq<seq<int>>, ghost done: seq<Point>)
    requires IsTexture(tex) && lay.pxDiv > 0 && lay.pxSub > 0 && PaintedOver(tex, base, Strokes(done, color))
    modifies tex
    ensures PaintedOver(tex, base, Strokes(done + MainGrid(lay, tex.Length0, tex.Length1), color))
  {
    var tw, th := tex.Length0, tex.Length1;
    ghost var a := ColumnsRight(lay.xc, lay, th);
    ghost var b := ColumnsLeft(lay.xc - lay.pxDiv, lay, th);
    ghost var c := RowsUp(lay.yc, lay, tw);
    ghost var d := RowsDown(lay.yc - lay.pxDiv, lay, tw);
    PlotColumnsRight(tex, lay, color, base, done);
    PlotColumnsLeft(tex, lay, color, base, done + a);
    PlotRowsUp(tex, lay, color, base, done + a + b);
    PlotRowsDown(tex, lay, color, base, done + a + b + c);
    assert a + b + c + d == MainGrid(lay, tw, th);
    assert done + a + b + c + d == done + (a + b + c + d);
  }

  /** The horizontal ruler block of PlotGrid. */
  method PlotRulerX(tex: array2<int>, lay: Layout, color: int, ghost base: seq<seq<int>>, ghost done: seq<Point>)
    requires IsTexture(tex) && lay.pxSub > 0 && PaintedOver(tex, base, Strokes(done, color))
    modifies tex
    ensures PaintedOver(tex, base, Strokes(done + RulerX(lay, tex.Length0), color))
  {
    var tw := tex.Length0;
    ghost var a := HLine(lay.xc, lay.yc + 2, lay.pxSub, tw);
    ghost var b := HLine(lay.xc, lay.yc + 1, lay.pxSub, tw);
    ghost var c := HLine(lay.xc, lay.yc - 1, lay.pxSub, tw);
    HLineOver(tex, lay.xc, lay.yc + 2, lay.pxSub, color, base, done);
    HLineOver(tex, lay.xc, lay.yc + 1, lay.pxSub, color, base, done + a);
    HLineOver(tex, lay.xc, lay.yc - 1, lay.pxSub, color, base, done + a + b);
    HLineOver(tex, lay.xc, lay.yc - 2, lay.pxSub, color, base, done + a + b + c);
    assert a + b + c + HLine(lay.xc, lay.yc - 2, lay.pxSub, tw) == RulerX(lay, tw);
    assert done + a + b + c + HLine(lay.xc, lay.yc - 2, lay.pxSub, tw) == done + (a + b + c + HLine(lay.xc, lay.yc - 2, lay.pxSub, tw));
  }

  /** The vertical ruler block of PlotGrid. */
  method PlotRulerY(tex: array2<int>, lay: Layout, color: int, ghost base: seq<seq<int>>, ghost done: seq<Point>)
    requires IsTexture(tex) && lay.pxSub > 0 && PaintedOver(tex, base, Strokes(done, color))
    modifies tex
    ensures PaintedOver(tex, base, Strokes(done + RulerY(lay, tex.Length1), color))
  {
    var th := tex.Length1;
    ghost var a := VLine(lay.xc + 2, lay.yc, lay.pxSub, th);
    ghost var b := VLine(lay.xc + 1, lay.yc, lay.pxSub, th);
    ghost var c := VLine(lay.xc - 1, lay.yc, lay.pxSub, th);
    VLineOver(tex, lay.xc + 2, lay.yc, lay.pxSub, color, base, done);
    VLineOver(tex, lay.xc + 1, lay.yc, lay.pxSub, color, base, done + a);
    VLineOver(tex, lay.xc - 1, lay.yc, lay.pxSub, color, base, done + a + b);
    VLineOver(tex, lay.xc - 2, lay.yc, lay.pxSub, color, base, done + a + b + c);
    assert a + b + c + VLine(lay.xc - 2, lay.yc, lay.pxSub, th) == RulerY(lay, th);
    assert done + a + b + c + VLine(lay.xc - 2, lay.yc, lay.pxSub, th) == done + (a + b + c + VLine(lay.xc - 2, lay.yc, lay.pxSub, th));
  }

  /** The last step of PlotGrid: the frame around a w x h screen. */
  method PlotFrame(tex: array2<int>, w: int, h: int, color: int, ghost base: seq<seq<int>>, ghost done: seq<Point>)
    requires IsTexture(tex) && PaintedOver(tex, base, Strokes(done, color))
    modifies tex
    ensures PaintedOver(tex, base, Strokes(done + Frame(w, h), color))
  {
    ghost var prev := Checkpoint(tex, base, Strokes(done, color));
    PlotRectangle(tex, 0, 0, w - 1, h - 1, color);
    PaintedThen(tex, base, Strokes(done, color), prev, Strokes(Frame(w, h), color));
    StrokesAppend(done, Frame(w, h), color);
  }

  /** Everything PlotGrid draws, with the flags and the geometry as given, on the texture. */
  method PlotGridOn(tex: array2<int>, f: Flags, lay: Layout, color: int)
    requires IsTexture(tex) && Drawable(f, lay)
    modifies tex
    ensures Repainted(tex, Strokes(GridPoints(f, lay, tex.Length0, tex.Length1), color))
  {
    var tw, th := tex.Length0, tex.Length1;
    ghost var base := Snapshot(tex);
    ghost var g := if f.drawGrid then MainGrid(lay, tw, th) else [];
    ghost var rx := if f.drawRulerX then RulerX(lay, tw) else [];
    ghost var ry := if f.drawRulerY then RulerY(lay, th) else [];
    if f.drawGrid {
      PlotMainGrid(tex, lay, color, base, []);
      assert [] + g == g;
    }
    if f.drawRulerX {
      PlotRulerX(tex, lay, color, base, g);
    } else {
      assert g + rx == g;
    }
    if f.drawRulerY {
      PlotRulerY(tex, lay, color, base, g + rx);
    } else {
      assert g + rx + ry == g + rx;
    }
    ghost var done := g + rx + ry;
    assert done == FlagLines(f, lay, tw, th);
    PlotFrame(tex, lay.w, lay.h, color, base, done);
    assert done + Frame(lay.w, lay.h) == GridPoints(f, lay, tw, th);
  }

  // ---------------------------------------------------------------------
  // The grid component
  // ---------------------------------------------------------------------

  /** The geometry PlotGrid reads from the settings. */
  function LayoutOf(s: Settings.OscSettings): (lay: Layout)
    reads s
    ensures lay.w == s.textureSize.x && lay.h == s.textureSize.y
    ensures lay.xc == s.textureCenter.x && lay.yc == s.textureCenter.y
    ensures lay.pxDiv == s.pixelsPerDivision && lay.pxSub == s.pixelsPerSubdivision
  {
    Layout(s.textureSize.x, s.textureSize.y, s.textureCenter.x, s.textureCenter.y,
           s.pixelsPerDivision, s.pixelsPerSubdivision)
  }

  class OscGrid {
    const bgColor: int
    const gridColor: int
    var settings: Settings.OscSettings?
    var screenTexture: array2?<int>
    /** The colour the clear buffer was built with, when the texture was created. */
    var clearColor: int
    /** The texture the screen image shows, once Apply has run. */
    var imageTexture: array2?<int>
    var redraw: bool
    var drawGrid: bool
    var drawRulerX: bool
    var drawRulerY: bool

    constructor (bgColor: int, gridColor: int)
      ensures this.bgColor == bgColor && this.gridColor == gridColor
      ensures settings == null && screenTexture == null && imageTexture == null
      ensures !redraw && !drawGrid && !drawRulerX && !drawRulerY
    {
      this.bgColor, this.gridColor := bgColor, gridColor;
      settings, screenTexture, imageTexture := null, null, null;
      clearColor := 0;
      redraw, drawGrid, drawRulerX, drawRulerY := false, false, false, false;
    }

    /** The three flags as PlotGrid reads them. */
    function Switches(): (f: Flags)
      reads this
      ensures f.drawGrid == drawGrid && f.drawRulerX == drawRulerX && f.drawRulerY == drawRulerY
    {
      Flags(drawGrid, drawRulerX, drawRulerY)
    }

    /** Pixel (i, j) is a pixel of the texture's outermost ring. */
    predicate OnScreenBorder(i: int, j: int)
      reads this
      requires screenTexture != null
    {
      0 <= i < screenTexture.Length0 && 0 <= j < screenTexture.Length1 &&
      OnBorder(i, j, screenTexture.Length0, screenTexture.Length1)
    }

    /** Initialized and holding a texture. */
    predicate Ready()
      reads this
    {
      settings != null && screenTexture != null && IsTexture(screenTexture)
    }

    /** Takes the settings and their three flags, and asks for a redraw. */
    method Initialize(oscSettings: Settings.OscSettings)
      modifies this`settings, this`drawGrid, this`drawRulerX, this`drawRulerY, this`redraw
      ensures settings == oscSettings && redraw
      ensures Switches() == Flags(oscSettings.drawGrid, oscSettings.drawRulerX, oscSettings.drawRulerY)
    {
      settings := oscSettings;
      drawGrid := oscSettings.drawGrid;
      drawRulerX := oscSettings.drawRulerX;
      drawRulerY := oscSettings.drawRulerY;
      redraw := true;
    }

    /** The DrawGrid setter: any assignment, even of the same value, asks for a redraw. */
    method SetDrawGrid(value: bool)
      modifies this`drawGrid, this`redraw
      ensures drawGrid == value && redraw
    {
      drawGrid := value;
      redraw := true;
    }

    /** The DrawRulerX setter. */
    method SetDrawRulerX(value: bool)
      modifies this`drawRulerX, this`redraw
      ensures drawRulerX == value && redraw
    {
      drawRulerX := value;
      redraw := true;
    }

    /** The DrawRulerY setter. */
    method SetDrawRulerY(value: bool)
      modifies this`drawRulerY, this`redraw
      ensures drawRulerY == value && redraw
    {
      drawRulerY := value;
      redraw := true;
    }

    /**
     * Clear: a texture of the settings' size is (re)created, with a clear
     * buffer of the given colour, when there is none or its size differs;
     * then the whole texture is set from the clear buffer.
     */
    method Clear(color: int)
      requires settings != null && settings.textureSize.x >= 1 && settings.textureSize.y >= 1
      modifies this`screenTexture, this`clearColor, screenTexture
      ensures Ready() && settings == old(settings)
      ensures screenTexture.Length0 == settings.textureSize.x && screenTexture.Length1 == settings.textureSize.y
      ensures var recreated := old(screenTexture) == null ||
                old(screenTexture.Length0) != settings.textureSize.x ||
                old(screenTexture.Length1) != settings.textureSize.y;
              && (recreated ==> fresh(screenTexture) && clearColor == color)
              && (!recreated ==> screenTexture == old(screenTexture) && clearColor == old(clearColor))
      ensures forall i, j :: 0 <= i < screenTexture.Length0 && 0 <= j < screenTexture.Length1 ==>
                screenTexture[i, j] == clearColor
    {
      var w := settings.textureSize.x;
      var h := settings.textureSize.y;
      if screenTexture == null || screenTexture.Length0 != w || screenTexture.Length1 != h {
        screenTexture := new int[w, h];
        clearColor := color;
      }
      Fill(screenTexture, clearColor);
    }

    /** Shows the texture on the screen image. */
    method Apply()
      requires screenTexture != null
      modifies this`imageTexture
      ensures imageTexture == screenTexture
    {
      imageTexture := screenTexture;
    }

    /** Draws the grid the flags ask for, then the frame, in one colour. */
    method PlotGrid(color: int)
      requires Ready() && Drawable(Switches(), LayoutOf(settings))
      modifies screenTexture
      ensures Repainted(screenTexture, Strokes(GridPoints(Switches(), LayoutOf(settings),
                screenTexture.Length0, screenTexture.Length1), color))
    {
      PlotGridOn(screenTexture, Flags(drawGrid, drawRulerX, drawRulerY), LayoutOf(settings), color);
    }

    /**
     * A pending redraw clears the texture to the background, draws the grid
     * and shows the result; otherwise nothing happens. After a redraw every
     * pixel is the cleared colour painted over with the grid, and the border
     * is in the grid colour.
     */
    method Update()
      requires redraw ==> settings != null && settings.textureSize.x >= 1 && settings.textureSize.y >= 1
      requires redraw ==> Drawable(Switches(), LayoutOf(settings))
      modifies this`redraw, this`screenTexture, this`clearColor, this`imageTexture, screenTexture
      ensures !old(redraw) ==> !redraw && screenTexture == old(screenTexture) && imageTexture == old(imageTexture)
      ensures !old(redraw) && screenTexture != null ==> unchanged(screenTexture)
      ensures old(redraw) ==> !redraw && Ready() && imageTexture == screenTexture
      ensures old(redraw) ==> screenTexture.Length0 == settings.textureSize.x && screenTexture.Length1 == settings.textureSize.y
      ensures old(redraw) ==> forall i, j :: 0 <= i < screenTexture.Length0 && 0 <= j < screenTexture.Length1 ==>
                screenTexture[i, j] == Paint(Strokes(GridPoints(Switches(), LayoutOf(settings),
                  screenTexture.Length0, screenTexture.Length1), gridColor),
                  screenTexture.Length0, screenTexture.Length1, i, j, clearColor)
      ensures old(redraw) ==> forall i, j :: OnScreenBorder(i, j) ==> screenTexture[i, j] == gridColor
    {
      if redraw {
        redraw := false;
        Clear(bgColor);
        PlotGrid(gridColor);
        Apply();
        BorderInGridColour();
      }
    }

    /** After a redraw, the frame PlotGrid draws last leaves the border in the grid colour. */
    lemma BorderInGridColour()
      requires Ready() && Drawable(Switches(), LayoutOf(settings))
      requires screenTexture.Length0 == settings.textureSize.x && screenTexture.Length1 == settings.textureSize.y
      requires forall i, j :: 0 <= i < screenTexture.Length0 && 0 <= j < screenTexture.Length1 ==>
                 screenTexture[i, j] == Paint(Strokes(GridPoints(Switches(), LayoutOf(settings),
                   screenTexture.Length0, screenTexture.Length1), gridColor),
                   screenTexture.Length0, screenTexture.Length1, i, j, clearColor)
      ensures forall i, j :: OnScreenBorder(i, j) ==> screenTexture[i, j] == gridColor
    {
      var lay := LayoutOf(settings);
      forall i, j | OnScreenBorder(i, j)
        ensures screenTexture[i, j] == gridColor
      {
        FrameAlwaysDrawn(Switches(), lay, gridColor, i, j, clearColor);
      }
    }
  }
}
