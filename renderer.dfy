// OscRenderer: draws the channels' waveforms into the screen texture, and
// OscChannel.Render, which picks the drawing routine by style and format
// (the channel and the renderer refer to each other, so the dispatch lives
// here, beside the routines it calls).
//
// Pixel positions are in texture pixels; sample values are in divisions and
// become rows through the pixels per division and the texture centre. The
// text that OscFont.DrawText would write is returned as a list of stamps.

module Renderer {
  import opened Numerics
  import opened OscTypes
  import opened Settings
  import opened Raster
  import Channel
  import MinMax

  /** What OscFont.DrawText is asked to write: a value as 8 hex digits, or a label's text. */
  datatype Glyphs = Hex8(value: int) | Chars(text: string)

  /** One OscFont.DrawText call: the glyphs, their pixel position and colour. */
  datatype Stamp = Stamp(glyphs: Glyphs, x: int, y: int, color: int)

  // ---------------------------------------------------------------------
  // Polylines
  // ---------------------------------------------------------------------

  /**
   * One sample-to-sample step of a waveform: a line when the two points are
   * more than one pixel apart on either axis, else only the new point.
   * The empty step in front of the single point puts Segment in one
   * recursion group with Step, so that a proof about a whole step does not
   * unfold the lines of its components unless it asks for them.
   */
  function Segment(a: Point, b: Point, color: int): seq<Stroke>
    decreases 0, 2
  {
    if AbsInt(a.x - b.x) > 1 || AbsInt(a.y - b.y) > 1 then Strokes(LinePoints(a.x, a.y, b.x, b.y), color)
    else Step(a.x, [], b.x, [], [], 0) + [Stroke(b.x, b.y, color)]
  }

  /** A step always sets its new point, and only in its own colour. */
  lemma SegmentSetsEnd(a: Point, b: Point, color: int)
    ensures Stroke(b.x, b.y, color) in Segment(a, b, color)
    ensures forall s :: s in Segment(a, b, color) ==> s.color == color
  {
    if AbsInt(a.x - b.x) > 1 || AbsInt(a.y - b.y) > 1 {
      var pts := LinePoints(a.x, a.y, b.x, b.y);
      LineEnds(a.x, a.y, b.x, b.y);
      var k :| 0 <= k < |pts| && pts[k] == b;
      assert Strokes(pts, color)[k] == Stroke(b.x, b.y, color);
    }
  }

  /**
   * Horizontal position of traced point k: point 0 is the sample before
   * smpBeg, one step left of pxStart, and every later point is one step
   * further right, as the plot loops accumulate it.
   */
  function PixelX(pxStart: real, pxPerSample: real, k: nat): real
  {
    if k == 0 then pxStart - pxPerSample else PixelX(pxStart, pxPerSample, k - 1) + pxPerSample
  }

  /** The loops advance the position by one step per sample. */
  lemma PixelXNext(pxStart: real, pxPerSample: real, k: nat)
    ensures PixelX(pxStart, pxPerSample, k + 1) == PixelX(pxStart, pxPerSample, k) + pxPerSample
  {
  }

  /** The loops start one step left of pxStart, then at pxStart. */
  lemma PixelXStart(pxStart: real, pxPerSample: real)
    ensures PixelX(pxStart, pxPerSample, 0) == pxStart - pxPerSample
    ensures PixelX(pxStart, pxPerSample, 1) == pxStart
  {
  }

  /** The accumulated position is the closed form pxStart + (k - 1) * pxPerSample. */
  lemma {:induction false} PixelXClosed(pxStart: real, pxPerSample: real, k: nat)
    ensures PixelX(pxStart, pxPerSample, k) == pxStart + (k - 1) as real * pxPerSample
  {
    if k > 0 {
      PixelXClosed(pxStart, pxPerSample, k - 1);
      assert (k - 1) as real * pxPerSample == (k - 2) as real * pxPerSample + pxPerSample;
    }
  }

  /** Column of traced point k. */
  function TraceX(pxStart: real, pxPerSample: real, k: nat): int
  {
    RoundToInt(PixelX(pxStart, pxPerSample, k))
  }

  /** Row of a value given in divisions. */
  function PixelY(v: real, ppd: int, cy: int): int
  {
    RoundToInt(v * ppd as real + cy as real)
  }

  /** How many samples smpBeg..smpEnd the loops visit. */
  function Count(smpBeg: int, smpEnd: int): nat
  {
    if smpEnd < smpBeg then 0 else smpEnd - smpBeg + 1
  }

  /** The columns of the traced points: the sample before smpBeg, then smpBeg..smpEnd. */
  function Columns(pxStart: real, pxPerSample: real, smpBeg: int, smpEnd: int): (xs: seq<int>)
    ensures |xs| == Count(smpBeg, smpEnd) + 1
    ensures forall k :: 0 <= k < |xs| ==> xs[k] == TraceX(pxStart, pxPerSample, k)
  {
    seq(Count(smpBeg, smpEnd) + 1, k requires 0 <= k => TraceX(pxStart, pxPerSample, k))
  }

  /** One traced sample: its x, or its x and y, or its x, y and z, as the channel reads them from the stored data. */
  function SampleAt(data: seq<Vec3>, scale: real, position: real, idx: int, dims: nat): (v: seq<real>)
    requires |data| == BUFFER_SIZE
    ensures |v| == if dims <= 1 then 1 else if dims == 2 then 2 else 3
  {
    var r := Channel.Reading(data[Mask(idx)], scale, position);
    if dims <= 1 then [r.x] else if dims == 2 then [r.x, r.y] else [r.x, r.y, r.z]
  }

  /** The traced samples lo .. lo + n - 1, in order. */
  function Samples(data: seq<Vec3>, scale: real, position: real, lo: int, n: nat, dims: nat): (vs: seq<seq<real>>)
    requires |data| == BUFFER_SIZE
    ensures |vs| == n
    ensures forall k :: 0 <= k < n ==> vs[k] == SampleAt(data, scale, position, lo + k, dims)
  {
    seq(n, k requires 0 <= k < n => SampleAt(data, scale, position, lo + k, dims))
  }

  /** The traced samples are what the channel's getters return. */
  lemma SampleIsRead(ch: Channel.OscChannel, idx: int)
    requires ch.buffer.Length == BUFFER_SIZE
    ensures SampleAt(ch.buffer[..], ch.scale, ch.position, idx, 1) == [ch.GetFloat(idx)]
    ensures SampleAt(ch.buffer[..], ch.scale, ch.position, idx, 2) == [ch.GetVector2(idx).x, ch.GetVector2(idx).y]
    ensures SampleAt(ch.buffer[..], ch.scale, ch.position, idx, 3) ==
            [ch.GetVector3(idx).x, ch.GetVector3(idx).y, ch.GetVector3(idx).z]
  {
  }

  /** The row of every component of one traced sample. */
  function Row(v: seq<real>, ppd: int, cy: int): (ys: seq<int>)
    ensures |ys| == |v|
    ensures forall c {:trigger ys[c]} :: 0 <= c < |v| ==> ys[c] == PixelY(v[c], ppd, cy)
  {
    seq(|v|, c requires 0 <= c < |v| => PixelY(v[c], ppd, cy))
  }

  /** The row of every component of every traced sample. */
  function Rows(vs: seq<seq<real>>, ppd: int, cy: int): (rows: seq<seq<int>>)
    ensures |rows| == |vs|
    ensures forall k {:trigger rows[k]} :: 0 <= k < |vs| ==> rows[k] == Row(vs[k], ppd, cy)
  {
    seq(|vs|, k requires 0 <= k < |vs| => Row(vs[k], ppd, cy))
  }

  /** Row k of rows is that of sample lo + k, one entry per component. */
  ghost predicate Traces(rows: seq<seq<int>>, data: seq<Vec3>, scale: real, position: real, lo: int, dims: nat, ppd: int, cy: int)
  {
    && |data| == BUFFER_SIZE
    && (forall k :: 0 <= k < |rows| ==> |rows[k]| == |SampleAt(data, scale, position, lo, dims)|)
    && forall idx {:trigger SampleAt(data, scale, position, idx, dims)} :: lo <= idx < lo + |rows| ==>
         rows[idx - lo] == Row(SampleAt(data, scale, position, idx, dims), ppd, cy)
  }

  /** The rows of the traced samples trace them. */
  lemma RowsTrace(data: seq<Vec3>, scale: real, position: real, lo: int, cnt: nat, dims: nat, ppd: int, cy: int)
    requires |data| == BUFFER_SIZE
    ensures Traces(Rows(Samples(data, scale, position, lo, cnt, dims), ppd, cy), data, scale, position, lo, dims, ppd, cy)
  {
    var rows := Rows(Samples(data, scale, position, lo, cnt, dims), ppd, cy);
    forall idx | lo <= idx < lo + |rows|
      ensures rows[idx - lo] == Row(SampleAt(data, scale, position, idx, dims), ppd, cy)
    {
      assert lo + (idx - lo) == idx;
    }
  }

  /** The levels of the logic plot: each value less the position, truncated toward zero. */
  function Levels(vs: seq<seq<real>>, position: real): (vals: seq<int>)
    requires forall k :: 0 <= k < |vs| ==> |vs[k]| >= 1
    ensures |vals| == |vs|
    ensures forall k {:trigger vals[k]} :: 0 <= k < |vs| ==> vals[k] == Trunc(vs[k][0] - position)
  {
    seq(|vs|, k requires 0 <= k < |vs| => Trunc(vs[k][0] - position))
  }

  /** Entry k of vals is the level of sample lo + k. */
  ghost predicate Leveled(vals: seq<int>, data: seq<Vec3>, scale: real, position: real, lo: int)
  {
    && |data| == BUFFER_SIZE
    && forall idx {:trigger SampleAt(data, scale, position, idx, 1)} :: lo <= idx < lo + |vals| ==>
         vals[idx - lo] == Trunc(SampleAt(data, scale, position, idx, 1)[0] - position)
  }

  /** The levels of the traced samples level them. */
  lemma LevelsTrace(data: seq<Vec3>, scale: real, position: real, lo: int, cnt: nat)
    requires |data| == BUFFER_SIZE
    ensures Leveled(Levels(Samples(data, scale, position, lo, cnt, 1), position), data, scale, position, lo)
  {
    var vals := Levels(Samples(data, scale, position, lo, cnt, 1), position);
    forall idx | lo <= idx < lo + |vals|
      ensures vals[idx - lo] == Trunc(SampleAt(data, scale, position, idx, 1)[0] - position)
    {
      assert lo + (idx - lo) == idx;
    }
  }

  /** The rows are well formed: one row per component at every traced point. */
  predicate Shaped(xs: seq<int>, rows: seq<seq<int>>, colors: seq<int>)
  {
    |xs| == |rows| && forall k :: 0 <= k < |rows| ==> |rows[k]| == |colors|
  }

  /** The first c components of one step, in component order, from rows ys1 at x1 to rows ys2 at x2. */
  function Step(x1: int, ys1: seq<int>, x2: int, ys2: seq<int>, colors: seq<int>, c: nat): seq<Stroke>
    requires |ys1| == |ys2| == |colors| && c <= |colors|
    decreases c, 1
  {
    if c == 0 then []
    else Step(x1, ys1, x2, ys2, colors, c - 1) + Segment(Point(x1, ys1[c - 1]), Point(x2, ys2[c - 1]), colors[c - 1])
  }

  /** The steps joining the first n traced points of a waveform, in drawing order. */
  function Steps(xs: seq<int>, rows: seq<seq<int>>, colors: seq<int>, n: nat): seq<Stroke>
    requires Shaped(xs, rows, colors) && n <= |xs|
  {
    if n < 2 then []
    else Steps(xs, rows, colors, n - 1) + Step(xs[n - 2], rows[n - 2], xs[n - 1], rows[n - 1], colors, |colors|)
  }

  /** Every stroke of a step has one of the component colours. */
  lemma {:induction false} StepColors(x1: int, ys1: seq<int>, x2: int, ys2: seq<int>, colors: seq<int>, c: nat)
    requires |ys1| == |ys2| == |colors| && c <= |colors|
    ensures forall s :: s in Step(x1, ys1, x2, ys2, colors, c) ==> s.color in colors
  {
    if c > 0 {
      StepColors(x1, ys1, x2, ys2, colors, c - 1);
      SegmentSetsEnd(Point(x1, ys1[c - 1]), Point(x2, ys2[c - 1]), colors[c - 1]);
    }
  }

  /** Every component drawn by a step sets its new point. */
  lemma {:induction false} StepSetsPoints(x1: int, ys1: seq<int>, x2: int, ys2: seq<int>, colors: seq<int>, c: nat, j: int)
    requires |ys1| == |ys2| == |colors| && c <= |colors| && 0 <= j < c
    ensures Stroke(x2, ys2[j], colors[j]) in Step(x1, ys1, x2, ys2, colors, c)
  {
    var earlier := Step(x1, ys1, x2, ys2, colors, c - 1);
    var last := Segment(Point(x1, ys1[c - 1]), Point(x2, ys2[c - 1]), colors[c - 1]);
    assert Step(x1, ys1, x2, ys2, colors, c) == earlier + last;
    if j == c - 1 {
      SegmentSetsEnd(Point(x1, ys1[j]), Point(x2, ys2[j]), colors[j]);
      assert Stroke(x2, ys2[j], colors[j]) in last;
    } else {
      StepSetsPoints(x1, ys1, x2, ys2, colors, c - 1, j);
      assert Stroke(x2, ys2[j], colors[j]) in earlier;
    }
  }

  /**
   * A waveform sets the point of every sample after the first in each
   * component's colour, and uses no colour but the component colours.
   */
  lemma {:induction false} StepsVisit(xs: seq<int>, rows: seq<seq<int>>, colors: seq<int>, n: nat)
    requires Shaped(xs, rows, colors) && n <= |xs|
    ensures forall k, c :: 1 <= k < n && 0 <= c < |colors| ==> Stroke(xs[k], rows[k][c], colors[c]) in Steps(xs, rows, colors, n)
    ensures forall s :: s in Steps(xs, rows, colors, n) ==> s.color in colors
  {
    if n >= 2 {
      var earlier := Steps(xs, rows, colors, n - 1);
      var last := Step(xs[n - 2], rows[n - 2], xs[n - 1], rows[n - 1], colors, |colors|);
      StepsVisit(xs, rows, colors, n - 1);
      StepColors(xs[n - 2], rows[n - 2], xs[n - 1], rows[n - 1], colors, |colors|);
      forall k, c | 1 <= k < n && 0 <= c < |colors|
        ensures Stroke(xs[k], rows[k][c], colors[c]) in earlier + last
      {
        if k == n - 1 {
          StepSetsPoints(xs[n - 2], rows[n - 2], xs[n - 1], rows[n - 1], colors, |colors|, c);
        }
      }
    }
  }

  // ---------------------------------------------------------------------
  // Logic style
  // ---------------------------------------------------------------------

  /** One OscUtils.PlotLine call, from (x0, y0) to (x1, y1). */
  datatype Line = Line(x0: int, y0: int, x1: int, y1: int)

  /** What a run of PlotLine calls in one colour sets, in order. */
  function Ink(lines: seq<Line>, color: int): seq<Stroke>
    decreases |lines|, 1
  {
    if |lines| == 0 then []
    else Ink(lines[..|lines| - 1], color) + LineInk(lines[|lines| - 1], color)
  }

  /**
   * What one PlotLine call sets. The empty Ink in front puts it in Ink's
   * recursion group, so that unfolding Ink does not also unfold the line's
   * points.
   */
  function LineInk(l: Line, color: int): seq<Stroke>
    decreases 0, 2
  {
    Ink([], color) + Strokes(LinePoints(l.x0, l.y0, l.x1, l.y1), color)
  }

  /** One more line inks its points after those of the lines before it. */
  lemma InkSnoc(lines: seq<Line>, l: Line, color: int)
    ensures Ink(lines + [l], color) == Ink(lines, color) + Strokes(LinePoints(l.x0, l.y0, l.x1, l.y1), color)
  {
    assert (lines + [l])[..|lines|] == lines;
    assert LineInk(l, color) == Strokes(LinePoints(l.x0, l.y0, l.x1, l.y1), color);
  }

  /** The two rails from column x1 to column x2: the top one, then the bottom one. */
  function Rails(x1: int, x2: int, topY: int, botY: int): seq<Line>
  {
    [Line(x1, topY, x2, topY), Line(x1, botY, x2, botY)]
  }

  /** The two edges that cross over from two pixels before x2 to x2. */
  function Crossing(x2: int, topY: int, botY: int): seq<Line>
  {
    [Line(x2 - 2, topY, x2, botY), Line(x2 - 2, botY, x2, topY)]
  }

  /** The stamp of the previous value v1 at a change found at column x2. */
  function ValueStamp(v1: int, x2: int, botY: int, color: int): Stamp
  {
    Stamp(Hex8(v1), x2 - 66, botY - 10, color)
  }

  /**
   * PlotFloatLogic from traced point k on, the current run having started at
   * column x1 with value v1: a run of equal values is not drawn until the
   * value changes (rails up to two pixels short, the crossing, the previous
   * value stamped) or the last sample is reached (rails up to one pixel
   * short, then stop).
   */
  function LogicFrom(xs: seq<int>, vals: seq<int>, k: nat, x1: int, v1: int, topY: int, botY: int, color: int):
    (r: (seq<Line>, seq<Stamp>))
    requires |xs| == |vals|
    decreases |vals| - k
  {
    if k >= |vals| then ([], [])
    else if vals[k] == v1 then
      if k != |vals| - 1 then LogicFrom(xs, vals, k + 1, x1, v1, topY, botY, color)
      else (Rails(x1, xs[k] - 1, topY, botY), [])
    else
      var rest := LogicFrom(xs, vals, k + 1, xs[k], vals[k], topY, botY, color);
      (Rails(x1, xs[k] - 2, topY, botY) + Crossing(xs[k], topY, botY) + rest.0,
       [ValueStamp(v1, xs[k], botY, color)] + rest.1)
  }

  /** One step of PlotFloatLogic at traced point k. */
  lemma LogicStep(xs: seq<int>, vals: seq<int>, k: nat, x1: int, v1: int, topY: int, botY: int, color: int)
    requires |xs| == |vals| && k < |vals|
    ensures vals[k] == v1 && k != |vals| - 1 ==>
              LogicFrom(xs, vals, k, x1, v1, topY, botY, color) == LogicFrom(xs, vals, k + 1, x1, v1, topY, botY, color)
    ensures vals[k] == v1 && k == |vals| - 1 ==>
              LogicFrom(xs, vals, k, x1, v1, topY, botY, color) == (Rails(x1, xs[k] - 1, topY, botY), [])
    ensures vals[k] != v1 ==>
              var rest := LogicFrom(xs, vals, k + 1, xs[k], vals[k], topY, botY, color);
              LogicFrom(xs, vals, k, x1, v1, topY, botY, color) ==
                (Rails(x1, xs[k] - 2, topY, botY) + Crossing(xs[k], topY, botY) + rest.0,
                 [ValueStamp(v1, xs[k], botY, color)] + rest.1)
  {
  }

  /** The stamps, defined directly: one per sample whose value differs from the sample before, showing the earlier value. */
  function Changes(xs: seq<int>, vals: seq<int>, k: nat, botY: int, color: int): seq<Stamp>
    requires |xs| == |vals| && k >= 1
    decreases |vals| - k
  {
    if k >= |vals| then []
    else (if vals[k] != vals[k - 1] then [ValueStamp(vals[k - 1], xs[k], botY, color)] else []) +
         Changes(xs, vals, k + 1, botY, color)
  }

  /** The logic plot stamps exactly the value changes. */
  lemma {:induction false} LogicStampsAreChanges(xs: seq<int>, vals: seq<int>, k: nat, x1: int, topY: int, botY: int, color: int)
    requires |xs| == |vals| && 1 <= k <= |vals|
    ensures LogicFrom(xs, vals, k, x1, vals[k - 1], topY, botY, color).1 == Changes(xs, vals, k, botY, color)
    decreases |vals| - k
  {
    if k < |vals| {
      if vals[k] == vals[k - 1] {
        if k != |vals| - 1 {
          LogicStampsAreChanges(xs, vals, k + 1, x1, topY, botY, color);
        }
      } else {
        LogicStampsAreChanges(xs, vals, k + 1, xs[k], topY, botY, color);
      }
    }
  }

  /** A constant signal is one run: both rails from the first column to one pixel before the last, and no text. */
  lemma {:induction false} LogicConstant(xs: seq<int>, vals: seq<int>, k: nat, x1: int, topY: int, botY: int, color: int)
    requires |xs| == |vals| && 1 <= k < |vals|
    requires forall j :: 0 <= j < |vals| ==> vals[j] == vals[0]
    ensures LogicFrom(xs, vals, k, x1, vals[0], topY, botY, color) == (Rails(x1, xs[|xs| - 1] - 1, topY, botY), [])
    decreases |vals| - k
  {
    if k != |vals| - 1 {
      LogicConstant(xs, vals, k + 1, x1, topY, botY, color);
    }
  }

  // ---------------------------------------------------------------------
  // Clearing columns
  // ---------------------------------------------------------------------

  /** The first y rows of column x. */
  function ColumnPart(x: int, y: nat, color: int): (s: seq<Stroke>)
    ensures |s| == y && forall j :: 0 <= j < y ==> s[j] == Stroke(x, j, color)
  {
    seq(y, j => Stroke(x, j, color))
  }

  /** ClearHorizFrame: every row of columns x1..x2, column by column. */
  function ColumnStrokes(x1: int, x2: int, h: nat, color: int): seq<Stroke>
    decreases x2 - x1 + 1
  {
    if x1 > x2 then [] else ColumnStrokes(x1, x2 - 1, h, color) + ColumnPart(x2, h, color)
  }

  lemma HitAppend(a: seq<Stroke>, b: seq<Stroke>, w: int, h: int, px: int, py: int)
    ensures Hit(a + b, w, h, px, py) <==> Hit(a, w, h, px, py) || Hit(b, w, h, px, py)
  {
    if Hit(a + b, w, h, px, py) {
      var k :| 0 <= k < |a + b| && Lands((a + b)[k], w, h, px, py);
      if k >= |a| {
        assert b[k - |a|] == (a + b)[k];
      }
    }
    if Hit(b, w, h, px, py) {
      var k :| 0 <= k < |b| && Lands(b[k], w, h, px, py);
      assert (a + b)[|a| + k] == b[k];
    }
    if Hit(a, w, h, px, py) {
      var k :| 0 <= k < |a| && Lands(a[k], w, h, px, py);
      assert (a + b)[k] == a[k];
    }
  }

  /** The columns x1..x2 reach, once clamped into the texture, exactly the columns between their clamped ends. */
  lemma {:induction false} ColumnsHit(x1: int, x2: int, w: int, h: int, color: int, px: int, py: int)
    requires w >= 1 && 0 <= px < w && 0 <= py < h
    ensures Hit(ColumnStrokes(x1, x2, h, color), w, h, px, py) <==>
            x1 <= x2 && ClampIndex(x1, w) <= px <= ClampIndex(x2, w)
    decreases x2 - x1 + 1
  {
    if x1 <= x2 {
      ColumnsHit(x1, x2 - 1, w, h, color, px, py);
      HitAppend(ColumnStrokes(x1, x2 - 1, h, color), ColumnPart(x2, h, color), w, h, px, py);
      assert Lands(ColumnPart(x2, h, color)[py], w, h, px, py) <==> ClampIndex(x2, w) == px;
      if Hit(ColumnPart(x2, h, color), w, h, px, py) {
        var k :| 0 <= k < h && Lands(ColumnPart(x2, h, color)[k], w, h, px, py);
      }
    }
  }

  /**
   * After ClearHorizFrame(x1, x2) a pixel has the clear colour exactly when
   * its column lies between the clamped ends (x1 <= x2); all other pixels
   * keep their colour.
   */
  lemma ColumnsCleared(x1: int, x2: int, w: int, h: int, color: int, px: int, py: int, before: int)
    requires w >= 1 && 0 <= px < w && 0 <= py < h
    ensures Paint(ColumnStrokes(x1, x2, h, color), w, h, px, py, before) ==
            if x1 <= x2 && ClampIndex(x1, w) <= px <= ClampIndex(x2, w) then color else before
  {
    ColumnsUniform(x1, x2, h, color);
    PaintUniform(ColumnStrokes(x1, x2, h, color), color, w, h, px, py, before);
    ColumnsHit(x1, x2, w, h, color, px, py);
  }

  lemma {:induction false} ColumnsUniform(x1: int, x2: int, h: nat, color: int)
    ensures forall k :: 0 <= k < |ColumnStrokes(x1, x2, h, color)| ==> ColumnStrokes(x1, x2, h, color)[k].color == color
    decreases x2 - x1 + 1
  {
    if x1 <= x2 {
      ColumnsUniform(x1, x2 - 1, h, color);
    }
  }

  // ---------------------------------------------------------------------
  // Labels
  // ---------------------------------------------------------------------

  /**
   * Where DrawLabel puts a label whose rounded row is pxY: unchanged when it
   * passes the inside test; clamped and marked with '!' when it does not and
   * clamping was asked for; nowhere otherwise.
   */
  function LabelRow(pxY: int, height: int, clampPosition: bool, text: string): (r: Option<(int, string)>)
  {
    if 0 <= pxY <= height then Some((pxY, text))
    else if clampPosition then Some((ClampIndex(pxY, height), text + "!"))
    else None
  }

  /**
   * A label is drawn iff its row passes the inside test or clamping is on;
   * a drawn label lies within the test range and carries the '!' exactly
   * when it was moved.
   */
  lemma LabelRowPlacement(pxY: int, height: int, clampPosition: bool, text: string)
    requires height >= 1
    ensures LabelRow(pxY, height, clampPosition, text).Some? <==> (0 <= pxY <= height || clampPosition)
    ensures LabelRow(pxY, height, clampPosition, text).Some? ==>
              var (y, t) := LabelRow(pxY, height, clampPosition, text).value;
              && 0 <= y <= height
              && (y == pxY <==> t == text)
              && (t != text ==> t == text + "!")
  {
    if !(0 <= pxY <= height) && clampPosition {
      assert |text + "!"| != |text|;
    }
  }

  /** The marker: a horizontal tick 16 pixels to the right of (pxX, pxY), then a vertical one 8 pixels above and below it. */
  function LabelMarker(pxX: int, pxY: int): seq<Line>
  {
    [Line(pxX, pxY, pxX + 16, pxY), Line(pxX, pxY - 8, pxX, pxY + 8)]
  }

  /** The text goes above the marker when a character fits below the top, else below it. */
  function LabelTextRow(pxY: int, height: int): int
  {
    if pxY < height - (8 + 2) then pxY + 2 else pxY - (8 + 2)
  }

  // ---------------------------------------------------------------------
  // The renderer
  // ---------------------------------------------------------------------

  /** The inner loop of ClearHorizFrame: every row of column x, bottom to top. */
  method ClearColumn(tex: array2<int>, x: int, color: int)
    requires IsTexture(tex)
    modifies tex
    ensures Repainted(tex, ColumnPart(x, tex.Length1, color))
  {
    ghost var base := Snapshot(tex);
    ghost var done: seq<Stroke> := [];
    var y := 0;
    while y < tex.Length1
      invariant 0 <= y <= tex.Length1
      invariant done == ColumnPart(x, y, color)
      invariant PaintedOver(tex, base, done)
    {
      ghost var prevBefore := Checkpoint(tex, base, done);
      SetPixel(tex, x, y, color);
      PaintedThen(tex, base, done, prevBefore, [Stroke(x, y, color)]);
      assert ColumnPart(x, y + 1, color) == ColumnPart(x, y, color) + [Stroke(x, y, color)];
      done := done + [Stroke(x, y, color)];
      y := y + 1;
    }
  }

  class OscRenderer {
    /** Colours of the x, y and z components of vector data. */
    const colorX: int
    const colorY: int
    const colorZ: int
    var settings: OscSettings?
    var screenTexture: array2?<int>
    /** The colour the clear buffer was built with, when the texture was created. */
    var clearColor: int

    /** Initialized and holding a texture. */
    predicate Ready()
      reads this
    {
      settings != null && screenTexture != null && IsTexture(screenTexture)
    }

    constructor (cx: int, cy: int, cz: int)
      ensures colorX == cx && colorY == cy && colorZ == cz
      ensures settings == null && screenTexture == null
    {
      colorX, colorY, colorZ := cx, cy, cz;
      settings := null;
      screenTexture := null;
      clearColor := 0;
    }

    method Initialize(oscSettings: OscSettings)
      modifies this`settings
      ensures settings == oscSettings
    {
      settings := oscSettings;
    }

    /**
     * Clear: a texture of the settings' size is (re)created, with a clear
     * buffer of the given colour, when there is none or its size differs;
     * then the whole texture is set from the clear buffer, so an existing
     * texture is cleared with the colour it was created with.
     */
    method Clear(color: int)
      requires settings != null && settings.textureSize.x >= 1 && settings.textureSize.y >= 1
      modifies this`screenTexture, this`clearColor, screenTexture
      ensures Ready() && settings == old(settings)
      ensures screenTexture.Length0 == settings.textureSize.x && screenTexture.Length1 == settings.textureSize.y
      ensures var recreated := old(screenTexture) == null ||
                old(screenTexture.Length0) != settings.textureSize.x ||
                old(screenTexture.Length1) != settings.textureSize.y;
              && (recreated ==> fresh(screenTexture) && clearColor == color)
              && (!recreated ==> screenTexture == old(screenTexture) && clearColor == old(clearColor))
      ensures forall i, j :: 0 <= i < screenTexture.Length0 && 0 <= j < screenTexture.Length1 ==>
                screenTexture[i, j] == clearColor
    {
      var w := settings.textureSize.x;
      var h := settings.textureSize.y;
      if screenTexture == null || screenTexture.Length0 != w || screenTexture.Length1 != h {
        screenTexture := new int[w, h];
        clearColor := color;
      }
      Fill(screenTexture, clearColor);
    }

    /** The loop of ClearHorizFrame: columns x1..x2, each cleared whole, over the texture as it was at base. */
    method ClearColumns(x1: int, x2: int, color: int, ghost base: seq<seq<int>>)
      requires Ready() && PaintedOver(screenTexture, base, [])
      modifies screenTexture
      ensures PaintedOver(screenTexture, base, ColumnStrokes(x1, x2, screenTexture.Length1, color))
    {
      var tex := screenTexture;
      var h := tex.Length1;
      ghost var done: seq<Stroke> := [];
      var x := x1;
      while x <= x2
        invariant x1 <= x || x == x1
        invariant x <= x2 + 1 || x == x1
        invariant done == ColumnStrokes(x1, x - 1, h, color)
        invariant PaintedOver(tex, base, done)
        decreases x2 - x + 1
      {
        ghost var prevBefore := Checkpoint(tex, base, done);
        ClearColumn(tex, x, color);
        PaintedThen(tex, base, done, prevBefore, ColumnPart(x, h, color));
        done := done + ColumnPart(x, h, color);
        x := x + 1;
      }
    }

    /**
     * ClearHorizFrame: every row of columns x1..x2 (clamped into the
     * texture) gets the colour; nothing else changes, and nothing at all
     * when x1 > x2.
     */
    method ClearHorizFrame(x1: int, x2: int, color: int)
      requires Ready()
      modifies screenTexture
      ensures Repainted(screenTexture, ColumnStrokes(x1, x2, screenTexture.Length1, color))
      ensures forall i, j :: 0 <= i < screenTexture.Length0 && 0 <= j < screenTexture.Length1 ==>
                screenTexture[i, j] ==
                  if x1 <= x2 && ClampIndex(x1, screenTexture.Length0) <= i <= ClampIndex(x2, screenTexture.Length0)
                  then color else old(screenTexture[i, j])
    {
      var tex := screenTexture;
      ghost var base := Snapshot(tex);
      ClearColumns(x1, x2, color, base);
      forall i, j | 0 <= i < tex.Length0 && 0 <= j < tex.Length1
        ensures tex[i, j] == if x1 <= x2 && ClampIndex(x1, tex.Length0) <= i <= ClampIndex(x2, tex.Length0)
                             then color else old(tex[i, j])
      {
        ColumnsCleared(x1, x2, tex.Length0, tex.Length1, color, i, j, old(tex[i, j]));
      }
    }

    /**
     * The step PlotFloat (and each component of PlotVector2 and PlotVector3)
     * draws per sample, over the strokes drawn so far: a line, or the single
     * new pixel.
     */
    method PlotSegment(x1: int, y1: int, x2: int, y2: int, color: int, ghost base: seq<seq<int>>, ghost done: seq<Stroke>)
      requires Ready() && PaintedOver(screenTexture, base, done)
      modifies screenTexture
      ensures PaintedOver(screenTexture, base, done + Segment(Point(x1, y1), Point(x2, y2), color))
    {
      var tex := screenTexture;
      ghost var prev := Checkpoint(tex, base, done);
      var absDx := AbsInt(x1 - x2);
      var absDy := AbsInt(y1 - y2);
      if absDx > 1 || absDy > 1 {
        PlotLine(tex, x1, y1, x2, y2, color);
      } else {
        SetPixel(tex, x2, y2, color);
        assert Segment(Point(x1, y1), Point(x2, y2), color) == [Stroke(x2, y2, color)];
      }
      PaintedThen(tex, base, done, prev, Segment(Point(x1, y1), Point(x2, y2), color));
    }

    /** The rows of sample idx at ppd pixels per division about row cy, read through GetFloat, GetVector2 or GetVector3 for one, two or three components. */
    method ReadRow(ch: Channel.OscChannel, idx: int, dims: int, ppd: int, cy: int,
                   ghost rows: seq<seq<int>>, ghost lo: int, ghost k: int) returns (ys: seq<int>)
      requires ch.buffer.Length == BUFFER_SIZE && 1 <= dims <= 3
      requires Traces(rows, ch.buffer[..], ch.scale, ch.position, lo, dims, ppd, cy)
      requires 0 <= k < |rows| && idx == lo + k
      ensures ys == rows[k]
    {
      SampleIsRead(ch, idx);
      if dims == 1 {
        ys := [PixelY(ch.GetFloat(idx), ppd, cy)];
      } else if dims == 2 {
        var sample := ch.GetVector2(idx);
        ys := [PixelY(sample.x, ppd, cy), PixelY(sample.y, ppd, cy)];
      } else {
        var sample := ch.GetVector3(idx);
        ys := [PixelY(sample.x, ppd, cy), PixelY(sample.y, ppd, cy), PixelY(sample.z, ppd, cy)];
      }
      assert ys == Row(SampleAt(ch.buffer[..], ch.scale, ch.position, idx, dims), ppd, cy);
    }

    /**
     * Step n of a trace: every component, x first, each in its own colour, from
     * traced point n - 1 to traced point n, over the steps before it.
     */
    method PlotStep(x1: int, ys1: seq<int>, x2: int, ys2: seq<int>, colors: seq<int>,
                    ghost base: seq<seq<int>>, ghost xs: seq<int>, ghost rows: seq<seq<int>>, ghost n: int)
      requires Ready() && Shaped(xs, rows, colors) && 1 <= n < |xs|
      requires x1 == xs[n - 1] && ys1 == rows[n - 1] && x2 == xs[n] && ys2 == rows[n]
      requires PaintedOver(screenTexture, base, Steps(xs, rows, colors, n))
      modifies screenTexture
      ensures PaintedOver(screenTexture, base, Steps(xs, rows, colors, n + 1))
    {
      ghost var done := Steps(xs, rows, colors, n);
      var c := 0;
      assert done + Step(x1, ys1, x2, ys2, colors, 0) == done;
      while c < |colors|
        invariant 0 <= c <= |colors|
        invariant PaintedOver(screenTexture, base, done + Step(x1, ys1, x2, ys2, colors, c))
      {
        ghost var before := done + Step(x1, ys1, x2, ys2, colors, c);
        PlotSegment(x1, ys1[c], x2, ys2[c], colors[c], base, before);
        assert done + Step(x1, ys1, x2, ys2, colors, c + 1) == before + Segment(Point(x1, ys1[c]), Point(x2, ys2[c]), colors[c]);
        c := c + 1;
      }
    }

    /**
     * One pass of the loop of PlotTrace: the column of fpx, the rows of sample
     * i, the step to them from traced point n - 1, and the position one step on.
     */
    method TraceStep(ch: Channel.OscChannel, i: int, pxStart: real, pxPerSample: real, fpx: real, x1: int, ys1: seq<int>,
                     colors: seq<int>, ppd: int, cy: int,
                     ghost base: seq<seq<int>>, ghost xs: seq<int>, ghost rows: seq<seq<int>>, ghost lo: int, ghost n: nat)
      returns (x2: int, ys2: seq<int>, fpx2: real)
      requires Ready() && ch.buffer.Length == BUFFER_SIZE && 1 <= |colors| <= 3
      requires ppd == settings.pixelsPerDivision && cy == settings.textureCenter.y
      requires Shaped(xs, rows, colors) && 1 <= n < |xs| && i == lo + n
      requires forall k {:trigger TraceX(pxStart, pxPerSample, k)} :: 0 <= k < |xs| ==> xs[k] == TraceX(pxStart, pxPerSample, k)
      requires fpx == PixelX(pxStart, pxPerSample, n) && x1 == xs[n - 1] && ys1 == rows[n - 1]
      requires Traces(rows, ch.buffer[..], ch.scale, ch.position, lo, |colors|, ppd, cy)
      requires PaintedOver(screenTexture, base, Steps(xs, rows, colors, n))
      modifies screenTexture
      ensures x2 == xs[n] && ys2 == rows[n] && fpx2 == PixelX(pxStart, pxPerSample, n + 1)
      ensures PaintedOver(screenTexture, base, Steps(xs, rows, colors, n + 1))
    {
      assert xs[n] == TraceX(pxStart, pxPerSample, n);
      x2 := RoundToInt(fpx);
      ys2 := ReadRow(ch, i, |colors|, ppd, cy, rows, lo, n);
      PlotStep(x1, ys1, x2, ys2, colors, base, xs, rows, n);
      PixelXNext(pxStart, pxPerSample, n);
      fpx2 := fpx + pxPerSample;
    }

    /**
     * The loop shared by PlotFloat, PlotVector2 and PlotVector3: from the sample
     * before smpBeg to smpEnd, one step of every component per sample, the
     * position advancing by pxPerSample. Traced point k is column xs[k] and
     * rows rows[k], those of sample smpBeg - 1 + k.
     */
    method PlotTrace(ch: Channel.OscChannel, smpBeg: int, smpEnd: int, pxStart: real, pxPerSample: real, colors: seq<int>,
                     ghost xs: seq<int>, ghost rows: seq<seq<int>>)
      requires Ready() && ch.buffer.Length == BUFFER_SIZE && 1 <= |colors| <= 3
      requires |xs| == |rows| == Count(smpBeg, smpEnd) + 1
      requires forall k {:trigger TraceX(pxStart, pxPerSample, k)} :: 0 <= k < |xs| ==> xs[k] == TraceX(pxStart, pxPerSample, k)
      requires Traces(rows, ch.buffer[..], ch.scale, ch.position, smpBeg - 1, |colors|,
                      settings.pixelsPerDivision, settings.textureCenter.y)
      modifies screenTexture
      ensures Shaped(xs, rows, colors) && Repainted(screenTexture, Steps(xs, rows, colors, |xs|))
    {
      assert Shaped(xs, rows, colors);
      PixelXStart(pxStart, pxPerSample);
      var x1 := RoundToInt(pxStart - pxPerSample);
      assert x1 == TraceX(pxStart, pxPerSample, 0);
      var ys1 := ReadRow(ch, smpBeg - 1, |colors|, settings.pixelsPerDivision, settings.textureCenter.y, rows, smpBeg - 1, 0);
      TraceFrom(ch, smpBeg, smpEnd, pxStart, pxPerSample, colors, x1, ys1, xs, rows);
    }

    /** The loop of PlotTrace, from the first sample on, traced point 0 being column x0 and rows ys0. */
    method TraceFrom(ch: Channel.OscChannel, smpBeg: int, smpEnd: int, pxStart: real, pxPerSample: real, colors: seq<int>,
                     x0: int, ys0: seq<int>, ghost xs: seq<int>, ghost rows: seq<seq<int>>)
      requires Ready() && ch.buffer.Length == BUFFER_SIZE && 1 <= |colors| <= 3
      requires Shaped(xs, rows, colors) && |xs| == Count(smpBeg, smpEnd) + 1
      requires forall k {:trigger TraceX(pxStart, pxPerSample, k)} :: 0 <= k < |xs| ==> xs[k] == TraceX(pxStart, pxPerSample, k)
      requires Traces(rows, ch.buffer[..], ch.scale, ch.position, smpBeg - 1, |colors|,
                      settings.pixelsPerDivision, settings.textureCenter.y)
      requires x0 == xs[0] && ys0 == rows[0]
      modifies screenTexture
      ensures Repainted(screenTexture, Steps(xs, rows, colors, |xs|))
    {
      var tex := screenTexture;
      var texCenterY := settings.textureCenter.y;
      var pixPerDivs := settings.pixelsPerDivision;
      ghost var base := Snapshot(tex);
      PixelXStart(pxStart, pxPerSample);
      var fpx := pxStart;
      var x1, ys1 := x0, ys0;
      ghost var n := 1;
      var i := smpBeg;
      while i <= smpEnd
        invariant i == smpBeg || smpBeg < i <= smpEnd + 1
        invariant n == i - smpBeg + 1
        invariant fpx == PixelX(pxStart, pxPerSample, n)
        invariant x1 == xs[n - 1] && ys1 == rows[n - 1]
        invariant PaintedOver(tex, base, Steps(xs, rows, colors, n))
        decreases smpEnd - i
      {
        x1, ys1, fpx := TraceStep(ch, i, pxStart, pxPerSample, fpx, x1, ys1, colors, pixPerDivs, texCenterY,
                                  base, xs, rows, smpBeg - 1, n);
        n := n + 1;
        i := i + 1;
      }
      assert n == |xs|;
    }

    /** PlotFloat: the x component as one polyline in the given colour. */
    method PlotFloat(ch: Channel.OscChannel, smpBeg: int, smpEnd: int, pxStart: real, pxPerSample: real, color: int)
      requires Ready() && ch.buffer.Length == BUFFER_SIZE
      modifies screenTexture
      ensures Repainted(screenTexture,
                Steps(Columns(pxStart, pxPerSample, smpBeg, smpEnd),
                      Rows(Samples(ch.buffer[..], ch.scale, ch.position, smpBeg - 1, Count(smpBeg, smpEnd) + 1, 1),
                           settings.pixelsPerDivision, settings.textureCenter.y),
                      [color], Count(smpBeg, smpEnd) + 1))
    {
      RowsTrace(ch.buffer[..], ch.scale, ch.position, smpBeg - 1, Count(smpBeg, smpEnd) + 1, 1,
                settings.pixelsPerDivision, settings.textureCenter.y);
      PlotTrace(ch, smpBeg, smpEnd, pxStart, pxPerSample, [color], Columns(pxStart, pxPerSample, smpBeg, smpEnd),
                Rows(Samples(ch.buffer[..], ch.scale, ch.position, smpBeg - 1, Count(smpBeg, smpEnd) + 1, 1),
                     settings.pixelsPerDivision, settings.textureCenter.y));
    }

    /** PlotVector2: x in colorX, then y in colorY, at every step; the colour argument is not used. */
    method PlotVector2(ch: Channel.OscChannel, smpBeg: int, smpEnd: int, pxStart: real, pxPerSample: real, color: int)
      requires Ready() && ch.buffer.Length == BUFFER_SIZE
      modifies screenTexture
      ensures Repainted(screenTexture,
                Steps(Columns(pxStart, pxPerSample, smpBeg, smpEnd),
                      Rows(Samples(ch.buffer[..], ch.scale, ch.position, smpBeg - 1, Count(smpBeg, smpEnd) + 1, 2),
                           settings.pixelsPerDivision, settings.textureCenter.y),
                      [colorX, colorY], Count(smpBeg, smpEnd) + 1))
    {
      RowsTrace(ch.buffer[..], ch.scale, ch.position, smpBeg - 1, Count(smpBeg, smpEnd) + 1, 2,
                settings.pixelsPerDivision, settings.textureCenter.y);
      PlotTrace(ch, smpBeg, smpEnd, pxStart, pxPerSample, [colorX, colorY], Columns(pxStart, pxPerSample, smpBeg, smpEnd),
                Rows(Samples(ch.buffer[..], ch.scale, ch.position, smpBeg - 1, Count(smpBeg, smpEnd) + 1, 2),
                     settings.pixelsPerDivision, settings.textureCenter.y));
    }

    /** PlotVector3: x in colorX, y in colorY, z in colorZ, at every step; the colour argument is not used. */
    method PlotVector3(ch: Channel.OscChannel, smpBeg: int, smpEnd: int, pxStart: real, pxPerSample: real, color: int)
      requires Ready() && ch.buffer.Length == BUFFER_SIZE
      modifies screenTexture
      ensures Repainted(screenTexture,
                Steps(Columns(pxStart, pxPerSample, smpBeg, smpEnd),
                      Rows(Samples(ch.buffer[..], ch.scale, ch.position, smpBeg - 1, Count(smpBeg, smpEnd) + 1, 3),
                           settings.pixelsPerDivision, settings.textureCenter.y),
                      [colorX, colorY, colorZ], Count(smpBeg, smpEnd) + 1))
    {
      RowsTrace(ch.buffer[..], ch.scale, ch.position, smpBeg - 1, Count(smpBeg, smpEnd) + 1, 3,
                settings.pixelsPerDivision, settings.textureCenter.y);
      PlotTrace(ch, smpBeg, smpEnd, pxStart, pxPerSample, [colorX, colorY, colorZ], Columns(pxStart, pxPerSample, smpBeg, smpEnd),
                Rows(Samples(ch.buffer[..], ch.scale, ch.position, smpBeg - 1, Count(smpBeg, smpEnd) + 1, 3),
                     settings.pixelsPerDivision, settings.textureCenter.y));
    }

    /** One PlotLine call of PlotFloatLogic, after the lines drawn so far. */
    method DrawLine(l: Line, color: int, ghost base: seq<seq<int>>, ghost done: seq<Line>)
      requires Ready() && PaintedOver(screenTexture, base, Ink(done, color))
      modifies screenTexture
      ensures PaintedOver(screenTexture, base, Ink(done + [l], color))
    {
      var tex := screenTexture;
      ghost var prev := Checkpoint(tex, base, Ink(done, color));
      PlotLine(tex, l.x0, l.y0, l.x1, l.y1, color);
      PaintedThen(tex, base, Ink(done, color), prev, Strokes(LinePoints(l.x0, l.y0, l.x1, l.y1), color));
      InkSnoc(done, l, color);
    }

    /** The two rail lines of PlotFloatLogic, top then bottom, after the lines drawn so far. */
    method PlotRails(x1: int, x2: int, topY: int, botY: int, color: int, ghost base: seq<seq<int>>, ghost done: seq<Line>)
      requires Ready() && PaintedOver(screenTexture, base, Ink(done, color))
      modifies screenTexture
      ensures PaintedOver(screenTexture, base, Ink(done + Rails(x1, x2, topY, botY), color))
    {
      DrawLine(Line(x1, topY, x2, topY), color, base, done);
      DrawLine(Line(x1, botY, x2, botY), color, base, done + [Line(x1, topY, x2, topY)]);
      assert done + [Line(x1, topY, x2, topY)] + [Line(x1, botY, x2, botY)] == done + Rails(x1, x2, topY, botY);
    }

    /** The two crossing lines of PlotFloatLogic, after the lines drawn so far. */
    method PlotCrossing(x2: int, topY: int, botY: int, color: int, ghost base: seq<seq<int>>, ghost done: seq<Line>)
      requires Ready() && PaintedOver(screenTexture, base, Ink(done, color))
      modifies screenTexture
      ensures PaintedOver(screenTexture, base, Ink(done + Crossing(x2, topY, botY), color))
    {
      DrawLine(Line(x2 - 2, topY, x2, botY), color, base, done);
      DrawLine(Line(x2 - 2, botY, x2, topY), color, base, done + [Line(x2 - 2, topY, x2, botY)]);
      assert done + [Line(x2 - 2, topY, x2, botY)] + [Line(x2 - 2, botY, x2, topY)] == done + Crossing(x2, topY, botY);
    }

    /** The rails up to two pixels before x2, then the crossing at x2: what PlotFloatLogic draws where the value changes. */
    method PlotChange(x1: int, x2: int, topY: int, botY: int, color: int, ghost base: seq<seq<int>>, ghost done: seq<Line>)
      requires Ready() && PaintedOver(screenTexture, base, Ink(done, color))
      modifies screenTexture
      ensures PaintedOver(screenTexture, base, Ink(done + (Rails(x1, x2 - 2, topY, botY) + Crossing(x2, topY, botY)), color))
    {
      PlotRails(x1, x2 - 2, topY, botY, color, base, done);
      PlotCrossing(x2, topY, botY, color, base, done + Rails(x1, x2 - 2, topY, botY));
      assert done + Rails(x1, x2 - 2, topY, botY) + Crossing(x2, topY, botY) == done + (Rails(x1, x2 - 2, topY, botY) + Crossing(x2, topY, botY));
    }

    /** The level of sample idx, read through GetFloat, less the channel position and truncated toward zero. */
    method ReadLevel(ch: Channel.OscChannel, idx: int, ghost vals: seq<int>, ghost lo: int, ghost k: int) returns (v: int)
      requires ch.buffer.Length == BUFFER_SIZE
      requires Leveled(vals, ch.buffer[..], ch.scale, ch.position, lo)
      requires 0 <= k < |vals| && idx == lo + k
      ensures v == vals[k]
    {
      SampleIsRead(ch, idx);
      v := Trunc(ch.GetFloat(idx) - ch.position);
    }

    /**
     * One sample of PlotFloatLogic's loop, the n-th traced point, sample
     * idx, at column fpx: the current run started at column x1 with value
     * v1. Returns where the run now starts, its value and the stamp put
     * down, and the lines drawn so far.
     */
    method LogicSample(ch: Channel.OscChannel, idx: int, fpx: real, x1: int, v1: int, topY: int, botY: int, color: int,
                       ghost base: seq<seq<int>>, ghost xs: seq<int>, ghost vals: seq<int>, ghost lo: int, ghost n: int,
                       ghost done: seq<Line>, last: bool)
      returns (x: int, v: int, stamp: seq<Stamp>, ghost drawn: seq<Line>)
      requires Ready() && ch.buffer.Length == BUFFER_SIZE
      requires |xs| == |vals| && 1 <= n < |vals| && idx == lo + n && v1 == vals[n - 1]
      requires last <==> n == |vals| - 1
      requires xs[n] == RoundToInt(fpx)
      requires Leveled(vals, ch.buffer[..], ch.scale, ch.position, lo)
      requires PaintedOver(screenTexture, base, Ink(done, color))
      modifies screenTexture
      ensures v == vals[n]
      ensures var before := LogicFrom(xs, vals, n, x1, v1, topY, botY, color);
              var after := LogicFrom(xs, vals, n + 1, x, v, topY, botY, color);
              drawn + after.0 == done + before.0 && stamp + after.1 == before.1
      ensures PaintedOver(screenTexture, base, Ink(drawn, color))
    {
      var x2 := RoundToInt(fpx);
      var v2 := ReadLevel(ch, idx, vals, lo, n);
      LogicStep(xs, vals, n, x1, v1, topY, botY, color);
      if v1 == v2 {
        x, v, stamp, drawn := x1, v2, [], done;
        if last {
          PlotRails(x1, x2 - 1, topY, botY, color, base, done);
          drawn := done + Rails(x1, x2 - 1, topY, botY);
          assert LogicFrom(xs, vals, n + 1, x, v, topY, botY, color) == ([], []);
        }
      } else {
        PlotChange(x1, x2, topY, botY, color, base, done);
        ghost var change := Rails(x1, x2 - 2, topY, botY) + Crossing(x2, topY, botY);
        assert done + change + LogicFrom(xs, vals, n + 1, x2, v2, topY, botY, color).0 == done + (change + LogicFrom(xs, vals, n + 1, x2, v2, topY, botY, color).0);
        x, v, stamp, drawn := x2, v2, [ValueStamp(v1, x2, botY, color)], done + change;
      }
    }

    /**
     * The loop of PlotFloatLogic over traced points with columns xs and
     * levels vals, those of samples smpBeg - 1 .. smpEnd, between the rails
     * at rows topY and botY. The source returns from the loop after the
     * rails of a last sample equal to its run; that is its last pass anyway.
     */
    method PlotLogic(ch: Channel.OscChannel, smpBeg: int, smpEnd: int, pxStart: real, pxPerSample: real,
                     topY: int, botY: int, color: int, ghost xs: seq<int>, ghost vals: seq<int>)
      returns (stamps: seq<Stamp>)
      requires Ready() && ch.buffer.Length == BUFFER_SIZE
      requires |xs| == |vals| == Count(smpBeg, smpEnd) + 1
      requires forall k {:trigger TraceX(pxStart, pxPerSample, k)} :: 0 <= k < |xs| ==> xs[k] == TraceX(pxStart, pxPerSample, k)
      requires Leveled(vals, ch.buffer[..], ch.scale, ch.position, smpBeg - 1)
      modifies screenTexture
      ensures var r := LogicFrom(xs, vals, 1, xs[0], vals[0], topY, botY, color);
              Repainted(screenTexture, Ink(r.0, color)) && stamps == r.1
    {
      var tex := screenTexture;
      PixelXStart(pxStart, pxPerSample);
      var fpx := pxStart;
      var x1 := RoundToInt(pxStart - pxPerSample);
      assert x1 == TraceX(pxStart, pxPerSample, 0);
      var v1 := ReadLevel(ch, smpBeg - 1, vals, smpBeg - 1, 0);
      ghost var total := LogicFrom(xs, vals, 1, x1, v1, topY, botY, color);
      assert total == LogicFrom(xs, vals, 1, xs[0], vals[0], topY, botY, color);
      ghost var base := Snapshot(tex);
      ghost var done: seq<Line> := [];
      stamps := [];
      ghost var n := 1;
      var i := smpBeg;
      while i <= smpEnd
        invariant i == smpBeg || smpBeg < i <= smpEnd + 1
        invariant n == i - smpBeg + 1
        invariant fpx == PixelX(pxStart, pxPerSample, n)
        invariant v1 == vals[n - 1]
        invariant var rest := LogicFrom(xs, vals, n, x1, v1, topY, botY, color);
                  done + rest.0 == total.0 && stamps + rest.1 == total.1
        invariant PaintedOver(tex, base, Ink(done, color))
        decreases smpEnd - i
      {
        assert xs[n] == TraceX(pxStart, pxPerSample, n);
        var x2, v2, stamp;
        x2, v2, stamp, done := LogicSample(ch, i, fpx, x1, v1, topY, botY, color, base, xs, vals, smpBeg - 1, n, done, i == smpEnd);
        assert stamps + stamp + LogicFrom(xs, vals, n + 1, x2, v2, topY, botY, color).1 == stamps + (stamp + LogicFrom(xs, vals, n + 1, x2, v2, topY, botY, color).1);
        stamps := stamps + stamp;
        x1, v1 := x2, v2;
        PixelXNext(pxStart, pxPerSample, n);
        fpx := fpx + pxPerSample;
        n := n + 1;
        i := i + 1;
      }
      assert LogicFrom(xs, vals, n, x1, v1, topY, botY, color) == ([], []);
      assert done == total.0 && stamps == total.1;
    }

    /** PlotFloatLogic: the value as a digital trace between two rails, with the old value stamped at every change. */
    method PlotFloatLogic(ch: Channel.OscChannel, smpBeg: int, smpEnd: int, pxStart: real, pxPerSample: real, color: int)
      returns (stamps: seq<Stamp>)
      requires Ready() && ch.buffer.Length == BUFFER_SIZE
      modifies screenTexture
      ensures var vals := Levels(Samples(ch.buffer[..], ch.scale, ch.position, smpBeg - 1, Count(smpBeg, smpEnd) + 1, 1), ch.position);
              var xs := Columns(pxStart, pxPerSample, smpBeg, smpEnd);
              var ppd, cy := settings.pixelsPerDivision, settings.textureCenter.y;
              var r := LogicFrom(xs, vals, 1, xs[0], vals[0], PixelY(ch.position + ch.scale, ppd, cy),
                                 PixelY(ch.position, ppd, cy), color);
              Repainted(screenTexture, Ink(r.0, color)) && stamps == r.1
    {
      var position := ch.position;
      var texCenterY := settings.textureCenter.y;
      var pixPerDivs := settings.pixelsPerDivision;
      var topY := PixelY(position + ch.scale, pixPerDivs, texCenterY);
      var botY := PixelY(position, pixPerDivs, texCenterY);
      ghost var xs := Columns(pxStart, pxPerSample, smpBeg, smpEnd);
      ghost var vals := Levels(Samples(ch.buffer[..], ch.scale, position, smpBeg - 1, Count(smpBeg, smpEnd) + 1, 1), position);
      LevelsTrace(ch.buffer[..], ch.scale, position, smpBeg - 1, Count(smpBeg, smpEnd) + 1);
      stamps := PlotLogic(ch, smpBeg, smpEnd, pxStart, pxPerSample, topY, botY, color, xs, vals);
      assert vals == Levels(Samples(ch.buffer[..], ch.scale, ch.position, smpBeg - 1, Count(smpBeg, smpEnd) + 1, 1), ch.position);
      assert topY == PixelY(ch.position + ch.scale, settings.pixelsPerDivision, settings.textureCenter.y);
      assert botY == PixelY(ch.position, settings.pixelsPerDivision, settings.textureCenter.y);
    }

    /** The two ticks of a label's marker at (pxX, pxY). */
    method PlotMarker(pxX: int, pxY: int, color: int)
      requires Ready()
      modifies screenTexture
      ensures Repainted(screenTexture, Ink(LabelMarker(pxX, pxY), color))
    {
      ghost var base := Snapshot(screenTexture);
      DrawLine(Line(pxX, pxY, pxX + 16, pxY), color, base, []);
      DrawLine(Line(pxX, pxY - 8, pxX, pxY + 8), color, base, [Line(pxX, pxY, pxX + 16, pxY)]);
      assert [Line(pxX, pxY, pxX + 16, pxY)] + [Line(pxX, pxY - 8, pxX, pxY + 8)] == LabelMarker(pxX, pxY);
    }

    /**
     * DrawLabel: a marker and its text at a position in divisions. A label
     * whose row fails the inside test is dropped, or, with clampPosition,
     * clamped onto the screen and marked with '!'.
     */
    method DrawLabel(text: string, x: real, y: real, color: int, clampPosition: bool) returns (stamp: Option<Stamp>)
      requires Ready()
      modifies screenTexture
      ensures var pxX := settings.GetPixelPositionIntX(x);
              match LabelRow(settings.GetPixelPositionIntY(y), settings.textureSize.y, clampPosition, text)
              case None => stamp.None? && unchanged(screenTexture)
              case Some((pxY, t)) =>
                && Repainted(screenTexture, Ink(LabelMarker(pxX, pxY), color))
                && stamp == Some(Stamp(Chars(t), pxX + 1, LabelTextRow(pxY, settings.textureSize.y), color))
    {
      var pxX := settings.GetPixelPositionIntX(x);
      var pxY := settings.GetPixelPositionIntY(y);
      var caption := text;
      var isNotFit := !settings.TestPixelInsideScreenY(pxY);
      if isNotFit {
        if clampPosition {
          pxY := settings.ClampPixelInsideScreenY(pxY);
          caption := caption + "!";
        } else {
          return None;
        }
      }
      PlotMarker(pxX, pxY, color);
      if pxY < settings.textureSize.y - (8 + 2) {
        stamp := Some(Stamp(Chars(caption), pxX + 1, pxY + 2, color));
      } else {
        stamp := Some(Stamp(Chars(caption), pxX + 1, pxY - (8 + 2), color));
      }
    }

    /** DrawHorizontalLine: a line across the screen, from column 1 to width - 1, at a height in divisions. */
    method DrawHorizontalLine(y: real, color: int)
      requires Ready()
      modifies screenTexture
      ensures var pxY := settings.GetPixelPositionIntY(y);
              Repainted(screenTexture, Strokes(LinePoints(1, pxY, settings.textureSize.x - 1, pxY), color))
    {
      var pxY := settings.GetPixelPositionIntY(y);
      PlotLine(screenTexture, 1, pxY, settings.textureSize.x - 1, pxY, color);
    }
  }

  // ---------------------------------------------------------------------
  // OscChannel.Render
  // ---------------------------------------------------------------------

  /** What OscChannel.Render draws: nothing when unplugged, else the routine its style and format select. */
  function ChannelStrokes(r: OscRenderer, ch: Channel.OscChannel, smpBeg: int, smpEnd: int, pixStart: real, pixPerSample: real):
    (s: (seq<Stroke>, seq<Stamp>))
    reads r, r.settings, ch`isPlugged, ch`style, ch`format, ch`buffer, ch`scale, ch`position, ch.buffer
    requires r.settings != null && ch.buffer.Length == BUFFER_SIZE
  {
    var xs := Columns(pixStart, pixPerSample, smpBeg, smpEnd);
    var n := Count(smpBeg, smpEnd) + 1;
    var ppd, cy := r.settings.pixelsPerDivision, r.settings.textureCenter.y;
    if !ch.isPlugged then ([], [])
    else match ch.style
      case Default =>
        (match ch.format
         case Float => Steps(xs, Rows(Samples(ch.buffer[..], ch.scale, ch.position, smpBeg - 1, n, 1), ppd, cy), [ch.color], n)
         case Vector2 => Steps(xs, Rows(Samples(ch.buffer[..], ch.scale, ch.position, smpBeg - 1, n, 2), ppd, cy), [r.colorX, r.colorY], n)
         case Vector3 => Steps(xs, Rows(Samples(ch.buffer[..], ch.scale, ch.position, smpBeg - 1, n, 3), ppd, cy), [r.colorX, r.colorY, r.colorZ], n),
         [])
      case Logic =>
        var vals := Levels(Samples(ch.buffer[..], ch.scale, ch.position, smpBeg - 1, n, 1), ch.position);
        var r := LogicFrom(xs, vals, 1, xs[0], vals[0], PixelY(ch.position + ch.scale, ppd, cy), PixelY(ch.position, ppd, cy), ch.color);
        (Ink(r.0, ch.color), r.1)
  }


  /**
   * OscChannel.Render: an unplugged channel changes nothing; a plugged one
   * folds samples smpBeg..smpEnd into its min/max, marks its status text
   * when the peak-to-peak value changed, and draws by style and format.
   */
  method RenderChannel(ch: Channel.OscChannel, r: OscRenderer, smpBeg: int, smpEnd: int, pixStart: real, pixPerSample: real)
    returns (stamps: seq<Stamp>)
    requires r.Ready() && ch.buffer.Length == BUFFER_SIZE
    modifies ch`isDirtyStatusText, ch.minMax, r.screenTexture
    ensures !ch.isPlugged ==> unchanged(ch.minMax) && unchanged(r.screenTexture) && ch.isDirtyStatusText == old(ch.isDirtyStatusText)
    ensures ch.isPlugged ==>
              && ch.minMax.min == MinMax.ScanMin(ch.buffer[..], smpBeg, smpEnd, ch.format, old(ch.minMax.min))
              && ch.minMax.max == MinMax.ScanMax(ch.buffer[..], smpBeg, smpEnd, ch.format, old(ch.minMax.max))
              && ch.minMax.p2p == ch.minMax.max - ch.minMax.min && !ch.minMax.isZero
              && ch.isDirtyStatusText == (old(ch.isDirtyStatusText) || ch.minMax.p2p != old(ch.minMax.p2p))
    ensures var s := ChannelStrokes(r, ch, smpBeg, smpEnd, pixStart, pixPerSample);
            Repainted(r.screenTexture, s.0) && stamps == s.1
  {
    stamps := [];
    if ch.isPlugged {
      var changed := ch.CalculateMinMax(smpBeg, smpEnd);
      if changed {
        ch.isDirtyStatusText := true;
      }
      match ch.style {
        case Default =>
          match ch.format {
            case Float => r.PlotFloat(ch, smpBeg, smpEnd, pixStart, pixPerSample, ch.color);
            case Vector2 => r.PlotVector2(ch, smpBeg, smpEnd, pixStart, pixPerSample, ch.color);
            case Vector3 => r.PlotVector3(ch, smpBeg, smpEnd, pixStart, pixPerSample, ch.color);
          }
        case Logic =>
          stamps := r.PlotFloatLogic(ch, smpBeg, smpEnd, pixStart, pixPerSample, ch.color);
      }
    }
  }
}
