// OscSettings: the ring-buffer constants, the screen geometry computed from
// the designer fields, and the conversions from division coordinates to
// texture pixels.

module Settings {
  import opened Numerics

  /** Ring buffer size; a power of two so that `& BUFFER_INDEX_MASK` wraps. */
  const BUFFER_SIZE: int := 1024
  const BUFFER_HALF_SIZE: int := BUFFER_SIZE / 2
  const BUFFER_INDEX_MASK: int := BUFFER_SIZE - 1
  /** Samples drawn per batch, as declared by the settings (the trigger keeps its own value). */
  const SAMPLES_PER_DRAW: int := 10

  /**
   * `i & BUFFER_INDEX_MASK` on a two's-complement int. Because the buffer
   * size is a power of two, the bitwise and keeps the low ten bits, which is
   * the Euclidean remainder modulo 1024 also for negative i.
   */
  function Mask(i: int): (r: int)
    ensures 0 <= r <= BUFFER_INDEX_MASK
    ensures (i - r) % BUFFER_SIZE == 0
    ensures 0 <= i < BUFFER_SIZE ==> r == i
  {
    i % BUFFER_SIZE
  }

  /** Addresses one buffer length apart read the same slot. */
  lemma {:induction false} MaskPeriodic(i: int, k: int)
    ensures Mask(i + k * BUFFER_SIZE) == Mask(i)
    decreases if k < 0 then -k else k
  {
    if k > 0 {
      MaskPeriodic(i, k - 1);
      assert i + k * BUFFER_SIZE == (i + (k - 1) * BUFFER_SIZE) + BUFFER_SIZE;
    } else if k < 0 {
      MaskPeriodic(i, k + 1);
      assert i + k * BUFFER_SIZE == (i + (k + 1) * BUFFER_SIZE) - BUFFER_SIZE;
    }
  }

  /** Vector2Int */
  datatype Int2 = Int2(x: int, y: int)

  /** Vector2 */
  datatype Real2 = Real2(x: real, y: real)

  /** Rect in division units: left, bottom, width, height. */
  datatype Rect = Rect(x: real, y: real, width: real, height: real)

  class OscSettings {
    var pixelsPerDivision: int
    var divisionsX: int
    var divisionsY: int
    var subdivisions: int
    var drawGrid: bool
    var drawRulerX: bool
    var drawRulerY: bool
    // calculated by Initialize
    var pixelsPerSubdivision: int
    var textureSize: Int2
    var textureCenter: Int2
    var rectangle: Rect
    var markersPositionX: real
    var timePerSample: real

    /** The designer defaults; the calculated fields are zero until Initialize. */
    constructor ()
      ensures pixelsPerDivision == 50 && divisionsX == 11 && divisionsY == 11 && subdivisions == 5
      ensures drawGrid && drawRulerX && drawRulerY
      ensures pixelsPerSubdivision == 0 && textureSize == Int2(0, 0) && textureCenter == Int2(0, 0)
      ensures rectangle == Rect(0.0, 0.0, 0.0, 0.0) && markersPositionX == 0.0 && timePerSample == 0.0
    {
      pixelsPerDivision := 50;
      divisionsX := 11;
      divisionsY := 11;
      subdivisions := 5;
      drawGrid, drawRulerX, drawRulerY := true, true, true;
      pixelsPerSubdivision := 0;
      textureSize, textureCenter := Int2(0, 0), Int2(0, 0);
      rectangle := Rect(0.0, 0.0, 0.0, 0.0);
      markersPositionX, timePerSample := 0.0, 0.0;
    }

    /**
     * Computes the geometry from the designer fields with C# integer
     * division; the texture is divisions times pixels per division and its
     * centre the truncated half of that.
     */
    method Initialize(timePerSamp: real)
      requires subdivisions != 0
      modifies this
      ensures pixelsPerDivision == old(pixelsPerDivision) && divisionsX == old(divisionsX)
      ensures divisionsY == old(divisionsY) && subdivisions == old(subdivisions)
      ensures drawGrid == old(drawGrid) && drawRulerX == old(drawRulerX) && drawRulerY == old(drawRulerY)
      ensures timePerSample == timePerSamp
      ensures pixelsPerSubdivision == DivT(pixelsPerDivision, subdivisions)
      ensures textureSize == Int2(pixelsPerDivision * divisionsX, pixelsPerDivision * divisionsY)
      ensures textureCenter == Int2(DivT(textureSize.x, 2), DivT(textureSize.y, 2))
      ensures markersPositionX == -(DivT(divisionsX, 2) as real)
      ensures rectangle == Rect(-(divisionsX as real) / 2.0, -(divisionsY as real) / 2.0,
                                divisionsX as real, divisionsY as real)
      ensures rectangle.width == divisionsX as real
    {
      timePerSample := timePerSamp;
      pixelsPerSubdivision := DivT(pixelsPerDivision, subdivisions);
      textureSize := Int2(pixelsPerDivision * divisionsX, pixelsPerDivision * divisionsY);
      textureCenter := Int2(DivT(pixelsPerDivision * divisionsX, 2), DivT(pixelsPerDivision * divisionsY, 2));
      markersPositionX := -(RoundToInt(DivT(divisionsX, 2) as real) as real);
      RoundToIntNearest(DivT(divisionsX, 2) as real, DivT(divisionsX, 2));
      rectangle := Rect(-(divisionsX as real) / 2.0, -(divisionsY as real) / 2.0,
                        divisionsX as real, divisionsY as real);
    }

    /** Floating-point pixel position of a point given in divisions. */
    function GetPixelPosition(x: real, y: real): (p: Real2)
      reads this
      ensures p.x == GetPixelPositionX(x) && p.y == GetPixelPositionY(y)
    {
      Real2(x * pixelsPerDivision as real + textureCenter.x as real,
            y * pixelsPerDivision as real + textureCenter.y as real)
    }

    function GetPixelPositionX(x: real): (px: real)
      reads this
      ensures x == 0.0 ==> px == textureCenter.x as real
    {
      x * pixelsPerDivision as real + textureCenter.x as real
    }

    function GetPixelPositionY(y: real): (py: real)
      reads this
      ensures y == 0.0 ==> py == textureCenter.y as real
    {
      y * pixelsPerDivision as real + textureCenter.y as real
    }

    /** Integer pixel position: each coordinate within half a pixel of the exact one. */
    function GetPixelPositionInt(x: real, y: real): (p: Int2)
      reads this
      ensures p.x == GetPixelPositionIntX(x) && p.y == GetPixelPositionIntY(y)
    {
      Int2(RoundToInt(x * pixelsPerDivision as real) + textureCenter.x,
           RoundToInt(y * pixelsPerDivision as real) + textureCenter.y)
    }

    function GetPixelPositionIntX(x: real): (px: int)
      reads this
      ensures Abs(px as real - GetPixelPositionX(x)) <= 0.5
      ensures x == 0.0 ==> px == textureCenter.x
    {
      RoundToInt(x * pixelsPerDivision as real) + textureCenter.x
    }

    function GetPixelPositionIntY(y: real): (py: int)
      reads this
      ensures Abs(py as real - GetPixelPositionY(y)) <= 0.5
      ensures y == 0.0 ==> py == textureCenter.y
    {
      RoundToInt(y * pixelsPerDivision as real) + textureCenter.y
    }

    /** Inside test; note that it also accepts the coordinate equal to the size. */
    predicate TestPixelInsideScreenX(x: int)
      reads this
    {
      x >= 0 && x <= textureSize.x
    }

    predicate TestPixelInsideScreenY(y: int)
      reads this
    {
      y >= 0 && y <= textureSize.y
    }

    function ClampPixelInsideScreenX(x: int): (cx: int)
      reads this
      ensures textureSize.x >= 1 ==> 0 <= cx < textureSize.x
      ensures 0 <= x < textureSize.x ==> cx == x
    {
      ClampIndex(x, textureSize.x)
    }

    function ClampPixelInsideScreenY(y: int): (cy: int)
      reads this
      ensures textureSize.y >= 1 ==> 0 <= cy < textureSize.y
      ensures 0 <= y < textureSize.y ==> cy == y
    {
      ClampIndex(y, textureSize.y)
    }

    /** Rounded pixel position pulled inside the texture. */
    function GetPixelPositionClamped(x: real, y: real): (p: Int2)
      reads this
      ensures textureSize.x >= 1 ==> 0 <= p.x < textureSize.x
      ensures textureSize.y >= 1 ==> 0 <= p.y < textureSize.y
      ensures p == Int2(ClampPixelInsideScreenX(GetPixelPositionIntX(x)),
                        ClampPixelInsideScreenY(GetPixelPositionIntY(y)))
    {
      var ix := RoundToInt(x * pixelsPerDivision as real) + textureCenter.x;
      var iy := RoundToInt(y * pixelsPerDivision as real) + textureCenter.y;
      Int2(if ix < 0 then 0 else if ix < textureSize.x then ix else textureSize.x - 1,
           if iy < 0 then 0 else if iy < textureSize.y then iy else textureSize.y - 1)
    }

    /** On a non-empty texture, clamping twice is clamping once. */
    lemma ClampPixelIdempotent(x: int, y: int)
      requires textureSize.x >= 1 && textureSize.y >= 1
      ensures ClampPixelInsideScreenX(ClampPixelInsideScreenX(x)) == ClampPixelInsideScreenX(x)
      ensures ClampPixelInsideScreenY(ClampPixelInsideScreenY(y)) == ClampPixelInsideScreenY(y)
    {
    }

    /**
     * The inside test and the clamp disagree on exactly one coordinate: the
     * one equal to the size passes the test but is clamped to size - 1.
     */
    lemma TestAcceptsOneBeyondClamp(x: int)
      requires textureSize.x >= 1
      ensures TestPixelInsideScreenX(x) <==> (ClampPixelInsideScreenX(x) == x || x == textureSize.x)
      ensures TestPixelInsideScreenX(textureSize.x) && ClampPixelInsideScreenX(textureSize.x) != textureSize.x
    {
    }
  }

  /** Initializing fresh settings yields the 550 x 550 screen with its centre at 275 and 10-pixel subdivisions. */
  method DefaultGeometry() returns (s: OscSettings)
    ensures s.textureSize == Int2(550, 550) && s.textureCenter == Int2(275, 275)
    ensures s.pixelsPerSubdivision == 10 && s.markersPositionX == -5.0
    ensures s.rectangle == Rect(-5.5, -5.5, 11.0, 11.0)
  {
    s := new OscSettings();
    s.Initialize(0.02);
  }
}
