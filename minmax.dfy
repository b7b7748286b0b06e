// OscMinMax: the running minimum, maximum and peak-to-peak value of the
// samples a channel has captured, folded over an inclusive range of masked
// ring-buffer addresses and over the components the sample format carries.

module MinMax {
  import opened Numerics
  import opened OscTypes
  import opened Settings

  /** The running minimum after one value: replaced only by a strictly smaller one. */
  function MinStep(m: real, v: real): real
  {
    if v < m then v else m
  }

  /** The running maximum after one value: replaced only by a strictly greater one. */
  function MaxStep(m: real, v: real): real
  {
    if v > m then v else m
  }

  /** The running minimum after the components of one sample, in reading order. */
  function MinOf(m: real, v: Vec3, format: Format): real
  {
    match format
    case Float => MinStep(m, v.x)
    case Vector2 => MinStep(MinStep(m, v.x), v.y)
    case Vector3 => MinStep(MinStep(MinStep(m, v.x), v.y), v.z)
  }

  function MaxOf(m: real, v: Vec3, format: Format): real
  {
    match format
    case Float => MaxStep(m, v.x)
    case Vector2 => MaxStep(MaxStep(m, v.x), v.y)
    case Vector3 => MaxStep(MaxStep(MaxStep(m, v.x), v.y), v.z)
  }

  /** The running minimum, from m, over samples lo..hi inclusive, each address masked. */
  function ScanMin(buffer: seq<Vec3>, lo: int, hi: int, format: Format, m: real): real
    requires |buffer| == BUFFER_SIZE
    decreases hi - lo + 1
  {
    if hi < lo then m else MinOf(ScanMin(buffer, lo, hi - 1, format, m), buffer[Mask(hi)], format)
  }

  function ScanMax(buffer: seq<Vec3>, lo: int, hi: int, format: Format, m: real): real
    requires |buffer| == BUFFER_SIZE
    decreases hi - lo + 1
  {
    if hi < lo then m else MaxOf(ScanMax(buffer, lo, hi - 1, format, m), buffer[Mask(hi)], format)
  }

  /** Addresses one buffer length apart scan the same values. */
  lemma {:induction false} ScanPeriodic(buffer: seq<Vec3>, lo: int, hi: int, format: Format, mn: real, mx: real)
    requires |buffer| == BUFFER_SIZE
    ensures ScanMin(buffer, lo + BUFFER_SIZE, hi + BUFFER_SIZE, format, mn) == ScanMin(buffer, lo, hi, format, mn)
    ensures ScanMax(buffer, lo + BUFFER_SIZE, hi + BUFFER_SIZE, format, mx) == ScanMax(buffer, lo, hi, format, mx)
    decreases hi - lo + 1
  {
    if lo <= hi {
      ScanPeriodic(buffer, lo, hi - 1, format, mn, mx);
      MaskPeriodic(hi, 1);
    }
  }

  /** Is r one of the components the format reads from v? */
  predicate IsComponent(r: real, v: Vec3, format: Format)
  {
    match format
    case Float => r == v.x
    case Vector2 => r == v.x || r == v.y
    case Vector3 => r == v.x || r == v.y || r == v.z
  }

  /** One sample's step of the minimum: no greater than before nor than any component read, and one of them. */
  lemma MinOfBounds(m: real, v: Vec3, format: Format)
    ensures MinOf(m, v, format) <= m
    ensures forall r :: IsComponent(r, v, format) ==> MinOf(m, v, format) <= r
    ensures MinOf(m, v, format) == m || IsComponent(MinOf(m, v, format), v, format)
  {
  }

  lemma MaxOfBounds(m: real, v: Vec3, format: Format)
    ensures MaxOf(m, v, format) >= m
    ensures forall r :: IsComponent(r, v, format) ==> MaxOf(m, v, format) >= r
    ensures MaxOf(m, v, format) == m || IsComponent(MaxOf(m, v, format), v, format)
  {
  }

  /**
   * The running minimum never exceeds its start value nor any component
   * of any scanned sample, and it is either the start value or one of those
   * components.
   */
  lemma {:induction false} ScanMinBounds(buffer: seq<Vec3>, lo: int, hi: int, format: Format, mn: real)
    requires |buffer| == BUFFER_SIZE
    ensures ScanMin(buffer, lo, hi, format, mn) <= mn
    ensures forall i, r :: lo <= i <= hi && IsComponent(r, buffer[Mask(i)], format) ==> ScanMin(buffer, lo, hi, format, mn) <= r
    ensures ScanMin(buffer, lo, hi, format, mn) == mn ||
            exists i :: lo <= i <= hi && IsComponent(ScanMin(buffer, lo, hi, format, mn), buffer[Mask(i)], format)
    decreases hi - lo + 1
  {
    if lo <= hi {
      var before := ScanMin(buffer, lo, hi - 1, format, mn);
      ScanMinBounds(buffer, lo, hi - 1, format, mn);
      MinOfBounds(before, buffer[Mask(hi)], format);
      var after := ScanMin(buffer, lo, hi, format, mn);
      assert after == MinOf(before, buffer[Mask(hi)], format);
      if after != mn && after != before {
        assert IsComponent(after, buffer[Mask(hi)], format);
      }
    }
  }

  /** The running maximum, dually. */
  lemma {:induction false} ScanMaxBounds(buffer: seq<Vec3>, lo: int, hi: int, format: Format, mx: real)
    requires |buffer| == BUFFER_SIZE
    ensures ScanMax(buffer, lo, hi, format, mx) >= mx
    ensures forall i, r :: lo <= i <= hi && IsComponent(r, buffer[Mask(i)], format) ==> ScanMax(buffer, lo, hi, format, mx) >= r
    ensures ScanMax(buffer, lo, hi, format, mx) == mx ||
            exists i :: lo <= i <= hi && IsComponent(ScanMax(buffer, lo, hi, format, mx), buffer[Mask(i)], format)
    decreases hi - lo + 1
  {
    if lo <= hi {
      var before := ScanMax(buffer, lo, hi - 1, format, mx);
      ScanMaxBounds(buffer, lo, hi - 1, format, mx);
      MaxOfBounds(before, buffer[Mask(hi)], format);
      var after := ScanMax(buffer, lo, hi, format, mx);
      assert after == MaxOf(before, buffer[Mask(hi)], format);
      if after != mx && after != before {
        assert IsComponent(after, buffer[Mask(hi)], format);
      }
    }
  }

  /** After a Reset the accumulated maximum starts from 0, so it never drops below 0. */
  lemma MaxAfterResetNonNegative(buffer: seq<Vec3>, lo: int, hi: int, format: Format)
    requires |buffer| == BUFFER_SIZE
    ensures ScanMax(buffer, lo, hi, format, 0.0) >= 0.0
  {
    ScanMaxBounds(buffer, lo, hi, format, 0.0);
  }

  class OscMinMax {
    var isZero: bool
    var min: real
    var max: real
    var p2p: real

    /** A default struct value: every field zero. */
    constructor ()
      ensures !isZero && min == 0.0 && max == 0.0 && p2p == 0.0
    {
      isZero, min, max, p2p := false, 0.0, 0.0, 0.0;
    }

    /** Min reads zero between a reset and the next scan. */
    function Min(): (r: real)
      reads this
      ensures isZero ==> r == 0.0
      ensures !isZero ==> r == min
    {
      if isZero then 0.0 else min
    }

    function Max(): (r: real)
      reads this
      ensures isZero ==> r == 0.0
      ensures !isZero ==> r == max
    {
      if isZero then 0.0 else max
    }

    function P2P(): real
      reads this
    {
      p2p
    }

    /** Half the peak-to-peak span of the visible extremes (not their midpoint). */
    function Mid(): (r: real)
      reads this
      ensures 2.0 * r == Max() - Min()
    {
      (Max() - Min()) / 2.0
    }

    /** The point halfway between the visible extremes: what "the vertical midpoint between the peaks" means. */
    function Midpoint(): (r: real)
      reads this
      ensures Min() <= Max() ==> Min() <= r <= Max()
      ensures r - Mid() == Min()
    {
      (Min() + Max()) / 2.0
    }

    /** Starts a new accumulation: min at float.MaxValue, max at 0 (its second assignment wins); p2p is kept. */
    method Reset()
      modifies this
      ensures isZero && min == FLOAT_MAX && max == 0.0 && p2p == old(p2p)
      ensures Min() == 0.0 && Max() == 0.0 && Mid() == 0.0
    {
      isZero := true;
      min := FLOAT_MAX;
      max := -FLOAT_MAX;
      max := 0.0;
    }

    /**
     * Folds the components of samples smpStart..smpEnd into min and max,
     * recomputes p2p and reports whether it changed.
     */
    method CalculateMinMax(buffer: seq<Vec3>, smpStart: int, smpEnd: int, format: Format) returns (changed: bool)
      requires |buffer| == BUFFER_SIZE
      modifies this
      ensures !isZero
      ensures min == ScanMin(buffer, smpStart, smpEnd, format, old(min))
      ensures max == ScanMax(buffer, smpStart, smpEnd, format, old(max))
      ensures p2p == max - min
      ensures changed <==> p2p != old(p2p)
    {
      isZero := false;
      match format
      case Float => changed := CalculateMinMaxFloat(buffer, smpStart, smpEnd);
      case Vector2 => changed := CalculateMinMaxVector2(buffer, smpStart, smpEnd);
      case Vector3 => changed := CalculateMinMaxVector3(buffer, smpStart, smpEnd);
    }

    /** The two comparisons the loops make per component read: a strictly smaller value is the new min, a strictly greater one the new max. */
    method Fold(sample: real)
      modifies this`min, this`max
      ensures min == MinStep(old(min), sample) && max == MaxStep(old(max), sample)
    {
      if sample < min { min := sample; }
      if sample > max { max := sample; }
    }

    method CalculateMinMaxFloat(buffer: seq<Vec3>, smpStart: int, smpEnd: int) returns (changed: bool)
      requires |buffer| == BUFFER_SIZE
      modifies this
      ensures isZero == old(isZero)
      ensures min == ScanMin(buffer, smpStart, smpEnd, Float, old(min))
      ensures max == ScanMax(buffer, smpStart, smpEnd, Float, old(max))
      ensures p2p == max - min
      ensures changed <==> p2p != old(p2p)
    {
      var i := smpStart;
      while i <= smpEnd
        invariant i == smpStart || smpStart < i <= smpEnd + 1
        invariant isZero == old(isZero) && p2p == old(p2p)
        invariant min == ScanMin(buffer, smpStart, i - 1, Float, old(min))
        invariant max == ScanMax(buffer, smpStart, i - 1, Float, old(max))
        decreases smpEnd - i
      {
        Fold(buffer[Mask(i)].x);
        i := i + 1;
      }
      var ppOld := p2p;
      p2p := max - min;
      changed := p2p != ppOld;
    }

    method CalculateMinMaxVector2(buffer: seq<Vec3>, smpStart: int, smpEnd: int) returns (changed: bool)
      requires |buffer| == BUFFER_SIZE
      modifies this
      ensures isZero == old(isZero)
      ensures min == ScanMin(buffer, smpStart, smpEnd, Vector2, old(min))
      ensures max == ScanMax(buffer, smpStart, smpEnd, Vector2, old(max))
      ensures p2p == max - min
      ensures changed <==> p2p != old(p2p)
    {
      var i := smpStart;
      while i <= smpEnd
        invariant i == smpStart || smpStart < i <= smpEnd + 1
        invariant isZero == old(isZero) && p2p == old(p2p)
        invariant min == ScanMin(buffer, smpStart, i - 1, Vector2, old(min))
        invariant max == ScanMax(buffer, smpStart, i - 1, Vector2, old(max))
        decreases smpEnd - i
      {
        var sample := buffer[Mask(i)];
        Fold(sample.x);
        Fold(sample.y);
        i := i + 1;
      }
      var ppOld := p2p;
      p2p := max - min;
      changed := p2p != ppOld;
    }

    method CalculateMinMaxVector3(buffer: seq<Vec3>, smpStart: int, smpEnd: int) returns (changed: bool)
      requires |buffer| == BUFFER_SIZE
      modifies this
      ensures isZero == old(isZero)
      ensures min == ScanMin(buffer, smpStart, smpEnd, Vector3, old(min))
      ensures max == ScanMax(buffer, smpStart, smpEnd, Vector3, old(max))
      ensures p2p == max - min
      ensures changed <==> p2p != old(p2p)
    {
      var i := smpStart;
      while i <= smpEnd
        invariant i == smpStart || smpStart < i <= smpEnd + 1
        invariant isZero == old(isZero) && p2p == old(p2p)
        invariant min == ScanMin(buffer, smpStart, i - 1, Vector3, old(min))
        invariant max == ScanMax(buffer, smpStart, i - 1, Vector3, old(max))
        decreases smpEnd - i
      {
        var sample := buffer[Mask(i)];
        Fold(sample.x);
        Fold(sample.y);
        Fold(sample.z);
        i := i + 1;
      }
      var ppOld := p2p;
      p2p := max - min;
      changed := p2p != ppOld;
    }
  }

  /**
   * Mid is not the midpoint of the peaks: with the extremes at 2 and 4 it
   * is 1, below every scanned value, while the midpoint is 3.
   */
  lemma MidMissesSignal(m: OscMinMax)
    requires !m.isZero && m.min == 2.0 && m.max == 4.0
    ensures m.Mid() == 1.0 && m.Mid() < m.Min() && m.Midpoint() == 3.0
  {
  }
}
