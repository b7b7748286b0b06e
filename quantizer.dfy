// OscValue: a table of "nice" values (1, 2, 5 or 1, 2.5, 5 times powers of
// ten) used to quantize volts per division and seconds per division. The
// table is built row by row from a list of factors times a list of gains,
// which gives a descending table for the two static instances.

module Quantizer {
  import opened Numerics

  /** Position of gain j of factor i in the flattened table. */
  function FlatIndex(i: int, j: int, rowLength: int): int
  {
    i * rowLength + j
  }

  /** One row of the table: every gain scaled by one factor. */
  function Row(gains: seq<real>, factor: real): (row: seq<real>)
    ensures |row| == |gains|
    ensures forall j {:trigger row[j]} :: 0 <= j < |gains| ==> row[j] == factor * gains[j]
  {
    seq(|gains|, j requires 0 <= j < |gains| => factor * gains[j])
  }

  /** The table the constructor fills: the rows for each factor, in factor order. */
  function Table(gains: seq<real>, factors: seq<real>): (t: seq<real>)
    decreases |factors|
  {
    if |factors| == 0 then []
    else Table(gains, factors[..|factors| - 1]) + Row(gains, factors[|factors| - 1])
  }

  /** Adding one factor appends its row. */
  lemma TableSnoc(gains: seq<real>, factors: seq<real>, i: int)
    requires 0 <= i < |factors|
    ensures Table(gains, factors[..i + 1]) == Table(gains, factors[..i]) + Row(gains, factors[i])
  {
    assert factors[..i + 1][..i] == factors[..i];
  }

  lemma RowAppended(s: seq<real>, front: seq<real>, gains: seq<real>, factor: real)
    requires |s| == |front| + |gains|
    requires forall k :: 0 <= k < |front| ==> s[k] == front[k]
    requires forall k :: 0 <= k < |gains| ==> s[|front| + k] == factor * gains[k]
    ensures s == front + Row(gains, factor)
  {
  }

  /** A table built from a prefix of the factors is no longer than the whole table. */
  lemma {:induction false} TablePrefixShorter(gains: seq<real>, factors: seq<real>, i: int)
    requires 0 <= i <= |factors|
    ensures |Table(gains, factors[..i])| <= |Table(gains, factors)|
    decreases |factors| - i
  {
    if i < |factors| {
      TableSnoc(gains, factors, i);
      TablePrefixShorter(gains, factors, i + 1);
    } else {
      assert factors[..i] == factors;
    }
  }

  lemma {:induction false} TableLength(gains: seq<real>, factors: seq<real>)
    ensures |Table(gains, factors)| == |factors| * |gains|
    decreases |factors|
  {
    if |factors| > 0 {
      TableLength(gains, factors[..|factors| - 1]);
    }
  }

  /** Entry i * |gains| + j of the table is factors[i] * gains[j]. */
  lemma {:induction false} TableAt(gains: seq<real>, factors: seq<real>, i: int, j: int)
    requires 0 <= i < |factors| && 0 <= j < |gains|
    ensures FlatIndex(i, j, |gains|) < |Table(gains, factors)|
    ensures Table(gains, factors)[FlatIndex(i, j, |gains|)] == factors[i] * gains[j]
    decreases |factors|
  {
    var n := |factors| - 1;
    var prefix := Table(gains, factors[..n]);
    TableLength(gains, factors[..n]);
    TableLength(gains, factors);
    if i < n {
      TableAt(gains, factors[..n], i, j);
    } else {
      assert FlatIndex(i, j, |gains|) == |prefix| + j;
    }
  }

  predicate StrictlyDescending(t: seq<real>)
  {
    forall i, j :: 0 <= i < j < |t| ==> t[i] > t[j]
  }

  predicate Positive(t: seq<real>)
  {
    forall i :: 0 <= i < |t| ==> t[i] > 0.0
  }

  /** Two descending runs joined where the first ends above the second's start descend together. */
  lemma JoinDescending(a: seq<real>, b: seq<real>)
    requires StrictlyDescending(a) && StrictlyDescending(b)
    requires |a| > 0 && |b| > 0 ==> a[|a| - 1] > b[0]
    ensures StrictlyDescending(a + b)
  {
    var c := a + b;
    forall i, j | 0 <= i < j < |c|
      ensures c[i] > c[j]
    {
      if i < |a| && j >= |a| {
        assert c[i] >= a[|a| - 1];
        assert b[0] >= c[j];
      }
    }
  }

  /**
   * If the gains descend and each factor's smallest product lies above the
   * next factor's largest, the whole table descends.
   */
  lemma {:induction false} TableDescending(gains: seq<real>, factors: seq<real>)
    requires |gains| > 0
    requires StrictlyDescending(gains) && Positive(factors)
    requires forall i :: 0 <= i < |factors| - 1 ==>
               factors[i + 1] * gains[0] < factors[i] * gains[|gains| - 1]
    ensures StrictlyDescending(Table(gains, factors))
    ensures |factors| > 0 ==>
              Table(gains, factors)[|Table(gains, factors)| - 1] == factors[|factors| - 1] * gains[|gains| - 1]
    decreases |factors|
  {
    if |factors| > 0 {
      var n := |factors| - 1;
      var pre := factors[..n];
      var t := Table(gains, factors);
      var front := Table(gains, pre);
      var row := Row(gains, factors[n]);
      assert t == front + row;
      TableDescending(gains, pre);
      RowDescending(gains, factors[n]);
      if n > 0 {
        assert front[|front| - 1] == factors[n - 1] * gains[|gains| - 1];
        assert factors[n] * gains[0] < factors[n - 1] * gains[|gains| - 1];
        assert row[0] == factors[n] * gains[0];
      }
      JoinDescending(front, row);
      assert t[|t| - 1] == row[|row| - 1];
    }
  }

  lemma RowDescending(gains: seq<real>, factor: real)
    requires StrictlyDescending(gains) && factor > 0.0
    ensures StrictlyDescending(Row(gains, factor))
  {
    var row := Row(gains, factor);
    forall i, j | 0 <= i < j < |row|
      ensures row[i] > row[j]
    {
      assert row[i] == factor * gains[i] && row[j] == factor * gains[j];
      ScaleKeepsOrder(factor, gains[j], gains[i]);
    }
  }

  lemma ScaleKeepsOrder(c: real, a: real, b: real)
    requires c > 0.0 && a < b
    ensures c * a < c * b
  {
  }

  // ---------------------------------------------------------------------
  // The nearest-value scan of GetValueIndex
  // ---------------------------------------------------------------------

  /**
   * The scan of GetValueIndex from index i down to 0: an entry replaces the
   * best one only when its distance is strictly smaller.
   */
  function ScanNearest(t: seq<real>, value: real, i: int, best: int, bestDiff: real): (r: int)
    requires -1 <= i < |t| && -1 <= best < |t|
    ensures -1 <= r < |t|
    decreases i + 1
  {
    if i < 0 then best
    else if Abs(value - t[i]) < bestDiff then ScanNearest(t, value, i - 1, i, Abs(value - t[i]))
    else ScanNearest(t, value, i - 1, best, bestDiff)
  }

  /** The index GetValueIndex returns: the scan from the last entry, starting at float.MaxValue. */
  function NearestIndex(t: seq<real>, value: real): (r: int)
    ensures -1 <= r < |t|
  {
    ScanNearest(t, value, |t| - 1, -1, FLOAT_MAX)
  }

  /** Some entry lies closer than float.MaxValue, so the scan finds an index. */
  predicate Reaches(t: seq<real>, value: real)
  {
    exists j :: 0 <= j < |t| && Abs(value - t[j]) < FLOAT_MAX
  }

  /** r is a closest entry, and every later entry is strictly farther (ties go to the highest index). */
  predicate IsNearest(t: seq<real>, value: real, r: int)
  {
    && 0 <= r < |t|
    && (forall j :: 0 <= j < |t| ==> Abs(value - t[r]) <= Abs(value - t[j]))
    && (forall j :: r < j < |t| ==> Abs(value - t[r]) < Abs(value - t[j]))
  }

  lemma {:induction false} ScanNearestCorrect(t: seq<real>, value: real, i: int, best: int, bestDiff: real)
    requires -1 <= i < |t|
    requires best == -1 ==>
               && bestDiff == FLOAT_MAX
               && (forall j :: i < j < |t| ==> Abs(value - t[j]) >= FLOAT_MAX)
    requires best != -1 ==>
               && i < best < |t| && bestDiff == Abs(value - t[best]) && bestDiff < FLOAT_MAX
               && (forall j :: i < j < |t| ==> bestDiff <= Abs(value - t[j]))
               && (forall j :: best < j < |t| ==> bestDiff < Abs(value - t[j]))
    ensures var r := ScanNearest(t, value, i, best, bestDiff);
              && (r == -1 ==> forall j :: 0 <= j < |t| ==> Abs(value - t[j]) >= FLOAT_MAX)
              && (r != -1 ==> IsNearest(t, value, r) && Abs(value - t[r]) < FLOAT_MAX)
    decreases i + 1
  {
    if i >= 0 {
      if Abs(value - t[i]) < bestDiff {
        ScanNearestCorrect(t, value, i - 1, i, Abs(value - t[i]));
      } else {
        ScanNearestCorrect(t, value, i - 1, best, bestDiff);
      }
    }
  }

  /**
   * GetValueIndex returns the closest entry, preferring the highest index
   * among equally close ones, and -1 only when no entry is within float range.
   */
  lemma NearestIndexCorrect(t: seq<real>, value: real)
    ensures Reaches(t, value) ==> IsNearest(t, value, NearestIndex(t, value))
    ensures !Reaches(t, value) <==> NearestIndex(t, value) == -1
  {
    ScanNearestCorrect(t, value, |t| - 1, -1, FLOAT_MAX);
  }

  /** On a table of distinct entries, an entry is its own nearest value. */
  lemma NearestOfMember(t: seq<real>, k: int)
    requires StrictlyDescending(t)
    requires 0 <= k < |t|
    ensures NearestIndex(t, t[k]) == k
  {
    assert Abs(t[k] - t[k]) < FLOAT_MAX;
    NearestIndexCorrect(t, t[k]);
    var r := NearestIndex(t, t[k]);
    assert Abs(t[k] - t[r]) <= Abs(t[k] - t[k]);
    assert t[r] == t[k];
  }

  /** A value already in the table is in range of the scan. */
  lemma MemberReaches(t: seq<real>, v: real)
    requires v in t
    ensures Reaches(t, v)
  {
    var k :| 0 <= k < |t| && t[k] == v;
    assert Abs(v - t[k]) < FLOAT_MAX;
  }

  /** A value already in a table of distinct entries is in range of the scan and snaps to itself. */
  lemma MemberSnapsToItself(t: seq<real>, v: real)
    requires StrictlyDescending(t) && v in t
    ensures Reaches(t, v)
    ensures 0 <= NearestIndex(t, v) < |t| && t[NearestIndex(t, v)] == v
  {
    var k :| 0 <= k < |t| && t[k] == v;
    assert Abs(v - t[k]) < FLOAT_MAX;
    NearestOfMember(t, k);
  }

  /** The entry nearest to a value in range of the scan, ties resolved towards the higher index. */
  function NearestEntry(t: seq<real>, value: real): (r: real)
    requires Reaches(t, value)
    ensures 0 <= NearestIndex(t, value) < |t| && r == t[NearestIndex(t, value)]
    ensures r in t
    ensures forall j :: 0 <= j < |t| ==> Abs(value - r) <= Abs(value - t[j])
  {
    NearestIndexCorrect(t, value);
    t[NearestIndex(t, value)]
  }

  // ---------------------------------------------------------------------
  // The first-fit scan of GetAutoGain
  // ---------------------------------------------------------------------

  /** An entry fits when the peak-to-peak value spans at most autoDivisions divisions of it. */
  predicate Fits(gain: real, peak2Peak: real, autoDivisions: real)
    requires gain != 0.0
  {
    peak2Peak * (1.0 / gain) <= autoDivisions
  }

  /** The highest index at or below i whose entry fits, or -1. */
  function FitFrom(t: seq<real>, peak2Peak: real, autoDivisions: real, i: int): (k: int)
    requires Positive(t) && -1 <= i < |t|
    ensures -1 <= k <= i
    decreases i + 1
  {
    if i < 0 then -1
    else if Fits(t[i], peak2Peak, autoDivisions) then i
    else FitFrom(t, peak2Peak, autoDivisions, i - 1)
  }

  /** The index GetAutoGain reads: the highest fitting one, or 0 when none fits. */
  function AutoGainIndex(t: seq<real>, peak2Peak: real, autoDivisions: real): (k: int)
    requires Positive(t)
    ensures |t| > 0 ==> 0 <= k < |t|
  {
    var k := FitFrom(t, peak2Peak, autoDivisions, |t| - 1);
    if k < 0 then 0 else k
  }

  lemma {:induction false} FitFromCorrect(t: seq<real>, peak2Peak: real, autoDivisions: real, i: int)
    requires Positive(t) && -1 <= i < |t|
    ensures var k := FitFrom(t, peak2Peak, autoDivisions, i);
              && -1 <= k <= i
              && (k >= 0 ==> Fits(t[k], peak2Peak, autoDivisions))
              && (forall j :: k < j <= i ==> !Fits(t[j], peak2Peak, autoDivisions))
    decreases i + 1
  {
    if i >= 0 && !Fits(t[i], peak2Peak, autoDivisions) {
      FitFromCorrect(t, peak2Peak, autoDivisions, i - 1);
    }
  }

  /**
   * GetAutoGain picks the highest-index fitting entry; when nothing fits it
   * falls back to entry 0, which in a descending table is the largest.
   */
  lemma AutoGainIndexCorrect(t: seq<real>, peak2Peak: real, autoDivisions: real)
    requires Positive(t) && |t| > 0
    ensures var k := AutoGainIndex(t, peak2Peak, autoDivisions);
              && 0 <= k < |t|
              && (forall j :: k < j < |t| ==> !Fits(t[j], peak2Peak, autoDivisions))
              && (Fits(t[k], peak2Peak, autoDivisions) ||
                  (k == 0 && forall j :: 0 <= j < |t| ==> !Fits(t[j], peak2Peak, autoDivisions)))
  {
    FitFromCorrect(t, peak2Peak, autoDivisions, |t| - 1);
  }

  /** On a descending positive table the fitting entries form a prefix, so the result is the smallest fitting value. */
  lemma FitsIsPrefix(t: seq<real>, peak2Peak: real, autoDivisions: real, i: int, k: int)
    requires Positive(t) && StrictlyDescending(t) && peak2Peak >= 0.0
    requires 0 <= i <= k < |t| && Fits(t[k], peak2Peak, autoDivisions)
    ensures Fits(t[i], peak2Peak, autoDivisions)
  {
    if i < k {
      assert 1.0 / t[i] < 1.0 / t[k] by { ReciprocalOrder(t[k], t[i]); }
      assert peak2Peak * (1.0 / t[i]) <= peak2Peak * (1.0 / t[k]);
    }
  }

  lemma ReciprocalOrder(a: real, b: real)
    requires 0.0 < a < b
    ensures 1.0 / b < 1.0 / a
  {
    assert (1.0 / b) * b == 1.0;
    assert (1.0 / a) * a == 1.0;
  }

  // ---------------------------------------------------------------------
  // The table value
  // ---------------------------------------------------------------------

  /** The OscValue struct: its read-only table of available values. */
  datatype OscValue = OscValue(availableGains: seq<real>)
  {
    /** The scan from the last entry down; ties keep the higher index. */
    method GetValueIndex(value: real) returns (bestIndex: int)
      ensures bestIndex == NearestIndex(availableGains, value)
      ensures Reaches(availableGains, value) ==> IsNearest(availableGains, value, bestIndex)
      ensures bestIndex == -1 <==> !Reaches(availableGains, value)
    {
      bestIndex := -1;
      var bestDifference := FLOAT_MAX;
      var i := |availableGains| - 1;
      while i >= 0
        invariant -1 <= i < |availableGains|
        invariant -1 <= bestIndex < |availableGains|
        invariant ScanNearest(availableGains, value, i, bestIndex, bestDifference)
                  == NearestIndex(availableGains, value)
      {
        var gain := availableGains[i];
        var diff := Abs(value - gain);
        if diff < bestDifference {
          bestDifference := diff;
          bestIndex := i;
        }
        i := i - 1;
      }
      NearestIndexCorrect(availableGains, value);
    }

    /** Snaps a value to the nearest table entry (the source fails when there is none in float range). */
    method GetValue(value: real) returns (r: real)
      requires Reaches(availableGains, value)
      ensures 0 <= NearestIndex(availableGains, value)
      ensures r in availableGains
      ensures r == availableGains[NearestIndex(availableGains, value)]
      ensures forall j :: 0 <= j < |availableGains| ==> Abs(value - r) <= Abs(value - availableGains[j])
    {
      var bestIndex := GetValueIndex(value);
      r := availableGains[bestIndex];
    }

    /** The entry at the index clamped into the table. */
    function GetValueByIndex(index: int): (r: real)
      requires |availableGains| > 0
      ensures r in availableGains
      ensures 0 <= index < |availableGains| ==> r == availableGains[index]
      ensures index < 0 ==> r == availableGains[0]
      ensures index >= |availableGains| ==> r == availableGains[|availableGains| - 1]
    {
      var i := if index < 0 then 0 else index;
      var k := if i >= |availableGains| then |availableGains| - 1 else i;
      availableGains[k]
    }

    /** The highest-index entry that fits peak2Peak into autoDivisions divisions, else entry 0. */
    method GetAutoGain(peak2Peak: real, autoDivisions: real) returns (r: real)
      requires Positive(availableGains) && |availableGains| > 0
      ensures r == availableGains[AutoGainIndex(availableGains, peak2Peak, autoDivisions)]
      ensures r in availableGains
    {
      var i := |availableGains| - 1;
      while i >= 0
        invariant -1 <= i < |availableGains|
        invariant FitFrom(availableGains, peak2Peak, autoDivisions, i)
                  == FitFrom(availableGains, peak2Peak, autoDivisions, |availableGains| - 1)
      {
        var scaled := peak2Peak * (1.0 / availableGains[i]);
        if scaled <= autoDivisions {
          return availableGains[i];
        }
        i := i - 1;
      }
      r := availableGains[0];
    }
  }

  /** Stepping by index and snapping back is the clamped index, on a table of distinct values. */
  lemma IndexRoundTrip(v: OscValue, index: int)
    requires |v.availableGains| > 0 && StrictlyDescending(v.availableGains)
    ensures NearestIndex(v.availableGains, v.GetValueByIndex(index))
            == ClampIndex(index, |v.availableGains|)
  {
    NearestOfMember(v.availableGains, ClampIndex(index, |v.availableGains|));
  }

  /** Snapping is idempotent on a table of distinct values. */
  lemma SnapIdempotent(v: OscValue, value: real)
    requires StrictlyDescending(v.availableGains) && Reaches(v.availableGains, value)
    ensures var k := NearestIndex(v.availableGains, value);
              0 <= k < |v.availableGains| &&
              NearestIndex(v.availableGains, v.availableGains[k]) == k
  {
    NearestIndexCorrect(v.availableGains, value);
    NearestOfMember(v.availableGains, NearestIndex(v.availableGains, value));
  }

  /** Entry i * |gains| + j of the table is factors[i] * gains[j], for every i and j. */
  lemma {:induction false} TableLayout(gains: seq<real>, factors: seq<real>)
    ensures forall i, j :: 0 <= i < |factors| && 0 <= j < |gains| ==>
              FlatIndex(i, j, |gains|) < |Table(gains, factors)| &&
              Table(gains, factors)[FlatIndex(i, j, |gains|)] == factors[i] * gains[j]
  {
    var t, g := Table(gains, factors), |gains|;
    forall i, j | 0 <= i < |factors| && 0 <= j < g
      ensures FlatIndex(i, j, g) < |t| && t[FlatIndex(i, j, g)] == factors[i] * gains[j]
    {
      TableAt(gains, factors, i, j);
    }
  }

  /** The OscValue constructor: fills the table factor by factor, gain by gain. */
  method NewOscValue(gains: seq<real>, availableFactors: seq<real>) returns (v: OscValue)
    ensures |v.availableGains| == |gains| * |availableFactors|
    ensures forall i, j :: 0 <= i < |availableFactors| && 0 <= j < |gains| ==>
              FlatIndex(i, j, |gains|) < |v.availableGains| &&
              v.availableGains[FlatIndex(i, j, |gains|)] == availableFactors[i] * gains[j]
    ensures v.availableGains == Table(gains, availableFactors)
  {
    var table := FillTable(gains, availableFactors);
    v := OscValue(table[..]);
    TableLength(gains, availableFactors);
    TableLayout(gains, availableFactors);
  }

  /** The inner loop of the constructor: one row, the gains times factor, written from index base on. */
  method FillRow(table: array<real>, base: int, factor: real, gains: seq<real>)
    requires 0 <= base && base + |gains| <= table.Length
    modifies table
    ensures table[..base] == old(table[..base])
    ensures forall k :: 0 <= k < |gains| ==> table[base + k] == factor * gains[k]
  {
    var j := 0;
    while j < |gains|
      invariant 0 <= j <= |gains|
      invariant forall k :: 0 <= k < base ==> table[k] == old(table[k])
      invariant forall k :: 0 <= k < j ==> table[base + k] == factor * gains[k]
    {
      table[base + j] := factor * gains[j];
      j := j + 1;
    }
  }

  /** The nested loops of the constructor. */
  method FillTable(gains: seq<real>, availableFactors: seq<real>) returns (table: array<real>)
    ensures table[..] == Table(gains, availableFactors)
  {
    TableLength(gains, availableFactors);
    table := new real[|gains| * |availableFactors|];
    var i, base := 0, 0;
    while i < |availableFactors|
      invariant 0 <= i <= |availableFactors|
      invariant |Table(gains, availableFactors[..i])| == base <= table.Length
      invariant table[..base] == Table(gains, availableFactors[..i])
    {
      var factor := availableFactors[i];
      TableSnoc(gains, availableFactors, i);
      TablePrefixShorter(gains, availableFactors, i + 1);
      ghost var front := Table(gains, availableFactors[..i]);
      FillRow(table, base, factor, gains);
      assert forall k :: 0 <= k < base ==> table[..base + |gains|][k] == table[..base][k];
      RowAppended(table[..base + |gains|], front, gains, factor);
      i, base := i + 1, base + |gains|;
    }
    assert availableFactors[..i] == availableFactors;
    assert table[..] == table[..base];
  }

  const GAIN_ROW: seq<real> := [5.0, 2.0, 1.0]
  const GAIN_FACTORS: seq<real> := [1000.0, 100.0, 10.0, 1.0, 0.1, 0.01, 0.001, 0.0001, 0.00001, 0.000001]
  const TIME_ROW: seq<real> := [5.0, 2.5, 1.0]
  const TIME_FACTORS: seq<real> := [10.0, 1.0, 0.1, 0.01, 0.001, 0.0001, 0.00001, 0.000001]

  /** OscValue.Gain: volts per division, 5000 down to 0.000001. */
  const GAIN: OscValue := OscValue(Table(GAIN_ROW, GAIN_FACTORS))
  /** OscValue.Time: seconds per division, 50 down to 0.000001. */
  const TIME: OscValue := OscValue(Table(TIME_ROW, TIME_FACTORS))

  /** The Gain table has 30 positive entries in strictly descending order. */
  lemma GainTableShape()
    ensures |GAIN.availableGains| == 30
    ensures StrictlyDescending(GAIN.availableGains) && Positive(GAIN.availableGains)
    ensures GAIN.availableGains[0] == 5000.0 && GAIN.availableGains[29] == 0.000001
  {
    TableLength(GAIN_ROW, GAIN_FACTORS);
    GainDecades();
    TableDescending(GAIN_ROW, GAIN_FACTORS);
    TableAt(GAIN_ROW, GAIN_FACTORS, 0, 0);
    TablePositive(GAIN_ROW, GAIN_FACTORS);
  }

  /** The Time table has 24 positive entries in strictly descending order. */
  lemma TimeTableShape()
    ensures |TIME.availableGains| == 24
    ensures StrictlyDescending(TIME.availableGains) && Positive(TIME.availableGains)
    ensures TIME.availableGains[0] == 50.0 && TIME.availableGains[23] == 0.000001
  {
    TableLength(TIME_ROW, TIME_FACTORS);
    TimeDecades();
    TableDescending(TIME_ROW, TIME_FACTORS);
    TableAt(TIME_ROW, TIME_FACTORS, 0, 0);
    TablePositive(TIME_ROW, TIME_FACTORS);
  }

  lemma GainDecades()
    ensures forall i :: 0 <= i < |GAIN_FACTORS| - 1 ==>
              GAIN_FACTORS[i + 1] * GAIN_ROW[0] < GAIN_FACTORS[i] * GAIN_ROW[|GAIN_ROW| - 1]
  {
    forall i | 0 <= i < |GAIN_FACTORS| - 1
      ensures GAIN_FACTORS[i + 1] * GAIN_ROW[0] < GAIN_FACTORS[i] * GAIN_ROW[2]
    {
      assert i == 0 || i == 1 || i == 2 || i == 3 || i == 4 || i == 5 || i == 6 || i == 7 || i == 8;
    }
  }

  lemma TimeDecades()
    ensures forall i :: 0 <= i < |TIME_FACTORS| - 1 ==>
              TIME_FACTORS[i + 1] * TIME_ROW[0] < TIME_FACTORS[i] * TIME_ROW[|TIME_ROW| - 1]
  {
    forall i | 0 <= i < |TIME_FACTORS| - 1
      ensures TIME_FACTORS[i + 1] * TIME_ROW[0] < TIME_FACTORS[i] * TIME_ROW[2]
    {
      assert i == 0 || i == 1 || i == 2 || i == 3 || i == 4 || i == 5 || i == 6;
    }
  }

  /** The probes' default gain 1 is entry 11 of the gain table (factor 1, multiple 1). */
  lemma UnitGainEntry()
    ensures |GAIN.availableGains| == 30 && GAIN.availableGains[11] == 1.0
  {
    TableLength(GAIN_ROW, GAIN_FACTORS);
    TableAt(GAIN_ROW, GAIN_FACTORS, 3, 2);
    assert FlatIndex(3, 2, |GAIN_ROW|) == 11;
  }

  lemma TablePositive(gains: seq<real>, factors: seq<real>)
    requires Positive(gains) && Positive(factors)
    ensures Positive(Table(gains, factors))
    decreases |factors|
  {
    if |factors| > 0 {
      TablePositive(gains, factors[..|factors| - 1]);
    }
  }
}
