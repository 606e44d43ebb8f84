/** The triangle table (scripts/gentables.py, lines 24-31): three segments
    whose lengths are each an integer division of the sample count,
    1. rising from mid-scale, num_samples div 4 samples,
    2. falling from the peak, num_samples div 2 samples,
    3. rising from zero, num_samples div 4 samples.
    The source computes each sample as `int()` of a float expression; those
    expressions appear here on exact reals (`RisingFromMidFloat`, ...) and are
    proved equal to integer floor forms (`RisingFromMid`, ...), on which the
    shape of the table is then proved.
    The sample formulas depend on the parameters only through
    n = num_samples and m = max_ampl, so they take those two numbers. */
module Triangle {
  import opened TableParams
  import opened Quantize

  /** `scale = 2 * (max_ampl / num_samples)`: the step per index, such that
      half a period (num_samples / 2 steps) spans the whole range. */
  function Scale(n: nat, m: nat): (scale: real)
    requires 0 < n
    ensures 0.0 <= scale
    ensures scale * (n as real / 2.0) == m as real
  {
    2.0 * (m as real / n as real)
  }

  /** `i * scale + max_ampl / 2`, the float that segment 1 truncates: it
      starts at mid-scale and stays at most max_ampl over the first quarter. */
  function RisingFromMidFloat(n: nat, m: nat, i: nat): (x: real)
    requires 0 < n
    ensures m as real / 2.0 <= x
    ensures 4 * i <= n ==> x <= m as real
  {
    var s := Scale(n, m);
    assert 4 * i <= n ==> i as real * s <= m as real / 2.0 by {
      if 4 * i <= n {
        assert i as real * s <= (n as real / 4.0) * s;
        assert (n as real / 4.0) * s == (s * (n as real / 2.0)) / 2.0;
      }
    }
    i as real * s + m as real / 2.0
  }

  /** `max_ampl - i * scale`, the float that segment 2 truncates: it starts at
      max_ampl and stays non-negative over the half period. */
  function FallingFloat(n: nat, m: nat, i: nat): (x: real)
    requires 0 < n
    ensures x <= m as real
    ensures 2 * i <= n ==> 0.0 <= x
  {
    var s := Scale(n, m);
    assert 2 * i <= n ==> i as real * s <= m as real by {
      if 2 * i <= n {
        assert i as real * s <= (n as real / 2.0) * s;
      }
    }
    m as real - i as real * s
  }

  /** `i * scale`, the float that segment 3 truncates: it starts at 0 and stays
      at most mid-scale over the last quarter. */
  function RisingFromZeroFloat(n: nat, m: nat, i: nat): (x: real)
    requires 0 < n
    ensures 0.0 <= x
    ensures 4 * i <= n ==> x <= m as real / 2.0
  {
    var s := Scale(n, m);
    assert 4 * i <= n ==> i as real * s <= m as real / 2.0 by {
      if 4 * i <= n {
        assert i as real * s <= (n as real / 4.0) * s;
        assert (n as real / 4.0) * s == (s * (n as real / 2.0)) / 2.0;
      }
    }
    i as real * s
  }

  /** Segment 1 sample i in integer form: floor((4im + mn) / 2n), written
      m(4i + n) div 2n; it lies in the upper half of the range. */
  function RisingFromMid(n: nat, m: nat, i: nat): (v: nat)
    requires 0 < n && i < n / 4
    ensures m / 2 <= v <= m
  {
    ScaledQuotientAtMost(m, 4 * i + n, 2 * n);
    ScaledQuotientMonotone(m, n, 4 * i + n, 2 * n);
    DivCancel(m, 2, n);
    m * (4 * i + n) / (2 * n)
  }

  /** Segment 2 sample i in integer form: floor((mn - 2im) / n), written
      m(n - 2i) div n. */
  function Falling(n: nat, m: nat, i: nat): (v: nat)
    requires 0 < n && i < n / 2
    ensures v <= m
  {
    ScaledQuotientAtMost(m, n - 2 * i, n);
    m * (n - 2 * i) / n
  }

  /** Segment 3 sample i in integer form: floor(2im / n), written
      m(2i) div n; it stays in the lower half of the range. */
  function RisingFromZero(n: nat, m: nat, i: nat): (v: nat)
    requires 0 < n && i < n / 4
    ensures v <= m / 2
  {
    ScaledQuotientAtMost(m, 2 * i, n);
    assert m * (2 * i) / n <= m / 2 by {
      DivCancel(m * (2 * i), n, 2);
      assert m * (2 * i) * 2 == m * (4 * i);
      assert n * 2 == 2 * n;
      ScaledQuotientMonotone(m, 4 * i, n, 2 * n);
      DivCancel(m, 2, n);
    }
    m * (2 * i) / n
  }

  /** The first loop's samples: int(num_samples / 4) of them, in the upper
      half of the range. */
  function Segment1(n: nat, m: nat): (s: seq<nat>)
    requires 0 < n
    ensures |s| == n / 4
    ensures forall k :: 0 <= k < |s| ==> m / 2 <= s[k] <= m
  {
    seq(n / 4, i requires 0 <= i < n / 4 => RisingFromMid(n, m, i))
  }

  /** The second loop's samples: int(num_samples / 2) of them, in
      [0, max_ampl]. */
  function Segment2(n: nat, m: nat): (s: seq<nat>)
    requires 0 < n
    ensures |s| == n / 2
    ensures forall k :: 0 <= k < |s| ==> s[k] <= m
  {
    seq(n / 2, i requires 0 <= i < n / 2 => Falling(n, m, i))
  }

  /** The third loop's samples: int(num_samples / 4) of them, in the lower
      half of the range. */
  function Segment3(n: nat, m: nat): (s: seq<nat>)
    requires 0 < n
    ensures |s| == n / 4
    ensures forall k :: 0 <= k < |s| ==> s[k] <= m / 2
  {
    seq(n / 4, i requires 0 <= i < n / 4 => RisingFromZero(n, m, i))
  }

  /** The whole table: the three segments one after another, each sample in
      [0, max_ampl]. Its length is the sum of the three integer divisions. */
  function TriangleTable(p: Params): (t: seq<nat>)
    ensures |t| == NumSamples(p) / 4 + NumSamples(p) / 2 + NumSamples(p) / 4
    ensures forall k :: 0 <= k < |t| ==> t[k] <= MaxAmpl(p)
  {
    Segments(NumSamples(p), MaxAmpl(p))
  }

  function Segments(n: nat, m: nat): (t: seq<nat>)
    requires 0 < n
    ensures |t| == n / 4 + n / 2 + n / 4
    ensures forall k :: 0 <= k < |t| ==> t[k] <= m
  {
    Segment1(n, m) + Segment2(n, m) + Segment3(n, m)
  }

  /** Which segment, and which index inside it, each table position comes from. */
  lemma SegmentsAt(n: nat, m: nat, k: nat)
    requires 0 < n && k < |Segments(n, m)|
    ensures var q, h := n / 4, n / 2;
            Segments(n, m)[k] ==
              if k < q then RisingFromMid(n, m, k)
              else if k < q + h then Falling(n, m, k - q)
              else RisingFromZero(n, m, k - q - h)
  {
    var q, h := n / 4, n / 2;
    var s1, s2, s3 := Segment1(n, m), Segment2(n, m), Segment3(n, m);
    assert Segments(n, m) == s1 + s2 + s3;
    if k < q {
      assert Segments(n, m)[k] == s1[k];
    } else if k < q + h {
      assert Segments(n, m)[k] == s2[k - q];
    } else {
      assert Segments(n, m)[k] == s3[k - q - h];
    }
  }

  /** The table has num_samples entries once phase_bits >= 2; a single entry
      (the peak) for phase_bits = 1; and none for phase_bits = 0. */
  lemma TriangleLength(p: Params)
    ensures |TriangleTable(p)| == if p.phaseBits >= 2 then NumSamples(p)
                                  else if p.phaseBits == 1 then 1 else 0
    ensures p.phaseBits == 1 ==> TriangleTable(p) == [MaxAmpl(p)]
  {
    if p.phaseBits == 1 {
      var m := MaxAmpl(p);
      DivUnique(m * 2, 2, m, 0);
      assert TriangleTable(p) == [Falling(2, m, 0)];
    }
  }

  /** The float expressions of the source agree with the integer forms:
      with exact arithmetic, `int()` of each expression is the floor of a
      quotient of non-negative integers. */
  lemma RisingFromMidExact(n: nat, m: nat, i: nat)
    requires 0 < n && i < n / 4
    ensures Trunc(RisingFromMidFloat(n, m, i)) == RisingFromMid(n, m, i)
  {
    var a, d := m * (4 * i + n), 2 * n;
    RisingFromMidQuotient(n, m, i);
    assert Trunc(a as real / d as real) == a / d by {
      ScaledQuotientAtMost(m, 4 * i + n, 2 * n);
      TruncOfQuotient(a, d);
    }
  }

  lemma FallingExact(n: nat, m: nat, i: nat)
    requires 0 < n && i < n / 2
    ensures Trunc(FallingFloat(n, m, i)) == Falling(n, m, i)
  {
    var a := m * (n - 2 * i);
    FallingQuotient(n, m, i);
    assert Trunc(a as real / n as real) == a / n by {
      ScaledQuotientAtMost(m, n - 2 * i, n);
      TruncOfQuotient(a, n);
    }
  }

  lemma RisingFromZeroExact(n: nat, m: nat, i: nat)
    requires 0 < n && i < n / 4
    ensures Trunc(RisingFromZeroFloat(n, m, i)) == RisingFromZero(n, m, i)
  {
    var a := m * (2 * i);
    RisingFromZeroQuotient(n, m, i);
    assert Trunc(a as real / n as real) == a / n by {
      ScaledQuotientAtMost(m, 2 * i, n);
      TruncOfQuotient(a, n);
    }
  }

  /** Each float expression, on exact reals, is a quotient of two integers. */
  lemma RisingFromMidQuotient(n: nat, m: nat, i: nat)
    requires 0 < n
    ensures RisingFromMidFloat(n, m, i) == (m * (4 * i + n)) as real / (2 * n) as real
  {
    var mr, nr, ir := m as real, n as real, i as real;
    var q := mr / nr;
    var x := ir * (2.0 * q) + mr / 2.0;
    assert RisingFromMidFloat(n, m, i) == x;
    assert x * (2.0 * nr) == mr * (4.0 * ir + nr) by {
      assert q * nr == mr;
      assert x * (2.0 * nr) == 4.0 * ir * (q * nr) + mr * nr;
    }
    ProductAsReal(m, 4 * i + n);
  }

  lemma FallingQuotient(n: nat, m: nat, i: nat)
    requires 0 < n
    ensures FallingFloat(n, m, i) == (m * (n - 2 * i)) as real / n as real
  {
    var mr, nr, ir := m as real, n as real, i as real;
    var q := mr / nr;
    var x := mr - ir * (2.0 * q);
    assert FallingFloat(n, m, i) == x;
    assert x * nr == mr * (nr - 2.0 * ir) by {
      assert q * nr == mr;
      assert x * nr == mr * nr - 2.0 * ir * (q * nr);
    }
    ProductAsReal(m, n - 2 * i);
  }

  lemma RisingFromZeroQuotient(n: nat, m: nat, i: nat)
    requires 0 < n
    ensures RisingFromZeroFloat(n, m, i) == (m * (2 * i)) as real / n as real
  {
    var mr, nr, ir := m as real, n as real, i as real;
    var q := mr / nr;
    var x := ir * (2.0 * q);
    assert RisingFromZeroFloat(n, m, i) == x;
    assert x * nr == mr * (2.0 * ir) by {
      assert q * nr == mr;
      assert x * nr == 2.0 * ir * (q * nr);
    }
    ProductAsReal(m, 2 * i);
  }

  /** Segment 1 starts at max_ampl div 2 and never decreases. */
  lemma RisingFromMidShape(n: nat, m: nat, i: nat, j: nat)
    requires 0 < n && i <= j < n / 4
    ensures RisingFromMid(n, m, 0) == m / 2
    ensures RisingFromMid(n, m, i) <= RisingFromMid(n, m, j)
  {
    DivCancel(m, 2, n);
    ScaledQuotientMonotone(m, 4 * i + n, 4 * j + n, 2 * n);
  }

  /** Segment 2 starts at max_ampl and never increases. */
  lemma FallingShape(n: nat, m: nat, i: nat, j: nat)
    requires 0 < n && i <= j < n / 2
    ensures Falling(n, m, 0) == m
    ensures Falling(n, m, j) <= Falling(n, m, i)
  {
    DivUnique(m * n, n, m, 0);
    ScaledQuotientMonotone(m, n - 2 * j, n - 2 * i, n);
  }

  /** Segment 3 starts at 0 and never decreases. */
  lemma RisingFromZeroShape(n: nat, m: nat, i: nat, j: nat)
    requires 0 < n && i <= j < n / 4
    ensures RisingFromZero(n, m, 0) == 0
    ensures RisingFromZero(n, m, i) <= RisingFromZero(n, m, j)
  {
    ScaledQuotientMonotone(m, 2 * i, 2 * j, n);
  }

  /** Where each segment starts: mid-scale, the peak, zero. */
  lemma SegmentStarts(n: nat, m: nat)
    requires 0 < n
    ensures var t, q, h := Segments(n, m), n / 4, n / 2;
            && (q > 0 ==> t[0] == m / 2 && t[q + h] == 0)
            && (h > 0 ==> t[q] == m)
  {
    var q, h := n / 4, n / 2;
    if q > 0 {
      SegmentsAt(n, m, 0);
      SegmentsAt(n, m, q + h);
      RisingFromMidShape(n, m, 0, 0);
      RisingFromZeroShape(n, m, 0, 0);
    }
    if h > 0 {
      SegmentsAt(n, m, q);
      FallingShape(n, m, 0, 0);
    }
  }

  /** Across the table, segment 1 never decreases, segment 2 never increases
      and segment 3 never decreases. */
  lemma SegmentsMonotone(n: nat, m: nat)
    requires 0 < n
    ensures var t, q, h := Segments(n, m), n / 4, n / 2;
            && (forall i, j :: 0 <= i <= j < q ==> t[i] <= t[j])
            && (forall i, j :: q <= i <= j < q + h ==> t[j] <= t[i])
            && (forall i, j :: q + h <= i <= j < |t| ==> t[i] <= t[j])
  {
    RisingPartMonotone(n, m);
    FallingPartMonotone(n, m);
    RisingFromZeroPartMonotone(n, m);
  }

  lemma RisingPartMonotone(n: nat, m: nat)
    requires 0 < n
    ensures var t := Segments(n, m);
            forall i, j :: 0 <= i <= j < n / 4 ==> t[i] <= t[j]
  {
    var t := Segments(n, m);
    forall i, j | 0 <= i <= j < n / 4
      ensures t[i] <= t[j]
    {
      SegmentsAt(n, m, i);
      SegmentsAt(n, m, j);
      RisingFromMidShape(n, m, i, j);
    }
  }

  lemma FallingPartMonotone(n: nat, m: nat)
    requires 0 < n
    ensures var t, q := Segments(n, m), n / 4;
            forall i, j :: q <= i <= j < q + n / 2 ==> t[j] <= t[i]
  {
    var t, q := Segments(n, m), n / 4;
    forall i, j | q <= i <= j < q + n / 2
      ensures t[j] <= t[i]
    {
      SegmentsAt(n, m, i);
      SegmentsAt(n, m, j);
      FallingShape(n, m, i - q, j - q);
    }
  }

  lemma RisingFromZeroPartMonotone(n: nat, m: nat)
    requires 0 < n
    ensures var t, s := Segments(n, m), n / 4 + n / 2;
            forall i, j :: s <= i <= j < |t| ==> t[i] <= t[j]
  {
    var t, s := Segments(n, m), n / 4 + n / 2;
    forall i, j | s <= i <= j < |t|
      ensures t[i] <= t[j]
    {
      SegmentsAt(n, m, i);
      SegmentsAt(n, m, j);
      RisingFromZeroShape(n, m, i - s, j - s);
    }
  }
}
