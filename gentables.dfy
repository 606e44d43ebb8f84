/** The two table generators of scripts/gentables.py: the sine loop
    (lines 15-20) and the three triangle loops (lines 22-31). Each writes one
    formatted line per sample; the file written is modelled as the sequence
    of lines returned. */
module GenTables {
  import opened TableParams
  import opened Quantize
  import opened HexLine
  import opened Triangle
  import opened Sine

  /** The text of a memory file: one `"%0{w}x\n"` line per sample, in order. */
  function Lines(samples: seq<nat>, w: nat): (lines: seq<string>)
    ensures |lines| == |samples|
  {
    seq(|samples|, k requires 0 <= k < |samples| => FormatLine(samples[k], w))
  }

  /** Reads a memory file back, line by line; None if any line is malformed. */
  function ParseLines(lines: seq<string>): (r: Option<seq<nat>>)
    ensures r.Some? ==> |r.value| == |lines|
  {
    if lines == [] then Some([])
    else
      match ParseLine(lines[0])
      case None => None
      case Some(v) =>
        match ParseLines(lines[1..])
        case None => None
        case Some(vs) => Some([v] + vs)
  }

  /** Reading a generated file back gives exactly the table it was made from. */
  lemma {:induction false} LinesRoundTrip(samples: seq<nat>, w: nat)
    ensures ParseLines(Lines(samples, w)) == Some(samples)
    decreases |samples|
  {
    if samples != [] {
      var lines := Lines(samples, w);
      assert lines[1..] == Lines(samples[1..], w);
      FormatLineRoundTrip(samples[0], w);
      LinesRoundTrip(samples[1..], w);
      assert samples == [samples[0]] + samples[1..];
    }
  }

  /** The sine file: num_samples lines, line i holding sine sample i. */
  method GenerateSine(p: Params, sine: real -> real) returns (lines: seq<string>)
    requires SineBounded(sine)
    ensures lines == Lines(SineTable(p, sine), HexWidth(p))
  {
    lines := WriteSine(NumSamples(p), MaxAmpl(p), HexWidth(p), sine);
  }

  /** The sine loop for n = num_samples, m = max_ampl and padding width w:
      `int(math.sin((2 * math.pi * i) / num_samples) * (max_ampl / 2) + max_ampl / 2)`
      for every i in `range(num_samples)`, in order. */
  method WriteSine(n: nat, m: nat, w: nat, sine: real -> real) returns (lines: seq<string>)
    requires 0 < n && SineBounded(sine)
    ensures lines == Lines(SineSamples(n, m, sine), w)
  {
    ghost var target := Lines(SineSamples(n, m, sine), w);
    lines := [];
    for i := 0 to n
      invariant lines == target[..i]
    {
      var sample := Trunc(SineFloat(n, m, sine, i));
      assert sample == SineSample(n, m, sine, i);
      LinesPrefixStep(SineSamples(n, m, sine), w, i);
      lines := lines + [FormatLine(sample as nat, w)];
    }
    assert target[..n] == target;
  }

  /** The triangle file: the three segment loops, in order, each line the
      truncated float of its segment's formula. */
  method GenerateTriangle(p: Params) returns (lines: seq<string>)
    ensures lines == Lines(TriangleTable(p), HexWidth(p))
  {
    lines := WriteSegments(NumSamples(p), MaxAmpl(p), HexWidth(p));
  }

  /** The triangle loops for n = num_samples, m = max_ampl and
      padding width w: its three loops, one after another. */
  method WriteSegments(n: nat, m: nat, w: nat) returns (lines: seq<string>)
    requires 0 < n
    ensures lines == Lines(Segments(n, m), w)
  {
    lines := WriteRisingFromMid(n, m, w, []);
    assert lines == Lines(Segment1(n, m), w) by {
      assert [] + Lines(Segment1(n, m), w) == Lines(Segment1(n, m), w);
    }
    lines := WriteFalling(n, m, w, lines);
    lines := WriteRisingFromZero(n, m, w, lines);
    SegmentLines(n, m, w);
  }

  /** The lines of the table are the lines of its three segments in turn. */
  lemma SegmentLines(n: nat, m: nat, w: nat)
    requires 0 < n
    ensures Lines(Segments(n, m), w)
            == Lines(Segment1(n, m), w) + Lines(Segment2(n, m), w) + Lines(Segment3(n, m), w)
  {
    var s1, s2, s3 := Segment1(n, m), Segment2(n, m), Segment3(n, m);
    LinesAppend(s1, s2, w);
    LinesAppend(s1 + s2, s3, w);
  }

  /** Formatting a concatenation formats each part. */
  lemma LinesAppend(s: seq<nat>, t: seq<nat>, w: nat)
    ensures Lines(s + t, w) == Lines(s, w) + Lines(t, w)
  {
    var a, b := Lines(s + t, w), Lines(s, w) + Lines(t, w);
    assert |a| == |b|;
    forall k | 0 <= k < |a|
      ensures a[k] == b[k]
    {
      LinesAppendAt(s, t, w, k);
    }
  }

  lemma LinesAppendAt(s: seq<nat>, t: seq<nat>, w: nat, k: nat)
    requires k < |s| + |t|
    ensures Lines(s + t, w)[k] == (Lines(s, w) + Lines(t, w))[k]
  {
    if k < |s| {
      assert (s + t)[k] == s[k];
      LinesAt(s, w, k);
    } else {
      assert (s + t)[k] == t[k - |s|];
      LinesAt(t, w, k - |s|);
    }
    LinesAt(s + t, w, k);
  }

  /** One more sample formatted extends the prefix of the file by one line. */
  lemma LinesPrefixStep(samples: seq<nat>, w: nat, i: nat)
    requires i < |samples|
    ensures Lines(samples, w)[..i + 1] == Lines(samples, w)[..i] + [FormatLine(samples[i], w)]
  {
    var ls := Lines(samples, w);
    LinesAt(samples, w, i);
    assert ls[..i + 1] == ls[..i] + [ls[i]];
  }

  /** First triangle loop: `int(i * scale + max_ampl / 2)` for i below
      `int(num_samples / 4)`, appended after `before`. */
  method WriteRisingFromMid(n: nat, m: nat, w: nat, before: seq<string>) returns (lines: seq<string>)
    requires 0 < n
    ensures lines == before + Lines(Segment1(n, m), w)
  {
    ghost var target := Lines(Segment1(n, m), w);
    lines := before;
    var count := Trunc(n as real / 4 as real);
    TruncOfQuotient(n, 4);
    for i := 0 to count
      invariant lines == before + target[..i]
    {
      var sample := Trunc(RisingFromMidFloat(n, m, i));
      RisingFromMidExact(n, m, i);
      LinesPrefixStep(Segment1(n, m), w, i);
      lines := lines + [FormatLine(sample as nat, w)];
    }
    assert target[..n / 4] == target;
  }

  /** Second triangle loop: `int(max_ampl - i * scale)` for i below
      `int(num_samples / 2)`, appended after `before`. */
  method WriteFalling(n: nat, m: nat, w: nat, before: seq<string>) returns (lines: seq<string>)
    requires 0 < n
    ensures lines == before + Lines(Segment2(n, m), w)
  {
    ghost var target := Lines(Segment2(n, m), w);
    lines := before;
    var count := Trunc(n as real / 2 as real);
    TruncOfQuotient(n, 2);
    for i := 0 to count
      invariant lines == before + target[..i]
    {
      var sample := Trunc(FallingFloat(n, m, i));
      FallingExact(n, m, i);
      LinesPrefixStep(Segment2(n, m), w, i);
      lines := lines + [FormatLine(sample as nat, w)];
    }
    assert target[..n / 2] == target;
  }

  /** Third triangle loop: `int(i * scale)` for i below
      `int(num_samples / 4)`, appended after `before`. */
  method WriteRisingFromZero(n: nat, m: nat, w: nat, before: seq<string>) returns (lines: seq<string>)
    requires 0 < n
    ensures lines == before + Lines(Segment3(n, m), w)
  {
    ghost var target := Lines(Segment3(n, m), w);
    lines := before;
    var count := Trunc(n as real / 4 as real);
    TruncOfQuotient(n, 4);
    for i := 0 to count
      invariant lines == before + target[..i]
    {
      var sample := Trunc(RisingFromZeroFloat(n, m, i));
      RisingFromZeroExact(n, m, i);
      LinesPrefixStep(Segment3(n, m), w, i);
      lines := lines + [FormatLine(sample as nat, w)];
    }
    assert target[..n / 4] == target;
  }

  /** Every in-range sample prints as exactly int(wf_bits/4) digits if and
      only if wf_bits is a positive multiple of 4. */
  lemma FixedWidthIff(p: Params)
    ensures (forall v: nat :: v <= MaxAmpl(p) ==> |FormatLine(v, HexWidth(p))| == HexWidth(p) + 1)
            <==> (p.wfBits >= 4 && p.wfBits % 4 == 0)
  {
    var m, w := MaxAmpl(p), HexWidth(p);
    if p.wfBits >= 4 && p.wfBits % 4 == 0 {
      forall v: nat | v <= m
        ensures |FormatLine(v, w)| == w + 1
      {
        assert 4 * w == p.wfBits;
        ToHexLength(v, w);
      }
    } else {
      MaxAmplLineNotTruncated(p);
    }
  }

  /** With wf_bits a positive multiple of 4, every line of both files is
      int(wf_bits/4) digits and a newline; the sine file has num_samples
      lines and the triangle file as many once phase_bits >= 2. */
  lemma FilesFixedWidth(p: Params, sine: real -> real)
    requires SineBounded(sine) && p.wfBits >= 4 && p.wfBits % 4 == 0
    ensures var w := HexWidth(p);
            var sin, tri := Lines(SineTable(p, sine), w), Lines(TriangleTable(p), w);
            && |sin| == NumSamples(p)
            && (p.phaseBits >= 2 ==> |tri| == NumSamples(p))
            && (forall k :: 0 <= k < |sin| ==> |sin[k]| == w + 1)
            && (forall k :: 0 <= k < |tri| ==> |tri[k]| == w + 1)
  {
    var w, m := HexWidth(p), MaxAmpl(p);
    var s, t := SineTable(p, sine), TriangleTable(p);
    FixedWidthIff(p);
    TriangleLength(p);
    forall k | 0 <= k < |s|
      ensures |Lines(s, w)[k]| == w + 1
    {
      LinesAt(s, w, k);
    }
    forall k | 0 <= k < |t|
      ensures |Lines(t, w)[k]| == w + 1
    {
      LinesAt(t, w, k);
    }
  }

  /** phase_bits = 3, wf_bits = 8: eight two-digit lines in each file. */
  lemma EightTwoDigitLines(sine: real -> real)
    requires SineBounded(sine)
    ensures var p := Params(3, 8);
            var sin, tri := Lines(SineTable(p, sine), 2), Lines(TriangleTable(p), 2);
            && |sin| == 8 && |tri| == 8
            && (forall k :: 0 <= k < 8 ==> |sin[k]| == 3 && |tri[k]| == 3)
  {
    var p := Params(3, 8);
    assert NumSamples(p) == 8 by {
      assert Pow2(3) == 2 * Pow2(2) == 8;
    }
    assert HexWidth(p) == 2;
    FilesFixedWidth(p, sine);
  }

  /** The `0` flag never cuts digits: when wf_bits is not a multiple of 4,
      or is 0, the line of max_ampl is wider than int(wf_bits/4) digits, and
      it still reads back as max_ampl. */
  lemma MaxAmplLineNotTruncated(p: Params)
    ensures ParseLine(FormatLine(MaxAmpl(p), HexWidth(p))) == Some(MaxAmpl(p))
    ensures !(p.wfBits >= 4 && p.wfBits % 4 == 0) ==>
              |FormatLine(MaxAmpl(p), HexWidth(p))| > HexWidth(p) + 1
  {
    var m, w := MaxAmpl(p), HexWidth(p);
    FormatLineRoundTrip(m, w);
    if w > 0 && p.wfBits % 4 != 0 {
      Pow2StrictlyIncreasing(4 * w, p.wfBits);
      ToHexLength(m, w);
    }
  }

  /** Four samples of amplitude up to 15: 7, 15, 7, 0. */
  lemma SegmentsExample()
    ensures Segments(4, 15) == [7, 15, 7, 0]
  {
    var t := Segments(4, 15);
    SegmentsAt(4, 15, 0);
    SegmentsAt(4, 15, 1);
    SegmentsAt(4, 15, 2);
    SegmentsAt(4, 15, 3);
    assert t == [t[0], t[1], t[2], t[3]];
  }

  /** A sample below 16 at width 1 is its one digit and a newline. */
  lemma SingleDigitLine(v: nat)
    requires v < 16
    ensures FormatLine(v, 1) == [DigitChar(v), '\n']
  {
    assert ToHex(v) == [DigitChar(v)];
  }

  /** Line k of a file is the formatted sample k. */
  lemma LinesAt(samples: seq<nat>, w: nat, k: nat)
    requires k < |samples|
    ensures Lines(samples, w)[k] == FormatLine(samples[k], w)
  {
  }

  /** 7, 15 and 0 at width 1 print as "7", "f" and "0". */
  lemma ExampleDigitLines()
    ensures FormatLine(7, 1) == "7\n" && FormatLine(15, 1) == "f\n" && FormatLine(0, 1) == "0\n"
  {
    SingleDigitLine(7);
    SingleDigitLine(15);
    SingleDigitLine(0);
  }

  /** The lines of the samples 7, 15, 7, 0 at width 1: "7", "f", "7", "0". */
  lemma ExampleLines(t: seq<nat>)
    requires t == [7, 15, 7, 0]
    ensures var l := Lines(t, 1);
            |l| == 4 && l[0] == "7\n" && l[1] == "f\n" && l[2] == "7\n" && l[3] == "0\n"
  {
    ExampleDigitLines();
    LinesAt(t, 1, 0);
    LinesAt(t, 1, 1);
    LinesAt(t, 1, 2);
    LinesAt(t, 1, 3);
  }

  /** phase_bits = 2, wf_bits = 4: the triangle is 7, 15, 7, 0, written as
      the lines "7", "f", "7", "0". */
  lemma TriangleExample()
    ensures TriangleTable(Params(2, 4)) == [7, 15, 7, 0]
    ensures var l := Lines(TriangleTable(Params(2, 4)), HexWidth(Params(2, 4)));
            |l| == 4 && l[0] == "7\n" && l[1] == "f\n" && l[2] == "7\n" && l[3] == "0\n"
  {
    var p := Params(2, 4);
    assert NumSamples(p) == 4 && MaxAmpl(p) == 15 by {
      assert Pow2(2) == 4 && Pow2(4) == 16;
    }
    assert HexWidth(p) == 1;
    SegmentsExample();
    ExampleLines(TriangleTable(p));
  }
}
