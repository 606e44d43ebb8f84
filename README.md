# gentables: waveform lookup tables for a DDS, in Dafny

`scripts/gentables.py` writes the two memory-initialization files that a
direct digital synthesizer loads into ROM. It takes two widths: `phase_bits`,
the width of the phase index, and `wf_bits`, the width of a sample. From them
it derives three constants:

- `num_samples = 2**phase_bits`;
- `max_ampl = 2**wf_bits - 1`;
- the line format `"%0{int(wf_bits/4)}x\n"`.

It then writes two files:

- **Sine file.** One period of a sine wave, in `num_samples` samples. Each
  sample is the sine scaled by `max_ampl / 2` and shifted up by
  `max_ampl / 2`, then truncated by `int()`. On exact reals this lies in
  [0, max_ampl]. With Python's doubles it does so only while wf_bits <= 53:
  beyond that, `max_ampl / 2` rounds up and the peak comes out as
  max_ampl + 1 (see "## Left out").
- **Triangle file.** A triangle wave in three segments:
  - a rise from mid-scale, `int(num_samples/4)` samples;
  - a fall from the peak, `int(num_samples/2)` samples;
  - a rise from zero, `int(num_samples/4)` samples.

Every sample is written as one zero-padded, lower-case hex line.

The model has six modules:

- `TableParams` holds the two widths and the derived constants.
- `Quantize` is `int()` on a float (truncation toward zero), plus the integer
  division facts behind it.
- `HexLine` is `"%0{w}x\n" % v` and the reading of such a line back.
- `Triangle` has the three segment formulas. Each appears twice: as the
  source's float expression and as an integer floor form. The module proves
  the two agree, and proves the shape of the table on the integer form.
- `Sine` has the sine sample formula, with `math.sin` taken as a parameter.
- `GenTables` has the sine loop and the three triangle loops as methods. Each
  method is proved to return the formatted lines of the table its
  specification function defines. `GenTables` also proves the file-level
  properties: reading a file back, line widths, and the worked examples.

Floats are modelled as exact reals. Python's `/` on these operands is true
division, so the model uses real division. `int()` of a float is `Trunc`.

A file is the sequence of its lines. A method returns that sequence; it does
not write to disk.

## Line width when wf_bits is not a multiple of 4

In `%0Nx`, N is only a minimum width. Python prints every digit of the value
and pads shorter values with zeros on the left; it never drops a digit. So
when `wf_bits` is not a multiple of 4, the samples near `max_ampl` need more
than `int(wf_bits/4)` digits, and their lines come out wider than
`int(wf_bits/4)` digits. (For wf_bits 1 to 3 that width is 0 and every line
is one digit.)

`HexLine.PadLeft` never drops characters. `GenTables.MaxAmplLineNotTruncated`
proves that in this case the line for `max_ampl` is wider than
`int(wf_bits/4)` digits and still reads back as `max_ampl`.

## Model

| member | source | states |
|---|---|---|
| TableParams.Pow2 | scripts/gentables.py:11-12 | `2**k` for a natural exponent is at least 1. Pow2Add and Pow2StrictlyIncreasing give its laws. |
| TableParams.NumSamples | scripts/gentables.py:11 | `2**phase_bits` is at least 1. It is a multiple of 4 once phase_bits >= 2, 2 for phase_bits = 1 and 1 for phase_bits = 0. |
| TableParams.MaxAmpl | scripts/gentables.py:12 | `2**wf_bits - 1` is the largest value below `2**wf_bits`. |
| TableParams.HexWidth | scripts/gentables.py:13 | `int(wf_bits/4)` is the quotient with the remainder dropped: 4w <= wf_bits < 4w + 4. |
| Quantize.Trunc | scripts/gentables.py:19 | `int()` of a float rounds toward zero. For x >= 0 it is the floor (0 <= r <= x < r + 1). For x < 0 it is the ceiling. |
| Quantize.TruncOfQuotient | scripts/gentables.py:26 | `int(a / b)` for non-negative integers a and positive b is the integer quotient a div b. This is how `int(num_samples / 4)` becomes num_samples div 4. |
| HexLine.ToHex | scripts/gentables.py:13 | `%x` gives at least one lower-case hex digit. The first digit is '0' exactly when the value is 0, and 0 prints as "0". |
| HexLine.PadLeft | scripts/gentables.py:13 | The `0` flag pads with '0' on the left up to the width and keeps a longer string whole. The digits end the result, and every added character is '0'. |
| HexLine.FormatLine | scripts/gentables.py:13 | A line is max(width, number of digits) characters followed by a newline. |
| HexLine.FormatLineRoundTrip | scripts/gentables.py:13 | Reading back a formatted line gives the sample, for every sample and every width. |
| HexLine.FormatLineInjective | scripts/gentables.py:13 | Two different samples never produce the same line. |
| HexLine.ToHexLength | scripts/gentables.py:13 | `%x` fits in k digits exactly when the value is below 16^k (both directions). |
| Triangle.Scale | scripts/gentables.py:24 | `scale = 2 * (max_ampl / num_samples)` is non-negative, and num_samples / 2 steps of it span exactly max_ampl. |
| Triangle.RisingFromMidFloat | scripts/gentables.py:27 | `i * scale + max_ampl / 2`, on exact reals, is at least max_ampl / 2, and at most max_ampl for every index of the first quarter. RisingFromMidExact ties its `int()` to RisingFromMid. |
| Triangle.FallingFloat | scripts/gentables.py:29 | `max_ampl - i * scale`, on exact reals, is at most max_ampl, and non-negative for every index of the half period. FallingExact ties its `int()` to Falling. |
| Triangle.RisingFromZeroFloat | scripts/gentables.py:31 | `i * scale`, on exact reals, is non-negative, and at most max_ampl / 2 for every index of the last quarter. RisingFromZeroExact ties its `int()` to RisingFromZero. |
| Triangle.RisingFromMid | scripts/gentables.py:27 | A segment-1 sample, in integer form, lies between max_ampl div 2 and max_ampl. |
| Triangle.Falling | scripts/gentables.py:29 | A segment-2 sample, in integer form, lies in [0, max_ampl]. |
| Triangle.RisingFromZero | scripts/gentables.py:31 | A segment-3 sample, in integer form, is at most max_ampl div 2. |
| Triangle.RisingFromMidExact | scripts/gentables.py:24-27 | `int(i * scale + max_ampl / 2)` equals the integer form of segment 1, for every index of that loop. |
| Triangle.FallingExact | scripts/gentables.py:24-29 | `int(max_ampl - i * scale)` equals the integer form of segment 2. |
| Triangle.RisingFromZeroExact | scripts/gentables.py:24-31 | `int(i * scale)` equals the integer form of segment 3. |
| Triangle.Segment1 | scripts/gentables.py:26-27 | The first loop's samples: int(N/4) of them, each between max_ampl div 2 and max_ampl. |
| Triangle.Segment2 | scripts/gentables.py:28-29 | The second loop's samples: int(N/2) of them, each in [0, max_ampl]. |
| Triangle.Segment3 | scripts/gentables.py:30-31 | The third loop's samples: int(N/4) of them, each at most max_ampl div 2. |
| Triangle.TriangleTable | scripts/gentables.py:25-31 | The table has int(N/4) + int(N/2) + int(N/4) samples, and every sample is in [0, max_ampl]. |
| Triangle.Segments | scripts/gentables.py:26-31 | The same length and range, for a sample count n and amplitude m. |
| Triangle.SegmentsAt | scripts/gentables.py:26-31 | Position k holds the segment-1 sample k, or the segment-2 sample k - N/4, or the segment-3 sample k - N/4 - N/2. |
| Triangle.TriangleLength | scripts/gentables.py:26-31 | The table has num_samples entries when phase_bits >= 2. It has the single entry max_ampl when phase_bits = 1, and no entry when phase_bits = 0. |
| Triangle.RisingFromMidShape | scripts/gentables.py:27 | Segment 1 starts at max_ampl div 2 and never decreases. |
| Triangle.FallingShape | scripts/gentables.py:29 | Segment 2 starts at max_ampl and never increases. |
| Triangle.RisingFromZeroShape | scripts/gentables.py:31 | Segment 3 starts at 0 and never decreases. |
| Triangle.SegmentStarts | scripts/gentables.py:26-31 | In the whole table, segment 1 starts at max_ampl div 2, segment 2 at max_ampl and segment 3 at 0, whenever the segment is non-empty. |
| Triangle.SegmentsMonotone | scripts/gentables.py:26-31 | In the whole table, segment 1 never decreases, segment 2 never increases and segment 3 never decreases. |
| Triangle.RisingPartMonotone | scripts/gentables.py:26-27 | The first int(N/4) positions of the table never decrease. |
| Triangle.FallingPartMonotone | scripts/gentables.py:28-29 | The next int(N/2) positions never increase. |
| Triangle.RisingFromZeroPartMonotone | scripts/gentables.py:30-31 | The last int(N/4) positions never decrease. |
| Sine.Angle | scripts/gentables.py:19 | `(2 * math.pi * i) / num_samples` is 0 exactly at index 0, and the indices of `range(num_samples)` stay in one period [0, 2 pi). |
| Sine.SineFloat | scripts/gentables.py:19 | `math.sin(angle) * (max_ampl / 2) + max_ampl / 2`, on exact reals, lies in [0, max_ampl] whenever the sine lies in [-1, 1]. |
| Sine.SineSample | scripts/gentables.py:19 | With sin in [-1, 1], a sine sample lies in [0, max_ampl]. |
| Sine.SineSamples | scripts/gentables.py:18-19 | The table has one sample per phase index, n of them, each at most m. |
| Sine.SineTable | scripts/gentables.py:18-19 | The table has num_samples samples, in index order, each in [0, max_ampl]. |
| Sine.SineStartsAtMid | scripts/gentables.py:19 | Since sin 0 = 0, sample 0 is max_ampl div 2. |
| Sine.SineTableStartsAtMid | scripts/gentables.py:18-19 | The first entry of every sine table is max_ampl div 2. |
| Sine.SineExample | scripts/gentables.py:18-19 | For phase_bits = 2, wf_bits = 4 and the values sin takes at 0, pi/2, pi and 3pi/2, the table is 7, 15, 7, 0. |
| GenTables.Lines | scripts/gentables.py:20 | A file holds one `"%0{w}x\n"` line per sample, as many lines as samples. LinesRoundTrip reads them back as the samples, in order. |
| GenTables.LinesRoundTrip | scripts/gentables.py:16-31 | Reading a written file back line by line gives exactly the table it was written from. |
| GenTables.GenerateSine | scripts/gentables.py:15-20 | The sine file is the formatted sine table: num_samples lines in index order, line i holding sample i. |
| GenTables.WriteSine | scripts/gentables.py:17-20 | The sine loop returns the lines of the sine table for n, m and width w. |
| GenTables.GenerateTriangle | scripts/gentables.py:22-31 | The triangle file is the formatted triangle table. |
| GenTables.WriteSegments | scripts/gentables.py:25-31 | The three loops, run in order, return the lines of the whole table. |
| GenTables.SegmentLines | scripts/gentables.py:25-31 | The lines of the table are the lines of segment 1, then segment 2, then segment 3. |
| GenTables.WriteRisingFromMid | scripts/gentables.py:26-27 | The first loop appends exactly the lines of segment 1, computed from the float expression. |
| GenTables.WriteFalling | scripts/gentables.py:28-29 | The second loop appends exactly the lines of segment 2. |
| GenTables.WriteRisingFromZero | scripts/gentables.py:30-31 | The third loop appends exactly the lines of segment 3. |
| GenTables.FixedWidthIff | scripts/gentables.py:12-13 | Every sample in [0, max_ampl] prints as exactly int(wf_bits/4) digits if and only if wf_bits is a positive multiple of 4. |
| GenTables.MaxAmplLineNotTruncated | scripts/gentables.py:12-13 | The line of max_ampl always reads back as max_ampl. If wf_bits is not a positive multiple of 4, that line is wider than int(wf_bits/4) digits. |
| GenTables.FilesFixedWidth | scripts/gentables.py:13-31 | With wf_bits a positive multiple of 4, every line of both files is int(wf_bits/4) digits and a newline. The sine file has num_samples lines, and so does the triangle file once phase_bits >= 2. |
| GenTables.EightTwoDigitLines | scripts/gentables.py:13-31 | For phase_bits = 3 and wf_bits = 8, each file has eight lines of two hex digits. |
| GenTables.SingleDigitLine | scripts/gentables.py:13 | At width 1, a sample below 16 is its one hex digit followed by a newline. |
| GenTables.SegmentsExample | scripts/gentables.py:24-31 | For four samples of amplitude up to 15, the triangle is 7, 15, 7, 0. |
| GenTables.ExampleDigitLines | scripts/gentables.py:13 | At width 1, the samples 7, 15 and 0 print as "7", "f" and "0". |
| GenTables.ExampleLines | scripts/gentables.py:13 | The samples 7, 15, 7, 0 at width 1 give the lines "7", "f", "7", "0". |
| GenTables.TriangleExample | scripts/gentables.py:22-31 | For phase_bits = 2 and wf_bits = 4, the triangle table is 7, 15, 7, 0, written as the lines "7", "f", "7", "0". |

## Left out

- Argument parsing (lines 1-10) is left out. The two widths arrive as natural
  numbers, so negative widths, which `int()` would accept, are not modelled.
- File naming, opening and writing (lines 16, 17, 23, 25) are left out. Each
  file is modelled as the sequence of lines that would be written to it.
- `math.sin` is not modelled. It is a parameter. Every member that uses it
  assumes that its values lie in [-1, 1]. `Sine.SineStartsAtMid` and
  `Sine.SineTableStartsAtMid` also assume that it is 0 at 0.
  `Sine.SineExample` states, as hypotheses, the values the double-precision
  sine takes at the four phases it uses.
- `math.pi` is the decimal 3.141592653589793, the shortest repr of the
  double.
- Float rounding is not modelled. Every float expression is evaluated on exact
  reals.
  - For the triangle, every divisor is a power of two. The float result is
    therefore exact while phase_bits + wf_bits stays within the 53-bit
    significand.
  - The sine expression is rounded by the hardware in ways the model does not
    capture.
- Sine.SineSample: the bound [0, max_ampl] holds of the program only while
  wf_bits <= 53, and so do the bounds of `Sine.SineSamples` and
  `Sine.SineTable`, the mid-scale start of `Sine.SineStartsAtMid` and
  `Sine.SineTableStartsAtMid`, and the line width of
  `GenTables.FilesFixedWidth`. The cause is the int/int true division
  `max_ampl / 2` on line 19. Its exact value 2^(wf_bits-1) - 0.5 needs wf_bits
  significant bits. At wf_bits = 54 it is a tie between two doubles 1 apart,
  and rounding to even gives 2^53. From wf_bits = 55 on the doubles around it
  are 2^(wf_bits-54) apart, and it rounds to the nearer one, 2^(wf_bits-1).
  - Sample 0 is then 2^(wf_bits-1), one more than max_ampl div 2.
  - With phase_bits >= 2, the angle at i = num_samples/4 is exactly
    `math.pi/2`, where `math.sin` returns 1.0. That sample is then 2^wf_bits,
    which is max_ampl + 1.
  - Example: phase_bits = 2 and wf_bits = 56 put "100000000000000" on line 2
    of the sine file. That is 15 digits, where the width is 14.
  - The model's values are the exact-real ones and stay in [0, max_ampl].
- Triangle.TriangleTable: the bound [0, max_ampl] holds of the program only
  while wf_bits <= 53, and so do the bounds of `Triangle.Segments` and the
  starts in `Triangle.SegmentStarts`. The same goes for the triangle half of
  `GenTables.FilesFixedWidth`. Up to that width, max_ampl and `max_ampl / 2`
  are exact doubles and rounding cannot cross them. From wf_bits = 54 on:
  - With phase_bits >= 1, `max_ampl - i * scale` on line 29 at i = 0 converts
    max_ampl to the double 2^wf_bits. The first sample of the falling segment
    is then max_ampl + 1. When wf_bits is a multiple of 4, its line is one
    digit wider than the others.
  - With phase_bits >= 2, line 27 at i = 0 gives 2^(wf_bits-1), where the
    model gives max_ampl div 2.
- GenTables.GenerateTriangle: states the triangle file for exact real
  arithmetic, and returns a full file for every pair of widths. The program
  does neither for very wide parameters:
  - Where the source's doubles round, the contract does not describe what it
    writes.
  - Python raises OverflowError beyond the double range (about 2^1024). An
    int / int division rounds the exact quotient once, so it raises only when
    the quotient is out of range. An int operand raises on its own only when
    it is combined with a float and must be converted.
    - `max_ampl / num_samples` on line 24 raises once wf_bits - phase_bits
      reaches 1024.
    - `num_samples / 4` on line 26 raises once phase_bits exceeds 1025.
    - `max_ampl - i * scale` on line 29 converts max_ampl to a float, and
      raises once wf_bits >= 1024 and the loop runs (phase_bits >= 1).

    The triangle file is then left empty, or never opened when the sine
    loop has already raised. The exception is not modelled.
- GenTables.GenerateSine: states the sine file for exact real arithmetic
  around the given sine function. It does not model double-precision
  rounding of the quotient `max_ampl / 2`, of the product or of the sum; the
  `Sine.SineSample` line above gives what the quotient alone changes. It also
  does not model the OverflowError that Python raises in three cases:
  - on the first sample once wf_bits >= 1025, because the quotient
    `max_ampl / 2` on line 19 is beyond the double range;
  - on the first sample once phase_bits >= 1024, because `num_samples` must
    be converted to a float to divide the float angle on line 19;
  - in the middle of the file when wf_bits = 1024 and phase_bits >= 2.
    There `max_ampl / 2` is 2^1023. At the latest at i = num_samples/4,
    where `math.sin` returns 1.0, the sum reaches 2^1024 and becomes inf,
    and `int()` of inf raises.

  The program then writes no complete file, whereas the method returns one
  for every pair of widths.
