/** One line of a memory-initialization file: Python's `"%0{w}x\n" % v`
    (scripts/gentables.py, lines 13, 20, 27-31) for a non-negative sample v,
    and the reading of such a line back into the sample. */
module HexLine {
  import opened TableParams

  datatype Option<T> = None | Some(value: T)

  /** A digit that `%x` may print: 0-9 and lower-case a-f. */
  predicate IsHexDigit(c: char)
  {
    '0' <= c <= '9' || 'a' <= c <= 'f'
  }

  function DigitValue(c: char): (d: nat)
    requires IsHexDigit(c)
    ensures d < 16
  {
    if c <= '9' then c as int - '0' as int else c as int - 'a' as int + 10
  }

  /** The lower-case hex digit for d. */
  function DigitChar(d: nat): (c: char)
    requires d < 16
    ensures IsHexDigit(c) && DigitValue(c) == d
  {
    if d < 10 then ('0' as int + d) as char else ('a' as int + d - 10) as char
  }

  /** `"%x" % v`: the shortest lower-case hex spelling of v, "0" for zero and
      no leading zero otherwise. */
  function ToHex(v: nat): (s: string)
    ensures |s| >= 1
    ensures forall i :: 0 <= i < |s| ==> IsHexDigit(s[i])
    ensures s[0] == '0' <==> v == 0
    ensures v == 0 ==> s == "0"
    decreases v
  {
    if v < 16 then [DigitChar(v)] else ToHex(v / 16) + [DigitChar(v % 16)]
  }

  /** The value of a string of hex digits, most significant first. */
  function FromHex(s: string): nat
    requires forall i :: 0 <= i < |s| ==> IsHexDigit(s[i])
  {
    if s == [] then 0 else FromHex(s[..|s| - 1]) * 16 + DigitValue(s[|s| - 1])
  }

  function Zeros(n: nat): (z: string)
  {
    seq(n, _ => '0')
  }

  /** The `0` flag with a minimum width: left-pad with '0' up to w characters;
      a longer string is kept whole, never cut. */
  function PadLeft(s: string, w: nat): (r: string)
    ensures |r| == if |s| < w then w else |s|
    ensures r[|r| - |s|..] == s
    ensures forall i :: 0 <= i < |r| - |s| ==> r[i] == '0'
  {
    if |s| < w then Zeros(w - |s|) + s else s
  }

  /** `"%0{w}x\n" % v`. */
  function FormatLine(v: nat, w: nat): (line: string)
    ensures |line| == (if |ToHex(v)| < w then w else |ToHex(v)|) + 1
    ensures line[|line| - 1] == '\n'
  {
    PadLeft(ToHex(v), w) + "\n"
  }

  /** Reads a line back: one or more hex digits and a newline, or None. */
  function ParseLine(line: string): (r: Option<nat>)
    ensures r.Some? <==> 2 <= |line| && line[|line| - 1] == '\n'
                         && forall i :: 0 <= i < |line| - 1 ==> IsHexDigit(line[i])
  {
    if 2 <= |line| && line[|line| - 1] == '\n'
       && forall i :: 0 <= i < |line| - 1 ==> IsHexDigit(line[i])
    then Some(FromHex(line[..|line| - 1]))
    else None
  }

  /** Reading back the digits of `%x` gives the value. */
  lemma {:induction false} FromHexToHex(v: nat)
    ensures FromHex(ToHex(v)) == v
    decreases v
  {
    if v >= 16 {
      var s := ToHex(v);
      assert s[..|s| - 1] == ToHex(v / 16);
      FromHexToHex(v / 16);
    } else {
      assert ToHex(v)[..0] == [];
    }
  }

  /** A leading zero digit does not change the value. */
  lemma {:induction false} FromHexLeadingZero(s: string)
    requires forall i :: 0 <= i < |s| ==> IsHexDigit(s[i])
    ensures FromHex(['0'] + s) == FromHex(s)
    decreases |s|
  {
    var t := ['0'] + s;
    if s == [] {
      assert t[..0] == [];
    } else {
      assert t[..|t| - 1] == ['0'] + s[..|s| - 1];
      FromHexLeadingZero(s[..|s| - 1]);
    }
  }

  lemma {:induction false} FromHexZeros(n: nat, s: string)
    requires forall i :: 0 <= i < |s| ==> IsHexDigit(s[i])
    ensures FromHex(Zeros(n) + s) == FromHex(s)
  {
    if n > 0 {
      assert Zeros(n) + s == ['0'] + (Zeros(n - 1) + s);
      FromHexZeros(n - 1, s);
      FromHexLeadingZero(Zeros(n - 1) + s);
    } else {
      assert Zeros(n) + s == s;
    }
  }

  /** Round trip: every formatted line reads back as the sample it was made from,
      whatever the padding width. */
  lemma FormatLineRoundTrip(v: nat, w: nat)
    ensures ParseLine(FormatLine(v, w)) == Some(v)
  {
    var line := FormatLine(v, w);
    var digits := PadLeft(ToHex(v), w);
    assert line[..|line| - 1] == digits;
    if |ToHex(v)| < w {
      FromHexZeros(w - |ToHex(v)|, ToHex(v));
    }
    FromHexToHex(v);
  }

  /** Different samples never share a line. */
  lemma FormatLineInjective(u: nat, v: nat, w: nat)
    requires FormatLine(u, w) == FormatLine(v, w)
    ensures u == v
  {
    FormatLineRoundTrip(u, w);
    FormatLineRoundTrip(v, w);
  }

  /** `%x` needs at most k digits exactly for the values below 16^k. */
  lemma {:induction false} ToHexLength(v: nat, k: nat)
    requires k >= 1
    ensures |ToHex(v)| <= k <==> v < Pow2(4 * k)
    decreases v
  {
    Pow2Add(4, 4 * (k - 1));
    assert Pow2(4) == 16;
    if v >= 16 {
      if k == 1 {
        assert |ToHex(v)| == |ToHex(v / 16)| + 1;
      } else {
        ToHexLength(v / 16, k - 1);
        assert v / 16 < Pow2(4 * (k - 1)) <==> v < 16 * Pow2(4 * (k - 1));
      }
    }
  }
}
