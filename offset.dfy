/**
 * The start offset argument of the "dmp" target: an unsigned decimal number.
 * It is parsed here as a plain, non-empty string of decimal digits; the
 * value is an unbounded natural (no 64-bit limit, no sector_t truncation).
 */
module Offset {
  import opened Wrappers

  predicate IsDigit(ch: char)
  {
    '0' <= ch <= '9'
  }

  predicate AllDigits(s: string)
  {
    forall i :: 0 <= i < |s| ==> IsDigit(s[i])
  }

  function DigitValue(ch: char): nat
    requires IsDigit(ch)
  {
    (ch - '0') as nat
  }

  function DigitChar(d: nat): (ch: char)
    requires d < 10
    ensures IsDigit(ch) && DigitValue(ch) == d
  {
    ('0' as int + d) as char
  }

  /** The offset denoted by `s`, or None when `s` is not a non-empty run of decimal digits. */
  function ParseOffset(s: string): (r: Option<nat>)
    ensures r.Some? <==> s != [] && AllDigits(s)
  {
    if s == [] || !IsDigit(s[|s| - 1]) then None
    else if |s| == 1 then Some(DigitValue(s[0]))
    else
      match ParseOffset(s[..|s| - 1])
      case None => None
      case Some(v) => Some(v * 10 + DigitValue(s[|s| - 1]))
  }

  /** The decimal rendering of `n` (as printed with %llu): no sign, no leading zero. */
  function Decimal(n: nat): (s: string)
    ensures s != [] && AllDigits(s)
    ensures |s| > 1 ==> s[0] != '0'
  {
    if n < 10 then [DigitChar(n)] else Decimal(n / 10) + [DigitChar(n % 10)]
  }

  /** Rendering an offset in decimal and parsing it back gives the offset. */
  lemma {:induction false} ParseDecimal(n: nat)
    ensures ParseOffset(Decimal(n)) == Some(n)
  {
    if n >= 10 {
      var s := Decimal(n);
      assert s[..|s| - 1] == Decimal(n / 10);
      ParseDecimal(n / 10);
    }
  }

  /** A run of digits with no leading zero is the decimal rendering of the offset it parses to. */
  lemma {:induction false} RenderParsed(s: string)
    requires s != [] && AllDigits(s) && (|s| > 1 ==> s[0] != '0')
    ensures Decimal(ParseOffset(s).value) == s
  {
    var c := s[|s| - 1];
    var d := DigitValue(c);
    assert DigitChar(d) == c;
    if |s| > 1 {
      var p := s[..|s| - 1];
      assert s == p + [c];
      RenderParsed(p);
      var v := ParseOffset(p).value;
      assert v != 0;
      var n := v * 10 + d;
      assert ParseOffset(s).value == n;
      assert n / 10 == v && n % 10 == d;
    }
  }

  /** Leading zeros do not change the parsed offset. */
  lemma {:induction false} ParseLeadingZero(s: string)
    requires s != [] && AllDigits(s)
    ensures ParseOffset("0" + s) == ParseOffset(s)
  {
    var t := "0" + s;
    if |s| == 1 {
      assert t[..|t| - 1] == "0";
    } else {
      var p := s[..|s| - 1];
      assert t[..|t| - 1] == "0" + p;
      ParseLeadingZero(p);
    }
  }
}
