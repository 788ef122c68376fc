/** Decimal numerals as the JDK reads and writes them: `Long.parseUnsignedLong` (radix 10),
    `Integer.toString` for non-negative numbers, and the signed `long` that carries an
    unsigned 64-bit value's bits. */
module Numerals {
  import opened Base

  predicate IsDigit(c: char) {
    '0' <= c <= '9'
  }

  predicate AllDigits(s: string) {
    forall i :: 0 <= i < |s| ==> IsDigit(s[i])
  }

  function DigitValue(c: char): (d: nat)
    requires IsDigit(c)
    ensures d < 10
  {
    c as int - '0' as int
  }

  function DigitChar(d: nat): (c: char)
    requires d < 10
    ensures IsDigit(c) && DigitValue(c) == d
  {
    ('0' as int + d) as char
  }

  /** The number a string of decimal digits denotes, most significant digit first. */
  function DecimalValue(s: string): nat
    requires AllDigits(s)
    decreases |s|
  {
    if s == [] then 0 else DecimalValue(s[..|s| - 1]) * 10 + DigitValue(s[|s| - 1])
  }

  /** The canonical decimal text of a non-negative number: digits only, and no leading
      zero unless the number is 0 itself. */
  function Render(n: nat): (s: string)
    ensures s != [] && AllDigits(s)
    ensures |s| > 1 ==> s[0] != '0'
    decreases n
  {
    if n < 10 then [DigitChar(n)] else Render(n / 10) + [DigitChar(n % 10)]
  }

  /** A digit string with its redundant leading zeros removed ("007" becomes "7", "000" becomes "0"). */
  function StripLeadingZeros(s: string): (r: string)
    ensures |r| <= |s|
    ensures s != [] ==> r != []
    ensures AllDigits(s) ==> AllDigits(r)
    ensures |r| > 1 ==> r[0] != '0'
  {
    if |s| > 1 && s[0] == '0' then StripLeadingZeros(s[1..]) else s
  }

  /** The digits `Long.parseUnsignedLong` reads after an optional leading '+'. */
  function Unsigned(s: string): string {
    if s != [] && s[0] == '+' then s[1..] else s
  }

  /** `Long.parseUnsignedLong(s)` with radix 10. It throws NumberFormatException (None here)
      for the empty string, a leading '-', a sign with no digits after it, any non-digit, and
      any value of 2^64 or more; otherwise it yields the value. */
  function ParseUnsignedLong(s: string): (r: Option<u64>)
    ensures r.Some? ==> s != [] && s[0] != '-'
    ensures r.Some? ==> var d := Unsigned(s); d != [] && AllDigits(d) && DecimalValue(d) == r.value
  {
    if |s| == 0 || s[0] == '-' then None
    else
      var digits := Unsigned(s);
      if digits != [] && AllDigits(digits) && DecimalValue(digits) < TWO_TO_THE_64
      then Some(DecimalValue(digits))
      else None
  }

  /** The Java `long` whose 64 bits are those of the unsigned value v: what a caller of the
      envelope's getters sees for values of 2^63 and more. */
  function AsJavaLong(v: u64): (l: int64)
    ensures (v - l) % TWO_TO_THE_64 == 0
    ensures v < TWO_TO_THE_63 ==> l == v
  {
    if v < TWO_TO_THE_63 then v else v - TWO_TO_THE_64
  }

  /** `Long.toUnsignedString`'s reading of a Java `long`: the inverse of AsJavaLong. */
  function FromJavaLong(l: int64): (v: u64)
    ensures (v - l) % TWO_TO_THE_64 == 0
    ensures l >= 0 ==> v == l
    ensures l < 0 ==> v >= TWO_TO_THE_63
  {
    if l < 0 then l + TWO_TO_THE_64 else l
  }

  lemma JavaLongRoundTrip(v: u64)
    ensures FromJavaLong(AsJavaLong(v)) == v
  {
  }

  // ----- decimal values -----

  lemma {:induction false} DecimalValueOfSnoc(s: string, c: char)
    requires AllDigits(s) && IsDigit(c)
    ensures AllDigits(s + [c])
    ensures DecimalValue(s + [c]) == DecimalValue(s) * 10 + DigitValue(c)
  {
    var t := s + [c];
    assert t[..|t| - 1] == s;
  }

  /** A leading zero does not change the value of a digit string. */
  lemma {:induction false} LeadingZeroIgnored(s: string)
    requires AllDigits(s)
    ensures AllDigits("0" + s)
    ensures DecimalValue("0" + s) == DecimalValue(s)
    decreases |s|
  {
    var t := "0" + s;
    if s != [] {
      var p := s[..|s| - 1];
      assert t[..|t| - 1] == "0" + p;
      LeadingZeroIgnored(p);
    }
  }

  lemma {:induction false} StripLeadingZerosKeepsValue(s: string)
    requires AllDigits(s)
    ensures DecimalValue(StripLeadingZeros(s)) == DecimalValue(s)
    decreases |s|
  {
    if |s| > 1 && s[0] == '0' {
      StripLeadingZerosKeepsValue(s[1..]);
      assert s == "0" + s[1..];
      LeadingZeroIgnored(s[1..]);
    }
  }

  /** A digit string that does not start with '0' denotes a positive number. */
  lemma {:induction false} NoLeadingZeroIsPositive(s: string)
    requires AllDigits(s) && s != [] && s[0] != '0'
    ensures DecimalValue(s) > 0
    decreases |s|
  {
    var p := s[..|s| - 1];
    if p != [] {
      NoLeadingZeroIsPositive(p);
    }
  }

  /** Rendering a value gives back the digits it was read from. */
  lemma {:induction false} DecimalValueOfRender(n: nat)
    ensures DecimalValue(Render(n)) == n
    decreases n
  {
    if n >= 10 {
      DecimalValueOfRender(n / 10);
      DecimalValueOfSnoc(Render(n / 10), DigitChar(n % 10));
    }
  }

  /** Reading a canonical digit string and rendering the value gives the string back. */
  lemma {:induction false} RenderOfCanonical(s: string)
    requires AllDigits(s) && s != [] && (|s| > 1 ==> s[0] != '0')
    ensures Render(DecimalValue(s)) == s
    decreases |s|
  {
    if |s| > 1 {
      var p := s[..|s| - 1];
      assert p[0] == s[0];
      NoLeadingZeroIsPositive(p);
      RenderOfCanonical(p);
      assert s == p + [s[|s| - 1]];
    }
  }

  // ----- Long.parseUnsignedLong -----

  /** Every unsigned 64-bit value survives rendering and parsing. */
  lemma ParseRender(n: u64)
    ensures ParseUnsignedLong(Render(n)) == Some(n)
  {
    DecimalValueOfRender(n);
  }

  /** Every value of 2^64 or more is rejected, however it is written. */
  lemma ParseRejectsOverflow(n: nat)
    requires n >= TWO_TO_THE_64
    ensures ParseUnsignedLong(Render(n)) == None
  {
    DecimalValueOfRender(n);
  }

  /** Parsing then rendering gives the text back, less its '+' sign and leading zeros. */
  lemma ParseThenRender(s: string)
    requires ParseUnsignedLong(s).Some?
    ensures Render(ParseUnsignedLong(s).value) == StripLeadingZeros(Unsigned(s))
  {
    var d := Unsigned(s);
    StripLeadingZerosKeepsValue(d);
    RenderOfCanonical(StripLeadingZeros(d));
  }

  /** An explicit '+' sign is accepted and changes nothing (but a second sign is not). */
  lemma ParsePlusSign(s: string)
    requires s == [] || s[0] != '+'
    ensures ParseUnsignedLong("+" + s) == ParseUnsignedLong(s)
  {
    assert ("+" + s)[1..] == s;
  }

  /** A leading zero changes nothing. */
  lemma ParseLeadingZero(s: string)
    requires s != [] && s[0] != '+'
    ensures ParseUnsignedLong("0" + s) == ParseUnsignedLong(s)
  {
    if AllDigits(s) {
      LeadingZeroIgnored(s);
    } else {
      var i :| 0 <= i < |s| && !IsDigit(s[i]);
      assert !IsDigit(("0" + s)[i + 1]);
    }
  }

  /** The cases the library's users rely on. */
  lemma ParseExamples()
    ensures ParseUnsignedLong("42") == Some(42)
    ensures ParseUnsignedLong("+42") == Some(42)
    ensures ParseUnsignedLong("0") == Some(0)
    ensures ParseUnsignedLong("") == None
    ensures ParseUnsignedLong("+") == None
    ensures ParseUnsignedLong("-1") == None
    ensures ParseUnsignedLong("abc") == None
    ensures ParseUnsignedLong("4x2") == None
  {
    assert "42"[..1] == "4" && "4"[..0] == "";
    assert DecimalValue("4") == 4;
    assert "+42"[1..] == "42";
    assert !IsDigit("4x2"[1]);
  }
}
