/** Conversion of a configured cap, written in megabytes per second, into the
    bytes-per-second value the torrent client takes (`mbps_to_bps`), where -1
    means "no limit". Python's `float()` is modelled on plain decimal text and
    floating-point arithmetic by exact reals. */
module Limits {
  import opened Wrappers

  /** The sentinel both the configuration and the client use for "no limit". */
  const NoLimit: int := -1

  /** 1024 * 1024 bytes. */
  const BytesPerMegabyte: real := 1048576.0

  /** Python's `int(x)` on a finite float: truncation toward zero. */
  function Trunc(x: real): (r: int)
    ensures 0.0 <= x ==> r as real <= x < r as real + 1.0
    ensures x < 0.0 ==> r as real - 1.0 < x <= r as real
  {
    if x >= 0.0 then x.Floor else -((-x).Floor)
  }

  /** `mbps_to_bps`: `parsed` is what `float(mbps)` gave, None when it raised
      ValueError. A cap of at least one byte per second is kept (truncated);
      every other value, and unparsable text, becomes "no limit". */
  function MbpsToBps(parsed: Option<real>): (bps: int)
    ensures bps == NoLimit || bps > 0
    ensures bps > 0 <==> parsed.Some? && parsed.value * BytesPerMegabyte >= 1.0
    ensures bps > 0 ==> bps as real <= parsed.value * BytesPerMegabyte < bps as real + 1.0
  {
    match parsed
    case None => NoLimit
    case Some(m) =>
      var b := Trunc(m * 1024.0 * 1024.0);
      if b > 0 then b else NoLimit
  }

  /** Whenever the truncated product is positive, it is the result exactly. */
  lemma MbpsToBpsIsTruncatedProduct(m: real)
    requires Trunc(m * BytesPerMegabyte) > 0
    ensures MbpsToBps(Some(m)) == Trunc(m * BytesPerMegabyte)
  {
  }

  /** A cap of zero or less, and a cap under one byte per second, mean "no limit". */
  lemma MbpsToBpsBelowOneByte(m: real)
    requires m * BytesPerMegabyte < 1.0
    ensures MbpsToBps(Some(m)) == NoLimit
  {
  }

  // ---------------------------------------------------------------------
  // float() on decimal text

  predicate IsDigit(c: char)
  {
    '0' <= c <= '9'
  }

  predicate AllDigits(s: string)
  {
    forall i :: 0 <= i < |s| ==> IsDigit(s[i])
  }

  function DigitValue(c: char): nat
    requires IsDigit(c)
  {
    c as int - '0' as int
  }

  function DigitChar(d: nat): (c: char)
    requires d < 10
    ensures IsDigit(c) && DigitValue(c) == d
  {
    ('0' as int + d) as char
  }

  /** The value of a string of decimal digits, most significant first. */
  function IntValue(ds: string): nat
    requires AllDigits(ds)
    decreases |ds|
  {
    if ds == [] then 0 else IntValue(ds[..|ds| - 1]) * 10 + DigitValue(ds[|ds| - 1])
  }

  /** The value of the digits after a decimal point. */
  function FracValue(ds: string): (v: real)
    requires AllDigits(ds)
    ensures 0.0 <= v < 1.0
  {
    if ds == [] then 0.0 else (DigitValue(ds[0]) as real + FracValue(ds[1..])) / 10.0
  }

  /** How many digits `s` starts with. */
  function LeadingDigits(s: string): (k: nat)
    ensures k <= |s| && AllDigits(s[..k])
    ensures k < |s| ==> !IsDigit(s[k])
  {
    if s == [] || !IsDigit(s[0]) then 0
    else
      var k' := LeadingDigits(s[1..]);
      assert s[..k' + 1] == [s[0]] + s[1..][..k'];
      k' + 1
  }

  /** Unsigned decimal text: digits, optionally a point and more digits, with
      at least one digit in all. */
  function ParseUnsigned(s: string): (r: Option<real>)
    ensures r.Some? ==> r.value >= 0.0
  {
    var k := LeadingDigits(s);
    if k == |s| then
      if k == 0 then None else Some(IntValue(s[..k]) as real)
    else if s[k] == '.' && LeadingDigits(s[k + 1..]) == |s| - (k + 1) && |s| > 1 then
      assert s[k + 1..] == s[k + 1..][..|s| - (k + 1)];
      Some(IntValue(s[..k]) as real + FracValue(s[k + 1..]))
    else None
  }

  /** `float(s)` on text without surrounding blanks, exponent or special names:
      an optional sign before unsigned decimal text. None stands for ValueError. */
  function ParseFloat(s: string): (r: Option<real>)
    ensures r.Some? ==> s != [] && (r.value < 0.0 ==> s[0] == '-')
  {
    if s != [] && (s[0] == '+' || s[0] == '-') then
      match ParseUnsigned(s[1..])
      case None => None
      case Some(v) => Some(if s[0] == '-' then -v else v)
    else ParseUnsigned(s)
  }

  lemma LeadingDigitsOfDigits(ds: string, rest: string)
    requires AllDigits(ds)
    requires rest == [] || !IsDigit(rest[0])
    ensures LeadingDigits(ds + rest) == |ds|
  {
    var s := ds + rest;
    assert forall i :: 0 <= i < |ds| ==> s[i] == ds[i];
    assert |s| > |ds| ==> s[|ds|] == rest[0];
  }

  /** Text made only of digits is read as that whole number. */
  lemma {:induction false} ParseFloatOfDigits(ds: string)
    requires ds != [] && AllDigits(ds)
    ensures ParseFloat(ds) == Some(IntValue(ds) as real)
  {
    LeadingDigitsOfDigits(ds, []);
    assert ds + [] == ds;
    assert ds[..|ds|] == ds;
  }

  /** Digits, a point and digits are read as the whole part plus the fraction. */
  lemma ParseFloatOfDecimal(whole: string, frac: string)
    requires AllDigits(whole) && AllDigits(frac)
    requires whole != [] || frac != []
    ensures ParseFloat(whole + "." + frac) == Some(IntValue(whole) as real + FracValue(frac))
  {
    var s := whole + "." + frac;
    ParseUnsignedOfDecimal(whole, frac);
    if whole == [] {
      assert s[0] == '.';
    } else {
      assert s[0] == whole[0];
    }
  }

  lemma {:induction false} ParseUnsignedOfDecimal(whole: string, frac: string)
    requires AllDigits(whole) && AllDigits(frac)
    requires whole != [] || frac != []
    ensures ParseUnsigned(whole + "." + frac) == Some(IntValue(whole) as real + FracValue(frac))
  {
    var s := whole + "." + frac;
    var k := |whole|;
    assert LeadingDigits(s) == k && s[k] == '.' by {
      assert s == whole + ("." + frac);
      LeadingDigitsOfDigits(whole, "." + frac);
    }
    assert s[..k] == whole;
    assert s[k + 1..] == frac;
    assert LeadingDigits(s[k + 1..]) == |s| - (k + 1) by {
      LeadingDigitsOfDigits(frac, []);
      assert frac + [] == frac;
    }
  }

  /** A leading minus sign negates the value of the text that follows it. */
  lemma {:induction false} ParseFloatNegated(t: string)
    requires t != [] && (IsDigit(t[0]) || t[0] == '.')
    ensures ParseFloat("-" + t) == (match ParseFloat(t) case None => None case Some(v) => Some(-v))
  {
    assert ("-" + t)[1..] == t;
  }

  /** The decimal text of a whole number. */
  function NatText(n: nat): (s: string)
    ensures s != [] && AllDigits(s)
    decreases n
  {
    if n < 10 then [DigitChar(n)] else NatText(n / 10) + [DigitChar(n % 10)]
  }

  lemma {:induction false} IntValueOfNatText(n: nat)
    ensures IntValue(NatText(n)) == n
    decreases n
  {
    var s := NatText(n);
    if n >= 10 {
      IntValueOfNatText(n / 10);
      assert s[..|s| - 1] == NatText(n / 10);
    }
  }

  /** Reading back the text of a whole number gives that number. */
  lemma ParseFloatOfNatText(n: nat)
    ensures ParseFloat(NatText(n)) == Some(n as real)
  {
    ParseFloatOfDigits(NatText(n));
    IntValueOfNatText(n);
  }

  /** The default "0" is read as zero. */
  lemma ParseFloatOfZero()
    ensures ParseFloat("0") == Some(0.0)
  {
    assert "0" == NatText(0);
    ParseFloatOfNatText(0);
  }
}
