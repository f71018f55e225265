/**
 * The parts of Go's strconv package that the service relies on, written out:
 * Itoa (rate-limit headers, NWS status messages), Atoi (integer environment
 * variables) and ParseBool (boolean environment variables). Go strings are
 * bytes; here a string is a sequence of characters, and every accepted
 * character is ASCII, so the two readings agree.
 */
module Strconv {
  import opened Wrappers

  const MinInt64: int := -0x8000_0000_0000_0000
  const MaxInt64: int := 0x7FFF_FFFF_FFFF_FFFF

  predicate IsDigit(c: char) {
    '0' <= c <= '9'
  }

  function DigitValue(c: char): (d: nat)
    requires IsDigit(c)
    ensures d < 10
  {
    c as int - '0' as int
  }

  function DigitChar(d: nat): (c: char)
    requires d < 10
    ensures IsDigit(c) && DigitValue(c) == d
  {
    ('0' as int + d) as char
  }

  predicate AllDigits(s: string) {
    forall i :: 0 <= i < |s| ==> IsDigit(s[i])
  }

  /** The value of a run of decimal digits, most significant digit first. */
  function DecimalValue(s: string): nat
    requires AllDigits(s)
  {
    if s == [] then 0 else DecimalValue(s[..|s| - 1]) * 10 + DigitValue(s[|s| - 1])
  }

  /** The shortest decimal digits of n: no leading zero unless n is zero. */
  function Digits(n: nat): (s: string)
    ensures |s| > 0 && AllDigits(s)
    ensures DecimalValue(s) == n
    ensures |s| > 1 ==> s[0] != '0'
  {
    if n < 10 then [DigitChar(n)]
    else
      var prefix := Digits(n / 10);
      var s := prefix + [DigitChar(n % 10)];
      assert s[..|s| - 1] == prefix;
      s
  }

  /** strconv.Itoa: decimal digits, with a leading '-' for a negative value. */
  function Itoa(n: int): (s: string)
    ensures |s| > 0
    ensures s[0] == '-' <==> n < 0
  {
    if n < 0 then "-" + Digits(-n) else Digits(n)
  }

  /**
   * The syntax Atoi accepts: one or more ASCII digits, possibly after a
   * single '+' or '-' (leading zeros allowed, no underscores, no spaces).
   */
  predicate DecimalSyntax(s: string) {
    || (|s| > 0 && AllDigits(s))
    || (|s| > 1 && (s[0] == '+' || s[0] == '-') && AllDigits(s[1..]))
  }

  /** The integer a text in DecimalSyntax denotes. */
  function DecimalReading(s: string): int
    requires DecimalSyntax(s)
  {
    if AllDigits(s) then DecimalValue(s) as int
    else if s[0] == '-' then 0 - DecimalValue(s[1..]) as int
    else DecimalValue(s[1..])
  }

  /**
   * strconv.Atoi: an optional '+' or '-', then one or more ASCII digits
   * (leading zeros allowed, no underscores), whose value fits in a 64-bit int.
   * A syntax error and a range error are both None.
   */
  function Atoi(s: string): (r: Option<int>)
    ensures r.Some? <==> DecimalSyntax(s) && MinInt64 <= DecimalReading(s) <= MaxInt64
    ensures r.Some? ==> r.value == DecimalReading(s)
    ensures r.Some? ==> (r.value < 0 ==> s[0] == '-')
  {
    if |s| == 0 then None
    else
      var signed := s[0] == '-' || s[0] == '+';
      var body := if signed then s[1..] else s;
      if |body| == 0 || !AllDigits(body) then None
      else
        var magnitude: int := DecimalValue(body);
        var v := if s[0] == '-' then -magnitude else magnitude;
        if MinInt64 <= v <= MaxInt64 then Some(v) else None
  }

  /** Atoi reads back every 64-bit value that Itoa writes. */
  lemma AtoiItoa(n: int)
    requires MinInt64 <= n <= MaxInt64
    ensures Atoi(Itoa(n)) == Some(n)
  {
    assert IsDigit(Itoa(n)[|Itoa(n)| - 1]);
    var s := Itoa(n);
    if n < 0 {
      assert s[1..] == Digits(-n);
    } else {
      assert s == Digits(n);
      assert IsDigit(s[0]);
    }
  }

  /** Distinct 64-bit values have distinct decimal renderings. */
  lemma ItoaInjective(a: int, b: int)
    requires MinInt64 <= a <= MaxInt64 && MinInt64 <= b <= MaxInt64
    requires Itoa(a) == Itoa(b)
    ensures a == b
  {
    AtoiItoa(a);
    AtoiItoa(b);
  }

  /**
   * strconv.ParseBool: exactly "1", "t", "T", "TRUE", "true", "True",
   * "0", "f", "F", "FALSE", "false" and "False" are accepted.
   */
  function ParseBool(s: string): (r: Option<bool>)
    ensures r.Some? <==> s in {"1", "t", "T", "TRUE", "true", "True", "0", "f", "F", "FALSE", "false", "False"}
    ensures r == Some(true) <==> s in {"1", "t", "T", "TRUE", "true", "True"}
    ensures r.Some? ==> |s| > 0 && (r.value <==> s[0] in {'1', 't', 'T'})
    ensures r.Some? ==> |s| in {1, 4, 5}
  {
    match s
    case "1" => Some(true)
    case "t" => Some(true)
    case "T" => Some(true)
    case "TRUE" => Some(true)
    case "true" => Some(true)
    case "True" => Some(true)
    case "0" => Some(false)
    case "f" => Some(false)
    case "F" => Some(false)
    case "FALSE" => Some(false)
    case "false" => Some(false)
    case "False" => Some(false)
    case _ => None
  }

  /** strconv.FormatBool, the inverse partner of ParseBool. */
  function FormatBool(b: bool): string {
    if b then "true" else "false"
  }

  /** Atoi accepts a leading '+' and leading zeros, and reads the digits after them. */
  lemma AtoiPlusAndLeadingZeros(n: nat, zeros: nat)
    requires n <= MaxInt64
    ensures Atoi("+" + Digits(n)) == Some(n)
    ensures Atoi(seq(zeros, _ => '0') + Digits(n)) == Some(n)
  {
    var p := "+" + Digits(n);
    assert p[1..] == Digits(n);
    assert !IsDigit(p[0]);
    var z := seq(zeros, _ => '0');
    LeadingZerosValue(z, Digits(n));
  }

  /** Zeros in front of a run of digits do not change its value. */
  lemma {:induction false} LeadingZerosValue(z: string, d: string)
    requires forall i :: 0 <= i < |z| ==> z[i] == '0'
    requires AllDigits(d)
    ensures AllDigits(z + d) && DecimalValue(z + d) == DecimalValue(d)
    decreases |d|
  {
    if d == [] {
      assert z + d == z;
      ZerosValue(z);
    } else {
      var init := d[..|d| - 1];
      assert (z + d)[..|z + d| - 1] == z + init;
      LeadingZerosValue(z, init);
    }
  }

  lemma {:induction false} ZerosValue(z: string)
    requires forall i :: 0 <= i < |z| ==> z[i] == '0'
    ensures AllDigits(z) && DecimalValue(z) == 0
  {
    if z != [] {
      ZerosValue(z[..|z| - 1]);
    }
  }

  lemma ParseBoolFormatBool(b: bool)
    ensures ParseBool(FormatBool(b)) == Some(b)
  {
  }
}
