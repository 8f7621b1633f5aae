/** Identifiers and node references are read with std::stoull into 64-bit
    unsigned integers.  This module models that conversion as a plain
    decimal-digit parser that fails on empty text, on any non-digit and on
    values that do not fit in 64 bits. */
module Numbers {
  import opened Wrappers

  /** 2^64: every identifier the parser produces is below it. */
  const U64Limit: nat := 0x1_0000_0000_0000_0000

  predicate IsDigit(c: char) {
    '0' <= c <= '9'
  }

  predicate AllDigits(s: string) {
    forall i :: 0 <= i < |s| ==> IsDigit(s[i])
  }

  function DigitValue(c: char): nat
    requires IsDigit(c)
  {
    c as int - '0' as int
  }

  function DigitChar(d: nat): char
    requires d < 10
  {
    ('0' as int + d) as char
  }

  /** The number a string of decimal digits denotes, most significant first. */
  function DecimalValue(s: string): nat
    requires AllDigits(s)
  {
    if s == [] then 0 else DecimalValue(s[..|s| - 1]) * 10 + DigitValue(s[|s| - 1])
  }

  /** The text to 64-bit unsigned conversion; None is the exception. */
  function ParseU64(s: string): (r: Option<nat>)
    ensures r.Some? ==> r.value < U64Limit && s != []
  {
    if s != [] && AllDigits(s) && DecimalValue(s) < U64Limit then Some(DecimalValue(s)) else None
  }

  /** The canonical decimal rendering of a number (no leading zeros). */
  function Decimal(n: nat): string
  {
    if n < 10 then [DigitChar(n)] else Decimal(n / 10) + [DigitChar(n % 10)]
  }

  lemma {:induction false} DecimalDenotes(n: nat)
    ensures AllDigits(Decimal(n)) && DecimalValue(Decimal(n)) == n
  {
    if n >= 10 {
      DecimalDenotes(n / 10);
      var s := Decimal(n);
      assert s[..|s| - 1] == Decimal(n / 10);
    }
  }

  /** Every 64-bit value survives rendering and re-parsing. */
  lemma ParseDecimalRoundTrip(n: nat)
    requires n < U64Limit
    ensures ParseU64(Decimal(n)) == Some(n)
  {
    DecimalDenotes(n);
  }

  /** Text holding a non-digit is rejected (the "abc" identifier case). */
  lemma ParseRejectsNonDigit(s: string, i: nat)
    requires i < |s| && !IsDigit(s[i])
    ensures ParseU64(s) == None
  {
  }
}
