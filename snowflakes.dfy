// Snowflake IDs (unsigned 64-bit integers) and the decimal conversions of Go's strconv
// package that the model uses: FormatUint/FormatInt/Itoa, ParseUint(s, 10, 64) (which is
// what snowflake.Parse does) and ParseInt(s, 10, 64).
module Snowflakes {
  import opened Wrappers

  const Uint64Limit: int := 0x1_0000_0000_0000_0000
  const Int64Min: int := -0x8000_0000_0000_0000
  const Int64Max: int := 0x7FFF_FFFF_FFFF_FFFF

  /** snowflake.ID: a uint64. */
  type ID = x: int | 0 <= x < 0x1_0000_0000_0000_0000

  predicate IsDigit(c: char) { '0' <= c <= '9' }

  predicate AllDigits(s: string) { forall i :: 0 <= i < |s| ==> IsDigit(s[i]) }

  function DigitChar(d: nat): (c: char)
    requires d < 10
    ensures IsDigit(c) && c as int - '0' as int == d
  {
    ('0' as int + d) as char
  }

  function DigitValue(c: char): nat
    requires IsDigit(c)
  {
    c as int - '0' as int
  }

  /** The canonical decimal text of a natural number, as strconv.FormatUint(n, 10) writes it. */
  function DecimalString(n: nat): string
    decreases n
  {
    if n < 10 then [DigitChar(n)] else DecimalString(n / 10) + [DigitChar(n % 10)]
  }

  /** The value of a string of decimal digits (leading zeros allowed). */
  function DigitsValue(s: string): nat
    requires AllDigits(s)
    decreases |s|
  {
    if s == [] then 0 else DigitsValue(s[..|s| - 1]) * 10 + DigitValue(s[|s| - 1])
  }

  /** Decimal text is non-empty, all digits, without a leading zero, and denotes n. */
  lemma {:induction false} DecimalStringDenotes(n: nat)
    ensures |DecimalString(n)| > 0 && AllDigits(DecimalString(n))
    ensures DigitsValue(DecimalString(n)) == n
    ensures DecimalString(n)[0] == '0' <==> n == 0
    decreases n
  {
    if n >= 10 {
      DecimalStringDenotes(n / 10);
      var s := DecimalString(n);
      assert s[..|s| - 1] == DecimalString(n / 10);
    }
  }

  /** strconv.ParseUint(s, 10, 64): digits only (no sign, prefix or underscore), at least one, value below 2^64. */
  function ParseUint64(s: string): (r: Result<ID>)
    ensures r.Ok? <==> |s| > 0 && AllDigits(s) && DigitsValue(s) < Uint64Limit
    ensures r.Ok? ==> r.value == DigitsValue(s)
  {
    if |s| == 0 then Err("strconv.ParseUint: parsing \"\": invalid syntax")
    else if !AllDigits(s) then Err("strconv.ParseUint: invalid syntax")
    else if DigitsValue(s) >= Uint64Limit then Err("strconv.ParseUint: value out of range")
    else Ok(DigitsValue(s) as ID)
  }

  /** snowflake.Parse: an ID is written as unsigned decimal digits, and only such text parses. */
  function ParseID(s: string): (r: Result<ID>)
    ensures r.Ok? <==> |s| > 0 && AllDigits(s) && DigitsValue(s) < Uint64Limit
    ensures r.Ok? ==> r.value == DigitsValue(s)
  {
    ParseUint64(s)
  }

  /** ID.String(): the decimal digits of the ID, without a leading zero unless the ID is 0. */
  function IDString(id: ID): (r: string)
    ensures |r| > 0 && AllDigits(r) && DigitsValue(r) == id
    ensures r[0] == '0' <==> id == 0
  {
    DecimalStringDenotes(id);
    DecimalString(id)
  }

  /** Formatting an ID and parsing the text back gives the same ID. */
  lemma ParseIDString(id: ID)
    ensures ParseID(IDString(id)) == Ok(id)
  {
    DecimalStringDenotes(id);
  }

  /** strconv.FormatInt(i, 10) and strconv.Itoa(i): a minus sign before the magnitude when negative. */
  function IntString(i: int): (r: string)
    ensures |r| > 0 && (r[0] == '-' <==> i < 0)
    ensures i >= 0 ==> AllDigits(r) && DigitsValue(r) == i
    ensures i < 0 ==> AllDigits(r[1..]) && DigitsValue(r[1..]) == -i
  {
    if i < 0 then
      DecimalStringDenotes(-i);
      assert ("-" + DecimalString(-i))[1..] == DecimalString(-i);
      "-" + DecimalString(-i)
    else
      DecimalStringDenotes(i);
      DecimalString(i)
  }

  /**
   * strconv.ParseInt(s, 10, 64): an optional '+' or '-' sign, then at least one digit;
   * the value must lie in the int64 range.
   */
  function ParseInt64(s: string): (r: Result<int>)
    ensures r.Ok? ==> Int64Min <= r.value <= Int64Max
    ensures r.Ok? ==> |s| > 0 && (s[0] == '-' ==> r.value <= 0) && (s[0] != '-' ==> r.value >= 0)
    ensures |s| > 0 && AllDigits(s) && DigitsValue(s) <= Int64Max ==> r == Ok(DigitsValue(s))
    ensures |s| > 0 && s[0] != '-' && s[0] != '+' && !AllDigits(s) ==> r.Err?
  {
    if |s| == 0 then Err("strconv.ParseInt: parsing \"\": invalid syntax")
    else
      var neg := s[0] == '-';
      var digits := if s[0] == '-' || s[0] == '+' then s[1..] else s;
      if |digits| == 0 || !AllDigits(digits) then Err("strconv.ParseInt: invalid syntax")
      else
        var v: int := if neg then -(DigitsValue(digits) as int) else DigitsValue(digits);
        if v < Int64Min || v > Int64Max then Err("strconv.ParseInt: value out of range")
        else Ok(v)
  }

  /** Every int64 survives FormatInt followed by ParseInt. */
  lemma ParseIntString(i: int)
    requires Int64Min <= i <= Int64Max
    ensures ParseInt64(IntString(i)) == Ok(i)
  {
    if i < 0 {
      DecimalStringDenotes(-i);
      var s := IntString(i);
      assert s[1..] == DecimalString(-i);
    } else {
      DecimalStringDenotes(i);
    }
  }

  /** ParseInt accepts text with a sign or leading zeros; formatting the value again gives the canonical spelling. */
  lemma ParseIntCanonical(s: string)
    requires ParseInt64(s).Ok?
    ensures ParseInt64(IntString(ParseInt64(s).value)) == ParseInt64(s)
  {
    ParseIntString(ParseInt64(s).value);
  }
}
