/** Unsigned 128-bit integers and their decimal text form: `u128::from_str`
    (the parser the dispatch applies to every proto coin amount) and the
    decimal rendering `Uint128::to_string` that produces such amounts. */
module Uint128 {
  import opened Basics

  const LIMIT: nat := 0x1_0000_0000_0000_0000_0000_0000_0000_0000

  type u128 = n: nat | n < LIMIT

  /** The kinds of `ParseIntError` that parsing an unsigned integer can report. */
  datatype IntErrorKind = Empty | InvalidDigit | PosOverflow

  predicate IsDigit(c: char) {
    '0' <= c <= '9'
  }

  function DigitValue(c: char): (d: nat)
    requires IsDigit(c)
    ensures d < 10
  {
    c as int - '0' as int
  }

  function DigitChar(d: nat): (c: char)
    requires d < 10
    ensures IsDigit(c) && DigitValue(c) == d
  {
    ('0' as int + d) as char
  }

  predicate AllDigits(ds: string) {
    forall i :: 0 <= i < |ds| ==> IsDigit(ds[i])
  }

  /** The number a string of decimal digits denotes, read positionally:
      the last digit is the units. */
  function DecimalValue(ds: string): nat
    requires AllDigits(ds)
  {
    if |ds| == 0 then 0 else DecimalValue(ds[..|ds| - 1]) * 10 + DigitValue(ds[|ds| - 1])
  }

  /** The digits of a literal: an unsigned parse accepts one leading '+'. */
  function Digits(s: string): string {
    if |s| > 0 && s[0] == '+' then s[1..] else s
  }

  /** A valid unsigned 128-bit decimal literal: an optional '+', then at least
      one decimal digit, denoting a number below 2^128. Leading zeros are fine. */
  predicate IsU128Literal(s: string) {
    var ds := Digits(s);
    |ds| > 0 && AllDigits(ds) && DecimalValue(ds) < LIMIT
  }

  function LiteralValue(s: string): u128
    requires IsU128Literal(s)
  {
    DecimalValue(Digits(s))
  }

  /** `u128::from_str`: a lone sign is an invalid digit, '-' is never accepted,
      and the digits are consumed left to right with checked arithmetic. */
  function ParseU128(s: string): (r: Result<u128, IntErrorKind>)
    ensures r.Success? <==> IsU128Literal(s)
    ensures r.Success? ==> IsU128Literal(s) && r.value == LiteralValue(s)
    ensures r == Failure(Empty) <==> s == ""
  {
    if |s| == 0 then Failure(Empty)
    else if |s| == 1 && (s[0] == '+' || s[0] == '-') then Failure(InvalidDigit)
    else
      var ds := Digits(s);
      if AllDigits(ds) then FoldIsDecimalValue(ds); Accumulate(ds, 0)
      else Accumulate(ds, 0)
  }

  /** The digit loop of the parser: multiply by ten, add the digit, and stop
      at the first character that is not a digit or the first overflow. It
      succeeds exactly on a digit string whose value fits, with that value,
      and never reports an empty input. */
  function Accumulate(ds: string, acc: u128): (r: Result<u128, IntErrorKind>)
    ensures r.Success? <==> AllDigits(ds) && FoldDigits(acc, ds) < LIMIT
    ensures r.Success? ==> AllDigits(ds) && r.value == FoldDigits(acc, ds)
    ensures r != Failure(Empty)
    decreases |ds|
  {
    if |ds| == 0 then Success(acc)
    else
      DigitsSplit(ds);
      if !IsDigit(ds[0]) then Failure(InvalidDigit)
      else
        var next := acc * 10 + DigitValue(ds[0]);
        if next >= LIMIT then
          if AllDigits(ds) then FoldGrows(next, ds[1..]); Failure(PosOverflow)
          else Failure(PosOverflow)
        else Accumulate(ds[1..], next)
  }

  lemma DigitsSplit(ds: string)
    requires |ds| > 0
    ensures AllDigits(ds) <==> IsDigit(ds[0]) && AllDigits(ds[1..])
  {
    assert forall i :: 0 < i < |ds| ==> ds[1..][i - 1] == ds[i];
  }

  /** What the digit loop computes when nothing stops it. */
  function FoldDigits(acc: nat, ds: string): nat
    requires AllDigits(ds)
    decreases |ds|
  {
    if |ds| == 0 then acc else FoldDigits(acc * 10 + DigitValue(ds[0]), ds[1..])
  }

  lemma {:induction false} FoldGrows(acc: nat, ds: string)
    requires AllDigits(ds)
    ensures FoldDigits(acc, ds) >= acc
    decreases |ds|
  {
    if |ds| > 0 {
      FoldGrows(acc * 10 + DigitValue(ds[0]), ds[1..]);
    }
  }

  lemma {:induction false} FoldSnoc(acc: nat, ds: string, c: char)
    requires AllDigits(ds) && IsDigit(c)
    ensures AllDigits(ds + [c])
    ensures FoldDigits(acc, ds + [c]) == FoldDigits(acc, ds) * 10 + DigitValue(c)
    decreases |ds|
  {
    if |ds| == 0 {
      assert ds + [c] == [c];
      assert [c][1..] == [];
    } else {
      assert (ds + [c])[1..] == ds[1..] + [c];
      FoldSnoc(acc * 10 + DigitValue(ds[0]), ds[1..], c);
    }
  }

  lemma {:induction false} FoldIsDecimalValue(ds: string)
    requires AllDigits(ds)
    ensures FoldDigits(0, ds) == DecimalValue(ds)
    decreases |ds|
  {
    if |ds| > 0 {
      var init := ds[..|ds| - 1];
      FoldIsDecimalValue(init);
      FoldSnoc(0, init, ds[|ds| - 1]);
      assert init + [ds[|ds| - 1]] == ds;
    }
  }

  /** `Uint128::to_string`: the shortest decimal rendering, no sign. */
  function Decimal(n: nat): string
  {
    if n < 10 then [DigitChar(n)] else Decimal(n / 10) + [DigitChar(n % 10)]
  }

  lemma {:induction false} DecimalDigits(n: nat)
    ensures |Decimal(n)| > 0 && AllDigits(Decimal(n))
    ensures DecimalValue(Decimal(n)) == n
  {
    var s := Decimal(n);
    if n < 10 {
      assert s[..0] == [];
    } else {
      DecimalDigits(n / 10);
      assert s[..|s| - 1] == Decimal(n / 10);
    }
  }

  /** Rendering a 128-bit amount and parsing it back gives the amount. */
  lemma DecimalRoundTrip(n: u128)
    ensures ParseU128(Decimal(n)) == Success(n)
  {
    DecimalDigits(n);
    assert Digits(Decimal(n)) == Decimal(n);
  }
}
