/** Option type for results that may be absent (a bus read that failed). */
module Wrappers {
  datatype Option<T> = None | Some(value: T)
}

/** Decimal rendering of unsigned numbers, as Arduino's `String(n)` produces it,
    and a parser that undoes it. */
module Text {

  predicate IsDigit(c: char) {
    '0' <= c <= '9'
  }

  function Digit(d: nat): (c: char)
    requires d < 10
    ensures IsDigit(c) && (c as int) - ('0' as int) == d
  {
    ('0' as int + d) as char
  }

  function DigitValue(c: char): nat
    requires IsDigit(c)
  {
    (c as int) - ('0' as int)
  }

  /** The decimal text of `n`, most significant digit first, without leading zeros. */
  function DecimalString(n: nat): (s: string)
    ensures |s| >= 1
    ensures forall i :: 0 <= i < |s| ==> IsDigit(s[i])
    ensures |s| > 1 ==> s[0] != '0'
    decreases n
  {
    if n < 10 then [Digit(n)] else DecimalString(n / 10) + [Digit(n % 10)]
  }

  /** The value of a string of decimal digits (the inverse of DecimalString). */
  function ParseDecimal(s: string): nat
    requires forall i :: 0 <= i < |s| ==> IsDigit(s[i])
    decreases |s|
  {
    if s == [] then 0
    else ParseDecimal(s[..|s| - 1]) * 10 + DigitValue(s[|s| - 1])
  }

  /** Reading back the decimal text of a number gives the number. */
  lemma {:induction false} ParseDecimalString(n: nat)
    ensures ParseDecimal(DecimalString(n)) == n
    decreases n
  {
    if n >= 10 {
      var s := DecimalString(n / 10);
      var t := s + [Digit(n % 10)];
      assert t[..|t| - 1] == s;
      ParseDecimalString(n / 10);
    }
  }

  /** Two numbers with the same decimal text are equal. */
  lemma DecimalStringInjective(m: nat, n: nat)
    requires DecimalString(m) == DecimalString(n)
    ensures m == n
  {
    ParseDecimalString(m);
    ParseDecimalString(n);
  }

  /** Only zero is written "0". */
  lemma DecimalStringZero(n: nat)
    ensures DecimalString(n) == "0" <==> n == 0
  {
    if DecimalString(n) == "0" {
      DecimalStringInjective(n, 0);
    }
  }

  /** `parts` joined with ", " between neighbours. */
  function JoinComma(parts: seq<string>): string {
    if parts == [] then []
    else if |parts| == 1 then parts[0]
    else JoinComma(parts[..|parts| - 1]) + ", " + parts[|parts| - 1]
  }

  /** Appending one more part: the separator goes in only after the first part,
      as the firmware's `first` flag arranges. */
  lemma JoinCommaSnoc(parts: seq<string>, x: string)
    ensures JoinComma(parts + [x]) == if parts == [] then x else JoinComma(parts) + ", " + x
  {
    assert (parts + [x])[..|parts|] == parts;
  }
}
