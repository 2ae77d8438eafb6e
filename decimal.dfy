/** Go's strconv.Itoa and strconv.Atoi, the decimal text of the canary index that the
    client puts in the `id` query parameter and the server reads back. */
module Decimal {
  import opened Bytes

  const MinInt64: int := -0x8000_0000_0000_0000
  const MaxInt64: int := 0x7fff_ffff_ffff_ffff

  predicate IsDigit(c: byte) {
    48 <= c <= 57
  }

  predicate AllDigits(s: Str) {
    forall i :: 0 <= i < |s| ==> IsDigit(s[i])
  }

  /** The value of a string of decimal digits, read most significant digit first. */
  function DigitsValue(d: Str): nat
    requires AllDigits(d)
    decreases |d|
  {
    if |d| == 0 then 0 else DigitsValue(d[..|d| - 1]) * 10 + (d[|d| - 1] as int - 48)
  }

  /** The shortest decimal digits of n. */
  function NatDigits(n: nat): (s: Str)
    ensures |s| >= 1 && AllDigits(s)
    decreases n
  {
    if n < 10 then [(48 + n) as byte] else NatDigits(n / 10) + [(48 + n % 10) as byte]
  }

  /** strconv.Itoa */
  function Itoa(n: int): (s: Str)
    ensures |s| >= 1
    ensures n >= 0 ==> AllDigits(s)
    ensures n < 0 ==> s[0] == 45 && AllDigits(s[1..])
  {
    if n < 0 then [45] + NatDigits(-n) else NatDigits(n)
  }

  /** strconv.Atoi: an optional '+' or '-', then at least one decimal digit, and a value
      within the range of Go's 64-bit int; None for the syntax and range errors. */
  function Atoi(s: Str): (r: Option<int>)
    ensures r.Some? ==> MinInt64 <= r.value <= MaxInt64
  {
    var signed := |s| > 0 && (s[0] == 45 || s[0] == 43);
    var digits := if signed then s[1..] else s;
    if |digits| == 0 || !AllDigits(digits) then None
    else
      var v: int := if signed && s[0] == 45 then 0 - DigitsValue(digits) as int else DigitsValue(digits);
      if v < MinInt64 || v > MaxInt64 then None else Some(v)
  }

  lemma {:induction false} DigitsRoundTrip(n: nat)
    ensures DigitsValue(NatDigits(n)) == n
    decreases n
  {
    if n >= 10 {
      DigitsRoundTrip(n / 10);
      var d := NatDigits(n);
      assert d[..|d| - 1] == NatDigits(n / 10);
    }
  }

  /** Atoi reads back every int that Itoa writes. */
  lemma AtoiItoa(n: int)
    requires MinInt64 <= n <= MaxInt64
    ensures Atoi(Itoa(n)) == Some(n)
  {
    var s := Itoa(n);
    if n < 0 {
      assert s[1..] == NatDigits(-n);
      DigitsRoundTrip(-n);
    } else {
      DigitsRoundTrip(n);
    }
  }
}
