/**
 * Decimal rendering of unsigned integers, as Rust's `Display` for them
 * (`to_string`), together with the parser that inverts it.
 */
module Decimal {
  import opened Wrappers

  predicate IsDigit(c: char) {
    '0' <= c <= '9'
  }

  predicate AllDigits(s: string) {
    forall i :: 0 <= i < |s| ==> IsDigit(s[i])
  }

  /** The decimal form `Display` produces: non-empty, digits only, no leading zero. */
  predicate IsCanonical(s: string) {
    && |s| > 0
    && AllDigits(s)
    && (|s| > 1 ==> s[0] != '0')
  }

  function DigitValue(c: char): (d: nat)
    requires IsDigit(c)
    ensures d < 10
  {
    (c as int) - ('0' as int)
  }

  function DigitChar(d: nat): (c: char)
    requires d < 10
    ensures IsDigit(c) && DigitValue(c) == d
  {
    (('0' as int) + d) as char
  }

  /** The decimal rendering of `n`, most significant digit first. */
  function Show(n: nat): (s: string)
    ensures |s| > 0 && AllDigits(s)
    ensures s[0] == '0' ==> n == 0
    decreases n
  {
    if n < 10 then [DigitChar(n)] else Show(n / 10) + [DigitChar(n % 10)]
  }

  /** The number a string of digits denotes. */
  function Value(s: string): nat
    requires AllDigits(s)
  {
    if |s| == 0 then 0 else Value(s[..|s| - 1]) * 10 + DigitValue(s[|s| - 1])
  }

  /** Reads back a rendered number; anything `Show` cannot produce is refused. */
  function Parse(s: string): (r: Option<nat>)
    ensures r.Some? <==> IsCanonical(s)
  {
    if IsCanonical(s) then Some(Value(s)) else None
  }

  lemma ShowIsCanonical(n: nat)
    ensures IsCanonical(Show(n))
  {
  }

  lemma {:induction false} ValueOfShow(n: nat)
    ensures Value(Show(n)) == n
    decreases n
  {
    if n >= 10 {
      var s := Show(n);
      assert s[..|s| - 1] == Show(n / 10);
      ValueOfShow(n / 10);
    }
  }

  /** A non-empty digit string whose first digit is not zero denotes a positive number. */
  lemma {:induction false} ValuePositive(s: string)
    requires |s| > 0 && AllDigits(s) && s[0] != '0'
    ensures Value(s) > 0
    decreases |s|
  {
    if |s| > 1 {
      ValuePositive(s[..|s| - 1]);
    }
  }

  lemma {:induction false} ShowOfValue(s: string)
    requires IsCanonical(s)
    ensures Show(Value(s)) == s
    decreases |s|
  {
    if |s| > 1 {
      var prefix := s[..|s| - 1];
      var last := s[|s| - 1];
      ValuePositive(prefix);
      assert Value(s) / 10 == Value(prefix);
      assert Value(s) % 10 == DigitValue(last);
      ShowOfValue(prefix);
      assert DigitChar(DigitValue(last)) == last;
      assert prefix + [last] == s;
    } else {
      assert DigitChar(DigitValue(s[0])) == s[0];
    }
  }

  lemma ShowInjective(m: nat, n: nat)
    requires Show(m) == Show(n)
    ensures m == n
  {
    ValueOfShow(m);
    ValueOfShow(n);
  }

  /** `Parse` and `Show` are inverse bijections between naturals and canonical strings. */
  lemma ParseIffShow(s: string, n: nat)
    ensures Parse(s) == Some(n) <==> s == Show(n)
  {
    if s == Show(n) {
      ShowIsCanonical(n);
      ValueOfShow(n);
    }
    if Parse(s) == Some(n) {
      ShowOfValue(s);
    }
  }
}
