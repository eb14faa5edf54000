/**
 * Decimal rendering of natural numbers, as Rust's `format!("{i}")` writes a `usize`,
 * together with its inverse. The emitted parameter names `arg{i}` and the conversion
 * messages `#{i}` are built from it.
 */
module Decimal {

  predicate IsDigit(c: char) {
    '0' <= c <= '9'
  }

  predicate AllDigits(s: string) {
    forall k :: 0 <= k < |s| ==> IsDigit(s[k])
  }

  function DigitChar(d: nat): (c: char)
    requires d < 10
    ensures IsDigit(c)
    ensures (c as int) - ('0' as int) == d
  {
    (('0' as int) + d) as char
  }

  /** The shortest decimal numeral of `n`, most significant digit first. */
  function Show(n: nat): (s: string)
    ensures 1 <= |s|
    ensures AllDigits(s)
    ensures |s| == 1 <==> n < 10
    ensures s[0] == '0' ==> n == 0
    ensures |s| > 1 ==> s[0] != '0'
    decreases n
  {
    if n < 10 then [DigitChar(n)] else Show(n / 10) + [DigitChar(n % 10)]
  }

  /** Reads a numeral back; the inverse of Show. */
  function Parse(s: string): nat
    requires AllDigits(s)
    decreases |s|
  {
    if s == [] then 0
    else Parse(s[..|s| - 1]) * 10 + ((s[|s| - 1] as int) - ('0' as int))
  }

  lemma {:induction false} ParseShow(n: nat)
    ensures Parse(Show(n)) == n
    decreases n
  {
    if n >= 10 {
      var s := Show(n);
      assert s[..|s| - 1] == Show(n / 10);
      ParseShow(n / 10);
    }
  }

  /** Distinct numbers have distinct numerals. */
  lemma ShowInjective(a: nat, b: nat)
    ensures Show(a) == Show(b) ==> a == b
  {
    ParseShow(a);
    ParseShow(b);
  }
}
