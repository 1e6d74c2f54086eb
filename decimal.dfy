/** Decimal rendering of a build's index, as JavaScript's `'dist-' + i`
    produces it, with its inverse. */
module Decimal {

  function DigitChar(d: nat): (c: char)
    requires d < 10
    ensures '0' <= c <= '9'
  {
    "0123456789"[d]
  }

  function DigitValue(c: char): nat
  {
    if '0' <= c <= '9' then (c as int - '0' as int) else 0
  }

  lemma DigitRoundTrip(d: nat)
    requires d < 10
    ensures DigitValue(DigitChar(d)) == d
  {
  }

  predicate IsDigits(s: string) {
    forall i | 0 <= i < |s| :: '0' <= s[i] <= '9'
  }

  /** The shortest decimal text of `n` (no leading zeros). */
  function DecimalText(n: nat): (s: string)
    ensures |s| >= 1 && IsDigits(s)
  {
    if n < 10 then [DigitChar(n)] else DecimalText(n / 10) + [DigitChar(n % 10)]
  }

  /** Reads a digit string most-significant digit first. */
  function ParseDecimal(s: string): nat
  {
    if s == [] then 0 else 10 * ParseDecimal(s[..|s| - 1]) + DigitValue(s[|s| - 1])
  }

  lemma {:induction false} ParseDecimalText(n: nat)
    ensures ParseDecimal(DecimalText(n)) == n
  {
    if n < 10 {
      DigitRoundTrip(n);
      assert DecimalText(n)[..0] == [];
    } else {
      var s := DecimalText(n);
      assert s[..|s| - 1] == DecimalText(n / 10);
      ParseDecimalText(n / 10);
      DigitRoundTrip(n % 10);
    }
  }

  /** Different indices give different texts, so default output
      directories never collide. */
  lemma DecimalTextInjective(i: nat, j: nat)
    requires i != j
    ensures DecimalText(i) != DecimalText(j)
  {
    ParseDecimalText(i);
    ParseDecimalText(j);
  }
}
