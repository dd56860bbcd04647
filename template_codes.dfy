/**
 * Template codes: `"TPL" + templateSequence.incrementAndGet()`, the decimal
 * rendering of a counter that starts at 1000, so the first code is "TPL1001".
 * A code can be read back to its number, which is what makes codes unique.
 */
module TemplateCodes {

  /** The counter's value before the first template is applied. */
  const InitialSequence: nat := 1000

  const Prefix: string := "TPL"

  predicate IsDigit(c: char) {
    '0' <= c <= '9'
  }

  predicate AllDigits(s: string) {
    forall i :: 0 <= i < |s| ==> IsDigit(s[i])
  }

  function DigitChar(d: nat): (c: char)
    requires d < 10
    ensures IsDigit(c) && (c as int) - ('0' as int) == d
  {
    ('0' as int + d) as char
  }

  function DigitValue(c: char): (d: nat)
    requires IsDigit(c)
    ensures d < 10
  {
    (c as int) - ('0' as int)
  }

  /** Java's `Integer.toString` for a non-negative value: no sign, no leading zero. */
  function Decimal(n: nat): (s: string)
    ensures |s| >= 1 && AllDigits(s)
    ensures |s| > 1 ==> s[0] != '0'
  {
    if n < 10 then [DigitChar(n)] else Decimal(n / 10) + [DigitChar(n % 10)]
  }

  /** Reads a string of digits as a decimal number. */
  function ParseDecimal(s: string): nat
    requires AllDigits(s)
  {
    if s == [] then 0 else ParseDecimal(s[..|s| - 1]) * 10 + DigitValue(s[|s| - 1])
  }

  /** Reading back a rendered number gives the number. */
  lemma {:induction false} ParseDecimalOfDecimal(n: nat)
    ensures ParseDecimal(Decimal(n)) == n
  {
    var s := Decimal(n);
    if n < 10 {
      assert s[..|s| - 1] == [];
    } else {
      assert s[..|s| - 1] == Decimal(n / 10);
      ParseDecimalOfDecimal(n / 10);
    }
  }

  /** The code the tool issues for counter value `n`. */
  function TemplateCode(n: nat): (code: string)
    ensures |code| > |Prefix| && code[..|Prefix|] == Prefix
    ensures code[|Prefix|..] == Decimal(n)
  {
    Prefix + Decimal(n)
  }

  /** `code` is one the counter has issued by the time it reached `bound`. */
  predicate IsIssuedCode(code: string, bound: nat) {
    && |code| > |Prefix|
    && code[..|Prefix|] == Prefix
    && AllDigits(code[|Prefix|..])
    && InitialSequence < ParseDecimal(code[|Prefix|..]) <= bound
  }

  /** Distinct counter values give distinct codes. */
  lemma TemplateCodeInjective(m: nat, n: nat)
    requires TemplateCode(m) == TemplateCode(n)
    ensures m == n
  {
    ParseDecimalOfDecimal(m);
    ParseDecimalOfDecimal(n);
  }

  /**
   * The code for counter value `n` counts as issued once the counter reaches
   * `n`, and is not among the codes issued while it was still below `n`.
   */
  lemma TemplateCodeFresh(n: nat, bound: nat)
    requires InitialSequence < n
    ensures IsIssuedCode(TemplateCode(n), n)
    ensures bound < n ==> !IsIssuedCode(TemplateCode(n), bound)
  {
    ParseDecimalOfDecimal(n);
  }
}
