/** The modulo-11 check-digit arithmetic of Brazilian CPF and CNPJ numbers as
    `DataGenerator` computes it (weights counted down, remainder taken with
    Java's `%`), and the textbook validation rule of the Receita Federal it is
    meant to satisfy. */
module CheckDigits {

  /** `cpfSize()`: the length of a CPF, also used as the modulus of the rule. */
  const CpfSize: int := 11

  /** Java's `%` on `int`: truncates toward zero, so the remainder has the sign of `a`. */
  function JavaRem(a: int, b: int): (r: int)
    requires b > 0
    ensures -b < r < b
    ensures a >= 0 ==> r == a % b
    ensures a < 0 ==> r <= 0
  {
    if a >= 0 then a % b else -((-a) % b)
  }

  /** Every element is a decimal digit. */
  predicate IsDigitSeq(s: seq<int>) {
    forall i :: 0 <= i < |s| ==> 0 <= s[i] <= 9
  }

  /** The weighted sum of `ds` under weights `ws`, accumulated left to right. */
  function Dot(ds: seq<int>, ws: seq<int>): int
    requires |ds| == |ws|
  {
    if |ds| == 0 then 0
    else Dot(ds[..|ds| - 1], ws[..|ws| - 1]) + ds[|ds| - 1] * ws[|ws| - 1]
  }

  /** Weights of `gerarDigito` over `n` digits: `n + 1` down to 2. */
  function CpfWeights(n: nat): seq<int> {
    seq(n, i => n + 1 - i)
  }

  /** The weight `geradorDigitoCNPJ` gives position `i` of an `n`-digit base:
      it counts down from 5 (12 digits) or 6 (any other size) and restarts at 9
      at the position that leaves exactly eight digits. */
  function CnpjWeight(n: nat, i: nat): int {
    if n >= 8 && i >= n - 8 then n + 1 - i
    else (if n == 12 then 5 else 6) - i
  }

  function CnpjWeights(n: nat): seq<int> {
    seq(n, i requires 0 <= i => CnpjWeight(n, i))
  }

  /** The digit appended by both generators for a weighted sum: 0 when the
      remainder modulo 11 is below 2, otherwise 11 minus the remainder. */
  function CheckDigit(sum: int): (d: int)
    ensures 0 <= d <= 9
    ensures d == 0 <==> JavaRem(sum, CpfSize) < 2
    ensures sum >= 0 && d != 0 ==> (sum + d) % 11 == 0
  {
    var r := JavaRem(sum, CpfSize);
    if r < 2 then 0 else CpfSize - r
  }

  function CpfCheckDigit(ds: seq<int>): int {
    CheckDigit(Dot(ds, CpfWeights(|ds|)))
  }

  function CnpjCheckDigit(ds: seq<int>): int {
    CheckDigit(Dot(ds, CnpjWeights(|ds|)))
  }

  // ---------------------------------------------------------------------
  // The Receita Federal validation rule, stated independently of the code.
  // ---------------------------------------------------------------------

  const CpfFirstWeights: seq<int> := [10, 9, 8, 7, 6, 5, 4, 3, 2]
  const CpfSecondWeights: seq<int> := [11, 10, 9, 8, 7, 6, 5, 4, 3, 2]
  const CnpjFirstWeights: seq<int> := [5, 4, 3, 2, 9, 8, 7, 6, 5, 4, 3, 2]
  const CnpjSecondWeights: seq<int> := [6, 5, 4, 3, 2, 9, 8, 7, 6, 5, 4, 3, 2]

  /** The check digit a validator expects for a weighted sum: ten times the
      sum, modulo 11, modulo 10. */
  function ExpectedDigit(sum: int): int {
    sum * 10 % 11 % 10
  }

  predicate IsValidCpf(c: seq<int>) {
    && |c| == 11
    && IsDigitSeq(c)
    && c[9] == ExpectedDigit(Dot(c[..9], CpfFirstWeights))
    && c[10] == ExpectedDigit(Dot(c[..10], CpfSecondWeights))
  }

  predicate IsValidCnpj(c: seq<int>) {
    && |c| == 14
    && IsDigitSeq(c)
    && c[12] == ExpectedDigit(Dot(c[..12], CnpjFirstWeights))
    && c[13] == ExpectedDigit(Dot(c[..13], CnpjSecondWeights))
  }

  // ---------------------------------------------------------------------
  // Lemmas
  // ---------------------------------------------------------------------

  /** The generator's branching rule and the validator's formula agree on
      every non-negative sum. */
  lemma CheckDigitIsExpected(sum: int)
    requires sum >= 0
    ensures CheckDigit(sum) == ExpectedDigit(sum)
  {
  }

  lemma {:induction false} DotNonNegative(ds: seq<int>, ws: seq<int>)
    requires |ds| == |ws|
    requires forall i :: 0 <= i < |ds| ==> ds[i] >= 0 && ws[i] >= 0
    ensures Dot(ds, ws) >= 0
  {
    if |ds| > 0 {
      DotNonNegative(ds[..|ds| - 1], ws[..|ws| - 1]);
    }
  }

  /** Extending both sequences by one position adds one product to the sum. */
  lemma DotExtend(ds: seq<int>, ws: seq<int>, i: nat)
    requires |ds| == |ws| && i < |ds|
    ensures Dot(ds[..i + 1], ws[..i + 1]) == Dot(ds[..i], ws[..i]) + ds[i] * ws[i]
  {
    assert ds[..i + 1][..i] == ds[..i];
    assert ws[..i + 1][..i] == ws[..i];
  }

  /** The CPF weights of the code are the validator's weights. */
  lemma CpfWeightsAreStandard()
    ensures CpfWeights(9) == CpfFirstWeights
    ensures CpfWeights(10) == CpfSecondWeights
  {
  }

  /** The CNPJ weights of the code are the validator's weights. */
  lemma CnpjWeightsAreStandard()
    ensures CnpjWeights(12) == CnpjFirstWeights
    ensures CnpjWeights(13) == CnpjSecondWeights
  {
  }
}
