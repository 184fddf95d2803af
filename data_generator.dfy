/** `DataGenerator`: builds random valid CPF (11 digits) and CNPJ (14 digits)
    numbers as lists of digits, appending modulo-11 check digits in place, and
    retries until the last digit is the one asked for.

    The digits `java.util.Random.nextInt(9)` would draw are parameters here:
    `draws` for one number, `attempts` for the successive numbers of a retry loop. */
module DataGenerator {
  import opened Wrappers
  import opened CheckDigits
  import opened JavaStrings

  /** A `java.util.ArrayList<Integer>` that the generators fill and extend. */
  class DigitList {
    var elems: seq<int>

    constructor ()
      ensures elems == []
    {
      elems := [];
    }

    /** `List.add`: appends at the end. */
    method Add(x: int)
      modifies this
      ensures elems == old(elems) + [x]
    {
      elems := elems + [x];
    }
  }

  /** `count` values as `nextInt(9)` returns them: each in 0..8. */
  predicate IsDraws(draws: seq<int>, count: nat) {
    |draws| == count && forall i :: 0 <= i < count ==> 0 <= draws[i] < 9
  }

  function LastDigit(ds: seq<int>): int
    requires |ds| > 0
  {
    ds[|ds| - 1]
  }

  // ---------------------------------------------------------------------
  // CPF
  // ---------------------------------------------------------------------

  /** The CPF that `gerarCPF` builds on a nine-digit base. */
  function CpfFromBase(base: seq<int>): seq<int> {
    var d1 := CpfCheckDigit(base);
    base + [d1, CpfCheckDigit(base + [d1])]
  }

  /** `gerarDigito`: appends to the list the check digit of the digits already
      in it, weighted from `size + 1` down to 2; nothing else in the list changes. */
  method GerarDigito(numbers: DigitList)
    modifies numbers
    ensures numbers.elems == old(numbers.elems) + [CpfCheckDigit(old(numbers.elems))]
  {
    var ds := numbers.elems;
    var n := |ds|;
    var contador := n + 1;
    var result := 0;
    var i := 0;
    while i < n
      invariant 0 <= i <= n
      invariant contador == n + 1 - i
      invariant result == Dot(ds[..i], CpfWeights(n)[..i])
      invariant numbers.elems == ds
    {
      DotExtend(ds, CpfWeights(n), i);
      result := result + ds[i] * contador;
      contador := contador - 1;
      i := i + 1;
    }
    assert ds[..n] == ds && CpfWeights(n)[..n] == CpfWeights(n);
    if JavaRem(result, CpfSize) < 2 {
      numbers.Add(0);
    } else {
      var sub := CpfSize - JavaRem(result, CpfSize);
      numbers.Add(sub);
    }
  }

  /** `gerarCPF`: nine drawn digits followed by their two check digits. */
  method GerarCpf(draws: seq<int>) returns (cpf: seq<int>)
    requires IsDraws(draws, 9)
    ensures |cpf| == 11 && cpf[..9] == draws
    ensures cpf[9] == CpfCheckDigit(cpf[..9])
    ensures cpf[10] == CpfCheckDigit(cpf[..10])
    ensures cpf == CpfFromBase(draws)
    ensures IsValidCpf(cpf)
  {
    var numbers := new DigitList();
    for i := 0 to 9
      invariant numbers.elems == draws[..i]
    {
      numbers.Add(draws[i]);
    }
    assert draws[..9] == draws;
    GerarDigito(numbers);
    GerarDigito(numbers);
    cpf := numbers.elems;
    assert cpf[..9] == draws && cpf[..10] == draws + [cpf[9]];
    CpfFromBaseIsValid(draws);
  }

  // ---------------------------------------------------------------------
  // CNPJ
  // ---------------------------------------------------------------------

  /** The twelve-digit base of `gerarCNPJ`: eight drawn digits, then the
      branch number 0001. */
  function CnpjBase(draws: seq<int>): seq<int> {
    draws + [0, 0, 0, 1]
  }

  /** The CNPJ that `gerarCNPJ` builds on a twelve-digit base. */
  function CnpjFromBase(base: seq<int>): seq<int> {
    var d1 := CnpjCheckDigit(base);
    base + [d1, CnpjCheckDigit(base + [d1])]
  }

  /** `geradorDigitoCNPJ`: appends the CNPJ check digit of the digits already in
      the list; nothing else in the list changes. */
  method GeradorDigitoCnpj(baseCnpj: DigitList)
    modifies baseCnpj
    ensures baseCnpj.elems == old(baseCnpj.elems) + [CnpjCheckDigit(old(baseCnpj.elems))]
  {
    var ds := baseCnpj.elems;
    var n := |ds|;
    var total := 0;
    var size := if n == 12 then 5 else 6;
    var i := 0;
    while i < n
      invariant 0 <= i <= n
      invariant size == if n >= 8 && i > n - 8 then n + 1 - i else (if n == 12 then 5 else 6) - i
      invariant total == Dot(ds[..i], CnpjWeights(n)[..i])
      invariant baseCnpj.elems == ds
    {
      if n - i == 8 {
        size := 9;
      }
      DotExtend(ds, CnpjWeights(n), i);
      total := total + ds[i] * size;
      size := size - 1;
      i := i + 1;
    }
    assert ds[..n] == ds && CnpjWeights(n)[..n] == CnpjWeights(n);
    if JavaRem(total, CpfSize) < 2 {
      baseCnpj.Add(0);
    } else {
      var sub := CpfSize - JavaRem(total, CpfSize);
      baseCnpj.Add(sub);
    }
  }

  /** `gerarCNPJ`: eight drawn digits, 0001, and two check digits. */
  method GerarCnpj(draws: seq<int>) returns (cnpj: seq<int>)
    requires IsDraws(draws, 8)
    ensures |cnpj| == 14 && cnpj[..8] == draws
    ensures cnpj[8] == 0 && cnpj[9] == 0 && cnpj[10] == 0 && cnpj[11] == 1
    ensures cnpj[12] == CnpjCheckDigit(cnpj[..12])
    ensures cnpj[13] == CnpjCheckDigit(cnpj[..13])
    ensures cnpj == CnpjFromBase(CnpjBase(draws))
    ensures IsValidCnpj(cnpj)
  {
    var numbers := new DigitList();
    for i := 0 to 12
      invariant numbers.elems == CnpjBase(draws)[..i]
    {
      if i == 11 {
        numbers.Add(1);
      } else if i > 7 {
        numbers.Add(0);
      } else {
        numbers.Add(draws[i]);
      }
    }
    assert CnpjBase(draws)[..12] == CnpjBase(draws);
    GeradorDigitoCnpj(numbers);
    GeradorDigitoCnpj(numbers);
    cnpj := numbers.elems;
    assert cnpj[..12] == CnpjBase(draws) && cnpj[..13] == CnpjBase(draws) + [cnpj[12]];
    assert cnpj[..8] == draws;
    CnpjFromBaseIsValid(CnpjBase(draws));
  }

  // ---------------------------------------------------------------------
  // Rendering and the retry loops
  // ---------------------------------------------------------------------

  /** The string built by appending each `Integer` of the list in turn. */
  function Render(ds: seq<int>): string {
    if ds == [] then "" else Render(ds[..|ds| - 1]) + IntToString(ds[|ds| - 1])
  }

  /** The `for` loop closing both retry methods: appends each digit of the
      list, in order, to an initially empty string. */
  method RenderList(ds: seq<int>) returns (s: string)
    ensures s == Render(ds)
    ensures IsDigitSeq(ds) ==> |s| == |ds| && forall i :: 0 <= i < |ds| ==> s[i] == DigitChar(ds[i])
  {
    s := "";
    for i := 0 to |ds|
      invariant s == Render(ds[..i])
    {
      assert ds[..i + 1][..i] == ds[..i];
      s := s + IntToString(ds[i]);
    }
    assert ds[..|ds|] == ds;
    if IsDigitSeq(ds) {
      RenderDigits(ds);
    }
  }

  /** `gerarCPFcomFinal`: draws CPFs until one ends in `digito`, then renders it.
      The Java loop draws forever; here it stops with `None` when `attempts`
      runs out, and what is proved holds whenever a string comes back. */
  method GerarCpfComFinal(digito: int, attempts: seq<seq<int>>) returns (r: Option<string>)
    requires forall k :: 0 <= k < |attempts| ==> IsDraws(attempts[k], 9)
    ensures r.Some? <==> exists k :: 0 <= k < |attempts| && LastDigit(CpfFromBase(attempts[k])) == digito
    ensures r.Some? ==> exists k :: 0 <= k < |attempts| && r.value == Render(CpfFromBase(attempts[k]))
                          && LastDigit(CpfFromBase(attempts[k])) == digito
                          && forall j :: 0 <= j < k ==> LastDigit(CpfFromBase(attempts[j])) != digito
    ensures r.Some? ==> 0 <= digito <= 9 && |r.value| == 11 && r.value[10] == DigitChar(digito)
    ensures r.Some? ==> exists c :: IsValidCpf(c) && r.value == Render(c)
  {
    if |attempts| == 0 {
      return None;
    }
    var k := 0;
    var cpf := GerarCpf(attempts[0]);
    while LastDigit(cpf) != digito
      invariant 0 <= k < |attempts|
      invariant cpf == CpfFromBase(attempts[k])
      invariant forall j :: 0 <= j < k ==> LastDigit(CpfFromBase(attempts[j])) != digito
      decreases |attempts| - k
    {
      if k + 1 == |attempts| {
        return None;
      }
      k := k + 1;
      cpf := GerarCpf(attempts[k]);
    }
    assert LastDigit(CpfFromBase(attempts[k])) == digito;
    CpfFromBaseIsValid(attempts[k]);
    var s := RenderList(cpf);
    r := Some(s);
  }

  /** `gerarCNPJcomFinal`: draws CNPJs until one ends in `digito`, then renders
      it; stops with `None` when `attempts` runs out. */
  method GerarCnpjComFinal(digito: int, attempts: seq<seq<int>>) returns (r: Option<string>)
    requires forall k :: 0 <= k < |attempts| ==> IsDraws(attempts[k], 8)
    ensures r.Some? <==> exists k :: 0 <= k < |attempts| && LastDigit(CnpjFromBase(CnpjBase(attempts[k]))) == digito
    ensures r.Some? ==> exists k :: 0 <= k < |attempts| && r.value == Render(CnpjFromBase(CnpjBase(attempts[k])))
                          && LastDigit(CnpjFromBase(CnpjBase(attempts[k]))) == digito
                          && forall j :: 0 <= j < k ==> LastDigit(CnpjFromBase(CnpjBase(attempts[j]))) != digito
    ensures r.Some? ==> 0 <= digito <= 9 && |r.value| == 14 && r.value[13] == DigitChar(digito)
    ensures r.Some? ==> exists c :: IsValidCnpj(c) && r.value == Render(c)
  {
    if |attempts| == 0 {
      return None;
    }
    var k := 0;
    var cnpj := GerarCnpj(attempts[0]);
    while LastDigit(cnpj) != digito
      invariant 0 <= k < |attempts|
      invariant cnpj == CnpjFromBase(CnpjBase(attempts[k]))
      invariant forall j :: 0 <= j < k ==> LastDigit(CnpjFromBase(CnpjBase(attempts[j]))) != digito
      decreases |attempts| - k
    {
      if k + 1 == |attempts| {
        return None;
      }
      k := k + 1;
      cnpj := GerarCnpj(attempts[k]);
    }
    assert LastDigit(CnpjFromBase(CnpjBase(attempts[k]))) == digito;
    CnpjFromBaseIsValid(CnpjBase(attempts[k]));
    var s := RenderList(cnpj);
    r := Some(s);
  }

  // ---------------------------------------------------------------------
  // Lemmas
  // ---------------------------------------------------------------------

  /** A CPF built on any nine-digit base passes the Receita Federal check. */
  lemma CpfFromBaseIsValid(base: seq<int>)
    requires |base| == 9 && IsDigitSeq(base)
    ensures IsValidCpf(CpfFromBase(base))
  {
    var c := CpfFromBase(base);
    var d1 := CpfCheckDigit(base);
    CpfWeightsAreStandard();
    assert c[..9] == base && c[..10] == base + [d1];
    DotNonNegative(base, CpfWeights(9));
    CheckDigitIsExpected(Dot(base, CpfWeights(9)));
    DotNonNegative(base + [d1], CpfWeights(10));
    CheckDigitIsExpected(Dot(base + [d1], CpfWeights(10)));
  }

  /** Conversely, a valid CPF is the one built on its first nine digits: the
      check digits admit no other choice. */
  lemma ValidCpfIsGenerated(c: seq<int>)
    requires IsValidCpf(c)
    ensures c == CpfFromBase(c[..9])
  {
    CpfWeightsAreStandard();
    DotNonNegative(c[..9], CpfWeights(9));
    CheckDigitIsExpected(Dot(c[..9], CpfWeights(9)));
    DotNonNegative(c[..10], CpfWeights(10));
    CheckDigitIsExpected(Dot(c[..10], CpfWeights(10)));
    assert c[..10] == c[..9] + [c[9]];
  }

  /** A CNPJ built on any twelve-digit base passes the Receita Federal check. */
  lemma CnpjFromBaseIsValid(base: seq<int>)
    requires |base| == 12 && IsDigitSeq(base)
    ensures IsValidCnpj(CnpjFromBase(base))
  {
    var c := CnpjFromBase(base);
    var d1 := CnpjCheckDigit(base);
    CnpjWeightsAreStandard();
    assert c[..12] == base && c[..13] == base + [d1];
    DotNonNegative(base, CnpjWeights(12));
    CheckDigitIsExpected(Dot(base, CnpjWeights(12)));
    DotNonNegative(base + [d1], CnpjWeights(13));
    CheckDigitIsExpected(Dot(base + [d1], CnpjWeights(13)));
  }

  /** Conversely, a valid CNPJ is the one built on its first twelve digits. */
  lemma ValidCnpjIsGenerated(c: seq<int>)
    requires IsValidCnpj(c)
    ensures c == CnpjFromBase(c[..12])
  {
    CnpjWeightsAreStandard();
    DotNonNegative(c[..12], CnpjWeights(12));
    CheckDigitIsExpected(Dot(c[..12], CnpjWeights(12)));
    DotNonNegative(c[..13], CnpjWeights(13));
    CheckDigitIsExpected(Dot(c[..13], CnpjWeights(13)));
    assert c[..13] == c[..12] + [c[12]];
  }

  /** Rendering a list of decimal digits gives one character per digit. */
  lemma {:induction false} RenderDigits(ds: seq<int>)
    requires IsDigitSeq(ds)
    ensures |Render(ds)| == |ds|
    ensures forall i :: 0 <= i < |ds| ==> Render(ds)[i] == DigitChar(ds[i])
  {
    if ds != [] {
      RenderDigits(ds[..|ds| - 1]);
    }
  }

  /** Every number either generator produces ends in a decimal digit, so a
      retry loop asked for any other final digit never stops. */
  lemma LastDigitIsDecimal(draws: seq<int>)
    ensures 0 <= LastDigit(CpfFromBase(draws)) <= 9
    ensures 0 <= LastDigit(CnpjFromBase(CnpjBase(draws))) <= 9
  {
  }

  /** A sum over a zero prefix is zero. */
  lemma {:induction false} DotZeroPrefix(ds: seq<int>, ws: seq<int>, k: nat)
    requires |ds| == |ws| && k <= |ds|
    requires forall i :: 0 <= i < k ==> ds[i] == 0
    ensures Dot(ds[..k], ws[..k]) == 0
  {
    if k > 0 {
      DotZeroPrefix(ds, ws, k - 1);
      DotExtend(ds, ws, k - 1);
    }
  }

  lemma CpfFirstSum(a: int, c: int)
    ensures Dot([0, 0, 0, 0, 0, 0, 0, a, c], CpfWeights(9)) == 3 * a + 2 * c
  {
    var b := [0, 0, 0, 0, 0, 0, 0, a, c];
    var w := CpfFirstWeights;
    CpfWeightsAreStandard();
    DotZeroPrefix(b, w, 7);
    DotExtend(b, w, 7);
    DotExtend(b, w, 8);
    assert b[..9] == b && w[..9] == w;
  }

  lemma CpfSecondSum(a: int, c: int, d1: int)
    ensures Dot([0, 0, 0, 0, 0, 0, 0, a, c, d1], CpfWeights(10)) == 4 * a + 3 * c + 2 * d1
  {
    var b := [0, 0, 0, 0, 0, 0, 0, a, c, d1];
    var w := CpfSecondWeights;
    CpfWeightsAreStandard();
    DotZeroPrefix(b, w, 7);
    DotExtend(b, w, 7);
    DotExtend(b, w, 8);
    DotExtend(b, w, 9);
    assert b[..10] == b && w[..10] == w;
  }

  /** The final CPF digit for a base whose only non-zero draws are the last two. */
  lemma CpfOnLastTwo(a: int, c: int)
    ensures LastDigit(CpfFromBase([0, 0, 0, 0, 0, 0, 0, a, c]))
              == CheckDigit(4 * a + 3 * c + 2 * CheckDigit(3 * a + 2 * c))
  {
    var b := [0, 0, 0, 0, 0, 0, 0, a, c];
    CpfFirstSum(a, c);
    var d1 := CpfCheckDigit(b);
    CpfSecondSum(a, c, d1);
    assert b + [d1] == [0, 0, 0, 0, 0, 0, 0, a, c, d1];
  }

  lemma CnpjFirstSum(a: int, c: int)
    ensures Dot([0, 0, 0, 0, 0, 0, a, c, 0, 0, 0, 1], CnpjWeights(12)) == 7 * a + 6 * c + 2
  {
    var b := [0, 0, 0, 0, 0, 0, a, c, 0, 0, 0, 1];
    var w := CnpjFirstWeights;
    CnpjWeightsAreStandard();
    DotZeroPrefix(b, w, 6);
    DotExtend(b, w, 6);
    DotExtend(b, w, 7);
    DotExtend(b, w, 8);
    DotExtend(b, w, 9);
    DotExtend(b, w, 10);
    DotExtend(b, w, 11);
    assert b[..12] == b && w[..12] == w;
  }

  lemma CnpjSecondSum(a: int, c: int, d1: int)
    ensures Dot([0, 0, 0, 0, 0, 0, a, c, 0, 0, 0, 1, d1], CnpjWeights(13)) == 8 * a + 7 * c + 3 + 2 * d1
  {
    var b := [0, 0, 0, 0, 0, 0, a, c, 0, 0, 0, 1, d1];
    var w := CnpjSecondWeights;
    CnpjWeightsAreStandard();
    DotZeroPrefix(b, w, 6);
    DotExtend(b, w, 6);
    DotExtend(b, w, 7);
    DotExtend(b, w, 8);
    DotExtend(b, w, 9);
    DotExtend(b, w, 10);
    DotExtend(b, w, 11);
    DotExtend(b, w, 12);
    assert b[..13] == b && w[..13] == w;
  }

  /** The final CNPJ digit for draws whose only non-zero values are the last two. */
  lemma CnpjOnLastTwo(a: int, c: int)
    ensures LastDigit(CnpjFromBase(CnpjBase([0, 0, 0, 0, 0, 0, a, c])))
              == CheckDigit(8 * a + 7 * c + 3 + 2 * CheckDigit(7 * a + 6 * c + 2))
  {
    var b := CnpjBase([0, 0, 0, 0, 0, 0, a, c]);
    assert b == [0, 0, 0, 0, 0, 0, a, c, 0, 0, 0, 1];
    CnpjFirstSum(a, c);
    var d1 := CnpjCheckDigit(b);
    CnpjSecondSum(a, c, d1);
    assert b + [d1] == [0, 0, 0, 0, 0, 0, a, c, 0, 0, 0, 1, d1];
  }

  /** Draws [0,…,0,a,c] witness the final CPF digit their formula gives. */
  lemma CpfWitness(a: int, c: int, d: int)
    requires 0 <= a < 9 && 0 <= c < 9
    requires CheckDigit(4 * a + 3 * c + 2 * CheckDigit(3 * a + 2 * c)) == d
    ensures exists b :: IsDraws(b, 9) && LastDigit(CpfFromBase(b)) == d
  {
    var b := [0, 0, 0, 0, 0, 0, 0, a, c];
    CpfOnLastTwo(a, c);
    assert IsDraws(b, 9) && LastDigit(CpfFromBase(b)) == d;
  }

  /** Draws [0,…,0,a,c] witness the final CNPJ digit their formula gives. */
  lemma CnpjWitness(a: int, c: int, d: int)
    requires 0 <= a < 9 && 0 <= c < 9
    requires CheckDigit(8 * a + 7 * c + 3 + 2 * CheckDigit(7 * a + 6 * c + 2)) == d
    ensures exists b :: IsDraws(b, 8) && LastDigit(CnpjFromBase(CnpjBase(b))) == d
  {
    var b := [0, 0, 0, 0, 0, 0, a, c];
    CnpjOnLastTwo(a, c);
    assert IsDraws(b, 8) && LastDigit(CnpjFromBase(CnpjBase(b))) == d;
  }

  /** Every final digit 0..9 ends some CPF built on draws in 0..8, so the CPF
      retry loop can stop for each digit it is documented to accept. */
  lemma CpfFinalDigitReachable(d: int)
    requires 0 <= d <= 9
    ensures exists b :: IsDraws(b, 9) && LastDigit(CpfFromBase(b)) == d
  {
    if d == 0 { CpfWitness(0, 0, 0); }
    else if d == 1 { CpfWitness(0, 1, 1); }
    else if d == 2 { CpfWitness(0, 2, 2); }
    else if d == 3 { CpfWitness(0, 3, 3); }
    else if d == 4 { CpfWitness(0, 4, 4); }
    else if d == 5 { CpfWitness(0, 5, 5); }
    else if d == 6 { CpfWitness(1, 4, 6); }
    else if d == 7 { CpfWitness(0, 7, 7); }
    else if d == 8 { CpfWitness(0, 8, 8); }
    else { CpfWitness(1, 7, 9); }
  }

  /** Every final digit 0..9 ends some CNPJ built on draws in 0..8. */
  lemma CnpjFinalDigitReachable(d: int)
    requires 0 <= d <= 9
    ensures exists b :: IsDraws(b, 8) && LastDigit(CnpjFromBase(CnpjBase(b))) == d
  {
    if d == 0 { CnpjWitness(0, 2, 0); }
    else if d == 1 { CnpjWitness(0, 0, 1); }
    else if d == 2 { CnpjWitness(1, 6, 2); }
    else if d == 3 { CnpjWitness(0, 7, 3); }
    else if d == 4 { CnpjWitness(0, 5, 4); }
    else if d == 5 { CnpjWitness(0, 3, 5); }
    else if d == 6 { CnpjWitness(0, 1, 6); }
    else if d == 7 { CnpjWitness(1, 0, 7); }
    else if d == 8 { CnpjWitness(0, 8, 8); }
    else { CnpjWitness(0, 6, 9); }
  }
}
