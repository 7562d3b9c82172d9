/** Numbers as the decimal text in which the database and the terminal exchange them. */
module Decimals {
  import opened Ceilings
  import opened Charging

  function DigitChar(d: nat): (c: char)
    requires d < 10
    ensures Digit(c) && (c - '0') as nat == d
  {
    '0' + d as char
  }

  /** numeric::text, big.Int.String: no sign, no leading zero. */
  function Print(n: nat): (s: string) {
    if n < 10 then [DigitChar(n)] else Print(n / 10) + [DigitChar(n % 10)]
  }

  /** Digits without a redundant leading zero. */
  predicate Canonical(s: string) {
    s != "" && AllDigits(s) && (|s| > 1 ==> s[0] != '0')
  }

  lemma {:induction false} PrintedReadsBack(n: nat)
    ensures Canonical(Print(n)) && Decimal(Print(n)) == n
    ensures n > 0 ==> Print(n)[0] != '0'
  {
    if n >= 10 {
      PrintedReadsBack(n / 10);
      assert Print(n)[..|Print(n)| - 1] == Print(n / 10);
    } else {
      assert [DigitChar(n)][..0] == "";
    }
  }

  /** Canonical digits are exactly what printing their value gives. */
  lemma {:induction false} ReadPrintsBack(s: string)
    requires Canonical(s)
    ensures Print(Decimal(s)) == s
    decreases |s|
  {
    var n := |s| - 1;
    var before, last := s[..n], s[n];
    assert Digit(last) && s == before + [last];
    if n > 0 {
      assert Digit(s[0]) && before[0] == s[0];
      ReadPrintsBack(before);
      Positive(before);
      var d := (last - '0') as nat;
      assert Decimal(s) == 10 * Decimal(before) + d && DigitChar(d) == last;
      assert Decimal(s) / 10 == Decimal(before) && Decimal(s) % 10 == d;
    } else {
      assert before == "" && Decimal(s) == (last - '0') as nat;
      assert s == [last];
    }
  }

  lemma {:induction false} Positive(s: string)
    requires AllDigits(s) && s != "" && s[0] != '0'
    ensures Decimal(s) > 0
    decreases |s|
  {
    var n := |s| - 1;
    assert Digit(s[n]);
    if n > 0 { Positive(s[..n]); } else { assert s[..n] == ""; }
  }

  // ------------------------------------------------------------------ printed rates

  function Card(rates: Rates): (card: RateCard) {
    RateCard(Print(rates.input), Print(rates.output), Print(rates.compute))
  }

  lemma PrintedNumber(n: nat)
    ensures SetString(Print(n)) == Number(n)
    ensures ParseRate(Print(n)) == if n < TWO_256 then Number(n) else NotANumber
  {
    PrintedReadsBack(n);
    assert Digit(Print(n)[0]);
  }

  /** The receipt's charge on stored rates is the exact total, or an overflow. */
  lemma ChargeOnStoredRates(rates: Rates, usage: Usage)
    ensures CardCharge(SetString, Card(rates), usage)
         == var total := ExactTotal(rates, usage); if total < TWO_64 then Charged(total) else Refused(InvalidRate)
  {
    PrintedNumber(rates.input);
    PrintedNumber(rates.output);
    PrintedNumber(rates.compute);
  }

  /** A rate too large to parse is also too dear to charge, so refusing to parse it
      loses no request that could have been served. */
  lemma WorstCaseOnStoredRates(rates: Rates, limits: Usage)
    requires limits.input > 0 && limits.output > 0 && limits.compute > 0
    ensures CardCharge(ParseRate, Card(rates), limits)
         == var total := ExactTotal(rates, limits); if total < TWO_64 then Charged(total) else Refused(InvalidRate)
  {
    PrintedNumber(rates.input);
    PrintedNumber(rates.output);
    PrintedNumber(rates.compute);
    TooDear(rates.input, limits.input, TOKENS_PER_MILLION);
    TooDear(rates.output, limits.output, TOKENS_PER_MILLION);
    TooDear(rates.compute, limits.compute, MILLIS_PER_SECOND);
  }

  lemma TooDear(rate: nat, units: nat, divisor: nat)
    requires units > 0 && 0 < divisor <= TOKENS_PER_MILLION
    ensures rate >= TWO_256 ==> Ceiling(units * rate, divisor) >= TWO_64
  {
    if rate >= TWO_256 {
      var q := Ceiling(units * rate, divisor);
      LessTimes(1, units, rate);
      CeilingIsLeast(units * rate, divisor);
      assert q * divisor >= TWO_256;
      if q < TWO_64 { LessTimes(q, TWO_64, divisor); }
    }
  }

  /** On 64-bit prices and usage the three formulas are one: each yields the sum of the
      exact ceilings, and each refuses exactly when that sum needs more than 64 bits. */
  lemma ThreeFormulasAgree(price: Rates, usage: Usage)
    requires price.input < TWO_64 && price.output < TWO_64 && price.compute < TWO_64
    requires usage.input < TWO_64 && usage.output < TWO_64 && usage.compute < TWO_64
    ensures var charge := Charge(price, usage, TWO_64 - 1);
            var worst, exact := CardCharge(ParseRate, Card(price), usage), CardCharge(SetString, Card(price), usage);
            && worst == exact && (charge.Charged? <==> exact.Charged?)
            && (exact.Charged? ==> charge == exact && exact.wei == ExactTotal(price, usage))
            && (charge.Refused? ==> charge.error == Overflow && ExactTotal(price, usage) >= TWO_64)
  {
    ChargeExact(price, usage, TWO_64 - 1);
    PrintedNumber(price.input);
    PrintedNumber(price.output);
    PrintedNumber(price.compute);
  }
}
