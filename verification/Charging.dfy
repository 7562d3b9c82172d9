/** The three charge formulas of the marketplace: the 64-bit one of the protocol
    package, the worst case of the router and the exact one of the receipt builder,
    all measured against one definition of a charge as a sum of exact ceilings. */
module Charging {
  import opened Basics
  import opened Ceilings

  const TWO_64: nat := 0x1_0000_0000_0000_0000
  const TWO_256: nat := TWO_64 * TWO_64 * TWO_64 * TWO_64
  const TOKENS_PER_MILLION: nat := 1_000_000
  const MILLIS_PER_SECOND: nat := 1_000

  type uint64 = x: int | 0 <= x < TWO_64

  datatype Rates = Rates(input: nat, output: nat, compute: nat)
  datatype Usage = Usage(input: nat, output: nat, compute: nat)

  /** What a completion costs: the sum of three ceilings, each taken exactly. */
  function ExactTotal(rates: Rates, usage: Usage): (total: nat) {
    Ceiling(usage.input * rates.input, TOKENS_PER_MILLION)
    + Ceiling(usage.output * rates.output, TOKENS_PER_MILLION)
    + Ceiling(usage.compute * rates.compute, MILLIS_PER_SECOND)
  }

  /** A charge is three whole amounts of wei, each the least that covers its units at its
      rate: per million tokens, and per thousand milliseconds of compute. */
  lemma TotalCovers(rates: Rates, usage: Usage) returns (input: nat, output: nat, compute: nat)
    ensures ExactTotal(rates, usage) == input + output + compute
    ensures (input - 1) * 1_000_000 < usage.input * rates.input <= input * 1_000_000
    ensures (output - 1) * 1_000_000 < usage.output * rates.output <= output * 1_000_000
    ensures (compute - 1) * 1_000 < usage.compute * rates.compute <= compute * 1_000
  {
    input := LeastCover(usage.input * rates.input, TOKENS_PER_MILLION);
    output := LeastCover(usage.output * rates.output, TOKENS_PER_MILLION);
    compute := LeastCover(usage.compute * rates.compute, MILLIS_PER_SECOND);
  }

  lemma LeastCover(n: nat, d: nat) returns (q: nat)
    requires d > 0
    ensures q == Ceiling(n, d) && (q - 1) * d < n <= q * d
  {
    q := Ceiling(n, d);
    assert q * d <= n + d - 1 < q * d + d;
  }

  predicate Within(usage: Usage, limits: Usage) {
    usage.input <= limits.input && usage.output <= limits.output && usage.compute <= limits.compute
  }

  lemma ExactTotalMonotone(rates: Rates, usage: Usage, limits: Usage)
    requires Within(usage, limits)
    ensures ExactTotal(rates, usage) <= ExactTotal(rates, limits)
  {
    LessTimes(usage.input, limits.input, rates.input);
    LessTimes(usage.output, limits.output, rates.output);
    LessTimes(usage.compute, limits.compute, rates.compute);
    CeilingMonotone(usage.input * rates.input, limits.input * rates.input, TOKENS_PER_MILLION);
    CeilingMonotone(usage.output * rates.output, limits.output * rates.output, TOKENS_PER_MILLION);
    CeilingMonotone(usage.compute * rates.compute, limits.compute * rates.compute, MILLIS_PER_SECOND);
  }

  // ---------------------------------------------------------------- 64-bit form

  datatype ChargeError = Overflow | MaximumExceeded | InvalidRate
  datatype ChargeResult = Charged(wei: uint64) | Refused(error: ChargeError)

  datatype Words = Words(hi: uint64, lo: uint64)
  datatype Division = Division(quotient: uint64, remainder: uint64)
  datatype Addition = Addition(sum: uint64, carry: nat)

  /** The full 128-bit product in two words. */
  function Mul64(x: uint64, y: uint64): (w: Words)
    ensures w.hi * TWO_64 + w.lo == x * y
  {
    ProductFits(x, y);
    Words(x * y / TWO_64, x * y % TWO_64)
  }

  lemma ProductFits(x: uint64, y: uint64)
    ensures 0 <= x * y / TWO_64 < TWO_64
  {
    LessTimes(x, TWO_64 - 1, y);
    LessTimes(y, TWO_64 - 1, TWO_64 - 1);
    assert 0 <= x * y <= (TWO_64 - 1) * (TWO_64 - 1);
  }

  /** Two-word division; the machine instruction traps unless `hi < divisor`. */
  function Div64(hi: uint64, lo: uint64, divisor: uint64): (d: Division)
    requires hi < divisor
    ensures hi * TWO_64 + lo == d.quotient * divisor + d.remainder && d.remainder < divisor
  {
    var n := hi * TWO_64 + lo;
    assert n < divisor * TWO_64 by { LessTimes(hi, divisor - 1, TWO_64); }
    assert n / divisor < TWO_64 by {
      if n / divisor >= TWO_64 { LessTimes(TWO_64, n / divisor, divisor); }
    }
    Division(n / divisor, n % divisor)
  }

  function Add64(x: uint64, y: uint64): (a: Addition) {
    Addition((x + y) % TWO_64, (x + y) / TWO_64)
  }

  function MultiplyDivideCeil(units: uint64, rate: uint64, denominator: uint64): (r: ChargeResult)
    requires denominator > 0
  {
    if units == 0 || rate == 0 then Charged(0) else
    var product := Mul64(units, rate);
    if product.hi >= denominator then Refused(Overflow) else
    var d := Div64(product.hi, product.lo, denominator);
    if d.remainder == 0 then Charged(d.quotient) else
    var rounded := Add64(d.quotient, 1);
    if rounded.carry != 0 then Refused(Overflow) else Charged(rounded.sum)
  }

  lemma MultiplyDivideCeilExact(units: uint64, rate: uint64, denominator: uint64)
    requires denominator > 0
    ensures MultiplyDivideCeil(units, rate, denominator)
         == var exact := Ceiling(units * rate, denominator);
            if exact < TWO_64 then Charged(exact) else Refused(Overflow)
  {
    var n := units * rate;
    var product := Mul64(units, rate);
    if units == 0 || rate == 0 {
      assert n == 0;
      assert (denominator - 1) / denominator == 0;
    } else if product.hi >= denominator {
      LessTimes(denominator, product.hi, TWO_64);
      assert n >= denominator * TWO_64;
      CeilingIsLeast(n, denominator);
      if Ceiling(n, denominator) < TWO_64 {
        LessTimes(Ceiling(n, denominator), TWO_64 - 1, denominator);
      }
    } else {
      var d := Div64(product.hi, product.lo, denominator);
      CeilingFromQuotient(n, denominator, d.quotient, d.remainder);
    }
  }

  function Charge(price: Rates, usage: Usage, maxWei: uint64): (r: ChargeResult)
    requires price.input < TWO_64 && price.output < TWO_64 && price.compute < TWO_64
    requires usage.input < TWO_64 && usage.output < TWO_64 && usage.compute < TWO_64
  {
    var input := MultiplyDivideCeil(usage.input, price.input, TOKENS_PER_MILLION);
    if input.Refused? then input else
    var output := MultiplyDivideCeil(usage.output, price.output, TOKENS_PER_MILLION);
    if output.Refused? then output else
    var compute := MultiplyDivideCeil(usage.compute, price.compute, MILLIS_PER_SECOND);
    if compute.Refused? then compute else
    var partial := Add64(input.wei, output.wei);
    if partial.carry != 0 then Refused(Overflow) else
    var total := Add64(partial.sum, compute.wei);
    if total.carry != 0 then Refused(Overflow) else
    if total.sum > maxWei then Refused(MaximumExceeded) else Charged(total.sum)
  }

  /** The 64-bit charge is the exact total, and each refusal has exactly one cause. */
  lemma ChargeExact(price: Rates, usage: Usage, maxWei: uint64)
    requires price.input < TWO_64 && price.output < TWO_64 && price.compute < TWO_64
    requires usage.input < TWO_64 && usage.output < TWO_64 && usage.compute < TWO_64
    ensures Charge(price, usage, maxWei)
         == var total := ExactTotal(price, usage);
            if total >= TWO_64 then Refused(Overflow)
            else if total > maxWei then Refused(MaximumExceeded)
            else Charged(total)
  {
    MultiplyDivideCeilExact(usage.input, price.input, TOKENS_PER_MILLION);
    MultiplyDivideCeilExact(usage.output, price.output, TOKENS_PER_MILLION);
    MultiplyDivideCeilExact(usage.compute, price.compute, MILLIS_PER_SECOND);
  }

  // ---------------------------------------------------------- big-integer forms

  predicate Digit(c: char) { '0' <= c <= '9' }

  function Decimal(s: string): (n: nat) {
    if s == "" || !Digit(s[|s| - 1]) then 0
    else 10 * Decimal(s[..|s| - 1]) + (s[|s| - 1] - '0') as nat
  }

  predicate AllDigits(s: string) { forall i :: 0 <= i < |s| ==> Digit(s[i]) }

  datatype Parsed = NotANumber | Number(value: int)

  /** big.Int.SetString in base 10: an optional sign, then at least one digit. */
  function SetString(s: string): (r: Parsed) {
    var digits := if s != "" && (s[0] == '+' || s[0] == '-') then s[1..] else s;
    if digits == "" || !AllDigits(digits) then NotANumber
    else var n: int := Decimal(digits);
    Number(if s[0] == '-' then -n else n)
  }

  /** The router's stricter reading of a rate: canonical digits, at most 256 bits. */
  function ParseRate(s: string): (r: Parsed) {
    if s == "" || (|s| > 1 && s[0] == '0') || !AllDigits(s) then NotANumber
    else var n := SetString(s);
    if n.NotANumber? || n.value >= TWO_256 then NotANumber else n
  }

  lemma ParsedRateIsExact(s: string)
    requires ParseRate(s).Number?
    ensures SetString(s) == ParseRate(s) && 0 <= ParseRate(s).value < TWO_256
  {
    assert Digit(s[0]);
  }

  datatype Item = Item(units: nat, rate: string, divisor: nat)
  datatype RateCard = RateCard(input: string, output: string, compute: string)

  function Items(rates: RateCard, usage: Usage): (items: seq<Item>) {
    [Item(usage.input, rates.input, TOKENS_PER_MILLION),
     Item(usage.output, rates.output, TOKENS_PER_MILLION),
     Item(usage.compute, rates.compute, MILLIS_PER_SECOND)]
  }

  /** The numeric rates a card stands for under a given reading, if all three parse. */
  function CardRates(parse: string -> Parsed, card: RateCard): (r: Option<Rates>) {
    var i, o, c := parse(card.input), parse(card.output), parse(card.compute);
    if i.Number? && o.Number? && c.Number? && i.value >= 0 && o.value >= 0 && c.value >= 0
    then Some(Rates(i.value, o.value, c.value)) else None
  }

  /** The accumulated cost of a list of items, if every rate reads as a natural number. */
  function TotalOf(parse: string -> Parsed, items: seq<Item>): (r: Option<nat>)
    requires forall item <- items :: item.divisor > 0
  {
    if items == [] then Some(0) else
    AddItem(parse, TotalOf(parse, items[..|items| - 1]), items[|items| - 1])
  }

  function AddItem(parse: string -> Parsed, before: Option<nat>, item: Item): (r: Option<nat>)
    requires item.divisor > 0
  {
    var rate := parse(item.rate);
    if before.None? || rate.NotANumber? || rate.value < 0 then None
    else Some(before.value + Ceiling(item.units * rate.value, item.divisor))
  }

  lemma TotalOfCard(parse: string -> Parsed, card: RateCard, usage: Usage)
    ensures TotalOf(parse, Items(card, usage))
         == match CardRates(parse, card)
            case None => None
            case Some(rates) => Some(ExactTotal(rates, usage))
  {
    var items := Items(card, usage);
    assert items[..0] == [] && items[..3] == items;
    TotalOfPrefix(parse, items, 0);
    TotalOfPrefix(parse, items, 1);
    TotalOfPrefix(parse, items, 2);
  }

  lemma TotalOfPrefix(parse: string -> Parsed, items: seq<Item>, k: nat)
    requires k < |items| && forall item <- items :: item.divisor > 0
    ensures TotalOf(parse, items[..k + 1])
         == AddItem(parse, TotalOf(parse, items[..k]), items[k])
    ensures TotalOf(parse, items[..k]).None? ==> TotalOf(parse, items[..k + 1]).None?
  {
    assert items[..k + 1][..k] == items[..k];
  }

  lemma NoneStays(parse: string -> Parsed, items: seq<Item>, k: nat)
    requires k <= |items| && forall item <- items :: item.divisor > 0
    requires TotalOf(parse, items[..k]).None?
    ensures TotalOf(parse, items).None?
    decreases |items| - k
  {
    if k == |items| {
      assert items[..k] == items;
    } else {
      TotalOfPrefix(parse, items, k);
      NoneStays(parse, items, k + 1);
    }
  }

  /** What either big-integer form answers for a card under its own reading of rates. */
  function CardCharge(parse: string -> Parsed, card: RateCard, usage: Usage): (r: ChargeResult) {
    match CardRates(parse, card)
    case None => Refused(InvalidRate)
    case Some(rates) =>
      var total := ExactTotal(rates, usage);
      if total < TWO_64 then Charged(total) else Refused(InvalidRate)
  }

  /** The router's bound on what a request may cost. */
  method WorstCaseCost(card: RateCard, limits: Usage) returns (r: ChargeResult)
    ensures r == CardCharge(ParseRate, card, limits)
  {
    TotalOfCard(ParseRate, card, limits);
    var total := AccumulateWorstCase(Items(card, limits));
    if total.None? || total.value >= TWO_64 { return Refused(InvalidRate); }
    return Charged(total.value);
  }

  method AccumulateWorstCase(items: seq<Item>) returns (r: Option<nat>)
    requires forall item <- items :: item.divisor > 0
    ensures r == TotalOf(ParseRate, items)
  {
    r := Some(0);
    for k := 0 to |items|
      invariant r.Some? && r == TotalOf(ParseRate, items[..k])
    {
      TotalOfPrefix(ParseRate, items, k);
      r := AddWorstCase(r.value, items[k]);
      if r.None? {
        NoneStays(ParseRate, items, k + 1);
        return;
      }
    }
    assert items[..|items|] == items;
  }

  method AddWorstCase(total: nat, item: Item) returns (r: Option<nat>)
    requires item.divisor > 0
    ensures r == AddItem(ParseRate, Some(total), item)
  {
    var rate := ParseRate(item.rate);
    if rate.NotANumber? { return None; }
    ParsedRateIsExact(item.rate);
    var part: nat := item.units * rate.value;
    part := (part + (item.divisor - 1)) / item.divisor;
    return Some(total + part);
  }

  /** The receipt's charge: the same ceilings, a laxer reading of the rate text. */
  method ExactCharge(usage: Usage, card: RateCard) returns (r: ChargeResult)
    ensures r == CardCharge(SetString, card, usage)
  {
    TotalOfCard(SetString, card, usage);
    var total := AccumulateExact(Items(card, usage));
    if total.None? || total.value >= TWO_64 { return Refused(InvalidRate); }
    return Charged(total.value);
  }

  method AccumulateExact(items: seq<Item>) returns (r: Option<nat>)
    requires forall item <- items :: item.divisor > 0
    ensures r == TotalOf(SetString, items)
  {
    r := Some(0);
    for k := 0 to |items|
      invariant r.Some? && r == TotalOf(SetString, items[..k])
    {
      TotalOfPrefix(SetString, items, k);
      r := AddExact(r.value, items[k]);
      if r.None? {
        NoneStays(SetString, items, k + 1);
        return;
      }
    }
    assert items[..|items|] == items;
  }

  method AddExact(total: nat, item: Item) returns (r: Option<nat>)
    requires item.divisor > 0
    ensures r == AddItem(SetString, Some(total), item)
  {
    var rate := SetString(item.rate);
    if rate.NotANumber? || rate.value < 0 { return None; }
    var part: nat := item.units * rate.value;
    if part > 0 { part := part + (item.divisor - 1); }
    part := part / item.divisor;
    return Some(total + part);
  }

  /** On every card the router accepts, the receipt reads the same rates: the worst
      case and the exact charge are one function, so a completion inside its limits
      never costs more than was reserved for it. */
  lemma ReceiptNeverExceedsWorstCase(card: RateCard, usage: Usage, limits: Usage)
    requires CardRates(ParseRate, card).Some? && Within(usage, limits)
    ensures CardRates(SetString, card) == CardRates(ParseRate, card)
    ensures ExactTotal(CardRates(SetString, card).value, usage) <= ExactTotal(CardRates(ParseRate, card).value, limits)
  {
    ParsedRateIsExact(card.input);
    ParsedRateIsExact(card.output);
    ParsedRateIsExact(card.compute);
    ExactTotalMonotone(CardRates(ParseRate, card).value, usage, limits);
  }
}
