/** The choice of a provider: the cheapest offer that the customer's limit and the
    session's balance can cover. */
module Routing {
  import opened Charging
  import opened Texts

  datatype Query = Query(model: string, capabilities: seq<string>, maximumSpend: nat, balance: nat, pin: string)

  datatype Candidate = Candidate(
    machine: string, offer: string, model: string, capabilities: seq<string>, bonded: bool, healthy: bool,
    capacity: nat, maximumCost: nat, version: nat, latency: nat, success: nat, reputation: nat, card: RateCard)

  datatype Selection = Selected(candidate: Candidate) | InsufficientBudget | NoEligibleProvider

  predicate ContainsAll(have: seq<string>, required: seq<string>) {
    forall wanted <- required :: wanted in have
  }

  /** Everything about the candidate suits the query, price apart. */
  predicate Suits(query: Query, c: Candidate) {
    && (query.pin != "" ==> c.machine == query.pin)
    && c.machine != "" && c.offer != "" && c.model == query.model && c.bonded && c.healthy
    && c.capacity != 0 && c.maximumCost != 0 && ContainsAll(c.capabilities, query.capabilities)
  }

  predicate Covered(query: Query, c: Candidate) {
    c.maximumCost <= query.maximumSpend && c.maximumCost <= query.balance
  }

  predicate Eligible(query: Query, c: Candidate) { Suits(query, c) && Covered(query, c) }

  // ---------------------------------------------------------------------- preference

  /** Byte order of strings. */
  predicate Less(a: string, b: string) {
    b != "" && (a == "" || a[0] < b[0] || (a[0] == b[0] && Less(a[1..], b[1..])))
  }

  lemma {:induction false} LessIsTotal(a: string, b: string)
    ensures Less(a, b) || Less(b, a) || a == b
    ensures !(Less(a, b) && Less(b, a))
    decreases |a|
  {
    if a != "" && b != "" && a[0] == b[0] {
      LessIsTotal(a[1..], b[1..]);
      if a[1..] == b[1..] { assert a == [a[0]] + a[1..] && b == [b[0]] + b[1..]; }
    }
  }

  lemma {:induction false} LessIsTransitive(a: string, b: string, c: string)
    requires Less(a, b) && Less(b, c)
    ensures Less(a, c)
    decreases |a|
  {
    if a != "" && a[0] == b[0] == c[0] { LessIsTransitive(a[1..], b[1..], c[1..]); }
  }

  /** Cheaper, then quicker, then more reliable, then better known, then by name. */
  predicate Before(a: Candidate, b: Candidate) {
    if a.maximumCost != b.maximumCost then a.maximumCost < b.maximumCost
    else if a.latency != b.latency then a.latency < b.latency
    else if a.success != b.success then a.success > b.success
    else if a.reputation != b.reputation then a.reputation > b.reputation
    else Less(a.machine, b.machine)
  }

  /** Byte order is the order of the first byte that differs; a prefix comes first. */
  lemma {:induction false} LessMeans(a: string, b: string)
    ensures Less(a, b) <==> a < b || exists k :: 0 <= k < |a| && k < |b| && a[..k] == b[..k] && a[k] < b[k]
    decreases |a|
  {
    if a != "" && b != "" && a[0] == b[0] {
      LessMeans(a[1..], b[1..]);
      assert a == [a[0]] + a[1..] && b == [b[0]] + b[1..];
      if k :| 0 <= k < |a[1..]| && k < |b[1..]| && a[1..][..k] == b[1..][..k] && a[1..][k] < b[1..][k] {
        assert a[..k + 1] == [a[0]] + a[1..][..k] && b[..k + 1] == [b[0]] + b[1..][..k];
        assert a[k + 1] < b[k + 1];
      }
      if k :| 0 <= k < |a| && k < |b| && a[..k] == b[..k] && a[k] < b[k] {
        assert k > 0 && a[1..][..k - 1] == a[..k][1..] && b[1..][..k - 1] == b[..k][1..];
        assert a[1..][k - 1] < b[1..][k - 1];
      }
    } else if a != "" && b != "" {
      assert a[..0] == b[..0];
      forall k | 0 < k < |a| && k < |b| ensures a[..k] != b[..k] {
        assert a[..k][0] == a[0] && b[..k][0] == b[0];
      }
    }
  }

  /** Cheapest; among those the quickest, then the most reliable, then the best known, and
      then the first by name. */
  predicate NoWorse(best: Candidate, c: Candidate) {
    best.maximumCost <= c.maximumCost && (best.maximumCost == c.maximumCost ==>
      best.latency <= c.latency && (best.latency == c.latency ==>
        best.success >= c.success && (best.success == c.success ==>
          best.reputation >= c.reputation && (best.reputation == c.reputation ==> !Less(c.machine, best.machine)))))
  }

  lemma NotBeforeMeans(best: Candidate, c: Candidate)
    ensures !Before(c, best) <==> NoWorse(best, c)
  {
  }

  /** Preference is a strict weak order: no cycle, and "not preferred to" carries over. */
  lemma NotBeforeCarries(a: Candidate, b: Candidate, c: Candidate)
    requires !Before(b, a) && !Before(c, b)
    ensures !Before(c, a)
  {
    LessIsTotal(a.machine, b.machine);
    LessIsTotal(b.machine, c.machine);
    LessIsTotal(a.machine, c.machine);
    if Less(a.machine, b.machine) && Less(b.machine, c.machine) { LessIsTransitive(a.machine, b.machine, c.machine); }
  }

  lemma NeverBeforeItself(a: Candidate)
    ensures !Before(a, a)
  {
    LessIsTotal(a.machine, a.machine);
  }

  /** The candidate is one of the list's, and none of the list's is preferred to it. */
  ghost predicate Best(cs: seq<Candidate>, best: Candidate) {
    best in cs && forall c <- cs :: !Before(c, best)
  }

  // ------------------------------------------------------------------------ selection

  method Filter(query: Query, candidates: seq<Candidate>) returns (eligible: seq<Candidate>, budgetBlocked: bool)
    ensures forall c :: c in eligible <==> c in candidates && Eligible(query, c)
    ensures budgetBlocked <==> exists c :: c in candidates && Suits(query, c) && !Covered(query, c)
  {
    eligible, budgetBlocked := [], false;
    for i := 0 to |candidates|
      invariant forall c :: c in eligible <==> c in candidates[..i] && Eligible(query, c)
      invariant budgetBlocked <==> exists c :: c in candidates[..i] && Suits(query, c) && !Covered(query, c)
    {
      var c := candidates[i];
      assert candidates[..i + 1] == candidates[..i] + [c];
      if !Suits(query, c) { continue; }
      if c.maximumCost > query.maximumSpend || c.maximumCost > query.balance {
        budgetBlocked := true;
        continue;
      }
      eligible := eligible + [c];
    }
    assert candidates[..|candidates|] == candidates;
  }

  /** The head of the sorted list. */
  method First(eligible: seq<Candidate>) returns (best: Candidate)
    requires eligible != []
    ensures Best(eligible, best)
  {
    best := eligible[0];
    NeverBeforeItself(best);
    for i := 1 to |eligible|
      invariant best in eligible
      invariant forall k :: 0 <= k < i ==> !Before(eligible[k], best)
    {
      var c := eligible[i];
      NeverBeforeItself(c);
      if Before(c, best) {
        forall k | 0 <= k < i ensures !Before(eligible[k], c) {
          StillBest(c, best);
          NotBeforeCarries(c, best, eligible[k]);
        }
        best := c;
      }
    }
  }

  lemma StillBest(a: Candidate, b: Candidate)
    requires Before(a, b)
    ensures !Before(b, a)
  {
    LessIsTotal(a.machine, b.machine);
  }

  /** The selection is eligible and no eligible candidate is better; each refusal is given
      exactly when its reason holds. */
  method Select(query: Query, candidates: seq<Candidate>) returns (r: Selection)
    ensures r.Selected? <==> !Blank(query.model) && query.maximumSpend != 0 && exists c :: c in candidates
                                                                                 && Eligible(query, c)
    ensures r.Selected? ==> r.candidate in candidates && Eligible(query, r.candidate)
    ensures r.Selected? ==> forall c :: c in candidates && Eligible(query, c) ==> NoWorse(r.candidate, c)
    ensures r.InsufficientBudget? <==>
              && !Blank(query.model) && query.maximumSpend != 0
              && (exists c :: c in candidates && Suits(query, c)) && forall c :: c in candidates && Suits(query, c) ==>
                !Covered(query, c)
  {
    if Blank(query.model) || query.maximumSpend == 0 { return NoEligibleProvider; }
    var eligible, budgetBlocked := Filter(query, candidates);
    if eligible == [] {
      assert forall c :: c in candidates && Suits(query, c) ==> !Covered(query, c) by {
        forall c | c in candidates && Suits(query, c) ensures !Covered(query, c) {
          assert Eligible(query, c) ==> c in eligible;
        }
      }
      return if budgetBlocked then InsufficientBudget else NoEligibleProvider;
    }
    assert eligible[0] in eligible;
    var best := First(eligible);
    assert best in eligible;
    forall c | c in candidates && Eligible(query, c) ensures NoWorse(best, c) { NotBeforeMeans(best, c); }
    return Selected(best);
  }

  // -------------------------------------------------------------------------- pricing

  /** What a request within the limits can cost at the candidate's rates, if they read. */
  function WorstCost(c: Candidate, limits: Usage): (wei: nat) {
    match CardRates(ParseRate, c.card)
    case Some(rates) => ExactTotal(rates, limits)
    case None => 0
  }

  /** As it is offered to the selection: without a slot when its machine is not connected,
      without a price when it has none that fits 64 bits. */
  function PricedAs(c: Candidate, connected: bool, limits: Usage): (priced: Candidate) {
    if !connected then c.(capacity := 0)
    else c.(maximumCost := if WorstCost(c, limits) < TWO_64 then WorstCost(c, limits) else 0)
  }

  method Price(c: Candidate, connected: bool, limits: Usage) returns (priced: Candidate)
    ensures priced == PricedAs(c, connected, limits)
  {
    if !connected { return c.(capacity := 0); }
    if CardRates(ParseRate, c.card).None? || !HasPricing(c.card) {
      FreeCostsNothing(limits);
      return c.(maximumCost := 0);
    }
    var cost := WorstCaseCost(c.card, limits);
    return c.(maximumCost := if cost.Charged? then cost.wei else 0);
  }

  lemma FreeCostsNothing(limits: Usage)
    ensures ExactTotal(Rates(0, 0, 0), limits) == 0
  {
  }

  predicate HasPricing(card: RateCard) {
    CardRates(ParseRate, card).Some? && CardRates(ParseRate, card).value != Rates(0, 0, 0)
  }

  method PriceAll(candidates: seq<Candidate>, connected: string -> bool, limits: Usage) returns (priced: seq<Candidate>)
    ensures |priced| == |candidates|
    ensures forall i :: 0 <= i < |priced| ==>
              priced[i] == PricedAs(candidates[i], connected(candidates[i].machine), limits)
  {
    priced := [];
    for i := 0 to |candidates|
      invariant |priced| == i
      invariant forall k :: 0 <= k < i ==>
                  priced[k] == PricedAs(candidates[k], connected(candidates[k].machine), limits)
    {
      var c := Price(candidates[i], connected(candidates[i].machine), limits);
      priced := priced + [c];
    }
  }

  /** The candidate's machine is connected, it is bonded, healthy and free, does what is
      asked for, and its worst case is a price that limit and balance cover. */
  predicate Serves(query: Query, c: Candidate, connected: bool, limits: Usage) {
    && connected && (query.pin != "" ==> c.machine == query.pin) && c.machine != "" && c.offer != ""
    && c.model == query.model && c.bonded && c.healthy && c.capacity != 0
    && (forall wanted <- query.capabilities :: wanted in c.capabilities)
    && 0 < WorstCost(c, limits) < TWO_64
    && WorstCost(c, limits) <= query.maximumSpend && WorstCost(c, limits) <= query.balance
  }

  lemma ServesMeans(query: Query, c: Candidate, connected: bool, limits: Usage)
    ensures Eligible(query, PricedAs(c, connected, limits)) <==> Serves(query, c, connected, limits)
    ensures Serves(query, c, connected, limits) ==>
              PricedAs(c, connected, limits) == c.(maximumCost := WorstCost(c, limits))
  {
  }

  /** A candidate is chosen exactly when one can serve the request within limit and balance,
      and none that can would be better. Its cost, which the handler goes on to reserve, is
      its exact worst case. */
  method Choose(query: Query, candidates: seq<Candidate>, connected: string -> bool, limits: Usage)
    returns (r: Selection)
    ensures r.Selected? <==>
              && !Blank(query.model) && query.maximumSpend != 0
              && exists c :: c in candidates && Serves(query, c, connected(c.machine), limits)
    ensures r.Selected? ==>
              exists c :: c in candidates && Serves(query, c, connected(c.machine), limits)
                          && r.candidate == c.(maximumCost := WorstCost(c, limits))
    ensures r.Selected? ==>
              forall c :: c in candidates && Serves(query, c, connected(c.machine), limits) ==>
                NoWorse(r.candidate, c.(maximumCost := WorstCost(c, limits)))
  {
    var priced := PriceAll(candidates, connected, limits);
    r := Select(query, priced);
    forall c | c in candidates && Serves(query, c, connected(c.machine), limits)
      ensures c.(maximumCost := WorstCost(c, limits)) in priced
              && Eligible(query, c.(maximumCost := WorstCost(c, limits)))
    {
      var i :| 0 <= i < |candidates| && candidates[i] == c;
      ServesMeans(query, c, connected(c.machine), limits);
      assert priced[i] == c.(maximumCost := WorstCost(c, limits));
    }
    if r.Selected? {
      var i :| 0 <= i < |priced| && priced[i] == r.candidate;
      ServesMeans(query, candidates[i], connected(candidates[i].machine), limits);
      assert candidates[i] in candidates;
    }
  }
}
