/** Whole runs of the contract, transactions with nested calls included: its log is
    well formed, its storage is the projection of that log, and its books balance. */
module Contracting {
  import opened Basics
  import opened Tables
  import opened Projecting
  import opened Market
  import opened Mirroring

  datatype Deal =
    | Plain(message: Message)
    | Batch(sender: Address, now: nat, receipts: seq<Signed>)
    /** The payee's code runs in the middle of a claim and may call back. */
    | Claim(sender: Address, accepted: bool, callbacks: seq<Message>)

  datatype Outcome = Outcome(contract: Contract, events: seq<Event>)

  /** Calls one after another; those that revert change nothing. */
  ghost function ActAll(c: Contract, ms: seq<Message>): (o: Outcome)
    requires Books(c)
    ensures Books(o.contract)
  {
    if ms == [] then Outcome(c, []) else
    var before := ActAll(c, ms[..|ms| - 1]);
    var effect := Act(before.contract, ms[|ms| - 1]);
    if effect.None? then before else
    ActKeepsBooks(before.contract, ms[|ms| - 1]);
    Outcome(effect.value.contract, before.events + [effect.value.event])
  }

  /** Receipts one after another; one refusal reverts them all. */
  ghost function SettleAll(c: Contract, sender: Address, now: nat, receipts: seq<Signed>): (o: Option<Outcome>)
    requires Books(c)
    ensures o.Some? ==> Books(o.value.contract)
  {
    if receipts == [] then Some(Outcome(c, [])) else
    var before := SettleAll(c, sender, now, receipts[..|receipts| - 1]);
    if before.None? then None else
    var m := Message(sender, now, SettleReceipt(receipts[|receipts| - 1]));
    var effect := Act(before.value.contract, m);
    if effect.None? then None else
    ActKeepsBooks(before.value.contract, m);
    Some(Outcome(effect.value.contract, before.value.events + [effect.value.event]))
  }

  /** The contract while the claimed amount is on its way. */
  ghost function PayingOut(c: Contract, a: Address): (after: Contract)
    requires Books(c)
  {
    Covered(c, a, 0);
    var amount := At(c.claimable, a);
    c.(claimable := c.claimable[a := 0], totalClaimable := c.totalClaimable - amount, ether := c.ether - amount)
  }

  lemma PayingOutBooks(c: Contract, a: Address)
    requires Books(c)
    ensures Books(PayingOut(c, a))
  {
    SumAfter(c.claimable, a, 0);
  }

  /** None when the transaction reverts. */
  ghost function Deliver(c: Contract, deal: Deal): (o: Option<Outcome>)
    requires Books(c)
    ensures o.Some? ==> Books(o.value.contract)
  {
    match deal
    case Plain(m) =>
      var effect := Act(c, m);
      if effect.None? then None else
      ActKeepsBooks(c, m);
      Some(Outcome(effect.value.contract, [effect.value.event]))
    case Batch(sender, now, receipts) => if receipts == [] then None else SettleAll(c, sender, now, receipts)
    case Claim(a, accepted, callbacks) =>
      var amount := At(c.claimable, a);
      if amount == 0 || !accepted then None else
      PayingOutBooks(c, a);
      var after := ActAll(PayingOut(c, a), callbacks);
      Some(Outcome(after.contract, after.events + [Claimed(a, amount)]))
  }

  ghost function DeliverAll(c: Contract, deals: seq<Deal>): (o: Outcome)
    requires Books(c)
    ensures Books(o.contract)
  {
    if deals == [] then Outcome(c, []) else
    var before := DeliverAll(c, deals[..|deals| - 1]);
    var after := Deliver(before.contract, deals[|deals| - 1]);
    if after.None? then before else Outcome(after.value.contract, before.events + after.value.events)
  }

  lemma NothingOwed()
    ensures Sum(map[]) == 0 && LockedSum(map[]) == 0
  {
  }

  ghost function Deployed(config: Config, owner: Address): (c: Contract)
    ensures Books(c)
  {
    NothingOwed();
    Contract(config, owner, false, map[], map[], map[], map[], map[], map[], map[], {}, {}, map[], {}, map[1 := 500], 1,
      None, 0, 0, 0, 0, 0)
  }

  // ----------------------------------------------------------------------- faithful logs

  ghost predicate Distinct(log: seq<Log>) {
    forall i, j :: 0 <= i < j < |log| ==> log[i].id != log[j].id
  }

  ghost predicate AllFit(world: World, log: seq<Log>) {
    forall i :: 0 <= i < |log| ==> Fits(world, log[i].event)
  }

  function Events(log: seq<Log>): (events: seq<Event>) {
    seq(|log|, i requires 0 <= i < |log| => log[i].event)
  }

  /** The log so far is well formed and projects to the contract's storage. */
  ghost predicate Faithful(world: World, c: Contract, log: seq<Log>, payment: Payment) {
    && Books(c) && Numbered(c) && c.config.feeRecipient == world.feeRecipient
    && WellFormed(world, log)
    && var p := ProjectAll(world.feeRecipient, log);
       p.Some? && Mirror(c, p.value, payment)
  }

  lemma OneMoreEntry(world: World, log: seq<Log>, entry: Log, c': Contract, payment: Payment)
    requires WellFormed(world, log) && ProjectAll(world.feeRecipient, log).Some? && Distinct(log + [entry])
    requires var p := ProjectAll(world.feeRecipient, log).value;
             Mirrored(world, p.(logs := p.logs + {entry.id}), entry, c', payment)
    ensures WellFormed(world, log + [entry])
    ensures var p' := ProjectAll(world.feeRecipient, log + [entry]); p'.Some? && Mirror(c', p'.value, payment)
  {
    var p := ProjectAll(world.feeRecipient, log).value;
    var longer := log + [entry];
    ProjectAppend(world.feeRecipient, log, entry);
    StoredIds(world.feeRecipient, log, entry.id);
    assert entry.id !in p.logs by {
      forall i | 0 <= i < |log| ensures log[i].id != entry.id { assert longer[i] == log[i] && longer[|log|] == entry; }
    }
    forall i | 0 <= i < |longer|
      ensures var before := ProjectAll(world.feeRecipient, longer[..i]);
              before.Some? && Follows(world, before.value, longer[i])
    {
      assert longer[..i] == log[..i];
      if i == |log| { assert log[..i] == log; }
    }
  }

  lemma FaithfulAct(world: World, c: Contract, log: seq<Log>, payment: Payment, m: Message, entry: Log)
    requires Faithful(world, c, log, payment) && Act(c, m).Some? && entry.event == Act(c, m).value.event
    requires Fits(world, entry.event) && Distinct(log + [entry])
    ensures Faithful(world, Act(c, m).value.contract, log + [entry], payment)
  {
    var p := ProjectAll(world.feeRecipient, log).value;
    var noted := p.(logs := p.logs + {entry.id});
    assert Mirror(c, noted, payment);
    ActKeepsBooks(c, m);
    ActKeepsNumbers(c, m);
    ActMirrors(world, c, noted, payment, m, entry);
    OneMoreEntry(world, log, entry, Act(c, m).value.contract, payment);
  }

  lemma SameEnds<T>(a: seq<T>, x: T, b: seq<T>, y: T)
    requires a + [x] == b + [y]
    ensures a == b && x == y
  {
    assert (a + [x])[|a|] == x && (b + [y])[|b|] == y;
    assert (a + [x])[..|a|] == a && (b + [y])[..|b|] == b;
  }

  /** The last entry apart from those before it. */
  lemma SplitLast(world: World, log: seq<Log>, entries: seq<Log>)
    requires entries != [] && AllFit(world, entries) && Distinct(log + entries)
    ensures var n := |entries| - 1;
            && log + entries == (log + entries[..n]) + [entries[n]] && Distinct(log + entries[..n])
            && AllFit(world, entries[..n]) && Fits(world, entries[n].event)
            && Events(entries) == Events(entries[..n]) + [entries[n].event]
  {
    var n := |entries| - 1;
    assert log + entries == (log + entries[..n]) + [entries[n]];
    forall i, j | 0 <= i < j < |log| + n ensures (log + entries[..n])[i].id != (log + entries[..n])[j].id {
      assert (log + entries[..n])[i] == (log + entries)[i] && (log + entries[..n])[j] == (log + entries)[j];
    }
  }

  lemma {:induction false} FaithfulActs(world: World, c: Contract, log: seq<Log>, payment: Payment, ms: seq<Message>,
                                        entries: seq<Log>)
    requires Faithful(world, c, log, payment) && Events(entries) == ActAll(c, ms).events
    requires AllFit(world, entries) && Distinct(log + entries)
    ensures Faithful(world, ActAll(c, ms).contract, log + entries, payment)
    decreases |ms|
  {
    if ms == [] {
      assert |entries| == |Events(entries)| && log + entries == log;
    } else {
      var m, before := ms[|ms| - 1], ActAll(c, ms[..|ms| - 1]);
      if Act(before.contract, m).None? {
        FaithfulActs(world, c, log, payment, ms[..|ms| - 1], entries);
      } else {
        var n := |entries| - 1;
        assert |entries| == |Events(entries)| == |before.events| + 1;
        SplitLast(world, log, entries);
        SameEnds(Events(entries[..n]), entries[n].event, before.events, Act(before.contract, m).value.event);
        FaithfulActs(world, c, log, payment, ms[..|ms| - 1], entries[..n]);
        FaithfulAct(world, before.contract, log + entries[..n], payment, m, entries[n]);
      }
    }
  }

  function Messages(sender: Address, now: nat, receipts: seq<Signed>): (ms: seq<Message>) {
    seq(|receipts|, i requires 0 <= i < |receipts| => Message(sender, now, SettleReceipt(receipts[i])))
  }

  lemma {:induction false} BatchIsActs(c: Contract, sender: Address, now: nat, receipts: seq<Signed>)
    requires Books(c) && SettleAll(c, sender, now, receipts).Some?
    ensures SettleAll(c, sender, now, receipts).value == ActAll(c, Messages(sender, now, receipts))
    decreases |receipts|
  {
    if receipts != [] {
      var n := |receipts| - 1;
      BatchIsActs(c, sender, now, receipts[..n]);
      assert Messages(sender, now, receipts)[..n] == Messages(sender, now, receipts[..n]);
    }
  }

  /** The claimed amount leaves the contract's storage before the log says so. */
  lemma PayingOutMirrors(c: Contract, p: Projection, a: Address)
    requires Books(c) && Mirror(c, p, NO_PAYMENT)
    ensures Mirror(PayingOut(c, a), p, Payment(a, At(c.claimable, a)))
  {
    var paying, payment := PayingOut(c, a), Payment(a, At(c.claimable, a));
    forall b: Address ensures AccountOf(p.accounts, b) == RowOf(paying, payment, b) {
      assert AccountOf(p.accounts, b) == RowOf(c, NO_PAYMENT, b);
    }
  }

  /** When the log says so, nothing is on its way any more. */
  lemma ClaimedMirrors(world: World, c: Contract, p: Projection, payment: Payment, log: Log)
    requires Mirror(c, p, payment) && payment.amount > 0 && log.event == Claimed(payment.account, payment.amount)
    ensures Mirrored(world, p, log, c, NO_PAYMENT)
  {
    var after := Project(p, world.feeRecipient, log).value;
    assert AccountOf(p.accounts, payment.account) == RowOf(c, payment, payment.account);
    forall b: Address ensures AccountOf(after.accounts, b) == RowOf(c, NO_PAYMENT, b) {
      assert AccountOf(p.accounts, b) == RowOf(c, payment, b);
    }
    AccountTables(world, c, p, c, log);
  }

  lemma ClaimEntry(world: World, c: Contract, log: seq<Log>, payment: Payment, entry: Log)
    requires Faithful(world, c, log, payment) && payment.amount > 0 && Distinct(log + [entry])
    requires entry.event == Claimed(payment.account, payment.amount)
    ensures Faithful(world, c, log + [entry], NO_PAYMENT)
  {
    var p := ProjectAll(world.feeRecipient, log).value;
    var noted := p.(logs := p.logs + {entry.id});
    assert Mirror(c, noted, payment);
    ClaimedMirrors(world, c, noted, payment, entry);
    OneMoreEntry(world, log, entry, c, NO_PAYMENT);
  }

  lemma FaithfulClaim(world: World, c: Contract, log: seq<Log>, a: Address, callbacks: seq<Message>, entries: seq<Log>)
    requires Faithful(world, c, log, NO_PAYMENT) && At(c.claimable, a) > 0
    requires Events(entries) == Deliver(c, Claim(a, true, callbacks)).value.events
    requires AllFit(world, entries) && Distinct(log + entries)
    ensures Faithful(world, Deliver(c, Claim(a, true, callbacks)).value.contract, log + entries, NO_PAYMENT)
  {
    var payment, n := Payment(a, At(c.claimable, a)), |entries| - 1;
    PayingOutBooks(c, a);
    PayingOutMirrors(c, ProjectAll(world.feeRecipient, log).value, a);
    var paying := PayingOut(c, a);
    var after := ActAll(paying, callbacks);
    assert |entries| == |Events(entries)| == |after.events| + 1;
    SplitLast(world, log, entries);
    SameEnds(Events(entries[..n]), entries[n].event, after.events, Claimed(a, payment.amount));
    assert Faithful(world, paying, log, payment);
    FaithfulActs(world, paying, log, payment, callbacks, entries[..n]);
    ClaimEntry(world, after.contract, log + entries[..n], payment, entries[n]);
  }

  lemma FaithfulDeal(world: World, c: Contract, log: seq<Log>, deal: Deal, entries: seq<Log>)
    requires Faithful(world, c, log, NO_PAYMENT) && Deliver(c, deal).Some?
             && Events(entries) == Deliver(c, deal).value.events
    requires AllFit(world, entries) && Distinct(log + entries)
    ensures Faithful(world, Deliver(c, deal).value.contract, log + entries, NO_PAYMENT)
  {
    match deal
    case Plain(m) =>
      assert |entries| == |Events(entries)| == 1 && entries == [entries[0]] && Events(entries)[0] == entries[0].event;
      FaithfulAct(world, c, log, NO_PAYMENT, m, entries[0]);
    case Batch(sender, now, receipts) =>
      BatchIsActs(c, sender, now, receipts);
      FaithfulActs(world, c, log, NO_PAYMENT, Messages(sender, now, receipts), entries);
    case Claim(a, _, callbacks) => FaithfulClaim(world, c, log, a, callbacks, entries);
  }

  lemma FaithfulFromTheStart(world: World, config: Config, owner: Address)
    requires config.feeRecipient == world.feeRecipient
    ensures Faithful(world, Deployed(config, owner), [], NO_PAYMENT)
  {
    assert Mirror(Deployed(config, owner), EMPTY_PROJECTION, NO_PAYMENT);
  }

  /** Every log the contract can write, from its deployment on, is well formed; its
      projection is the contract's storage; and the contract holds exactly what it owes. */
  lemma {:induction false} EveryLogIsFaithful(world: World, config: Config, owner: Address, deals: seq<Deal>,
                                              log: seq<Log>)
    requires config.feeRecipient == world.feeRecipient
    requires Events(log) == DeliverAll(Deployed(config, owner), deals).events && AllFit(world, log) && Distinct(log)
    ensures Faithful(world, DeliverAll(Deployed(config, owner), deals).contract, log, NO_PAYMENT)
    decreases |deals|
  {
    var c0 := Deployed(config, owner);
    if deals == [] {
      assert |log| == |Events(log)| == 0;
      FaithfulFromTheStart(world, config, owner);
    } else {
      var n := |deals| - 1;
      var before := DeliverAll(c0, deals[..n]);
      if Deliver(before.contract, deals[n]).None? {
        EveryLogIsFaithful(world, config, owner, deals[..n], log);
      } else {
        var k := |before.events|;
        assert |log| == |Events(log)| >= k;
        assert log == log[..k] + log[k..] && Events(log[..k]) == Events(log)[..k]
          && Events(log[k..]) == Events(log)[k..];
        EveryLogIsFaithful(world, config, owner, deals[..n], log[..k]);
        FaithfulDeal(world, before.contract, log[..k], deals[n], log[k..]);
      }
    }
  }
}
