/** What the broker promises and what the contract demands agree. */
module Agreement {
  import opened Basics
  import opened Tables
  import opened Projecting
  import opened Ledger
  import opened Protocol
  import opened Coherence
  import opened Safety
  import opened Market
  import opened Mirroring
  import opened Contracting
  import Drafts
  import Heartbeats
  import Solvency

  /** A settlement of a receipt the broker sent out is one the indexer can match: the
      provider's part and the fee add up to the receipt's total. */
  lemma SettledIsBacked(c: Contract, now: nat, signed: Signed, broadcast: set<Transaction>, t: Transaction, i: nat)
    requires Books(c) && Settling(c, now, signed).Some?
    requires t in broadcast && i < |t.receipts| && t.receipts[i] == signed.receipt
    ensures Backed(Settling(c, now, signed).value.event, broadcast)
  {
    var share, fee, _ := SettlingPays(c, now, signed);
  }

  /** The broker's exact charge is the price the contract recomputes. */
  lemma DraftIsPriced(db: Db, r: RequestId, domain: Domain, c: Contract)
    requires PrepareReceipt(db, r, domain).Commit? && c.offers == db.chain.offers
    ensures Priced(c, PrepareReceipt(db, r, domain).value)
  {
  }

  /** What a hold locks is still free in its session on chain. */
  lemma HeldFits(world: World, db: Db, c: Contract, r: RequestId)
    requires Solvency.ChainSessionsOK(world, db.chain) && Solvency.SessionsOK(world, db) && Solvency.Solvent(world, db)
    requires TablesMirror(c, db.chain) && r in db.holds && db.holds[r].session in c.sessions
    requires !db.holds[r].released || db.holds[r].amount == 0
    ensures var session := c.sessions[db.holds[r].session];
            session.spent + db.holds[r].amount <= session.allowance
  {
    var s := db.holds[r].session;
    assert Solvency.Committed(db, s) <= world.terms(s).allowance;
    TotalAtLeast(db.holds.Keys, k => Held(db.holds, s, k), r);
  }

  /** While the projection is current, the contract finds every queued receipt's charge
      within what its session has left, whatever else the session has in flight. */
  lemma QueuedFits(world: World, s: State, c: Contract, r: RequestId)
    requires Inv(world, s) && TablesMirror(c, s.db.chain)
    requires r in s.db.queue && s.db.queue[r].state != QueueSettled && s.db.queue[r].receipt.session in c.sessions
    ensures var receipt := s.db.queue[r].receipt;
            c.sessions[receipt.session].spent + receipt.total <= c.sessions[receipt.session].allowance
    ensures r !in c.settled
  {
    assert RowOK(s.db, s.pcs, r);
    HeldFits(world, s.db, c, r);
  }

  /** A prepared receipt names the customer whose session pays for it. */
  lemma DraftNamesCustomer(world: World, db: Db, r: RequestId, domain: Domain, c: Contract)
    requires Solvency.ChainSessionsOK(world, db.chain) && Solvency.SessionsOK(world, db) && TablesMirror(c, db.chain)
    requires OneWalletEach(db.accounts) && PrepareReceipt(db, r, domain).Commit?
    ensures var receipt := PrepareReceipt(db, r, domain).value;
            && receipt.customer == world.terms(receipt.session).customer
            && (receipt.session in c.sessions ==> receipt.customer == c.sessions[receipt.session].customer)
  {
    Drafts.SessionWallet(world, db, db.proposals[r].session);
  }

  /** So the contract can refuse a receipt the broker has just prepared, on an indexed
      session, only for reasons of time, pause, fee version or signature: never for its
      price, its customer or the session's allowance. */
  lemma DraftIsSettleable(world: World, s: State, c: Contract, payment: Payment, r: RequestId, domain: Domain)
    requires Inv(world, s) && Mirror(c, s.db.chain, payment)
    requires r in s.pcs && s.pcs[r] == Finalizing && PrepareReceipt(s.db, r, domain).Commit?
    requires s.db.requests[r].session in c.sessions && !c.sessions[s.db.requests[r].session].finalized
    ensures var receipt := PrepareReceipt(s.db, r, domain).value; Priced(c, receipt) && Affordable(c, receipt)
  {
    assert RowOK(s.db, s.pcs, r);
    DraftIsPriced(s.db, r, domain, c);
    DraftNamesCustomer(world, s.db, r, domain, c);
    HeldFits(world, s.db, c, r);
    DraftTotal(s.db, r, domain);
  }

  lemma DraftTotal(db: Db, r: RequestId, domain: Domain)
    requires PrepareReceipt(db, r, domain).Commit?
    ensures r in db.holds && PrepareReceipt(db, r, domain).value.total <= db.holds[r].amount
    ensures PrepareReceipt(db, r, domain).value.session == db.proposals[r].session
  {
  }

  /** An offer that a heartbeat opened is one the contract would settle: while the projection
      is current, its provider has a bond there that it has not asked back, and the offer is
      published there at the route's rates. */
  lemma OpenSlotsAreBacked(db: Db, c: Contract, payment: Payment, m: MachineId, beat: Heartbeat, key: RouteKey)
    requires Mirror(c, db.chain, payment) && ReconcileCapacity(db, m, beat).Commit? && key.machine == m
    requires var routes := ReconcileCapacity(db, m, beat).db.routes; key in routes && routes[key].capacity > 0
    ensures m in db.machines
    ensures var route, wallet := ReconcileCapacity(db, m, beat).db.routes[key], db.machines[m].wallet;
            && At(c.bonds, wallet) > 0 && At(c.exits, wallet) == 0 && route.hashes.Some?
            && var h := route.hashes.value;
               var offer := OfferKey(wallet, h.offer, route.version);
               offer in c.offers && c.offers[offer] == OfferTerms(h.model, h.capability, route.rates)
  {
    var i := Heartbeats.OpenSlotsAreEarned(db, m, beat, key);
    assert AccountOf(db.chain.accounts, db.machines[m].wallet) == RowOf(c, payment, db.machines[m].wallet);
  }

  // ------------------------------------------------------- the contract's log on the chain

  /** The receipt went out in some transaction. */
  ghost predicate Sent(receipt: Receipt, broadcast: set<Transaction>) {
    exists t, i :: t in broadcast && 0 <= i < |t.receipts| && t.receipts[i] == receipt
  }

  /** Whatever the broker signed went out. */
  ghost predicate Known(message: Message, broadcast: set<Transaction>) {
    message.call.SettleReceipt? && message.call.signed.byBroker ==> Sent(message.call.signed.receipt, broadcast)
  }

  ghost predicate KnownDeal(deal: Deal, broadcast: set<Transaction>) {
    match deal
    case Plain(message) => Known(message, broadcast)
    case Batch(sender, now, receipts) => forall m <- Messages(sender, now, receipts) :: Known(m, broadcast)
    case Claim(_, _, callbacks) => forall m <- callbacks :: Known(m, broadcast)
  }

  ghost predicate BackedEvents(events: seq<Event>, broadcast: set<Transaction>) {
    forall i :: 0 <= i < |events| && events[i].ReceiptSettled? ==> Backed(events[i], broadcast)
  }

  lemma ActIsBacked(c: Contract, m: Message, broadcast: set<Transaction>)
    requires Books(c) && Act(c, m).Some? && Known(m, broadcast)
    ensures BackedEvents([Act(c, m).value.event], broadcast)
  {
    if m.call.SettleReceipt? {
      var receipt := m.call.signed.receipt;
      var t, i :| t in broadcast && 0 <= i < |t.receipts| && t.receipts[i] == receipt;
      SettledIsBacked(c, m.now, m.call.signed, broadcast, t, i);
    }
  }

  lemma {:induction false} ActsAreBacked(c: Contract, ms: seq<Message>, broadcast: set<Transaction>)
    requires Books(c) && forall m <- ms :: Known(m, broadcast)
    ensures BackedEvents(ActAll(c, ms).events, broadcast)
    decreases |ms|
  {
    if ms != [] {
      var n := |ms| - 1;
      ActsAreBacked(c, ms[..n], broadcast);
      var before := ActAll(c, ms[..n]);
      assert ms[n] in ms;
      if Act(before.contract, ms[n]).Some? { ActIsBacked(before.contract, ms[n], broadcast); }
    }
  }

  lemma DealIsBacked(c: Contract, deal: Deal, broadcast: set<Transaction>)
    requires Books(c) && Deliver(c, deal).Some? && KnownDeal(deal, broadcast)
    ensures BackedEvents(Deliver(c, deal).value.events, broadcast)
  {
    match deal
    case Plain(m) => ActIsBacked(c, m, broadcast);
    case Batch(sender, now, receipts) =>
      BatchIsActs(c, sender, now, receipts);
      ActsAreBacked(c, Messages(sender, now, receipts), broadcast);
    case Claim(a, _, callbacks) =>
      PayingOutBooks(c, a);
      ActsAreBacked(PayingOut(c, a), callbacks, broadcast);
  }

  lemma {:induction false} DealsAreBacked(c: Contract, deals: seq<Deal>, broadcast: set<Transaction>)
    requires Books(c) && forall deal <- deals :: KnownDeal(deal, broadcast)
    ensures BackedEvents(DeliverAll(c, deals).events, broadcast)
    decreases |deals|
  {
    if deals != [] {
      var n := |deals| - 1;
      DealsAreBacked(c, deals[..n], broadcast);
      var before := DeliverAll(c, deals[..n]);
      assert deals[n] in deals;
      if Deliver(before.contract, deals[n]).Some? { DealIsBacked(before.contract, deals[n], broadcast); }
    }
  }

  /** What the protocol takes from the chain is what the contract does: any chain whose log
      the contract wrote, from its deployment on and with every receipt that bears the
      broker's signature sent out before, may be mined in any state of the protocol. */
  lemma ContractsChainMayBeMined(world: World, s: State, chain: seq<Block>, config: Config, owner: Address,
                                 deals: seq<Deal>)
    requires config.feeRecipient == world.feeRecipient && forall deal <- deals :: KnownDeal(deal, s.broadcast)
    requires Events(Logs(chain)) == DeliverAll(Deployed(config, owner), deals).events
    requires AllFit(world, Logs(chain)) && Distinct(Logs(chain))
    ensures Next(world, s, s.(chain := chain), Mine(chain))
  {
    var log := Logs(chain);
    EveryLogIsFaithful(world, config, owner, deals, log);
    DealsAreBacked(Deployed(config, owner), deals, s.broadcast);
    forall i | 0 <= i < |log| && log[i].event.ReceiptSettled? ensures Backed(log[i].event, s.broadcast) {
      assert Events(log)[i] == log[i].event;
    }
  }
}
