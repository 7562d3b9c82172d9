/** From the provider's report to the receipt: what is charged is what was reported, at
    the published rates, on the terms under which the receipt was drafted. */
module Reporting {
  import opened Basics
  import opened Charging
  import opened Tables
  import opened Projecting
  import opened Ledger
  import opened Protocol
  import opened Coherence
  import opened Safety
  import opened Changes
  import Capping
  import Dispatch
  import Drafts
  import Nonces
  import Prices
  import Restoring
  import Solvency
  import Theorems

  /** The receipt states the reported usage, hashes and time, and charges that usage at the
      rates published for its offer. */
  ghost predicate Charges(world: World, receipt: Receipt, p: Proposal) {
    && receipt.usage == p.usage && receipt.inputHash == p.inputHash && receipt.outputHash == p.outputHash
    && receipt.completedAt == p.completedAt && receipt.session == p.session && receipt.version == p.version
    && receipt.total == ExactTotal(Published(world, receipt), p.usage)
  }

  function Published(world: World, receipt: Receipt): (rates: Rates) {
    world.offer(OfferKey(receipt.provider, receipt.hashes.offer, receipt.version)).rates
  }

  /** The parties, and the terms read from the contract when the receipt was drafted. */
  ghost predicate OnTerms(world: World, db: Db, receipt: Receipt, domain: Domain) {
    && receipt.request in db.requests
    && var q := db.requests[receipt.request];
       && receipt.session == q.session && receipt.version == q.version && receipt.hashes == q.hashes
       && receipt.maximum == q.maximumSpend && receipt.total <= q.maximumSpend
       && q.machine in db.machines && receipt.provider == db.machines[q.machine].wallet
       && receipt.customer == world.terms(q.session).customer
       && receipt.signer == domain.signer && receipt.feeBasisPoints == domain.feeBasisPoints
       && receipt.feeVersion == domain.feeVersion && 0 < domain.feeVersion && domain.feeBasisPoints <= 1_500
  }

  /** A receipt just drafted. */
  lemma DraftCharges(world: World, db: Db, r: RequestId, domain: Domain)
    requires Prices.OffersOK(world, db.chain) && PrepareReceipt(db, r, domain).Commit?
    ensures r in db.proposals && Charges(world, PrepareReceipt(db, r, domain).value, db.proposals[r])
    ensures PrepareReceipt(db, r, domain).value.request == r
  {
  }

  /** It bears the number that the provider's books give it. */
  lemma DraftIsNumbered(db: Db, r: RequestId, domain: Domain)
    requires PrepareReceipt(db, r, domain).Commit?
    ensures var result := PrepareReceipt(db, r, domain);
            r in result.db.nonces && result.db.nonces[r].number == result.value.nonce
            && (r !in db.nonces ==> result.db.nonces[r].provider == result.value.provider)
  {
  }

  lemma DraftIsOnTerms(world: World, db: Db, pcs: map<RequestId, Pc>, r: RequestId, domain: Domain)
    requires Coherent(db, pcs) && OneWalletEach(db.accounts) && Solvency.SessionsOK(world, db)
    requires PrepareReceipt(db, r, domain).Commit?
    ensures OnTerms(world, db, PrepareReceipt(db, r, domain).value, domain)
  {
    assert RowOK(db, pcs, r);
    Drafts.SessionWallet(world, db, db.proposals[r].session);
  }

  /** A completed request's receipt is drafted exactly when the contract's terms are in
      order, the machine has not been revoked, its offer is still published as it was
      reserved, and no identity or hash is missing: never is the charge the obstacle. */
  lemma DraftSucceedsIff(world: World, s: State, r: RequestId, domain: Domain)
    requires Inv(world, s) && r in s.pcs && s.pcs[r] == Finalizing
    ensures r in s.db.requests && r in s.db.proposals && s.db.requests[r].machine in s.db.machines
    ensures var q, p := s.db.requests[r], s.db.proposals[r];
            var machine, offers := s.db.machines[q.machine], s.db.chain.offers;
            var key := OfferKey(machine.wallet, q.hashes.offer, q.version);
            PrepareReceipt(s.db, r, domain).Commit? <==>
              && domain.valid && 0 < domain.feeVersion && domain.feeBasisPoints <= 1_500 && domain.signer != 0
              && !machine.revoked
              && key in offers && offers[key].model == q.hashes.model && offers[key].capability == q.hashes.capability
              && r != 0 && q.session != 0 && world.terms(q.session).customer != 0 && machine.wallet != 0
                && q.version != 0
              && q.hashes.offer != 0 && q.hashes.model != 0 && q.hashes.capability != 0
              && p.inputHash != 0 && p.outputHash != 0 && p.completedAt != 0
  {
    CompletedRow(world, s, r, domain);
    DraftIff(s.db, r, domain, world.terms(s.db.requests[r].session).customer);
  }

  /** What a completed request has in any case: its rows, its customer, and a charge that
      its hold covers. */
  ghost predicate Chargeable(db: Db, r: RequestId, customer: Address) {
    && HasRows(db, r) && HasCustomer(db, r, customer)
    && NonceOf(db, r, db.machines[db.requests[r].machine].wallet).number > 0
    && (Preparable(db, r) && PublishedRates(db, r).Some? ==>
          var total := Cost(PublishedRates(db, r).value, db.proposals[r].usage);
          total.Some? && total.value <= db.requests[r].maximumSpend)
  }

  ghost predicate HasRows(db: Db, r: RequestId) {
    && r in db.requests && r in db.proposals && r in db.holds && db.requests[r].state == RequestState.Completed
    && db.proposals[r].session == db.requests[r].session && db.proposals[r].machine == db.requests[r].machine
    && db.proposals[r].version == db.requests[r].version
    && db.requests[r].machine in db.machines && db.requests[r].session in db.sessions
    && db.holds[r].amount == db.requests[r].maximumSpend
  }

  ghost predicate HasCustomer(db: Db, r: RequestId, customer: Address)
    requires HasRows(db, r)
  {
    var account := db.sessions[db.requests[r].session].account;
    WalletOf(db.accounts, account, customer) && WalletFor(db.accounts, account) == customer
  }

  lemma CompletedRow(world: World, s: State, r: RequestId, domain: Domain)
    requires Inv(world, s) && r in s.pcs && s.pcs[r] == Finalizing
    ensures r in s.db.requests && Chargeable(s.db, r, world.terms(s.db.requests[r].session).customer)
  {
    RowsOf(world, s, r);
    Drafts.SessionWallet(world, s.db, s.db.requests[r].session);
    Prices.NeverTooDear(world, s.db, s.pcs, r, domain);
    NumberIsPositive(s.db, r);
  }

  lemma RowsOf(world: World, s: State, r: RequestId)
    requires Inv(world, s) && r in s.pcs && s.pcs[r] == Finalizing
    ensures HasRows(s.db, r)
  {
    assert RowOK(s.db, s.pcs, r);
    assert Prices.RequestPriced(world, s.db.machines, s.db.requests[r]);
  }

  lemma DraftIff(db: Db, r: RequestId, domain: Domain, customer: Address)
    requires Chargeable(db, r, customer)
    ensures var q, p := db.requests[r], db.proposals[r];
            var machine, offers := db.machines[q.machine], db.chain.offers;
            var key := OfferKey(machine.wallet, q.hashes.offer, q.version);
            PrepareReceipt(db, r, domain).Commit? <==>
              && domain.valid && 0 < domain.feeVersion && domain.feeBasisPoints <= 1_500 && domain.signer != 0
              && !machine.revoked
              && key in offers && offers[key].model == q.hashes.model && offers[key].capability == q.hashes.capability
              && r != 0 && q.session != 0 && customer != 0 && machine.wallet != 0 && q.version != 0
              && q.hashes.offer != 0 && q.hashes.model != 0 && q.hashes.capability != 0
              && p.inputHash != 0 && p.outputHash != 0 && p.completedAt != 0
  {
  }

  /** Receipt numbers start at one. */
  lemma NumberIsPositive(db: Db, r: RequestId)
    requires Nonces.NoncesOK(db.nonces)
    ensures forall provider :: NonceOf(db, r, provider).number > 0
  {
  }

  // ------------------------------------------------------------- from the report on

  /** After the report p of request r: nothing else is ever stored, drafted or queued. */
  ghost predicate Traced(world: World, s: State, r: RequestId, p: Proposal) {
    && r in s.pcs && !s.pcs[r].Waiting? && !s.pcs[r].Looping?
    && (s.pcs[r].Persisting? ==> s.pcs[r].proposal == p)
    && (s.pcs[r].Signing? ==> Charges(world, s.pcs[r].receipt, p))
    && (r in s.db.proposals ==> s.db.proposals[r] == p)
    && (r in s.db.queue ==> Charges(world, s.db.queue[r].receipt, p))
  }

  /** A handler that has its report goes on, and the receipt it signs is the one it drafted. */
  lemma LaterPc(world: World, s: State, s': State, step: Step, r: RequestId)
    requires Next(world, s, s', step) && r in s.pcs && !s.pcs[r].Waiting? && !s.pcs[r].Looping?
    ensures r in s'.pcs
    ensures s'.pcs[r] == s.pcs[r] || s'.pcs[r].Finalizing? || s'.pcs[r].Aborting? || s'.pcs[r].Exited?
         || (s'.pcs[r].Signing? && step.Draft? && step.r == r && s.pcs[r].Finalizing?
             && PrepareReceipt(s.db, r, step.domain) == Commit(s'.db, s'.pcs[r].receipt))
  {
  }

  lemma BatchKeepsReceipts(db: Db, rs: seq<RequestId>, t: Transaction, r: RequestId)
    requires (forall i :: 0 <= i < |rs| ==> rs[i] in db.queue)
    ensures SubmitAll(db, rs, t).proposals == db.proposals
    ensures r in SubmitAll(db, rs, t).queue <==> r in db.queue
    ensures r in db.queue ==> SubmitAll(db, rs, t).queue[r].receipt == db.queue[r].receipt
    decreases |rs|
  {
    if rs != [] { BatchKeepsReceipts(db, rs[..|rs| - 1], t, r); }
  }

  lemma SettlingKeepsReceipts(db: Db, db': Db, r: RequestId)
    requires Restoring.OnlySettles(db, db')
    ensures db'.proposals == db.proposals && (r in db'.queue <==> r in db.queue)
    ensures r in db.queue ==> db'.queue[r].receipt == db.queue[r].receipt
  {
  }

  /** The proposal and the receipt of a request come from its own completion and its own
      queueing, and from nothing else. */
  ghost predicate Sourced(db: Db, db': Db, change: Change, r: RequestId) {
    && (r in db'.proposals ==>
          if r in db.proposals then db'.proposals[r] == db.proposals[r]
          else change == NewProposal(r, db'.proposals[r]))
    && (r in db'.queue ==>
          if r in db.queue then db'.queue[r].receipt == db.queue[r].receipt
          else change == NewQueueRow(db'.queue[r].receipt) && db'.queue[r].receipt.request == r)
  }

  lemma CompletionSources(db: Db, done: RequestId, p: Proposal, r: RequestId)
    requires CompleteInference(db, done, p).Commit?
    ensures Sourced(db, CompleteInference(db, done, p).db, NewProposal(done, p), r)
  {
  }

  lemma QueueSources(db: Db, receipt: Receipt, r: RequestId)
    ensures Sourced(db, Enqueue(db, receipt), NewQueueRow(receipt), r)
  {
  }

  lemma ChangeSources(feeRecipient: Address, db: Db, db': Db, change: Change, r: RequestId)
    requires Changed(feeRecipient, db, db', change)
    ensures Sourced(db, db', change, r)
  {
    match change
    case NewProposal(done, p) => CompletionSources(db, done, p, r);
    case NewQueueRow(receipt) => QueueSources(db, receipt, r);
    case NewReceipt(drafted, domain) => DraftKeeps(db, drafted, domain);
    case Ending(aborted, to) => AbortKeeps(db, aborted, to);
    case BatchWritten(rs, t) => BatchKeepsReceipts(db, rs, t, r);
    case RoutesReconciled(m, beat) => BeatKeeps(db, m, beat);
    case LogsIndexed(logs, _) =>
      Restoring.StretchSettles(db, feeRecipient, logs);
      SettlingKeepsReceipts(db, IndexLogs(db, feeRecipient, logs).db, r);
    case NewReservation(v) => ReservationSources(db, v, r);
    case Unwound(_) => ReopenKeeps(db);
    case _ =>
  }

  lemma ReservationSources(db: Db, v: Reservation, r: RequestId)
    requires ReserveInference(db, v).Commit?
    ensures Sourced(db, ReserveInference(db, v).db, NewReservation(v), r)
  {
  }

  lemma TracedStep(world: World, s: State, s': State, step: Step, r: RequestId, p: Proposal)
    requires Inv(world, s) && Next(world, s, s', step) && Traced(world, s, r, p)
    ensures Traced(world, s', r, p)
  {
    LaterPc(world, s, s', step, r);
    var change := ChangeOf(world, s, s', step);
    ChangeSources(world.feeRecipient, s.db, s'.db, change, r);
    if s'.pcs[r].Signing? && s'.pcs[r] != s.pcs[r] { DraftCharges(world, s.db, r, step.domain); }
    if change.NewQueueRow? { assert RowOK(s.db, s.pcs, step.r); }
  }

  lemma ReportIsTraced(world: World, s: State, s': State, step: Step)
    requires Inv(world, s) && Next(world, s, s', step) && step.Report?
    ensures step.r in s'.pcs && s'.pcs[step.r].Persisting?
    ensures Traced(world, s', step.r, s'.pcs[step.r].proposal) && ReportOf(s'.pcs[step.r].proposal, step)
  {
    assert RowOK(s.db, s.pcs, step.r);
  }

  predicate ReportOf(p: Proposal, step: Step)
    requires step.Report?
  {
    p.usage == step.usage && p.inputHash == step.inputHash && p.outputHash == step.outputHash
    && p.completedAt == step.completedAt
  }

  lemma {:induction false} TracedFrom(world: World, states: seq<State>, steps: seq<Step>, j: nat, k: nat, r: RequestId,
                                      p: Proposal)
    requires Run(world, states, steps) && j <= k < |states| && Traced(world, states[j], r, p)
    ensures Traced(world, states[k], r, p)
    decreases k
  {
    if j < k {
      TracedFrom(world, states, steps, j, k - 1, r, p);
      TracedAt(world, states, steps, k - 1, r, p);
    }
  }

  lemma TracedAt(world: World, states: seq<State>, steps: seq<Step>, i: nat, r: RequestId, p: Proposal)
    requires Run(world, states, steps) && i < |steps| && Traced(world, states[i], r, p)
    ensures Traced(world, states[i + 1], r, p)
  {
    Reached(world, states, steps, i);
    TracedStep(world, states[i], states[i + 1], steps[i], r, p);
  }

  /** The receipt states what the step reported, and charges it at the published rates. */
  ghost predicate ChargesReport(world: World, receipt: Receipt, step: Step)
    requires step.Report?
  {
    && receipt.usage == step.usage && receipt.inputHash == step.inputHash && receipt.outputHash == step.outputHash
    && receipt.completedAt == step.completedAt
    && receipt.total == ExactTotal(Published(world, receipt), step.usage)
  }

  /** Once a handler has reported what a request used, every receipt of that request - at
      its handler's, in the queue, or drafted at any later moment - states that usage, those
      hashes and that time, and charges exactly that usage at the rates of its offer. */
  lemma WhatIsReportedIsCharged(world: World, states: seq<State>, steps: seq<Step>, j: nat, k: nat, domain: Domain)
    requires Run(world, states, steps) && j < k < |states| && steps[j].Report?
    ensures var r, s := steps[j].r, states[k];
            && (r in s.db.queue ==> ChargesReport(world, s.db.queue[r].receipt, steps[j]))
            && (r in s.pcs && s.pcs[r].Signing? ==> ChargesReport(world, s.pcs[r].receipt, steps[j]))
            && (PrepareReceipt(s.db, r, domain).Commit? ==>
                  ChargesReport(world, PrepareReceipt(s.db, r, domain).value, steps[j]))
  {
    var r := steps[j].r;
    Reached(world, states, steps, j);
    assert Next(world, states[j], states[j + 1], steps[j]);
    ReportIsTraced(world, states[j], states[j + 1], steps[j]);
    TracedFrom(world, states, steps, j + 1, k, r, states[j + 1].pcs[r].proposal);
    Drafts.OffersAt(world, states, steps, k);
    if PrepareReceipt(states[k].db, r, domain).Commit? { DraftCharges(world, states[k].db, r, domain); }
  }

  // -------------------------------------------------------------- back to the report

  /** A handler past its report got there by a report. */
  lemma {:induction false} ReportedBefore(world: World, states: seq<State>, steps: seq<Step>, k: nat, r: RequestId)
      returns (j: nat)
    requires Run(world, states, steps) && k < |states| && r in states[k].pcs
    requires states[k].pcs[r].Persisting? || states[k].pcs[r].Finalizing? || states[k].pcs[r].Signing?
    ensures j < k && steps[j].Report? && steps[j].r == r
    decreases k
  {
    assert k > 0;
    var n: nat := k - 1;
    assert Next(world, states[n], states[k], steps[n]);
    if steps[n].Report? && steps[n].r == r {
      j := n;
    } else {
      PastReport(world, states[n], states[k], steps[n], r);
      j := ReportedBefore(world, states, steps, n, r);
    }
  }

  lemma PastReport(world: World, s: State, s': State, step: Step, r: RequestId)
    requires Next(world, s, s', step) && r in s'.pcs && !(step.Report? && step.r == r)
    requires s'.pcs[r].Persisting? || s'.pcs[r].Finalizing? || s'.pcs[r].Signing?
    ensures r in s.pcs && (s.pcs[r].Persisting? || s.pcs[r].Finalizing? || s.pcs[r].Signing?)
  {
  }

  /** A handler about to queue a receipt drafted it. */
  lemma {:induction false} DraftedBefore(world: World, states: seq<State>, steps: seq<Step>, k: nat, r: RequestId)
      returns (i: nat)
    requires Run(world, states, steps) && k < |states| && r in states[k].pcs && states[k].pcs[r].Signing?
    ensures i < k && DraftsReceipt(states[i], steps[i], r, states[k].pcs[r].receipt)
    decreases k
  {
    assert k > 0;
    var n: nat := k - 1;
    assert Next(world, states[n], states[k], steps[n]);
    if DraftsReceipt(states[n], steps[n], r, states[k].pcs[r].receipt) {
      i := n;
    } else {
      PastDraft(world, states[n], states[k], steps[n], r);
      i := DraftedBefore(world, states, steps, n, r);
    }
  }

  ghost predicate DraftsReceipt(s: State, step: Step, r: RequestId, receipt: Receipt) {
    && step.Draft? && step.r == r && r in s.pcs && s.pcs[r] == Finalizing
    && PrepareReceipt(s.db, r, step.domain).Commit? && PrepareReceipt(s.db, r, step.domain).value == receipt
  }

  lemma PastDraft(world: World, s: State, s': State, step: Step, r: RequestId)
    requires Next(world, s, s', step) && r in s'.pcs && s'.pcs[r].Signing?
    requires !DraftsReceipt(s, step, r, s'.pcs[r].receipt)
    ensures r in s.pcs && s.pcs[r] == s'.pcs[r]
  {
  }

  /** A receipt is in the queue already, or its request's handler is about to queue it. */
  lemma QueuedOrSigning(world: World, s: State, s': State, step: Step, r: RequestId)
    requires Coherent(s.db, s.pcs) && Next(world, s, s', step) && r in s'.db.queue
    ensures (r in s.db.queue && s.db.queue[r].receipt == s'.db.queue[r].receipt)
         || (r in s.pcs && s.pcs[r] == Signing(s'.db.queue[r].receipt))
  {
    var change := ChangeOf(world, s, s', step);
    ChangeSources(world.feeRecipient, s.db, s'.db, change, r);
    if r !in s.db.queue { assert RowOK(s.db, s.pcs, step.r); }
  }

  lemma StartsEmpty(world: World, states: seq<State>, steps: seq<Step>)
    requires Run(world, states, steps)
    ensures states[0].db.queue == map[]
  {
  }

  /** A queued receipt was queued by the handler of its request. */
  lemma {:induction false} QueuedBefore(world: World, states: seq<State>, steps: seq<Step>, k: nat, r: RequestId)
      returns (n: nat)
    requires Run(world, states, steps) && k < |states| && r in states[k].db.queue
    ensures n < k && r in states[n].pcs && states[n].pcs[r] == Signing(states[k].db.queue[r].receipt)
    decreases k
  {
    StartsEmpty(world, states, steps);
    n := k - 1;
    CoherentAt(world, states, steps, n);
    QueuedOrSigning(world, states[n], states[k], steps[n], r);
    if !(r in states[n].pcs && states[n].pcs[r] == Signing(states[k].db.queue[r].receipt)) {
      n := QueuedBefore(world, states, steps, n, r);
    }
  }

  /** Behind every receipt in the queue stand one report of what was used and, after it,
      one drafting: the receipt charges the first, on the terms of the second. */
  lemma EveryReceiptWasReported(world: World, states: seq<State>, steps: seq<Step>, k: nat, r: RequestId)
      returns (j: nat, i: nat)
    requires Run(world, states, steps) && k < |states| && r in states[k].db.queue
    ensures j < i < k && steps[j].Report? && steps[j].r == r && steps[i].Draft? && steps[i].r == r
    ensures ChargesReport(world, states[k].db.queue[r].receipt, steps[j])
    ensures OnTerms(world, states[i].db, states[k].db.queue[r].receipt, steps[i].domain)
  {
    var n := QueuedBefore(world, states, steps, k, r);
    i := DraftedBefore(world, states, steps, n, r);
    j := ReportedBefore(world, states, steps, i, r);
    WhatIsReportedIsCharged(world, states, steps, j, k, steps[i].domain);
    Drafts.RowsAt(world, states, steps, i);
    CoherentAt(world, states, steps, i);
    DraftIsOnTerms(world, states[i].db, states[i].pcs, r, steps[i].domain);
  }
}
