/** The rows of one request agree with each other and with its handler. */
module Coherence {
  import opened Basics
  import opened Charging
  import opened Tables
  import opened Ledger
  import opened Protocol

  function Look<K, V>(m: map<K, V>, k: K): Option<V> {
    if k in m then Some(m[k]) else None
  }

  /** The handler's position admits the request's state. */
  predicate PcOK(r: RequestId, pc: Pc, q: Request, h: Hold) {
    match pc
    case Waiting => q.state == Offered
    case Looping(streaming) => q.state == if streaming then Streaming else Accepted
    case Persisting(p) => q.state == Streaming && Reported(p, q)
    case Finalizing => q.state == Completed && h.amount == q.maximumSpend
    case Signing(receipt) =>
      && q.state == Completed && receipt.request == r && receipt.session == q.session
      && receipt.total == h.amount
    case Aborting(to) =>
      && (q.state.Offered? || q.state.Accepted? || q.state.Streaming? || q.state.Completed? || q.state.Signed?
        || q.state.Submitted? || q.state.Settled?)
      && (to == Failed || (to == Cancelled && (q.state.Accepted? || q.state.Streaming?)))
    case Exited(clean) => clean ==>
      (q.state.Offered? || q.state.Failed? || q.state.Cancelled? || q.state.Signed? || q.state.Submitted?
      || q.state.Settled?)
  }

  predicate Reported(p: Proposal, q: Request) {
    && p.session == q.session && p.machine == q.machine && p.offer == q.offer && p.version == q.version
    && Within(p.usage, q.limits)
  }

  predicate Queued(r: RequestId, q: Request, h: Hold, row: Option<QueueRow>, state: QueueState) {
    && row.Some? && row.value.state == state
    && row.value.receipt.request == r && row.value.receipt.session == q.session
    && row.value.receipt.total == h.amount
    && (row.value.transaction.None? <==> state == Cosigned)
  }

  /** What each state of a request says about its hold, proposal, queue row and settlement. */
  predicate StateOK(r: RequestId, q: Request, h: Hold, p: Option<Proposal>, row: Option<QueueRow>,
                    paid: Option<Settlement>) {
    && h.session == q.session && h.amount <= q.maximumSpend && 0 < q.maximumSpend
    && (q.state == Settled <==> paid.Some?)
    && match q.state
       case Offered | Accepted | Streaming => !h.released && h.amount == q.maximumSpend && p.None? && row.None?
       case Completed => (h.released <==> h.amount == 0) && p.Some? && Reported(p.value, q) && row.None?
       case Signed => (h.released <==> h.amount == 0) && Queued(r, q, h, row, Cosigned)
       case Submitted => (h.released <==> h.amount == 0) && Queued(r, q, h, row, Broadcasting)
       case Settled =>
         && h.released && Queued(r, q, h, row, QueueSettled)
         && paid.value.session == q.session && paid.value.Charge() == h.amount
       case Failed | Cancelled => h.released && row.None?
       case _ => false
  }

  ghost predicate RowOK(db: Db, pcs: map<RequestId, Pc>, r: RequestId) {
    && r in db.requests && r in db.holds && r in pcs
    && PcOK(r, pcs[r], db.requests[r], db.holds[r])
    && StateOK(r, db.requests[r], db.holds[r], Look(db.proposals, r), Look(db.queue, r), Look(db.chain.settlements, r))
  }

  ghost predicate Coherent(db: Db, pcs: map<RequestId, Pc>) {
    forall r ::
      r in db.requests || r in db.holds || r in pcs || r in db.proposals || r in db.queue || r in db.chain.settlements
      ==> RowOK(db, pcs, r)
  }

  predicate SameRow(db: Db, pcs: map<RequestId, Pc>, db': Db, pcs': map<RequestId, Pc>, r: RequestId) {
    && Look(db.requests, r) == Look(db'.requests, r) && Look(db.holds, r) == Look(db'.holds, r)
    && Look(pcs, r) == Look(pcs', r) && Look(db.proposals, r) == Look(db'.proposals, r)
    && Look(db.queue, r) == Look(db'.queue, r) && Look(db.chain.settlements, r) == Look(db'.chain.settlements, r)
  }

  /** A step that touches one request only has that request to answer for. */
  lemma OneRow(db: Db, pcs: map<RequestId, Pc>, db': Db, pcs': map<RequestId, Pc>, r: RequestId)
    requires Coherent(db, pcs) && RowOK(db', pcs', r)
    requires forall other :: other != r ==> SameRow(db, pcs, db', pcs', other)
    ensures Coherent(db', pcs')
  {
    forall other | other != r && (other in db'.requests || other in db'.holds || other in pcs' || other in db'.proposals
                                  || other in db'.queue || other in db'.chain.settlements)
      ensures RowOK(db', pcs', other)
    {
      assert SameRow(db, pcs, db', pcs', other);
      assert RowOK(db, pcs, other);
    }
  }

  lemma AtInit()
    ensures Coherent(EMPTY_DB, map[])
  {
  }

  lemma AtServe(db: Db, pcs: map<RequestId, Pc>, v: Reservation, pc: Pc)
    requires Coherent(db, pcs) && v.request !in pcs && pc in {Waiting, Exited(true)}
    requires ReserveInference(db, v).Commit?
    ensures Coherent(ReserveInference(db, v).db, pcs[v.request := pc])
  {
    var db' := ReserveInference(db, v).db;
    assert !RowOK(db, pcs, v.request);
    OneRow(db, pcs, db', pcs[v.request := pc], v.request);
  }

  lemma AtTransition(db: Db, pcs: map<RequestId, Pc>, r: RequestId, to: RequestState, landing: Landing)
    requires Coherent(db, pcs) && r in pcs
    requires (pcs[r] == Waiting && to == Accepted) || (pcs[r] == Looping(false) && to == Streaming)
    ensures var result := TransitionRequest(db, r, to);
            Coherent(After(db, result, landing), pcs[r := Onward(result, landing, Looping(to == Streaming))])
  {
    assert RowOK(db, pcs, r);
    var result := TransitionRequest(db, r, to);
    OneRow(db, pcs, After(db, result, landing), pcs[r := Onward(result, landing, Looping(to == Streaming))], r);
  }

  lemma AtPcOnly(db: Db, pcs: map<RequestId, Pc>, r: RequestId, pc: Pc)
    requires Coherent(db, pcs) && r in pcs && r in db.requests && r in db.holds
    requires PcOK(r, pc, db.requests[r], db.holds[r])
    ensures Coherent(db, pcs[r := pc])
  {
    assert RowOK(db, pcs, r);
    OneRow(db, pcs, db, pcs[r := pc], r);
  }

  lemma AtComplete(db: Db, pcs: map<RequestId, Pc>, r: RequestId, landing: Landing)
    requires Coherent(db, pcs) && r in pcs && pcs[r].Persisting?
    ensures var result := CompleteInference(db, r, pcs[r].proposal);
            Coherent(After(db, result, landing), pcs[r := Onward(result, landing, Finalizing)])
  {
    assert RowOK(db, pcs, r);
    var result := CompleteInference(db, r, pcs[r].proposal);
    var pc := Onward(result, landing, Finalizing);
    if result.Commit? && landing != Lost { CompletedRow(db, pcs, r, pc); } else { AtPcOnly(db, pcs, r, pc); }
  }

  lemma CompletedRow(db: Db, pcs: map<RequestId, Pc>, r: RequestId, pc: Pc)
    requires Coherent(db, pcs) && r in pcs && pcs[r].Persisting? && CompleteInference(db, r, pcs[r].proposal).Commit?
    requires pc == Finalizing || pc == Aborting(Failed)
    ensures Coherent(CompleteInference(db, r, pcs[r].proposal).db, pcs[r := pc])
  {
    assert RowOK(db, pcs, r);
    OneRow(db, pcs, CompleteInference(db, r, pcs[r].proposal).db, pcs[r := pc], r);
  }

  lemma AtDraft(db: Db, pcs: map<RequestId, Pc>, r: RequestId, domain: Domain, landing: Landing)
    requires Coherent(db, pcs) && r in pcs && pcs[r] == Finalizing
    ensures var result := PrepareReceipt(db, r, domain);
            Coherent(After(db, result, landing),
                     pcs[r := if result.Commit? && landing == Done then Signing(result.value) else Aborting(Failed)])
  {
    assert RowOK(db, pcs, r);
    var result := PrepareReceipt(db, r, domain);
    var pc := if result.Commit? && landing == Done then Signing(result.value) else Aborting(Failed);
    OneRow(db, pcs, After(db, result, landing), pcs[r := pc], r);
  }

  lemma AtQueue(db: Db, pcs: map<RequestId, Pc>, r: RequestId, landing: Landing)
    requires Coherent(db, pcs) && r in pcs && pcs[r].Signing?
    ensures Coherent(if landing != Lost then Enqueue(db, pcs[r].receipt) else db,
                     pcs[r := if landing == Done then Exited(true) else Aborting(Failed)])
  {
    assert RowOK(db, pcs, r);
    OneRow(db, pcs, if landing != Lost then Enqueue(db, pcs[r].receipt) else db,
           pcs[r := if landing == Done then Exited(true) else Aborting(Failed)], r);
  }

  /** An abort that commits leaves the request ended, its hold released. */
  lemma AbortRow(db: Db, pcs: map<RequestId, Pc>, r: RequestId)
    requires RowOK(db, pcs, r) && pcs[r].Aborting?
    requires AbortInference(db, r, pcs[r].to).Commit?
    ensures RowOK(AbortInference(db, r, pcs[r].to).db, pcs[r := Exited(true)], r)
  {
  }

  lemma AtAbort(db: Db, pcs: map<RequestId, Pc>, r: RequestId, lost: bool)
    requires Coherent(db, pcs) && r in pcs && pcs[r].Aborting?
    ensures var result := AbortInference(db, r, pcs[r].to);
            Coherent(if result.Commit? && !lost then result.db else db, pcs[r := Exited(!lost)])
  {
    assert RowOK(db, pcs, r);
    if AbortInference(db, r, pcs[r].to).Rollback? || lost { AtPcOnly(db, pcs, r, Exited(!lost)); }
      else { AbortedRow(db, pcs, r); }
  }

  lemma AbortedRow(db: Db, pcs: map<RequestId, Pc>, r: RequestId)
    requires Coherent(db, pcs) && r in pcs && pcs[r].Aborting? && AbortInference(db, r, pcs[r].to).Commit?
    ensures Coherent(AbortInference(db, r, pcs[r].to).db, pcs[r := Exited(true)])
  {
    var db', pcs' := AbortInference(db, r, pcs[r].to).db, pcs[r := Exited(true)];
    AbortRow(db, pcs, r);
    forall other | other != r ensures SameRow(db, pcs, db', pcs', other) { AbortElsewhere(db, r, pcs[r].to, other); }
    OneRow(db, pcs, db', pcs', r);
  }

  lemma AbortElsewhere(db: Db, r: RequestId, to: RequestState, other: RequestId)
    requires AbortInference(db, r, to).Commit? && other != r
    ensures var db' := AbortInference(db, r, to).db;
            && Look(db.requests, other) == Look(db'.requests, other) && Look(db.holds, other) == Look(db'.holds, other)
            && db'.proposals == db.proposals && db'.queue == db.queue && db'.chain == db.chain
  {
    if db.requests[r].state != to { EndedElsewhere(db, r, to, other); }
  }

  lemma EndedElsewhere(db: Db, r: RequestId, to: RequestState, other: RequestId)
    requires r in db.requests && other != r
    ensures var db' := Ended(db, r, to);
            && Look(db.requests, other) == Look(db'.requests, other) && Look(db.holds, other) == Look(db'.holds, other)
            && db'.proposals == db.proposals && db'.queue == db.queue && db'.chain == db.chain
  {
  }

  lemma AtSubmitOne(db: Db, pcs: map<RequestId, Pc>, r: RequestId, t: Transaction)
    requires Coherent(db, pcs) && r in db.queue && db.queue[r].state == Cosigned
    ensures Coherent(SubmitOne(db, r, t), pcs)
  {
    assert RowOK(db, pcs, r);
    OneRow(db, pcs, SubmitOne(db, r, t), pcs, r);
  }

  /** Rows of a batch do not disturb each other. */
  lemma SubmitAllRows(db: Db, rs: seq<RequestId>, t: Transaction)
    requires forall i :: 0 <= i < |rs| ==> rs[i] in db.queue
    ensures forall r <- db.queue ::
      SubmitAll(db, rs, t).queue[r] == if r in rs then db.queue[r].(state := Broadcasting, transaction := Some(t))
        else db.queue[r]
    decreases |rs|
  {
    if rs != [] {
      var before := rs[..|rs| - 1];
      SubmitAllRows(db, before, t);
      assert rs == before + [rs[|rs| - 1]];
    }
  }

  lemma AtSubmit(db: Db, pcs: map<RequestId, Pc>, rs: seq<RequestId>, t: Transaction)
    requires Coherent(db, pcs)
    requires forall i :: 0 <= i < |rs| ==> rs[i] in db.queue && db.queue[rs[i]].state == Cosigned
    requires forall i, j :: 0 <= i < j < |rs| ==> rs[i] != rs[j]
    ensures Coherent(SubmitAll(db, rs, t), pcs)
    decreases |rs|
  {
    if rs != [] {
      var n := |rs| - 1;
      AtSubmit(db, pcs, rs[..n], t);
      SubmitAllRows(db, rs[..n], t);
      AtSubmitOne(SubmitAll(db, rs[..n], t), pcs, rs[n], t);
    }
  }

  /** Only a settlement changes the settlement rows. */
  /** The rows coherence speaks of. */
  predicate SameRequests(db: Db, db': Db) {
    && db.requests == db'.requests && db.holds == db'.holds && db.proposals == db'.proposals
    && db.queue == db'.queue && db.chain.settlements == db'.chain.settlements
  }

  lemma AtSame(db: Db, pcs: map<RequestId, Pc>, db': Db)
    requires Coherent(db, pcs) && SameRequests(db, db')
    ensures Coherent(db', pcs)
  {
    forall r | r in db'.requests || r in db'.holds || r in pcs || r in db'.proposals || r in db'.queue
      || r in db'.chain.settlements
      ensures RowOK(db', pcs, r)
    {
      assert RowOK(db, pcs, r);
    }
  }

  /** The settlement names a receipt in flight, for exactly what is held. */
  predicate Matches(db: Db, event: Event)
    requires event.ReceiptSettled?
  {
    var r := event.request;
    && r in db.queue && db.queue[r].transaction.Some?
    && db.queue[r].receipt.session == event.session
    && db.queue[r].receipt.total == event.providerAmount + event.feeAmount
  }

  /** Such a settlement finds its hold at the settled charge, so it is never refused,
      and moves its request from submitted to settled. */
  lemma AtSettlement(db: Db, pcs: map<RequestId, Pc>, feeRecipient: Address, log: Log)
    requires Coherent(db, pcs)
    requires log.event.ReceiptSettled? && log.event.request !in db.chain.settlements && Matches(db, log.event)
    ensures var r := log.event.request;
            && r in db.holds && db.holds[r].amount == log.event.providerAmount + log.event.feeAmount
            && r in db.requests && db.requests[r].state == Submitted && db.requests[r].session == log.event.session
            && ApplyLog(db, feeRecipient, log).Commit? && Coherent(ApplyLog(db, feeRecipient, log).db, pcs)
  {
    var r := log.event.request;
    assert RowOK(db, pcs, r);
    var noted := SettlementApplies(db, feeRecipient, log);
    Marked(db, noted, pcs, r);
  }

  /** A settlement on record for a submitted request, and the request marked settled. */
  lemma Marked(db: Db, noted: Db, pcs: map<RequestId, Pc>, r: RequestId)
    requires Coherent(db, pcs) && r in db.requests && db.requests[r].state == Submitted
    requires noted == db.(chain := noted.chain, sessions := noted.sessions) && r in noted.chain.settlements
    requires noted.chain.settlements == db.chain.settlements[r := noted.chain.settlements[r]]
    requires noted.chain.settlements[r].session == db.requests[r].session
    requires r in db.holds && noted.chain.settlements[r].Charge() == db.holds[r].amount
    ensures Coherent(MarkSettled(noted, r), pcs)
  {
    assert RowOK(db, pcs, r);
    MarkKeeps(noted, r);
    OneRow(db, pcs, MarkSettled(noted, r), pcs, r);
  }

  lemma AtUnwind(db: Db, pcs: map<RequestId, Pc>)
    requires Coherent(db, pcs)
    ensures Coherent(Reopen(db), pcs)
  {
    var db' := Reopen(db);
    forall r | r in db'.requests || r in db'.holds || r in pcs || r in db'.proposals || r in db'.queue
      || r in db'.chain.settlements
      ensures RowOK(db', pcs, r)
    {
      assert RowOK(db, pcs, r);
    }
  }
}
