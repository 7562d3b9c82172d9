/** What the invariant means for every run. */
module Theorems {
  import opened Basics
  import opened Tables
  import opened Projecting
  import opened Ledger
  import opened Protocol
  import opened Coherence
  import opened Safety
  import Solvency
  import Capacity
  import Trails
  import Nonces
  import Prices
  import Dispatch
  import opened Changes
  import Restoring

  // ------------------------------------------------------------------------- money

  /** At every point of every run, what a session's holds lock and what its
      settlements have spent stay together within its allowance. */
  lemma NeverOvercommitted(world: World, states: seq<State>, steps: seq<Step>, k: nat, session: SessionId)
    requires Run(world, states, steps) && k < |states|
    ensures HeldSum(states[k].db.holds, session) + SettledSum(states[k].db.chain.settlements, session)
         <= world.terms(session).allowance
  {
    Reached(world, states, steps, k);
    if session !in states[k].db.sessions { Uncommitted(world, states[k].db, states[k].pcs, session); }
  }

  /** A session without a row has nothing held and nothing settled. */
  lemma Uncommitted(world: World, db: Db, pcs: map<RequestId, Pc>, session: SessionId)
    requires Coherent(db, pcs) && Solvency.SessionsOK(world, db) && session !in db.sessions
    ensures Solvency.Committed(db, session) == 0
  {
    Solvency.NothingHeld(db.holds, session);
    forall r <- db.chain.settlements ensures db.chain.settlements[r].session != session { assert RowOK(db, pcs, r); }
    Solvency.NothingSpent(db.chain.settlements, session);
  }

  /** Neither indexing nor unwinding changes what any session is committed to. */
  lemma IndexerConserves(world: World, s: State, s': State, step: Step, session: SessionId)
    requires Inv(world, s) && Next(world, s, s', step) && (step.Index? || step.Unwind?)
    ensures Solvency.Committed(s'.db, session) == Solvency.Committed(s.db, session)
  {
    if step.Unwind? {
      Solvency.UnwindConserves(s.db, s.pcs, session);
    } else {
      BatchConserves(world, s, step.first, step.last, session);
    }
  }

  lemma BatchConserves(world: World, s: State, first: nat, last: nat, session: SessionId)
    requires Inv(world, s) && MayIndex(s, first, last)
    ensures Solvency.Committed(Indexed(s, world.feeRecipient, first, last).db, session) == Solvency.Committed(s.db,
            session)
  {
    BatchLogsConserve(world, s, first, last, session);
    IndexedRows(s, world.feeRecipient, first, last);
  }

  lemma IndexedRows(s: State, feeRecipient: Address, first: nat, last: nat)
    requires first <= last < |s.chain|
    ensures var result := IndexLogs(s.db, feeRecipient, Logs(s.chain[first..last + 1]));
            result.Commit? ==>
              Indexed(s, feeRecipient, first, last).db
                == result.db.(cursor := Some(Cursor(last + 1, last, s.chain[..last + 1])))
  {
  }

  lemma BatchLogsConserve(world: World, s: State, first: nat, last: nat, session: SessionId)
    requires Inv(world, s) && MayIndex(s, first, last)
    ensures var result := IndexLogs(s.db, world.feeRecipient, Logs(s.chain[first..last + 1]));
            result.Commit? && Solvency.Committed(result.db, session) == Solvency.Committed(s.db, session)
  {
    var log, from, end := BatchReady(world, s, first, last);
    StretchConserves(world, s.db, s.pcs, s.broadcast, log, from, end, session);
  }

  ghost function Conserving(world: World, pcs: map<RequestId, Pc>, broadcast: set<Transaction>, log: seq<Log>,
                            session: SessionId, wei: nat)
    : (holds: (nat, Db) -> bool)
  {
    (n: nat, d: Db) => StandsAt(world, d, pcs, broadcast, log, n) && Solvency.Committed(d, session) == wei
  }

  lemma {:induction false} EveryEntryConserves(world: World, pcs: map<RequestId, Pc>, broadcast: set<Transaction>,
                                               log: seq<Log>, end: nat, session: SessionId, wei: nat)
    requires end <= |log| && WellFormed(world, log) && AllBacked(log, broadcast)
    ensures Carries(Entries(world.feeRecipient), log, Conserving(world, pcs, broadcast, log, session, wei), end)
  {
    if end > 0 {
      var n: nat := end - 1;
      EveryEntryConserves(world, pcs, broadcast, log, n, session, wei);
      forall d {:trigger StandsAt(world, d, pcs, broadcast, log, n)} |
          StandsAt(world, d, pcs, broadcast, log, n) && Solvency.Committed(d, session) == wei
        ensures var result := Entries(world.feeRecipient)(d, log[n]);
                result.Commit? && StandsAt(world, result.db, pcs, broadcast, log, end)
                  && Solvency.Committed(result.db, session) == wei
      {
        AtEntry(world, d, pcs, broadcast, log, n);
        StandingEntryConserves(world, d, pcs, broadcast, log, n, session);
      }
    }
  }

  lemma StretchConserves(world: World, db: Db, pcs: map<RequestId, Pc>, broadcast: set<Transaction>, log: seq<Log>,
                         from: nat, end: nat, session: SessionId)
    requires from <= end <= |log| && WellFormed(world, log) && AllBacked(log, broadcast)
    requires StandsAt(world, db, pcs, broadcast, log, from)
    ensures var result := IndexLogs(db, world.feeRecipient, log[from..end]);
            result.Commit? && Solvency.Committed(result.db, session) == Solvency.Committed(db, session)
  {
    var wei := Solvency.Committed(db, session);
    EveryEntryConserves(world, pcs, broadcast, log, end, session, wei);
    StretchCarries(Entries(world.feeRecipient), db, log, from, end, Conserving(world, pcs, broadcast, log, session,
      wei));
  }

  lemma StandingEntryConserves(world: World, d: Db, pcs: map<RequestId, Pc>, broadcast: set<Transaction>,
                               log: seq<Log>, n: nat, session: SessionId)
    requires WellFormed(world, log) && AllBacked(log, broadcast) && n < |log|
             && StandsAt(world, d, pcs, broadcast, log, n)
    ensures var result := Entries(world.feeRecipient)(d, log[n]);
            result.Commit? && Solvency.Committed(result.db, session) == Solvency.Committed(d, session)
  {
    NextEntry(world, log, n);
    BackedAt(log, n, broadcast);
    EntryConserves(world, d, pcs, broadcast, log[n], session);
  }

  lemma EntryConserves(world: World, db: Db, pcs: map<RequestId, Pc>, broadcast: set<Transaction>, log: Log,
                       session: SessionId)
    requires TablesOK(world, db, pcs, broadcast) && Follows(world, db.chain, log)
    requires log.event.ReceiptSettled? ==> Backed(log.event, broadcast)
    ensures var result := IndexLog(db, world.feeRecipient, log);
            result.Commit? && Solvency.Committed(result.db, session) == Solvency.Committed(db, session)
  {
    var noted := db.(chain := db.chain.(logs := db.chain.logs + {log.id}));
    MoreLogIds(world, db, pcs, broadcast, log.id);
    assert Solvency.Committed(noted, session) == Solvency.Committed(db, session);
    if log.event.ReceiptSettled? {
      Dispatch.BackedMatches(noted, broadcast, log.event);
      Solvency.SettlementConserves(noted, pcs, world.feeRecipient, log, session);
    } else {
      OtherLogConserves(world, noted, pcs, broadcast, log, session);
    }
  }

  lemma OtherLogConserves(world: World, db: Db, pcs: map<RequestId, Pc>, broadcast: set<Transaction>, log: Log,
                          session: SessionId)
    requires TablesOK(world, db, pcs, broadcast) && Allowed(world, db.chain, log.event) && !log.event.ReceiptSettled?
    ensures var result := ApplyLog(db, world.feeRecipient, log);
            result.Commit? && Solvency.Committed(result.db, session) == Solvency.Committed(db, session)
  {
    AfterOtherLog(world, db, pcs, broadcast, log);
    OtherLogKeeps(db, world.feeRecipient, log);
  }

  /** A settlement that the contract could emit next finds its hold at exactly the
      settled charge and a balance that covers it: it is neither refused nor clamped. */
  lemma SettlementFits(world: World, s: State, log: Log)
    requires Inv(world, s) && log.event.ReceiptSettled? && Follows(world, s.db.chain, log)
             && Backed(log.event, s.broadcast)
    ensures var e := log.event;
            && e.request in s.db.holds && s.db.holds[e.request].amount == e.providerAmount + e.feeAmount
            && e.session in s.db.sessions && s.db.sessions[e.session].balance >= e.providerAmount + e.feeAmount
            && IndexLog(s.db, world.feeRecipient, log).Commit?
  {
    Dispatch.BackedMatches(s.db, s.broadcast, log.event);
    Coherence.AtSettlement(s.db, s.pcs, world.feeRecipient, log);
    Solvency.AtSettlement(world, s.db, s.pcs, log);
    AtIndexLog(world, s.db, s.pcs, s.broadcast, log);
  }

  // ------------------------------------------------------------------------- slots

  /** No provider offer ever runs two requests at once. */
  lemma OneAtATime(world: World, states: seq<State>, steps: seq<Step>, k: nat, key: RouteKey, r: RequestId,
                   r': RequestId)
    requires Run(world, states, steps) && k < |states|
    requires Occupies(states[k].db, key, r) && Occupies(states[k].db, key, r')
    ensures r == r'
  {
    Reached(world, states, steps, k);
    AloneOnItsSlot(states[k].db, key, r, r');
  }

  lemma AloneOnItsSlot(db: Db, key: RouteKey, r: RequestId, r': RequestId)
    requires Capacity.CapacityOK(db) && Occupies(db, key, r) && Occupies(db, key, r')
    ensures r == r'
  {
    assert key in db.routes;
    var both := {r, r'};
    assert both <= Occupants(db, key);
    Smaller(both, Occupants(db, key));
  }

  lemma SlotBound(world: World, states: seq<State>, steps: seq<Step>, k: nat, key: RouteKey)
    requires Run(world, states, steps) && k < |states| && key in states[k].db.routes
    ensures states[k].db.routes[key].capacity + |Occupants(states[k].db, key)| <= 1
  {
    Reached(world, states, steps, k);
  }

  // ------------------------------------------------------------------------ requests

  /** The outbox events of a request form one path from `created` to its state. */
  lemma LifeIsAPath(world: World, states: seq<State>, steps: seq<Step>, k: nat, r: RequestId)
    requires Run(world, states, steps) && k < |states|
    ensures var trail := Trails.Trail(states[k].db.outbox, r);
            && (forall i :: 0 <= i < |trail| ==> trail[i].request == r && Trails.Edge(trail[i]))
            && (forall i :: 0 < i < |trail| ==> trail[i].from == trail[i - 1].to)
            && (r in states[k].db.requests ==>
                  trail != [] && trail[0].from == Created && trail[|trail| - 1].to == states[k].db.requests[r].state)
            && (r !in states[k].db.requests ==> trail == [])
  {
    Reached(world, states, steps, k);
    var db := states[k].db;
    assert Trails.Told(db.outbox, r, Trails.StateOf(db, r));
    if r in db.requests { assert RowOK(db, states[k].pcs, r); } else { NoWayBack(Trails.Trail(db.outbox, r)); }
  }

  /** Nothing leads back to `created`. */
  lemma NoWayBack(trail: seq<Notice>)
    requires Trails.Path(trail) && Trails.End(trail) == Created
    ensures trail == []
  {
    assert trail != [] ==> Trails.Edge(trail[|trail| - 1]);
  }

  /** A request still offered was never accepted. */
  lemma OfferedMeansNeverAccepted(trail: seq<Notice>)
    requires Trails.Path(trail) && Trails.End(trail) == Offered
    ensures forall i :: 0 <= i < |trail| ==> trail[i].to != Accepted
  {
    var n := |trail|;
    assert Trails.Edge(trail[n - 1]) && trail[n - 1].from == Reserved;
    assert n >= 2 && Trails.Edge(trail[n - 2]) && trail[n - 2].from == Created;
    assert n > 2 ==> Trails.Edge(trail[n - 3]);
  }

  /** When a handler has run to its end and its abort was not lost, a request that
      reached `accepted` is on its way to settlement, or it has ended with its hold
      released and its slot given back. */
  lemma NoLeakAfterAcceptance(world: World, states: seq<State>, steps: seq<Step>, k: nat, r: RequestId, i: nat)
    requires Run(world, states, steps) && k < |states| && r in states[k].pcs && states[k].pcs[r] == Exited(true)
    requires var trail := Trails.Trail(states[k].db.outbox, r); i < |trail| && trail[i].to == Accepted
    ensures var db := states[k].db;
            && r in db.requests && r in db.holds && Capacity.Slot(db, r) == None
            && (Settling(db.requests[r].state) || (Over(db.requests[r].state) && db.holds[r].released))
  {
    Reached(world, states, steps, k);
    var db := states[k].db;
    assert RowOK(db, states[k].pcs, r);
    assert Trails.Told(db.outbox, r, Trails.StateOf(db, r));
    CleanExit(db, states[k].pcs, r, i);
  }

  predicate Settling(state: RequestState) { state.Signed? || state.Submitted? || state.Settled? }
  predicate Over(state: RequestState) { state.Failed? || state.Cancelled? }

  lemma CleanExit(db: Db, pcs: map<RequestId, Pc>, r: RequestId, i: nat)
    requires RowOK(db, pcs, r) && pcs[r] == Exited(true) && Trails.Told(db.outbox, r, db.requests[r].state)
    requires var trail := Trails.Trail(db.outbox, r); i < |trail| && trail[i].to == Accepted
    ensures Capacity.Slot(db, r) == None
    ensures Settling(db.requests[r].state) || (Over(db.requests[r].state) && db.holds[r].released)
  {
    if db.requests[r].state == Offered { OfferedMeansNeverAccepted(Trails.Trail(db.outbox, r)); }
  }

  /** The handler's abort with "failed" releases the hold exactly when the request is
      neither still offered nor already queued for settlement. */
  lemma FailedAbortReleasesIff(db: Db, pcs: map<RequestId, Pc>, r: RequestId)
    requires Coherent(db, pcs) && r in pcs
    ensures var result := AbortInference(db, r, Failed);
            (result.Commit? && result.db.holds[r].released)
            <==> db.requests[r].state !in {Offered, Cancelled, Signed, Submitted, Settled}
  {
    assert RowOK(db, pcs, r);
  }

  /** A handler that gives up before acceptance leaves cleanly, and leaves the hold
      locked and the slot taken. */
  lemma OfferedLeaks(world: World, s: State, r: RequestId) returns (s1: State, s2: State)
    requires Coherent(s.db, s.pcs) && r in s.pcs && s.pcs[r] == Waiting
    ensures Next(world, s, s1, GiveUp(r, Failed)) && Next(world, s1, s2, Abort(r, false))
    ensures s2.pcs[r] == Exited(true) && s2.db == s.db
    ensures r in s2.db.holds && !s2.db.holds[r].released && s2.db.holds[r].amount > 0 && Capacity.Slot(s2.db, r).Some?
  {
    assert RowOK(s.db, s.pcs, r);
    s1 := s.(pcs := s.pcs[r := Aborting(Failed)]);
    s2 := s1.(pcs := s1.pcs[r := Exited(true)]);
  }

  /** Queueing a receipt for a request that has already failed would leave a receipt
      in flight with nothing held for it: the handler's order of steps is what prevents it. */
  lemma LateQueueingBreaksPairing(db: Db, pcs: map<RequestId, Pc>, receipt: Receipt)
    requires Coherent(db, pcs) && receipt.request in db.requests && db.requests[receipt.request].state == Failed
    ensures var db' := Enqueue(db, receipt);
            && receipt.request in db'.queue && db'.queue[receipt.request].state == Cosigned
            && db'.requests[receipt.request].state == Failed && db'.holds[receipt.request].released
            && !Coherent(db', pcs)
  {
    assert RowOK(db, pcs, receipt.request);
    assert !RowOK(Enqueue(db, receipt), pcs, receipt.request);
  }

  // ---------------------------------------------------------------------- settlement

  /** Queue state and request state go hand in hand. */
  lemma Paired(world: World, states: seq<State>, steps: seq<Step>, k: nat, r: RequestId)
    requires Run(world, states, steps) && k < |states| && r in states[k].db.queue
    ensures var db := states[k].db;
            && r in db.requests
            && (db.queue[r].state == Cosigned <==> db.requests[r].state == Signed)
            && (db.queue[r].state == Broadcasting <==> db.requests[r].state == Submitted)
            && (db.queue[r].state == QueueSettled <==> db.requests[r].state == Settled)
            && (db.requests[r].state == Settled <==> r in db.chain.settlements)
            && r in db.holds && db.queue[r].receipt.total == db.holds[r].amount
  {
    Reached(world, states, steps, k);
    assert RowOK(states[k].db, states[k].pcs, r);
  }

  /** Nothing is sent out that is not stored, receipt by receipt, in the queue. */
  lemma BroadcastIsStored(world: World, states: seq<State>, steps: seq<Step>, k: nat, t: Transaction)
    requires Run(world, states, steps) && k < |states| && t in states[k].broadcast
    ensures Dispatch.Stored(states[k].db.queue, t)
  {
    Reached(world, states, steps, k);
  }

  lemma ChangeKeepsQueue(feeRecipient: Address, db: Db, pcs: map<RequestId, Pc>, broadcast: set<Transaction>, db': Db,
                         change: Change)
    requires Changed(feeRecipient, db, db', change) && Coherent(db, pcs) && Dispatch.QueueOK(db.queue, broadcast)
    ensures Dispatch.Kept(db.queue, db'.queue)
  {
    match change
    case NewProposal(r, p) => CompleteKeeps(db, r, p);
    case NewReceipt(r, domain) => DraftKeeps(db, r, domain);
    case Ending(r, to) => AbortKeeps(db, r, to);
    case NewQueueRow(receipt) => EnqueueKeepsQueue(db, receipt);
    case BatchWritten(rs, t) => Dispatch.AtSubmit(db, pcs, broadcast, rs, t.nonce);
    case RoutesReconciled(m, beat) => BeatKeeps(db, m, beat);
    case LogsIndexed(logs, _) =>
      Restoring.StretchSettles(db, feeRecipient, logs);
      SettlingKeepsQueue(db, IndexLogs(db, feeRecipient, logs).db);
    case NewReservation(v) => ReservationKeepsQueue(db, v);
    case Unwound(_) => ReopenKeeps(db);
    case _ =>
  }

  lemma ReservationKeepsQueue(db: Db, v: Reservation)
    requires ReserveInference(db, v).Commit?
    ensures ReserveInference(db, v).db.queue == db.queue
  {
  }

  lemma EnqueueKeepsQueue(db: Db, receipt: Receipt)
    ensures Dispatch.Kept(db.queue, Enqueue(db, receipt).queue)
  {
  }

  lemma SettlingKeepsQueue(db: Db, db': Db)
    requires Restoring.OnlySettles(db, db')
    ensures Dispatch.Kept(db.queue, db'.queue)
  {
  }

  lemma StepKeepsQueue(world: World, s: State, s': State, step: Step)
    requires Coherent(s.db, s.pcs) && Dispatch.QueueOK(s.db.queue, s.broadcast) && Next(world, s, s', step)
    ensures Dispatch.Kept(s.db.queue, s'.db.queue)
  {
    var change := ChangeOf(world, s, s', step);
    ChangeKeepsQueue(world.feeRecipient, s.db, s.pcs, s.broadcast, s'.db, change);
  }

  lemma QueueAt(world: World, states: seq<State>, steps: seq<Step>, i: nat)
    requires Run(world, states, steps) && i < |steps|
    ensures Dispatch.Kept(states[i].db.queue, states[i + 1].db.queue)
  {
    Reached(world, states, steps, i);
    StepKeepsQueue(world, states[i], states[i + 1], steps[i]);
  }

  /** Once a queued receipt has a transaction it keeps that one for the rest of the
      run, through crashes, settlement and reorganisation. */
  lemma {:induction false} OneTransactionForGood(world: World, states: seq<State>, steps: seq<Step>, j: nat, k: nat,
                                                 r: RequestId)
    requires Run(world, states, steps) && j <= k < |states|
    requires r in states[j].db.queue && states[j].db.queue[r].transaction.Some?
    ensures r in states[k].db.queue && states[k].db.queue[r].transaction == states[j].db.queue[r].transaction
    ensures states[k].db.queue[r].receipt == states[j].db.queue[r].receipt
    decreases k
  {
    if j < k {
      OneTransactionForGood(world, states, steps, j, k - 1, r);
      QueueAt(world, states, steps, k - 1);
    }
  }

  // ------------------------------------------------------------------------- receipts

  /** A provider's receipt numbers are 1..n, each on one request. */
  lemma NumberedWithoutGaps(world: World, states: seq<State>, steps: seq<Step>, k: nat, provider: Address, n: nat)
    requires Run(world, states, steps) && k < |states|
    ensures var nonces := states[k].db.nonces;
            && (Nonces.Issued(nonces, provider, n) <==> 1 <= n <= Highest(nonces.Keys, nonces, provider))
            && (forall r, r' :: r in nonces && r' in nonces && nonces[r] == nonces[r'] ==> r == r')
  {
    Reached(world, states, steps, k);
    Nonces.Contiguous(states[k].db.nonces, provider, n);
  }

  /** Preparing a receipt again, for a request still completed, changes nothing and
      yields the same receipt. */
  lemma PreparingAgain(db: Db, r: RequestId, domain: Domain)
    requires PrepareReceipt(db, r, domain).Commit?
    ensures var first := PrepareReceipt(db, r, domain);
            PrepareReceipt(first.db, r, domain) == first
  {
    var first := PrepareReceipt(db, r, domain);
    var db' := first.db;
    assert Preparable(db', r) && PublishedRates(db', r) == PublishedRates(db, r);
    var total := Cost(PublishedRates(db, r).value, db.proposals[r].usage).value;
    var provider := db.machines[db.proposals[r].machine].wallet;
    assert NonceOf(db', r, provider) == NonceOf(db, r, provider);
    assert ReceiptOf(db', r, domain, total) == ReceiptOf(db, r, domain, total);
    assert Prepare(db', r, total).holds == db'.holds && Prepare(db', r, total).nonces == db'.nonces;
  }

  /** The receipt a handler obtains charges at most what was reserved for the request,
      and its hold is exactly the charge. */
  lemma ChargedWithinReservation(world: World, states: seq<State>, steps: seq<Step>, k: nat, r: RequestId)
    requires Run(world, states, steps) && k < |states| && r in states[k].db.queue
    ensures var db := states[k].db;
            r in db.requests && db.queue[r].receipt.total <= db.requests[r].maximumSpend
  {
    Reached(world, states, steps, k);
    assert RowOK(states[k].db, states[k].pcs, r);
  }

  /** A completion within its limits is never refused for exceeding the maximum. */
  lemma CompletionIsChargeable(world: World, states: seq<State>, steps: seq<Step>, k: nat, r: RequestId, domain: Domain)
    requires Run(world, states, steps) && k < |states| && r in states[k].pcs && states[k].pcs[r] == Finalizing
    ensures PrepareReceipt(states[k].db, r, domain) != Rollback(Error.MaximumExceeded)
  {
    Reached(world, states, steps, k);
    Prices.NeverTooDear(world, states[k].db, states[k].pcs, r, domain);
  }

  // -------------------------------------------------------------------------- indexing

  /** While the cursor's block is canonical, the chain_* tables are the plain fold of
      the canonical log up to that block. */
  lemma ProjectionIsFold(world: World, states: seq<State>, steps: seq<Step>, k: nat)
    requires Run(world, states, steps) && k < |states| && states[k].db.cursor.Some?
    requires var c := states[k].db.cursor.value; c.last < |states[k].chain| && c.hash == states[k].chain[..c.last + 1]
    ensures var c := states[k].db.cursor.value;
            ProjectAll(world.feeRecipient, Logs(states[k].chain[..c.last + 1])) == Some(states[k].db.chain)
  {
    Reached(world, states, steps, k);
  }
}
