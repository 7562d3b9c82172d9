/** A receipt, once prepared, is the receipt of its request: preparing it again at any
    later moment of a run yields the same one and changes nothing. */
module Drafts {
  import opened Basics
  import opened Tables
  import opened Projecting
  import opened Ledger
  import opened Protocol
  import opened Coherence
  import opened Safety
  import opened Changes
  import Capping
  import Prices
  import Restoring
  import Solvency
  import Theorems

  // ------------------------------------------------------------- rows that only grow

  /** What a receipt is made from stays as it is. */
  ghost predicate SourcesStand(db: Db, db': Db) {
    && (forall a <- db.accounts :: a in db'.accounts && db'.accounts[a] == db.accounts[a])
    && (forall m <- db.machines :: m in db'.machines && db'.machines[m].wallet == db.machines[m].wallet)
    && (forall r <- db.proposals :: r in db'.proposals && db'.proposals[r] == db.proposals[r])
    && (forall r <- db.nonces :: r in db'.nonces && db'.nonces[r] == db.nonces[r])
  }

  lemma SourcesStandOn(a: Db, b: Db, c: Db)
    requires SourcesStand(a, b) && SourcesStand(b, c)
    ensures SourcesStand(a, c)
  {
  }

  predicate SameSources(db: Db, db': Db) {
    db'.accounts == db.accounts && db'.machines == db.machines && db'.proposals == db.proposals
      && db'.nonces == db.nonces
  }

  lemma CompletionKeepsSources(db: Db, r: RequestId, p: Proposal)
    requires CompleteInference(db, r, p).Commit?
    ensures SourcesStand(db, CompleteInference(db, r, p).db)
  {
    CompleteKeeps(db, r, p);
  }

  lemma DraftKeepsSources(db: Db, r: RequestId, domain: Domain)
    requires PrepareReceipt(db, r, domain).Commit?
    ensures SourcesStand(db, PrepareReceipt(db, r, domain).db)
  {
  }

  lemma AbortKeepsSources(db: Db, r: RequestId, to: RequestState)
    requires AbortInference(db, r, to).Commit?
    ensures SameSources(db, AbortInference(db, r, to).db)
  {
    if db.requests[r].state != to { assert AbortInference(db, r, to).db == Ended(db, r, to); }
  }

  lemma {:induction false} BatchKeepsSources(db: Db, rs: seq<RequestId>, t: Transaction)
    requires forall i :: 0 <= i < |rs| ==> rs[i] in db.queue
    ensures SameSources(db, SubmitAll(db, rs, t))
    decreases |rs|
  {
    if rs != [] { BatchKeepsSources(db, rs[..|rs| - 1], t); }
  }

  lemma QueueKeepsSources(db: Db, receipt: Receipt)
    ensures SameSources(db, Enqueue(db, receipt))
  {
  }

  lemma ReservationKeepsSources(db: Db, v: Reservation)
    requires ReserveInference(db, v).Commit?
    ensures SameSources(db, ReserveInference(db, v).db)
  {
  }

  lemma ChangeKeepsSources(feeRecipient: Address, db: Db, db': Db, change: Change)
    requires Changed(feeRecipient, db, db', change)
    ensures SourcesStand(db, db')
  {
    match change
    case NewReservation(v) => ReservationKeepsSources(db, v);
    case NewProposal(r, p) => CompletionKeepsSources(db, r, p);
    case NewReceipt(r, domain) => DraftKeepsSources(db, r, domain);
    case NewQueueRow(receipt) => QueueKeepsSources(db, receipt);
    case Ending(r, to) => AbortKeepsSources(db, r, to);
    case BatchWritten(rs, t) => BatchKeepsSources(db, rs, t);
    case RoutesReconciled(m, beat) => BeatKeeps(db, m, beat);
    case LogsIndexed(logs, _) => Restoring.StretchSettles(db, feeRecipient, logs);
    case Unwound(rs) => UnwindKeepsSources(db, rs);
    case _ => RegistrationKeepsSources(feeRecipient, db, db', change);
  }

  lemma UnwindKeepsSources(db: Db, rs: seq<RequestId>)
    ensures SameSources(db, Rewind(db, rs))
  {
  }

  lemma RegistrationKeepsSources(feeRecipient: Address, db: Db, db': Db, change: Change)
    requires Changed(feeRecipient, db, db', change)
    requires change.NoChange? || change.NewAccount? || change.NewMachine? || change.MachineRevoked? || change.Moved?
    ensures SourcesStand(db, db')
  {
  }

  lemma SourcesAt(world: World, states: seq<State>, steps: seq<Step>, i: nat)
    requires Run(world, states, steps) && i < |steps|
    ensures SourcesStand(states[i].db, states[i + 1].db)
  {
    CoherentAt(world, states, steps, i);
    var change := ChangeOf(world, states[i], states[i + 1], steps[i]);
    ChangeKeepsSources(world.feeRecipient, states[i].db, states[i + 1].db, change);
  }

  lemma {:induction false} RunKeepsSources(world: World, states: seq<State>, steps: seq<Step>, j: nat, k: nat)
    requires Run(world, states, steps) && j <= k < |states|
    ensures SourcesStand(states[j].db, states[k].db)
    decreases k
  {
    if j < k {
      RunKeepsSources(world, states, steps, j, k - 1);
      SourcesAt(world, states, steps, k - 1);
      SourcesStandOn(states[j].db, states[k - 1].db, states[k].db);
    }
  }

  // ------------------------------------------------------------ past being completed

  predicate Past(db: Db, r: RequestId) {
    && r in db.requests
    && var state := db.requests[r].state;
       state.Signed? || state.Submitted? || state.Settled? || state.Failed? || state.Cancelled?
  }

  /** A completed request whose receipt has been drafted: its hold is the charge. */
  ghost predicate Drafted(world: World, db: Db, r: RequestId, total: nat) {
    && r in db.requests && db.requests[r].state == Completed && r in db.proposals
      && db.proposals[r].machine in db.machines
    && r in db.nonces && r in db.holds && db.holds[r].amount == total && (db.holds[r].released <==> total == 0)
    && Cost(world.offer(OfferOf(db, r)).rates, db.proposals[r].usage) == Some(total)
  }

  lemma DraftIsDrafted(world: World, db: Db, r: RequestId, domain: Domain)
    requires Prices.OffersOK(world, db.chain) && PrepareReceipt(db, r, domain).Commit?
    ensures Drafted(world, PrepareReceipt(db, r, domain).db, r, PrepareReceipt(db, r, domain).value.total)
  {
  }

  /** On a drafted request, preparing again changes nothing. */
  lemma DraftAgain(world: World, db: Db, r: RequestId, domain: Domain, total: nat)
    requires Prices.OffersOK(world, db.chain) && Drafted(world, db, r, total) && PrepareReceipt(db, r, domain).Commit?
    ensures PrepareReceipt(db, r, domain).db == db && PrepareReceipt(db, r, domain).value.total == total
  {
    assert db.holds[r := db.holds[r]] == db.holds && db.nonces[r := db.nonces[r]] == db.nonces;
  }

  // ---------------------------------------------------------------------- step by step

  /** The request's own row and its hold. */
  predicate SameRequest(db: Db, db': Db, r: RequestId) {
    && r in db.requests && r in db'.requests && db'.requests[r] == db.requests[r]
    && r in db.holds && r in db'.holds && db'.holds[r] == db.holds[r]
  }

  lemma StillDrafted(world: World, db: Db, db': Db, r: RequestId, total: nat)
    requires Drafted(world, db, r, total) && SourcesStand(db, db') && SameRequest(db, db', r)
    ensures Drafted(world, db', r, total)
  {
  }

  lemma AbortLeaves(db: Db, aborted: RequestId, to: RequestState, r: RequestId)
    requires AbortInference(db, aborted, to).Commit? && r in db.requests && r in db.holds
    ensures var db' := AbortInference(db, aborted, to).db; SameRequest(db, db', r) || Past(db', r)
  {
    if r != aborted { AbortElsewhere(db, aborted, to, r); }
  }

  lemma CompletionLeaves(db: Db, done: RequestId, p: Proposal, r: RequestId)
    requires CompleteInference(db, done, p).Commit? && r in db.requests && r in db.holds
             && db.requests[r].state != Streaming
    ensures SameRequest(db, CompleteInference(db, done, p).db, r)
  {
  }

  lemma QueueLeaves(db: Db, receipt: Receipt, r: RequestId)
    requires r in db.requests && r in db.holds
    ensures var db' := Enqueue(db, receipt); SameRequest(db, db', r) || Past(db', r)
  {
  }

  lemma {:induction false} SubmitLeaves(db: Db, rs: seq<RequestId>, t: Transaction, r: RequestId)
    requires (forall i :: 0 <= i < |rs| ==> rs[i] in db.queue) && r !in rs && r in db.requests && r in db.holds
    ensures SameRequest(db, SubmitAll(db, rs, t), r)
    decreases |rs|
  {
    if rs != [] {
      assert rs == rs[..|rs| - 1] + [rs[|rs| - 1]];
      SubmitLeaves(db, rs[..|rs| - 1], t, r);
    }
  }

  lemma ReservationLeaves(db: Db, v: Reservation, r: RequestId)
    requires ReserveInference(db, v).Commit? && r in db.requests && r in db.holds
    ensures SameRequest(db, ReserveInference(db, v).db, r)
  {
  }

  /** A request that is neither submitted nor settled is out of the indexer's reach. */
  lemma IndexingLeaves(feeRecipient: Address, db: Db, pcs: map<RequestId, Pc>, db': Db, logs: seq<Log>, r: RequestId)
    requires Coherent(db, pcs) && Coherent(db', pcs) && IndexLogs(db, feeRecipient, logs).Commit?
    requires db' == IndexLogs(db, feeRecipient, logs).db.(cursor := db'.cursor)
    requires r in db.requests && !db.requests[r].state.Submitted? && !db.requests[r].state.Settled?
    ensures SameRequest(db, db', r)
  {
    Restoring.StretchSettles(db, feeRecipient, logs);
    Restoring.CursorAside(db, IndexLogs(db, feeRecipient, logs).db, db'.cursor);
    SettlingLeaves(db, pcs, db', r);
  }

  lemma SettlingLeaves(db: Db, pcs: map<RequestId, Pc>, db': Db, r: RequestId)
    requires Coherent(db, pcs) && Coherent(db', pcs) && Restoring.OnlySettles(db, db')
    requires r in db.requests && !db.requests[r].state.Submitted? && !db.requests[r].state.Settled?
    ensures SameRequest(db, db', r)
  {
    assert RowOK(db, pcs, r) && RowOK(db', pcs, r);
  }

  lemma UnwindLeaves(db: Db, pcs: map<RequestId, Pc>, rs: seq<RequestId>, r: RequestId)
    requires Coherent(db, pcs) && r in db.requests && db.requests[r].state != Settled
    ensures SameRequest(db, Rewind(db, rs), r)
  {
    assert RowOK(db, pcs, r);
  }

  /** A drafted request keeps its row and its hold until it moves on for good. */
  lemma ChangeLeaves(world: World, db: Db, pcs: map<RequestId, Pc>, db': Db, change: Change, r: RequestId, total: nat)
    requires Changed(world.feeRecipient, db, db', change) && Coherent(db, pcs) && Prices.OffersOK(world, db.chain)
    requires Drafted(world, db, r, total) && (change.LogsIndexed? ==> Coherent(db', pcs))
    ensures SameRequest(db, db', r) || Past(db', r)
  {
    match change
    case NewReservation(_) => HandlerLeaves(world, db, db', change, r, total);
    case NewProposal(_, _) => HandlerLeaves(world, db, db', change, r, total);
    case NewReceipt(_, _) => HandlerLeaves(world, db, db', change, r, total);
    case NewQueueRow(_) => HandlerLeaves(world, db, db', change, r, total);
    case Ending(_, _) => HandlerLeaves(world, db, db', change, r, total);
    case Moved(_, _) => HandlerLeaves(world, db, db', change, r, total);
    case BatchWritten(rs, t) =>
      assert RowOK(db, pcs, r);
      SubmitLeaves(db, rs, t, r);
    case RoutesReconciled(m, beat) => BeatKeeps(db, m, beat);
    case LogsIndexed(logs, _) => IndexingLeaves(world.feeRecipient, db, pcs, db', logs, r);
    case Unwound(rs) => UnwindLeaves(db, pcs, rs, r);
    case _ =>
  }

  lemma HandlerLeaves(world: World, db: Db, db': Db, change: Change, r: RequestId, total: nat)
    requires change.NewReservation? || change.NewProposal? || change.NewReceipt? || change.NewQueueRow?
          || change.Ending? || change.Moved?
    requires Changed(world.feeRecipient, db, db', change) && Prices.OffersOK(world, db.chain)
    requires Drafted(world, db, r, total)
    ensures SameRequest(db, db', r) || Past(db', r)
  {
    match change
    case NewReservation(v) => ReservationLeaves(db, v, r);
    case NewProposal(done, p) => CompletionLeaves(db, done, p, r);
    case NewReceipt(drafted, domain) => DraftLeaves(world, db, drafted, domain, r, total);
    case NewQueueRow(receipt) => QueueLeaves(db, receipt, r);
    case Ending(aborted, to) => AbortLeaves(db, aborted, to, r);
    case Moved(moved, to) => MoveLeaves(db, moved, to, r);
  }

  lemma MoveLeaves(db: Db, moved: RequestId, to: RequestState, r: RequestId)
    requires TransitionRequest(db, moved, to).Commit? && (to == Accepted || to == Streaming)
    requires r in db.requests && r in db.holds && !Executing(db.requests[r].state)
    ensures SameRequest(db, TransitionRequest(db, moved, to).db, r)
  {
  }

  lemma DraftLeaves(world: World, db: Db, drafted: RequestId, domain: Domain, r: RequestId, total: nat)
    requires PrepareReceipt(db, drafted, domain).Commit? && Prices.OffersOK(world, db.chain)
             && Drafted(world, db, r, total)
    ensures SameRequest(db, PrepareReceipt(db, drafted, domain).db, r)
  {
    if drafted == r { DraftAgain(world, db, r, domain, total); } else { DraftKeeps(db, drafted, domain); }
  }

  lemma DraftedStep(world: World, s: State, s': State, step: Step, r: RequestId, total: nat)
    requires Inv(world, s) && Next(world, s, s', step) && Drafted(world, s.db, r, total)
    ensures Drafted(world, s'.db, r, total) || Past(s'.db, r)
  {
    var change := ChangeOf(world, s, s', step);
    Preserved(world, s, s', step);
    ChangeLeaves(world, s.db, s.pcs, s'.db, change, r, total);
    ChangeKeepsSources(world.feeRecipient, s.db, s'.db, change);
    if SameRequest(s.db, s'.db, r) { StillDrafted(world, s.db, s'.db, r, total); }
  }

  lemma {:induction false} BatchStaysPast(db: Db, rs: seq<RequestId>, t: Transaction, r: RequestId)
    requires (forall i :: 0 <= i < |rs| ==> rs[i] in db.queue) && Past(db, r)
    ensures Past(SubmitAll(db, rs, t), r)
    decreases |rs|
  {
    if rs != [] { BatchStaysPast(db, rs[..|rs| - 1], t, r); }
  }

  lemma AbortStaysPast(db: Db, aborted: RequestId, to: RequestState, r: RequestId)
    requires AbortInference(db, aborted, to).Commit? && Past(db, r)
    ensures Past(AbortInference(db, aborted, to).db, r)
  {
    if r != aborted { AbortElsewhere(db, aborted, to, r); }
  }

  lemma QueueStaysPast(db: Db, receipt: Receipt, r: RequestId)
    requires Past(db, r)
    ensures Past(Enqueue(db, receipt), r)
  {
    var requests, queued := Enqueue(db, receipt).requests, receipt.request;
    assert requests == db.requests
      || (queued in db.requests && requests == db.requests[queued := db.requests[queued].(state := Signed)]);
  }

  lemma CompletionStaysPast(db: Db, done: RequestId, p: Proposal, r: RequestId)
    requires CompleteInference(db, done, p).Commit? && Past(db, r)
    ensures Past(CompleteInference(db, done, p).db, r)
  {
  }

  lemma ReservationStaysPast(db: Db, v: Reservation, r: RequestId)
    requires ReserveInference(db, v).Commit? && Past(db, r)
    ensures Past(ReserveInference(db, v).db, r)
  {
  }

  lemma SettlingStaysPast(db: Db, db': Db, r: RequestId)
    requires Restoring.OnlySettles(db, db') && Past(db, r)
    ensures Past(db', r)
  {
  }

  /** No transaction leads back to being completed. */
  lemma ChangeStaysPast(feeRecipient: Address, db: Db, db': Db, change: Change, r: RequestId)
    requires Changed(feeRecipient, db, db', change) && Past(db, r)
    ensures Past(db', r)
  {
    match change
    case NewReservation(v) => ReservationStaysPast(db, v, r);
    case NewProposal(done, p) => CompletionStaysPast(db, done, p, r);
    case NewReceipt(drafted, domain) => DraftKeeps(db, drafted, domain);
    case NewQueueRow(receipt) => QueueStaysPast(db, receipt, r);
    case Ending(aborted, to) => AbortStaysPast(db, aborted, to, r);
    case BatchWritten(rs, t) => BatchStaysPast(db, rs, t, r);
    case RoutesReconciled(m, beat) => BeatKeeps(db, m, beat);
    case LogsIndexed(logs, _) =>
      Restoring.StretchSettles(db, feeRecipient, logs);
      SettlingStaysPast(db, IndexLogs(db, feeRecipient, logs).db, r);
    case _ =>
  }

  lemma PastStep(world: World, s: State, s': State, step: Step, r: RequestId)
    requires Coherent(s.db, s.pcs) && Next(world, s, s', step) && Past(s.db, r)
    ensures Past(s'.db, r)
  {
    var change := ChangeOf(world, s, s', step);
    ChangeStaysPast(world.feeRecipient, s.db, s'.db, change, r);
  }

  // --------------------------------------------------------------------------- the end

  /** Failed or cancelled, with nothing held. */
  predicate Over(db: Db, r: RequestId, state: RequestState) {
    && (state.Failed? || state.Cancelled?) && r in db.requests && db.requests[r].state == state
    && r in db.holds && db.holds[r].released
  }

  lemma AbortStaysOver(db: Db, aborted: RequestId, to: RequestState, r: RequestId, state: RequestState)
    requires AbortInference(db, aborted, to).Commit? && Over(db, r, state)
    ensures Over(AbortInference(db, aborted, to).db, r, state)
  {
    if r != aborted { AbortElsewhere(db, aborted, to, r); }
  }

  lemma DraftStaysOver(db: Db, drafted: RequestId, domain: Domain, r: RequestId, state: RequestState)
    requires PrepareReceipt(db, drafted, domain).Commit? && Over(db, r, state)
    ensures drafted != r && Over(PrepareReceipt(db, drafted, domain).db, r, state)
  {
    DraftKeeps(db, drafted, domain);
  }

  lemma {:induction false} SubmitStaysOver(db: Db, rs: seq<RequestId>, t: Transaction, r: RequestId,
                                           state: RequestState)
    requires (forall i :: 0 <= i < |rs| ==> rs[i] in db.queue) && Over(db, r, state)
    ensures Over(SubmitAll(db, rs, t), r, state)
    decreases |rs|
  {
    if rs != [] { SubmitStaysOver(db, rs[..|rs| - 1], t, r, state); }
  }

  lemma QueueStaysOver(db: Db, receipt: Receipt, r: RequestId, state: RequestState)
    requires Over(db, r, state)
    ensures Over(Enqueue(db, receipt), r, state)
  {
  }

  /** Nothing revives an ended request or its hold: no receipt, no settlement, no rewind. */
  lemma ChangeStaysOver(feeRecipient: Address, db: Db, pcs: map<RequestId, Pc>, db': Db, change: Change, r: RequestId,
                        state: RequestState)
    requires Changed(feeRecipient, db, db', change) && Coherent(db, pcs) && (change.LogsIndexed? ==> Coherent(db', pcs))
    requires Over(db, r, state)
    ensures Over(db', r, state)
  {
    match change
    case NewReservation(v) => ReservationLeaves(db, v, r);
    case NewProposal(done, p) => CompletionLeaves(db, done, p, r);
    case NewReceipt(drafted, domain) => DraftStaysOver(db, drafted, domain, r, state);
    case NewQueueRow(receipt) => QueueStaysOver(db, receipt, r, state);
    case Ending(aborted, to) => AbortStaysOver(db, aborted, to, r, state);
    case BatchWritten(rs, t) => SubmitStaysOver(db, rs, t, r, state);
    case RoutesReconciled(m, beat) => BeatKeeps(db, m, beat);
    case LogsIndexed(logs, _) => IndexingLeaves(feeRecipient, db, pcs, db', logs, r);
    case Unwound(rs) => UnwindLeaves(db, pcs, rs, r);
    case Moved(moved, to) => MoveLeaves(db, moved, to, r);
    case _ =>
  }

  lemma OverAt(world: World, states: seq<State>, steps: seq<Step>, i: nat, r: RequestId, state: RequestState)
    requires Run(world, states, steps) && i < |steps| && Over(states[i].db, r, state)
    ensures Over(states[i + 1].db, r, state)
  {
    CoherentAt(world, states, steps, i);
    CoherentAt(world, states, steps, i + 1);
    var change := ChangeOf(world, states[i], states[i + 1], steps[i]);
    ChangeStaysOver(world.feeRecipient, states[i].db, states[i].pcs, states[i + 1].db, change, r, state);
  }

  // ------------------------------------------------------------------------- every run

  /** A request that has failed or been cancelled stays so for the rest of the run, its
      hold released, and no receipt is ever prepared for it. */
  lemma {:induction false} NoRevival(world: World, states: seq<State>, steps: seq<Step>, j: nat, k: nat, r: RequestId,
                                     domain: Domain)
    requires Run(world, states, steps) && j <= k < |states| && r in states[j].db.requests
    requires states[j].db.requests[r].state.Failed? || states[j].db.requests[r].state.Cancelled?
    ensures Over(states[k].db, r, states[j].db.requests[r].state)
    ensures PrepareReceipt(states[k].db, r, domain).Rollback?
    decreases k
  {
    if j == k {
      CoherentAt(world, states, steps, k);
      assert RowOK(states[k].db, states[k].pcs, r);
    } else {
      NoRevival(world, states, steps, j, k - 1, r, domain);
      OverAt(world, states, steps, k - 1, r, states[j].db.requests[r].state);
    }
  }

  lemma {:induction false} DraftedOrPast(world: World, states: seq<State>, steps: seq<Step>, j: nat, k: nat,
                                         r: RequestId, total: nat)
    requires Run(world, states, steps) && j <= k < |states| && Drafted(world, states[j].db, r, total)
    ensures Drafted(world, states[k].db, r, total) || Past(states[k].db, r)
    decreases k
  {
    if j < k {
      DraftedOrPast(world, states, steps, j, k - 1, r, total);
      OneStepOn(world, states, steps, k - 1, r, total);
    }
  }

  lemma OneStepOn(world: World, states: seq<State>, steps: seq<Step>, i: nat, r: RequestId, total: nat)
    requires Run(world, states, steps) && i < |steps| && (Drafted(world, states[i].db, r, total)
             || Past(states[i].db, r))
    ensures Drafted(world, states[i + 1].db, r, total) || Past(states[i + 1].db, r)
  {
    Reached(world, states, steps, i);
    if Past(states[i].db, r) {
      PastStep(world, states[i], states[i + 1], steps[i], r);
    } else {
      DraftedStep(world, states[i], states[i + 1], steps[i], r, total);
    }
  }

  lemma RowsAt(world: World, states: seq<State>, steps: seq<Step>, k: nat)
    requires Run(world, states, steps) && k < |states|
    ensures OneWalletEach(states[k].db.accounts) && Solvency.SessionsOK(world, states[k].db)
  {
    Reached(world, states, steps, k);
  }

  lemma OffersAt(world: World, states: seq<State>, steps: seq<Step>, k: nat)
    requires Run(world, states, steps) && k < |states|
    ensures Prices.OffersOK(world, states[k].db.chain)
  {
    Reached(world, states, steps, k);
  }

  lemma SessionWallet(world: World, db: Db, session: SessionId)
    requires OneWalletEach(db.accounts) && Solvency.SessionsOK(world, db) && session in db.sessions
    ensures WalletOf(db.accounts, db.sessions[session].account, world.terms(session).customer)
    ensures WalletFor(db.accounts, db.sessions[session].account) == world.terms(session).customer
  {
    var wallet := world.terms(session).customer;
    assert WalletOf(db.accounts, db.sessions[session].account, wallet);
  }

  lemma SameParts(world: World, a: Db, b: Db, r: RequestId, domain: Domain)
    requires OneWalletEach(a.accounts) && Solvency.SessionsOK(world, a) && OneWalletEach(b.accounts)
             && Solvency.SessionsOK(world, b)
    requires SourcesStand(a, b) && Capping.TermsStand(a, b) && r in a.nonces
    requires PrepareReceipt(a, r, domain).Commit? && PrepareReceipt(b, r, domain).Commit?
    requires PrepareReceipt(a, r, domain).value.total == PrepareReceipt(b, r, domain).value.total
    ensures PrepareReceipt(a, r, domain).value == PrepareReceipt(b, r, domain).value
  {
    SessionWallet(world, a, a.proposals[r].session);
    SessionWallet(world, b, b.proposals[r].session);
    assert b.requests[r].(state := Created).hashes == a.requests[r].(state := Created).hashes;
    assert b.requests[r].(state := Created).maximumSpend == a.requests[r].(state := Created).maximumSpend;
  }

  /** Once a receipt has been prepared and its transaction has landed, preparing it again
      under the same terms, at any later moment of the run at which that is not refused,
      yields the identical receipt and leaves every table as it is. */
  lemma OneReceiptPerRequest(world: World, states: seq<State>, steps: seq<Step>, j: nat, k: nat, r: RequestId,
                             domain: Domain, landing: Landing)
    requires Run(world, states, steps) && j < k < |states| && steps[j] == Draft(r, domain, landing) && landing != Lost
    requires PrepareReceipt(states[j].db, r, domain).Commit? && PrepareReceipt(states[k].db, r, domain).Commit?
    ensures PrepareReceipt(states[k].db, r, domain) == Commit(states[k].db,
            PrepareReceipt(states[j].db, r, domain).value)
  {
    assert states[j + 1].db == PrepareReceipt(states[j].db, r, domain).db
      by { Landed(world, states, steps, j, r, domain, landing); }
    SameTotal(world, states, steps, j, k, r, domain);
    SameAsFirst(world, states, steps, j, k, r, domain);
  }

  lemma Landed(world: World, states: seq<State>, steps: seq<Step>, j: nat, r: RequestId, domain: Domain,
               landing: Landing)
    requires Run(world, states, steps) && j < |steps| && steps[j] == Draft(r, domain, landing) && landing != Lost
    requires PrepareReceipt(states[j].db, r, domain).Commit?
    ensures states[j + 1].db == PrepareReceipt(states[j].db, r, domain).db
  {
    assert Next(world, states[j], states[j + 1], steps[j]);
  }

  lemma SameTotal(world: World, states: seq<State>, steps: seq<Step>, j: nat, k: nat, r: RequestId, domain: Domain)
    requires Run(world, states, steps) && j < k < |states| && PrepareReceipt(states[j].db, r, domain).Commit?
    requires states[j + 1].db == PrepareReceipt(states[j].db, r, domain).db
             && PrepareReceipt(states[k].db, r, domain).Commit?
    ensures PrepareReceipt(states[k].db, r, domain).db == states[k].db
    ensures PrepareReceipt(states[k].db, r, domain).value.total == PrepareReceipt(states[j].db, r, domain).value.total
  {
    var total := PrepareReceipt(states[j].db, r, domain).value.total;
    OffersAt(world, states, steps, j);
    DraftIsDrafted(world, states[j].db, r, domain);
    DraftedOrPast(world, states, steps, j + 1, k, r, total);
    OffersAt(world, states, steps, k);
    DraftAgain(world, states[k].db, r, domain, total);
  }

  lemma SameAsFirst(world: World, states: seq<State>, steps: seq<Step>, j: nat, k: nat, r: RequestId, domain: Domain)
    requires Run(world, states, steps) && j < k < |states| && PrepareReceipt(states[j].db, r, domain).Commit?
    requires states[j + 1].db == PrepareReceipt(states[j].db, r, domain).db
             && PrepareReceipt(states[k].db, r, domain).Commit?
    requires PrepareReceipt(states[k].db, r, domain).value.total == PrepareReceipt(states[j].db, r, domain).value.total
    ensures PrepareReceipt(states[k].db, r, domain).value == PrepareReceipt(states[j].db, r, domain).value
  {
    Theorems.PreparingAgain(states[j].db, r, domain);
    RowsAt(world, states, steps, j + 1);
    RowsAt(world, states, steps, k);
    RunKeepsSources(world, states, steps, j + 1, k);
    Capping.RunLeavesTerms(world, states, steps, j + 1, k);
    SameParts(world, states[j + 1].db, states[k].db, r, domain);
  }
}
