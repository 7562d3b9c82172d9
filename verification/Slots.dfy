/** A slot, once taken, is given back exactly once. */
module Slots {
  import opened Basics
  import opened Tables
  import opened Projecting
  import opened Ledger
  import opened Protocol
  import opened Coherence
  import opened Capacity
  import opened Safety
  import opened Changes
  import Capping
  import Restoring

  /** How a transaction may change the slot of a request that exists. */
  predicate SlotChanged(db: Db, db': Db, change: Change, r: RequestId) {
    || Slot(db', r) == Slot(db, r)
    || (&& Slot(db, r).Some? && Slot(db', r).None?
        && (change.NewProposal? || change.Ending?) && change.r == r
        && db'.routes == FreeSlot(db.routes, Slot(db, r).value))
  }

  lemma ChangeSlots(feeRecipient: Address, db: Db, pcs: map<RequestId, Pc>, db': Db, change: Change, r: RequestId)
    requires Changed(feeRecipient, db, db', change) && Coherent(db, pcs) && r in db.requests
    requires change.LogsIndexed? ==> Coherent(db', pcs)
    ensures SlotChanged(db, db', change, r)
  {
    match change
    case BatchWritten(rs, t) => Submitting(db, rs, t, r);
    case RoutesReconciled(m, beat) => BeatKeeps(db, m, beat);
    case LogsIndexed(logs, _) => IndexingSlots(feeRecipient, db, pcs, db', logs, r);
    case Unwound(rs) => Unwinding(db, pcs, rs, r);
    case NoChange =>
    case NewAccount(_, _) =>
    case NewMachine(_, _) =>
    case MachineRevoked(_) =>
    case _ => HandlerSlots(feeRecipient, db, pcs, db', change, r);
  }

  lemma HandlerSlots(feeRecipient: Address, db: Db, pcs: map<RequestId, Pc>, db': Db, change: Change, r: RequestId)
    requires Changed(feeRecipient, db, db', change) && Coherent(db, pcs) && r in db.requests
    requires change.NewReservation? || change.Moved? || change.NewProposal? || change.NewReceipt? || change.NewQueueRow?
             || change.Ending?
    ensures SlotChanged(db, db', change, r)
  {
    match change
    case NewReservation(v) => ReservationSlots(db, v, r);
    case Moved(moved, to) => MovingOn(db, moved, to, r);
    case NewProposal(done, p) => CompletionSlots(db, pcs, done, p, r);
    case NewReceipt(drafted, domain) => DraftSlots(db, drafted, domain, r);
    case NewQueueRow(receipt) => QueueSlots(db, receipt, r);
    case Ending(aborted, to) => EndingSlots(db, aborted, to, r);
  }

  lemma EndingSlots(db: Db, aborted: RequestId, to: RequestState, r: RequestId)
    requires AbortInference(db, aborted, to).Commit?
    ensures SlotChanged(db, AbortInference(db, aborted, to).db, Ending(aborted, to), r)
  {
    AbortSlots(db, aborted, to);
  }

  lemma ReservationSlots(db: Db, v: Reservation, r: RequestId)
    requires ReserveInference(db, v).Commit? && r in db.requests
    ensures Slot(ReserveInference(db, v).db, r) == Slot(db, r)
  {
  }

  /** How a step may change the slot of a request that exists. */
  predicate SlotStep(s: State, s': State, step: Step, r: RequestId) {
    || Slot(s'.db, r) == Slot(s.db, r)
    || (&& Slot(s.db, r).Some? && Slot(s'.db, r).None?
        && (step.Complete? || step.Abort?) && step.r == r
        && s'.db.routes == FreeSlot(s.db.routes, Slot(s.db, r).value))
  }

  /** Over any step, a request keeps its slot, or gives it back by completing or
      aborting; one that has no slot any more never takes one again. */
  lemma ReturnedOnce(world: World, s: State, s': State, step: Step, r: RequestId)
    requires Inv(world, s) && Next(world, s, s', step) && r in s.db.requests
    ensures SlotStep(s, s', step, r)
  {
    var change := ChangeOf(world, s, s', step);
    Preserved(world, s, s', step);
    ChangeSlots(world.feeRecipient, s.db, s.pcs, s'.db, change, r);
  }

  lemma Unwinding(db: Db, pcs: map<RequestId, Pc>, rs: seq<RequestId>, r: RequestId)
    requires Coherent(db, pcs) && r in db.requests
    ensures Slot(Rewind(db, rs), r) == Slot(db, r)
  {
    assert RowOK(db, pcs, r);
  }

  lemma MovingOn(db: Db, moved: RequestId, to: RequestState, r: RequestId)
    requires TransitionRequest(db, moved, to).Commit? && (to == Accepted || to == Streaming)
    ensures Slot(TransitionRequest(db, moved, to).db, r) == Slot(db, r)
  {
  }

  lemma CompletionSlots(db: Db, pcs: map<RequestId, Pc>, done: RequestId, p: Proposal, r: RequestId)
    requires Coherent(db, pcs) && CompleteInference(db, done, p).Commit? && done in db.requests
             && Reported(p, db.requests[done])
    ensures SlotChanged(db, CompleteInference(db, done, p).db, NewProposal(done, p), r)
  {
    assert RowOK(db, pcs, done);
  }

  lemma DraftSlots(db: Db, drafted: RequestId, domain: Domain, r: RequestId)
    requires PrepareReceipt(db, drafted, domain).Commit?
    ensures Slot(PrepareReceipt(db, drafted, domain).db, r) == Slot(db, r)
  {
    DraftKeeps(db, drafted, domain);
  }

  lemma QueueSlots(db: Db, receipt: Receipt, r: RequestId)
    ensures Slot(Enqueue(db, receipt), r) == Slot(db, r)
  {
  }

  lemma Submitting(db: Db, rs: seq<RequestId>, t: Transaction, r: RequestId)
    requires forall i :: 0 <= i < |rs| ==> rs[i] in db.queue
    ensures Slot(SubmitAll(db, rs, t), r) == Slot(db, r)
    decreases |rs|
  {
    if rs != [] { Submitting(db, rs[..|rs| - 1], t, r); }
  }

  lemma IndexingSlots(feeRecipient: Address, db: Db, pcs: map<RequestId, Pc>, db': Db, logs: seq<Log>, r: RequestId)
    requires Coherent(db, pcs) && Coherent(db', pcs) && IndexLogs(db, feeRecipient, logs).Commit?
    requires db' == IndexLogs(db, feeRecipient, logs).db.(cursor := db'.cursor)
    ensures Slot(db', r) == Slot(db, r)
  {
    Restoring.StretchSettles(db, feeRecipient, logs);
    Restoring.CursorAside(db, IndexLogs(db, feeRecipient, logs).db, db'.cursor);
    SettlingKeepsSlots(db, db', pcs, r);
  }

  /** A request that is only settled had given its slot back before. */
  lemma SettlingKeepsSlots(db: Db, db': Db, pcs: map<RequestId, Pc>, r: RequestId)
    requires Restoring.OnlySettles(db, db') && Coherent(db, pcs) && Coherent(db', pcs)
    ensures Slot(db', r) == Slot(db, r)
  {
    if r in db.requests { assert RowOK(db, pcs, r) && RowOK(db', pcs, r); }
  }

  // ------------------------------------------------------------------------- every run

  /** A row of slots that only ever changes by being given back. */
  predicate OnlyReturned(slots: seq<Option<RouteKey>>) {
    forall i :: 0 < i < |slots| ==> slots[i] == slots[i - 1] || (slots[i - 1].Some? && slots[i].None?)
  }

  lemma {:induction false} OneReturn(slots: seq<Option<RouteKey>>) returns (at: nat)
    requires OnlyReturned(slots) && |slots| > 0 && slots[0].Some? && slots[|slots| - 1].None?
    ensures at < |slots| - 1
    ensures forall i :: 0 <= i <= at ==> slots[i] == slots[0]
    ensures forall i :: at < i < |slots| ==> slots[i].None?
    decreases |slots|
  {
    var n := |slots| - 1;
    if slots[n - 1].None? {
      at := OneReturn(slots[..n]);
      forall i | 0 <= i <= at ensures slots[i] == slots[0] { assert slots[..n][i] == slots[i]; }
      forall i | at < i < n ensures slots[i].None? { assert slots[..n][i] == slots[i]; }
    } else {
      at := n - 1;
      SameUntil(slots, at);
    }
  }

  lemma {:induction false} SameUntil(slots: seq<Option<RouteKey>>, n: nat)
    requires OnlyReturned(slots) && n < |slots| && slots[n].Some?
    ensures forall i :: 0 <= i <= n ==> slots[i] == slots[0]
  {
    if n > 0 { SameUntil(slots, n - 1); }
  }

  lemma OneStep(world: World, states: seq<State>, steps: seq<Step>, j: nat, i: nat, r: RequestId)
    requires Run(world, states, steps) && j <= i < |steps| && r in states[j].db.requests
    ensures SlotStep(states[i], states[i + 1], steps[i], r)
  {
    Reached(world, states, steps, i);
    Capping.RunLeavesTerms(world, states, steps, j, i);
    ReturnedOnce(world, states[i], states[i + 1], steps[i], r);
  }

  /** A request that had a slot and has none any more gave it back in one step of the
      run, by completing or aborting, and in no other. */
  lemma ReturnedExactlyOnce(world: World, states: seq<State>, steps: seq<Step>, j: nat, k: nat, r: RequestId)
                            returns (at: nat)
    requires Run(world, states, steps) && j <= k < |states| && r in states[j].db.requests
    requires Slot(states[j].db, r).Some? && Slot(states[k].db, r).None?
    ensures j <= at < k && (steps[at].Complete? || steps[at].Abort?) && steps[at].r == r
    ensures states[at + 1].db.routes == FreeSlot(states[at].db.routes, Slot(states[j].db, r).value)
    ensures forall i :: j <= i <= at ==> Slot(states[i].db, r) == Slot(states[j].db, r)
    ensures forall i :: at < i <= k ==> Slot(states[i].db, r).None?
  {
    var slots := SlotsOver(world, states, steps, j, k, r);
    var n := OneReturn(slots);
    at := j + n;
    forall i | j <= i <= at ensures Slot(states[i].db, r) == Slot(states[j].db, r) {
      assert slots[i - j] == Slot(states[i].db, r);
    }
    forall i | at < i <= k ensures Slot(states[i].db, r).None? { assert slots[i - j] == Slot(states[i].db, r); }
    OneStep(world, states, steps, j, at, r);
  }

  lemma SlotsOver(world: World, states: seq<State>, steps: seq<Step>, j: nat, k: nat, r: RequestId)
                  returns (slots: seq<Option<RouteKey>>)
    requires Run(world, states, steps) && j <= k < |states| && r in states[j].db.requests
    ensures |slots| == k - j + 1 && OnlyReturned(slots) && forall i :: 0 <= i < |slots| ==>
              slots[i] == Slot(states[j + i].db, r)
  {
    slots := seq(k - j + 1, i requires 0 <= i < k - j + 1 => Slot(states[j + i].db, r));
    forall i | 0 < i < |slots| ensures slots[i] == slots[i - 1] || (slots[i - 1].Some? && slots[i].None?) {
      SlotChange(world, states, steps, j, j + i - 1, r);
    }
  }

  lemma SlotChange(world: World, states: seq<State>, steps: seq<Step>, j: nat, i: nat, r: RequestId)
    requires Run(world, states, steps) && j <= i < |steps| && r in states[j].db.requests
    ensures Slot(states[i + 1].db, r) == Slot(states[i].db, r)
            || (Slot(states[i].db, r).Some? && Slot(states[i + 1].db, r).None?)
  {
    OneStep(world, states, steps, j, i, r);
  }
}
