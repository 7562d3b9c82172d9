/** The customer's own limit, from the request's header to the settled receipt. */
module Capping {
  import opened Tables
  import opened Projecting
  import opened Ledger
  import opened Protocol
  import opened Coherence
  import opened Safety
  import opened Changes
  import Restoring
  import Theorems

  /** Requests stay, and nothing but their state changes. */
  ghost predicate TermsStand(db: Db, db': Db) {
    forall r <- db.requests :: r in db'.requests
      && db'.requests[r].(state := Created) == db.requests[r].(state := Created)
  }

  lemma TermsStandOn(a: Db, b: Db, c: Db)
    requires TermsStand(a, b) && TermsStand(b, c)
    ensures TermsStand(a, c)
  {
  }

  lemma SettlingLeavesTerms(db: Db, db': Db)
    requires Restoring.OnlySettles(db, db')
    ensures TermsStand(db, db')
  {
  }

  lemma {:induction false} BatchLeavesTerms(db: Db, rs: seq<RequestId>, t: Transaction)
    requires forall i :: 0 <= i < |rs| ==> rs[i] in db.queue
    ensures TermsStand(db, SubmitAll(db, rs, t))
    decreases |rs|
  {
    if rs != [] { BatchLeavesTerms(db, rs[..|rs| - 1], t); }
  }

  lemma ChangeLeavesTerms(feeRecipient: Address, db: Db, db': Db, change: Change)
    requires Changed(feeRecipient, db, db', change)
    ensures TermsStand(db, db')
  {
    match change
    case NewProposal(r, p) => CompletionLeavesTerms(db, r, p);
    case NewReceipt(r, domain) => DraftKeeps(db, r, domain);
    case Ending(r, to) => AbortLeavesTerms(db, r, to);
    case BatchWritten(rs, t) => BatchLeavesTerms(db, rs, t);
    case RoutesReconciled(m, beat) => BeatKeeps(db, m, beat);
    case LogsIndexed(logs, _) =>
      Restoring.StretchSettles(db, feeRecipient, logs);
      SettlingLeavesTerms(db, IndexLogs(db, feeRecipient, logs).db);
    case NewReservation(v) => ReservationLeavesTerms(db, v);
    case Moved(r, to) => MoveLeavesTerms(db, r, to);
    case NewQueueRow(receipt) => QueueLeavesTerms(db, receipt);
    case Unwound(rs) => UnwindLeavesTerms(db, rs);
    case _ =>
  }

  lemma CompletionLeavesTerms(db: Db, r: RequestId, p: Proposal)
    requires CompleteInference(db, r, p).Commit?
    ensures TermsStand(db, CompleteInference(db, r, p).db)
  {
    var requests := CompleteInference(db, r, p).db.requests;
    assert requests == db.requests
      || (r in db.requests && requests == db.requests[r := db.requests[r].(state := Completed)]);
  }

  lemma AbortLeavesTerms(db: Db, r: RequestId, to: RequestState)
    requires AbortInference(db, r, to).Commit?
    ensures TermsStand(db, AbortInference(db, r, to).db)
  {
    var requests := AbortInference(db, r, to).db.requests;
    assert requests == db.requests || requests == db.requests[r := db.requests[r].(state := to)];
  }

  lemma ReservationLeavesTerms(db: Db, v: Reservation)
    requires ReserveInference(db, v).Commit?
    ensures TermsStand(db, ReserveInference(db, v).db)
  {
  }

  lemma MoveLeavesTerms(db: Db, r: RequestId, to: RequestState)
    requires TransitionRequest(db, r, to).Commit?
    ensures TermsStand(db, TransitionRequest(db, r, to).db)
  {
  }

  lemma QueueLeavesTerms(db: Db, receipt: Receipt)
    ensures TermsStand(db, Enqueue(db, receipt))
  {
    var requests, r := Enqueue(db, receipt).requests, receipt.request;
    assert requests == db.requests
      || (r in db.requests && requests == db.requests[r := db.requests[r].(state := Signed)]);
  }

  lemma UnwindLeavesTerms(db: Db, rs: seq<RequestId>)
    ensures TermsStand(db, Rewind(db, rs))
  {
  }

  lemma StepLeavesTerms(world: World, s: State, s': State, step: Step)
    requires Coherent(s.db, s.pcs) && Next(world, s, s', step)
    ensures TermsStand(s.db, s'.db)
  {
    var change := ChangeOf(world, s, s', step);
    ChangeLeavesTerms(world.feeRecipient, s.db, s'.db, change);
  }

  lemma TermsAt(world: World, states: seq<State>, steps: seq<Step>, i: nat)
    requires Run(world, states, steps) && i < |steps|
    ensures TermsStand(states[i].db, states[i + 1].db)
  {
    CoherentAt(world, states, steps, i);
    StepLeavesTerms(world, states[i], states[i + 1], steps[i]);
  }

  lemma {:induction false} RunLeavesTerms(world: World, states: seq<State>, steps: seq<Step>, j: nat, k: nat)
    requires Run(world, states, steps) && j <= k < |states|
    ensures TermsStand(states[j].db, states[k].db)
    decreases k
  {
    if j < k {
      RunLeavesTerms(world, states, steps, j, k - 1);
      TermsAt(world, states, steps, k - 1);
      TermsStandOn(states[j].db, states[k - 1].db, states[k].db);
    }
  }

  lemma ReservedWithinLimit(db: Db, v: Reservation)
    requires ReserveInference(db, v).Commit?
    ensures var q := ReserveInference(db, v).db.requests[v.request];
            q.maximumSpend <= v.maximumSpend && q.limits == v.limits
  {
  }

  /** Step j of the run reserves v. */
  ghost predicate Reserves(world: World, states: seq<State>, steps: seq<Step>, j: nat, v: Reservation) {
    Run(world, states, steps) && j < |steps| && steps[j].Serve? && steps[j].v == v && v.request in states[j + 1].pcs
  }

  /** Where the request is queued, its receipt is over at most `limit` wei. */
  predicate ChargedAtMost(s: State, r: RequestId, limit: nat) {
    r in s.db.queue ==> s.db.queue[r].receipt.total <= limit
  }

  /** In whatever run v is reserved, and whatever happens until its settlement, its
      request is never charged more than `limit`. */
  ghost predicate Capped(world: World, v: Reservation, limit: nat) {
    forall states: seq<State>, steps: seq<Step>, j: nat, k: nat ::
      Reserves(world, states, steps, j, v) && j < k < |states| ==> ChargedAtMost(states[k], v.request, limit)
  }

  lemma ChargedWithinTheReservation(world: World, states: seq<State>, steps: seq<Step>, j: nat, k: nat, v: Reservation)
    requires Reserves(world, states, steps, j, v) && j < k < |states|
    ensures ChargedAtMost(states[k], v.request, v.maximumSpend)
  {
    var r := v.request;
    assert Next(world, states[j], states[j + 1], steps[j]);
    ReservedWithinLimit(states[j].db, v);
    RunLeavesTerms(world, states, steps, j + 1, k);
    if r in states[k].db.queue {
      Theorems.ChargedWithinReservation(world, states, steps, k, r);
      assert states[k].db.requests[r].(state := Created).maximumSpend
        == states[j + 1].db.requests[r].(state := Created).maximumSpend;
    }
  }

  /** Whatever happens between its reservation and its settlement, a request is never
      charged more than a limit that its reservation respects. */
  lemma NeverAboveTheCustomersLimit(world: World, v: Reservation, limit: nat)
    requires v.maximumSpend <= limit
    ensures Capped(world, v, limit)
  {
    forall states: seq<State>, steps: seq<Step>, j: nat, k: nat
      | Reserves(world, states, steps, j, v) && j < k < |states|
      ensures ChargedAtMost(states[k], v.request, limit)
    {
      ChargedWithinTheReservation(world, states, steps, j, k, v);
    }
  }
}
