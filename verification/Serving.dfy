/** The handler of one inference request, from its reservation to its exit, as the
    program that takes the protocol's handler steps in order. */
module Serving {
  import opened Basics
  import opened Charging
  import opened Tables
  import opened Projecting
  import opened Ledger
  import opened Protocol
  import opened Storage
  import opened Settling
  import opened Fates

  datatype Forwarded = Onwards | Finished | Broken

  /** The request as its handler left it, in `state`. */
  predicate Serving(s: State, v: Reservation, state: RequestState, pc: Pc) {
    && v.request in s.pcs && s.pcs[v.request] == pc && v.request in s.db.requests
    && var q := s.db.requests[v.request];
       && q.state == state && q.session == v.session && q.machine == v.machine && q.offer == v.offer
       && q.version == v.version && q.limits == v.limits
  }

  class Handler {
    const store: Store
    const queue: SettlementQueue

    constructor (store: Store, queue: SettlementQueue)
      requires queue.store == store
      ensures this.store == store && this.queue == queue
    {
      this.store, this.queue := store, queue;
    }

    /** Every call that fails, or seems to, ends in an abort. */
    method Abort(ghost world: World, script: Script, r: RequestId, to: RequestState, ghost s: State,
                 ghost before: seq<Step>, ghost mid: State)
      returns (ghost steps: seq<Step>, ghost s': State)
      requires store.Valid() && Walk(world, s, before, mid) && mid.db == store.db
      requires r in mid.pcs && (mid.pcs[r] == Aborting(to) || MayGiveUp(mid.pcs[r], to))
      modifies store
      ensures store.Valid() && Walk(world, s, steps, s') && s'.db == store.db && before <= steps
      ensures r in s'.pcs && s'.pcs[r] == Exited(script.landing(Ending) != Lost)
      ensures s'.db == Abandoned(mid.db, script, r, to)
    {
      steps, s' := before, mid;
      if mid.pcs[r] != Aborting(to) {
        s' := mid.(pcs := mid.pcs[r := Aborting(to)]);
        WalkOn(world, s, steps, mid, GiveUp(r, to), s');
        steps := steps + [GiveUp(r, to)];
      }
      ghost var lost := script.landing(Ending) == Lost;
      var _ := store.AbortInference(r, to, script.landing(Ending));
      ghost var after := s'.(db := store.db, pcs := s'.pcs[r := Exited(!lost)]);
      WalkOn(world, s, steps, s', Step.Abort(r, lost), after);
      steps, s' := steps + [Step.Abort(r, lost)], after;
    }

    /** The settlement half of Complete: draft the receipt, have it signed, queue it. */
    method Settle(ghost world: World, script: Script, r: RequestId, ghost s: State, ghost before: seq<Step>,
                  ghost mid: State)
      returns (ok: bool, ghost steps: seq<Step>, ghost s': State)
      requires store.Valid() && queue.store == store && Walk(world, s, before, mid) && mid.db == store.db
      requires r in mid.pcs && mid.pcs[r] == Finalizing
      modifies store
      ensures store.Valid() && Walk(world, s, steps, s') && s'.db == store.db && r in s'.pcs && before <= steps
      ensures if ok then s'.pcs[r] == Exited(true) else s'.pcs[r] == Aborting(Failed) || MayGiveUp(s'.pcs[r], Failed)
      ensures s'.db == Receipted(mid.db, script, r) && (ok <==> Settles(mid.db, script, r))
    {
      steps, s' := before, mid;
      if script.domain.None? { return false, steps, s'; }
      var outcome, receipt := store.PrepareReceipt(r, script.domain.value, script.landing(Drafting));
      steps, s' := AfterDrafting(world, r, script.domain.value, script.landing(Drafting), outcome, s, steps, s');
      if !outcome.Fine? || !script.cosigned { return false, steps, s'; }
      outcome := queue.Enqueue(receipt.value, script.landing(Queueing));
      steps, s' := AfterQueueing(world, r, script.landing(Queueing), s, steps, s');
      return outcome.Fine?, steps, s';
    }

    /** Complete: persist the proposal, then settle it. */
    method Complete(ghost world: World, script: Script, v: Reservation, usage: Usage, ghost s: State,
                    ghost before: seq<Step>, ghost mid: State)
      returns (ok: bool, ghost steps: seq<Step>, ghost s': State)
      requires store.Valid() && queue.store == store && Walk(world, s, before, mid) && mid.db == store.db
      requires Serving(mid, v, Streaming, Looping(true)) && Within(usage, v.limits)
      modifies store
      ensures store.Valid() && Walk(world, s, steps, s') && s'.db == store.db && v.request in s'.pcs && before <= steps
      ensures if ok then s'.pcs[v.request] == Exited(true)
              else s'.pcs[v.request] == Aborting(Failed) || MayGiveUp(s'.pcs[v.request], Failed)
      ensures v.request !in mid.db.proposals ==>
                s'.db == Delivered(mid.db, script, v, usage) && (ok <==> Completes(mid.db, script, v, usage))
    {
      ok, steps, s' := Persist(world, script, v, usage, s, before, mid);
      if !ok { return; }
      ok, steps, s' := Settle(world, script, v.request, s, steps, s');
    }

    /** The proposal, as the provider reported it, made durable. */
    method Persist(ghost world: World, script: Script, v: Reservation, usage: Usage, ghost s: State,
                   ghost before: seq<Step>, ghost mid: State)
      returns (ok: bool, ghost steps: seq<Step>, ghost s': State)
      requires store.Valid() && Walk(world, s, before, mid) && mid.db == store.db
      requires Serving(mid, v, Streaming, Looping(true)) && Within(usage, v.limits)
      modifies store
      ensures store.Valid() && Walk(world, s, steps, s') && s'.db == store.db && v.request in s'.pcs && before <= steps
      ensures s'.pcs[v.request] == if ok then Finalizing else Aborting(Failed)
      ensures s'.db == Persisted(mid.db, script, v, usage)
      ensures v.request !in mid.db.proposals ==>
                && Ledger.CompleteInference(mid.db, v.request, ProposalOf(script, v, usage)).Commit?
                && (ok <==> script.landing(Completing) == Done)
    {
      var proposal := ProposalOf(script, v, usage);
      steps, s' := AfterReport(world, v, proposal, s, before, mid);
      var outcome := store.CompleteInference(v.request, proposal, script.landing(Completing));
      steps, s' := AfterCompleting(world, v.request, script.landing(Completing), outcome, s, steps, s');
      ok := outcome.Fine?;
    }

    /** A move to `accepted` or `streaming`. */
    method Move(ghost world: World, v: Reservation, to: RequestState, landing: Landing, ghost s: State,
                ghost before: seq<Step>, ghost mid: State)
      returns (ok: bool, ghost steps: seq<Step>, ghost s': State)
      requires store.Valid() && Walk(world, s, before, mid) && mid.db == store.db
      requires (to == Accepted && Serving(mid, v, Offered, Pc.Waiting))
               || (to == Streaming && Serving(mid, v, Accepted, Looping(false)))
      modifies store
      ensures store.Valid() && Walk(world, s, steps, s') && s'.db == store.db && before <= steps
      ensures if ok then Serving(s', v, to, Looping(to == Streaming)) else v.request in s'.pcs
                                                                           && s'.pcs[v.request] == Aborting(Failed)
      ensures s'.db == MovedOn(mid.db, v.request, to, landing) && (ok <==> landing == Done)
    {
      var outcome := store.TransitionRequest(v.request, to, landing);
      ok := outcome.Fine?;
      ghost var step := if to == Accepted then Accept(v.request, landing) else Stream(v.request, landing);
      s' := mid.(db := store.db,
                 pcs := mid.pcs[v.request := Onward(Ledger.TransitionRequest(mid.db, v.request, to), landing,
                   Looping(to == Streaming))]);
      WalkOn(world, s, before, mid, step, s');
      steps := before + [step];
    }

    method Started(ghost world: World, script: Script, v: Reservation, input: Input, streaming: bool, ghost s: State,
                   ghost before: seq<Step>, ghost mid: State)
      returns (ok: bool, now: bool, ghost steps: seq<Step>, ghost s': State)
      requires store.Valid() && Walk(world, s, before, mid) && mid.db == store.db && input.Chunk?
      requires Serving(mid, v, if streaming then Streaming else Accepted, Looping(streaming))
      modifies store
      ensures store.Valid() && Walk(world, s, steps, s') && s'.db == store.db && before <= steps
      ensures ok ==> Serving(s', v, if now then Streaming else Accepted, Looping(now))
                                                               && (now <== input.done && !input.failed)
      ensures !ok ==> v.request in s'.pcs && s'.pcs[v.request] == Aborting(Failed)
      ensures s'.db == Begun(mid.db, script, v.request, input, streaming) && (ok <==> Under(script, input, streaming))
      ensures now == (streaming || Starts(input))
    {
      ok, now, steps, s' := true, streaming, before, mid;
      if !streaming && (input.data || (input.done && !input.failed)) {
        ok, steps, s' := Move(world, v, Streaming, script.landing(Starting), s, before, mid);
        now := true;
      }
    }

    /** A chunk on its way to the customer; the last one completes the request. */
    method Forward(ghost world: World, script: Script, v: Reservation, input: Input, streaming: bool, ghost s: State,
                   ghost before: seq<Step>, ghost mid: State)
      returns (next: Forwarded, now: bool, ghost steps: seq<Step>, ghost s': State)
      requires store.Valid() && queue.store == store && Walk(world, s, before, mid) && mid.db == store.db
               && input.Chunk?
      requires Serving(mid, v, if streaming then Streaming else Accepted, Looping(streaming))
      modifies store
      ensures store.Valid() && Walk(world, s, steps, s') && s'.db == store.db && before <= steps && v.request in s'.pcs
      ensures match next
              case Onwards => Serving(s', v, if now then Streaming else Accepted, Looping(now)) && !input.done
              case Finished => s'.pcs[v.request] == Exited(true)
              case Broken => s'.pcs[v.request] == Aborting(Failed) || MayGiveUp(s'.pcs[v.request], Failed)
      ensures next == Onwards <==> Passes(input) && Under(script, input, streaming)
      ensures next == Onwards ==> now == (streaming || Starts(input))
      ensures next == Onwards ==> s'.db.proposals == mid.db.proposals
      ensures v.request !in mid.db.proposals ==>
                && s'.db == Taken(mid.db, script, v, input, streaming)
                && (next == Finished <==> Finishes(mid.db, script, v, input, streaming))
    {
      var ok;
      ok, now, steps, s' := Started(world, script, v, input, streaming, s, before, mid);
      next := Broken;
      if !ok || (input.data && !input.written) || input.failed { return; }
      if !input.done { next := Onwards; return; }
      if !Within(input.usage, v.limits) { return; }
      ghost var begun := s'.db;
      ok, steps, s' := Complete(world, script, v, input.usage, s, steps, s');
      if v.request !in mid.db.proposals { TakenWhole(mid.db, begun, script, v, input, streaming); }
      if ok { next := Finished; }
    }

    /** One input of the relay loop. */
    method Turn(ghost world: World, script: Script, v: Reservation, i: nat, streaming: bool, ghost s: State,
                ghost before: seq<Step>, ghost mid: State)
      returns (next: Forwarded, to: RequestState, now: bool, ghost steps: seq<Step>, ghost s': State)
      requires store.Valid() && queue.store == store && Walk(world, s, before, mid) && mid.db == store.db
      requires i < |script.inputs| && Serving(mid, v, if streaming then Streaming else Accepted, Looping(streaming))
      modifies store
      ensures store.Valid() && Walk(world, s, steps, s') && s'.db == store.db && before <= steps && v.request in s'.pcs
      ensures match next
              case Onwards => Serving(s', v, if now then Streaming else Accepted, Looping(now))
              case Finished => s'.pcs[v.request] == Exited(true)
              case Broken => s'.pcs[v.request] == Aborting(to) || MayGiveUp(s'.pcs[v.request], to)
      ensures v.request !in mid.db.proposals ==>
                var whole := Relayed(mid.db, script, v, script.inputs[i..], streaming);
                match next
                case Onwards =>
                  v.request !in s'.db.proposals && Relayed(s'.db, script, v, script.inputs[i + 1..], now) == whole
                case Finished => s'.db == whole
                case Broken => Abandoned(s'.db, script, v.request, to) == whole
    {
      var input := script.inputs[i];
      next, to, now, steps, s' := Broken, Farewell(input), streaming, before, mid;
      RelayedHere(mid.db, script, v, i, streaming);
      if input.Chunk? {
        next, now, steps, s' := Forward(world, script, v, input, streaming, s, before, mid);
      } else if input.Noise? {
        next := Onwards;
      }
    }

    /** The relay loop: output goes to the customer until the provider is done, or
        something goes wrong; the generation timer ends it in any case. */
    method Relay(ghost world: World, script: Script, v: Reservation, ghost s: State, ghost before: seq<Step>,
                 ghost mid: State)
      returns (ghost steps: seq<Step>, ghost s': State)
      requires store.Valid() && queue.store == store && Walk(world, s, before, mid) && mid.db == store.db
      requires Serving(mid, v, Accepted, Looping(false))
      modifies store
      ensures store.Valid() && Walk(world, s, steps, s') && s'.db == store.db && before <= steps
      ensures v.request in s'.pcs && s'.pcs[v.request].Exited?
      ensures script.landing(Ending) != Lost ==> s'.pcs[v.request] == Exited(true)
      ensures v.request !in mid.db.proposals ==> s'.db == Relayed(mid.db, script, v, script.inputs, false)
    {
      var streaming, to, i := false, Failed, 0;
      steps, s' := before, mid;
      while i < |script.inputs|
        invariant i <= |script.inputs| && to == Failed
        invariant store.Valid() && Walk(world, s, steps, s') && s'.db == store.db && before <= steps
        invariant Serving(s', v, if streaming then Streaming else Accepted, Looping(streaming))
        invariant v.request !in mid.db.proposals ==>
                    && v.request !in s'.db.proposals
                    && Relayed(s'.db, script, v, script.inputs[i..], streaming)
                       == Relayed(mid.db, script, v, script.inputs, false)
      {
        var next, reason;
        next, reason, streaming, steps, s' := Turn(world, script, v, i, streaming, s, steps, s');
        if next == Finished { return; }
        if next == Broken { to := reason; break; }
        i := i + 1;
      }
      steps, s' := Abort(world, script, v.request, to, s, steps, s');
    }

    /** The whole handler, on a request not served before. */
    method ServeRequest(ghost world: World, script: Script, v: Reservation, ghost s: State)
                        returns (ghost steps: seq<Step>, ghost s': State)
      requires store.Valid() && queue.store == store && s.db == store.db && v.request !in s.pcs
      modifies store
      ensures store.Valid() && Walk(world, s, steps, s') && s'.db == store.db
      ensures [Serve(v, script.landing(Reserving))] <= steps
      ensures v.request in s'.pcs ==> s'.pcs[v.request].Exited?
      ensures script.landing(Ending) != Lost && v.request in s'.pcs ==> s'.pcs[v.request] == Exited(true)
      ensures v.request !in s.db.proposals ==> s'.db == Handled(s.db, script, v)
    {
      var outcome := store.ReserveInference(v, script.landing(Reserving));
      steps, s' := AfterReserving(world, v, script.landing(Reserving), outcome, s);
      if !outcome.Fine? { return; }
      if script.offered && script.accepted {
        var ok;
        ok, steps, s' := Move(world, v, Accepted, script.landing(Accepting), s, steps, s');
        if ok && script.flusher {
          steps, s' := Relay(world, script, v, s, steps, s');
          return;
        }
      }
      steps, s' := Abort(world, script, v.request, Failed, s, steps, s');
    }
  }

  lemma AfterReserving(world: World, v: Reservation, landing: Landing, outcome: Outcome, s: State)
                       returns (steps: seq<Step>, s': State)
    requires v.request !in s.pcs && Told(outcome, s.db, ReserveInference(s.db, v), landing) && (outcome.Fine? ==>
               landing == Done)
    ensures steps == [Serve(v, landing)] && Walk(world, s, steps, s')
            && s'.db == After(s.db, ReserveInference(s.db, v), landing)
    ensures if outcome.Fine? then Serving(s', v, Offered, Pc.Waiting) else v.request in s'.pcs ==>
              s'.pcs[v.request] == Exited(true)
  {
    var result := ReserveInference(s.db, v);
    s' := if result.Commit? && landing != Lost
          then s.(db := result.db, pcs := s.pcs[v.request := if landing == Done then Pc.Waiting else Exited(true)])
            else s;
    WalkOn(world, s, [], s, Serve(v, landing), s');
    steps := [] + [Serve(v, landing)];
  }

  lemma AfterReport(world: World, v: Reservation, p: Proposal, s: State, before: seq<Step>, mid: State)
                    returns (steps: seq<Step>, s': State)
    requires Walk(world, s, before, mid) && Serving(mid, v, Streaming, Looping(true)) && Within(p.usage, v.limits)
    requires p.session == v.session && p.machine == v.machine && p.offer == v.offer && p.version == v.version
    ensures before <= steps && Walk(world, s, steps, s') && s' == mid.(pcs := mid.pcs[v.request := Persisting(p)])
  {
    s' := mid.(pcs := mid.pcs[v.request := Persisting(p)]);
    var step := Report(v.request, p.usage, p.inputHash, p.outputHash, p.completedAt);
    WalkOn(world, s, before, mid, step, s');
    steps := before + [step];
  }

  /** A handler that was told of success finds the step done; otherwise it will abort. */
  lemma AfterCompleting(world: World, r: RequestId, landing: Landing, outcome: Outcome, s: State, before: seq<Step>,
                        mid: State)
    returns (steps: seq<Step>, s': State)
    requires Walk(world, s, before, mid) && r in mid.pcs && mid.pcs[r].Persisting?
    requires Told(outcome, mid.db, CompleteInference(mid.db, r, mid.pcs[r].proposal), landing)
    ensures before <= steps && Walk(world, s, steps, s')
    ensures s' == mid.(db := After(mid.db, CompleteInference(mid.db, r, mid.pcs[r].proposal), landing), pcs := s'.pcs)
    ensures r in s'.pcs && s'.pcs[r] == (if outcome.Fine? then Finalizing else Aborting(Failed))
  {
    var result := CompleteInference(mid.db, r, mid.pcs[r].proposal);
    // An answer to a completion already made is given without a transaction.
    var reported := if outcome.Fine? then Done else landing;
    s' := mid.(db := After(mid.db, result, reported), pcs := mid.pcs[r := Onward(result, reported, Finalizing)]);
    WalkOn(world, s, before, mid, Step.Complete(r, reported), s');
    steps := before + [Step.Complete(r, reported)];
  }

  lemma AfterQueueing(world: World, r: RequestId, landing: Landing, s: State, before: seq<Step>, mid: State)
    returns (steps: seq<Step>, s': State)
    requires Walk(world, s, before, mid) && r in mid.pcs && mid.pcs[r].Signing?
    ensures before <= steps && Walk(world, s, steps, s') && r in s'.pcs
            && s'.pcs[r] == (if landing == Done then Exited(true) else Aborting(Failed))
    ensures s'.db == if landing == Lost then mid.db else Enqueue(mid.db, mid.pcs[r].receipt)
  {
    s' := mid.(db := if landing == Lost then mid.db else Enqueue(mid.db, mid.pcs[r].receipt),
               pcs := mid.pcs[r := if landing == Done then Exited(true) else Aborting(Failed)]);
    WalkOn(world, s, before, mid, Queue(r, landing), s');
    steps := before + [Queue(r, landing)];
  }

  lemma AfterDrafting(world: World, r: RequestId, domain: Domain, landing: Landing, outcome: Outcome, s: State,
                      before: seq<Step>, mid: State)
    returns (steps: seq<Step>, s': State)
    requires Walk(world, s, before, mid) && r in mid.pcs && mid.pcs[r] == Finalizing
    requires Told(outcome, mid.db, PrepareReceipt(mid.db, r, domain), landing) && (outcome.Fine? ==> landing == Done)
    ensures before <= steps && Walk(world, s, steps, s')
    ensures s' == mid.(db := After(mid.db, PrepareReceipt(mid.db, r, domain), landing), pcs := s'.pcs)
    ensures r in s'.pcs && s'.pcs[r] == (if outcome.Fine? then Signing(PrepareReceipt(mid.db, r, domain).value)
            else Aborting(Failed))
  {
    var result := PrepareReceipt(mid.db, r, domain);
    s' := mid.(db := After(mid.db, result, landing),
               pcs := mid.pcs[r := if result.Commit? && landing == Done then Signing(result.value)
                 else Aborting(Failed)]);
    WalkOn(world, s, before, mid, Draft(r, domain, landing), s');
    steps := before + [Draft(r, domain, landing)];
  }
}
