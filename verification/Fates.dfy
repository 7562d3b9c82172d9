/** What becomes of one request, from everything that is outside its handler's control. */
module Fates {
  import opened Basics
  import opened Charging
  import opened Tables
  import opened Ledger
  import opened Protocol

  /** What reaches the handler while it relays the provider's output. */
  datatype Input =
    | Timeout | Gone | Overflow | Noise | Garbled
    | Chunk(data: bool, written: bool, failed: bool, done: bool, usage: Usage)

  datatype Point = Reserving | Accepting | Starting | Completing | Drafting | Queueing | Ending

  /** Everything outside the handler's control. */
  datatype Script = Script(
    offered: bool,            // the offer reached the provider
    accepted: bool,           // and was accepted in time
    flusher: bool,
    inputs: seq<Input>,
    domain: Option<Domain>,   // the receipt terms, if they could be read
    cosigned: bool,           // both signatures were obtained
    inputHash: Hash, outputHash: Hash, completedAt: nat,
    landing: Point -> Landing)

  // ------------------------------------------------------------------------ the inputs

  /** The loop goes on after it. */
  predicate Passes(input: Input) {
    input.Noise? || (input.Chunk? && !input.failed && !input.done && (input.data ==> input.written))
  }

  /** The first output, or the end of a job without any, starts the stream. */
  predicate Starts(input: Input) { input.Chunk? && (input.data || (input.done && !input.failed)) }

  /** The provider is done, and within what was reserved. */
  predicate Final(input: Input, limits: Usage) {
    input.Chunk? && input.done && !input.failed && (input.data ==> input.written) && Within(input.usage, limits)
  }

  function FirstStop(inputs: seq<Input>): (n: nat)
    ensures n <= |inputs| && (forall k :: 0 <= k < n ==> Passes(inputs[k])) && (n < |inputs| ==> !Passes(inputs[n]))
  {
    if inputs == [] || !Passes(inputs[0]) then 0 else FirstStop(inputs[1..]) + 1
  }

  /** Some input up to the first stop starts the stream. */
  predicate Begins(inputs: seq<Input>) {
    exists k :: 0 <= k <= FirstStop(inputs) && k < |inputs| && Starts(inputs[k])
  }

  /** The input on which the loop ends; the generation timer, when they run out. */
  function LastInput(inputs: seq<Input>): (input: Input) {
    if FirstStop(inputs) < |inputs| then inputs[FirstStop(inputs)] else Timeout
  }

  function Farewell(input: Input): (to: RequestState) { if input.Gone? then Cancelled else Failed }

  lemma LaterInputs(inputs: seq<Input>)
    requires inputs != [] && Passes(inputs[0])
    ensures LastInput(inputs) == LastInput(inputs[1..])
    ensures Begins(inputs) <==> Starts(inputs[0]) || Begins(inputs[1..])
  {
    var n := FirstStop(inputs);
    if k :| 0 <= k <= n && k < |inputs| && Starts(inputs[k]) && k > 0 { assert inputs[1..][k - 1] == inputs[k]; }
    if k :| 0 <= k <= FirstStop(inputs[1..]) && k < |inputs[1..]| && Starts(inputs[1..][k]) {
      assert inputs[k + 1] == inputs[1..][k];
    }
  }

  // ------------------------------------------------------------- the tables, call by call

  ghost function Abandoned(db: Db, script: Script, r: RequestId, to: RequestState): (after: Db) {
    After(db, AbortInference(db, r, to), script.landing(Ending))
  }

  ghost function MovedOn(db: Db, r: RequestId, to: RequestState, landing: Landing): (after: Db)
    ensures after.proposals == db.proposals
  {
    After(db, TransitionRequest(db, r, to), landing)
  }

  function ProposalOf(script: Script, v: Reservation, usage: Usage): (p: Proposal) {
    Proposal(v.session, v.machine, v.offer, v.version, usage, script.inputHash, script.outputHash, script.completedAt)
  }

  /** The receipt is drafted, signed by both sides and queued, and the handler is told so. */
  ghost predicate Settles(db: Db, script: Script, r: RequestId) {
    Queues(db, script, r) && script.landing(Queueing) == Done
  }

  ghost predicate Queues(db: Db, script: Script, r: RequestId) {
    && script.domain.Some? && PrepareReceipt(db, r, script.domain.value).Commit? && script.landing(Drafting) == Done
    && script.cosigned && script.landing(Queueing) != Lost
  }

  ghost function Receipted(db: Db, script: Script, r: RequestId): (after: Db) {
    if script.domain.None? then db else
    var result := PrepareReceipt(db, r, script.domain.value);
    var drafted := After(db, result, script.landing(Drafting));
    if Queues(db, script, r) then Enqueue(drafted, result.value) else drafted
  }

  ghost function Persisted(db: Db, script: Script, v: Reservation, usage: Usage): (after: Db) {
    After(db, CompleteInference(db, v.request, ProposalOf(script, v, usage)), script.landing(Completing))
  }

  /** The proposal is stored and the receipt queued, and the handler is told so. */
  ghost predicate Completes(db: Db, script: Script, v: Reservation, usage: Usage) {
    && CompleteInference(db, v.request, ProposalOf(script, v, usage)).Commit? && script.landing(Completing) == Done
    && Settles(Persisted(db, script, v, usage), script, v.request)
  }

  ghost function Delivered(db: Db, script: Script, v: Reservation, usage: Usage): (after: Db) {
    var persisted := Persisted(db, script, v, usage);
    if CompleteInference(db, v.request, ProposalOf(script, v, usage)).Commit? && script.landing(Completing) == Done
    then Receipted(persisted, script, v.request) else persisted
  }

  /** The handler is told that the stream is under way. */
  predicate Under(script: Script, input: Input, streaming: bool) {
    streaming || !Starts(input) || script.landing(Starting) == Done
  }

  ghost function Begun(db: Db, script: Script, r: RequestId, input: Input, streaming: bool): (after: Db)
    ensures after.proposals == db.proposals
  {
    if streaming || !Starts(input) then db else MovedOn(db, r, Streaming, script.landing(Starting))
  }

  ghost function Taken(db: Db, script: Script, v: Reservation, input: Input, streaming: bool): (after: Db) {
    var begun := Begun(db, script, v.request, input, streaming);
    if Under(script, input, streaming) && Final(input, v.limits) then Delivered(begun, script, v, input.usage)
      else begun
  }

  /** The chunk ends the request for good: it is settled, as far as the handler is concerned. */
  ghost predicate Finishes(db: Db, script: Script, v: Reservation, input: Input, streaming: bool) {
    && Under(script, input, streaming) && Final(input, v.limits)
    && Completes(Begun(db, script, v.request, input, streaming), script, v, input.usage)
  }

  lemma TakenWhole(db: Db, begun: Db, script: Script, v: Reservation, input: Input, streaming: bool)
    requires begun == Begun(db, script, v.request, input, streaming)
    requires Under(script, input, streaming) && Final(input, v.limits)
    ensures Taken(db, script, v, input, streaming) == Delivered(begun, script, v, input.usage)
    ensures Finishes(db, script, v, input, streaming) <==> Completes(begun, script, v, input.usage)
  {
  }

  /** The relay loop, input by input. */
  ghost function Relayed(db: Db, script: Script, v: Reservation, inputs: seq<Input>, streaming: bool): (after: Db)
    decreases |inputs|
  {
    if inputs == [] then Abandoned(db, script, v.request, Failed)
    else if inputs[0].Noise? then Relayed(db, script, v, inputs[1..], streaming)
    else if !inputs[0].Chunk? then Abandoned(db, script, v.request, Farewell(inputs[0]))
    else
      var forwarded := Taken(db, script, v, inputs[0], streaming);
      if Passes(inputs[0]) && Under(script, inputs[0], streaming)
      then Relayed(forwarded, script, v, inputs[1..], streaming || Starts(inputs[0]))
      else if Finishes(db, script, v, inputs[0], streaming) then forwarded
      else Abandoned(forwarded, script, v.request, Failed)
  }

  lemma RelayedHere(db: Db, script: Script, v: Reservation, i: nat, streaming: bool)
    requires i < |script.inputs|
    ensures var input, later := script.inputs[i], script.inputs[i + 1..];
            var taken := Taken(db, script, v, input, streaming);
            Relayed(db, script, v, script.inputs[i..], streaming)
            == if input.Noise? then Relayed(db, script, v, later, streaming)
               else if !input.Chunk? then Abandoned(db, script, v.request, Farewell(input))
               else if Passes(input) && Under(script, input, streaming)
               then Relayed(taken, script, v, later, streaming || Starts(input))
               else if Finishes(db, script, v, input, streaming) then taken
               else Abandoned(taken, script, v.request, Failed)
  {
    assert script.inputs[i..][1..] == script.inputs[i + 1..];
  }

  /** The whole handler. */
  ghost function Handled(db: Db, script: Script, v: Reservation): (after: Db) {
    var reserved := After(db, ReserveInference(db, v), script.landing(Reserving));
    if ReserveInference(db, v).Rollback? || script.landing(Reserving) != Done then reserved
    else if !script.offered || !script.accepted then Abandoned(reserved, script, v.request, Failed)
    else
      var moved := MovedOn(reserved, v.request, Accepted, script.landing(Accepting));
      if script.landing(Accepting) != Done || !script.flusher then Abandoned(moved, script, v.request, Failed)
      else Relayed(moved, script, v, script.inputs, false)
  }

  // ---------------------------------------------------------------------- in one stroke

  /** The loop by its last input alone. */
  ghost function RelayedAtOnce(db: Db, script: Script, v: Reservation, inputs: seq<Input>,
                               streaming: bool): (after: Db) {
    var last := LastInput(inputs);
    if streaming || !Begins(inputs) then WoundUp(db, script, v, last)
    else
      var begun := MovedOn(db, v.request, Streaming, script.landing(Starting));
      if script.landing(Starting) != Done then Abandoned(begun, script, v.request, Failed)
      else WoundUp(begun, script, v, last)
  }

  ghost function WoundUp(db: Db, script: Script, v: Reservation, last: Input): (after: Db) {
    if Final(last, v.limits) then
      var completed := Delivered(db, script, v, last.usage);
      if Completes(db, script, v, last.usage) then completed else Abandoned(completed, script, v.request, Failed)
    else Abandoned(db, script, v.request, Farewell(last))
  }

  /** The relay loop comes to what its last input says, once the stream has begun. */
  lemma {:induction false} RelayIsItsEnd(db: Db, script: Script, v: Reservation, inputs: seq<Input>, streaming: bool)
    ensures Relayed(db, script, v, inputs, streaming) == RelayedAtOnce(db, script, v, inputs, streaming)
    decreases |inputs|
  {
    if inputs == [] {
    } else if Passes(inputs[0]) {
      LaterInputs(inputs);
      if inputs[0].Noise? {
        RelayIsItsEnd(db, script, v, inputs[1..], streaming);
      } else if Under(script, inputs[0], streaming) {
        RelayIsItsEnd(Taken(db, script, v, inputs[0], streaming), script, v, inputs[1..],
                      streaming || Starts(inputs[0]));
      }
    } else {
      assert FirstStop(inputs) == 0 && LastInput(inputs) == inputs[0];
      assert Begins(inputs) <==> Starts(inputs[0]);
    }
  }

  // ------------------------------------------------------------------------- the outcome

  /** The provider's acceptance reached the tables. */
  predicate Answered(script: Script) { script.offered && script.accepted && script.landing(Accepting) != Lost }

  /** The handler got to relay output. */
  predicate Relays(script: Script) {
    script.offered && script.accepted && script.landing(Accepting) == Done && script.flusher
  }

  /** The customer left while output was relayed. */
  predicate WalksOut(script: Script) {
    Relays(script) && LastInput(script.inputs).Gone? && (script.landing(Starting) == Done || !Begins(script.inputs))
  }

  /** The tables at the moment the request is completed. */
  ghost function Performed(db: Db, script: Script, v: Reservation, usage: Usage): (after: Db)
    requires ReserveInference(db, v).Commit?
  {
    var reserved, r := ReserveInference(db, v).db, v.request;
    reserved.(requests := reserved.requests[r := reserved.requests[r].(state := RequestState.Completed)],
              proposals := db.proposals[r := ProposalOf(script, v, usage)],
              routes := FreeSlot(reserved.routes, Key(v)),
              outbox := reserved.outbox + [Notice(r, Offered, Accepted), Notice(r, Accepted, Streaming),
                                           Notice(r, Streaming, RequestState.Completed)])
  }

  /** The provider finishes within the limits, and every call from there to the queue succeeds. */
  ghost predicate Concludes(db: Db, script: Script, v: Reservation)
    requires ReserveInference(db, v).Commit?
  {
    var last := LastInput(script.inputs);
    && Relays(script) && Final(last, v.limits)
    && script.landing(Starting) == Done && script.landing(Completing) == Done
    && Queues(Performed(db, script, v, last.usage), script, v.request)
  }

  lemma AbandonedRow(db: Db, script: Script, r: RequestId, to: RequestState)
    requires r in db.requests && r in db.holds && (to == Failed || to == Cancelled) && db.requests[r].state != to
    ensures var after := Abandoned(db, script, r, to);
            if script.landing(Ending) != Lost && Transition(db.requests[r].state, to)
            then r in after.requests && after.requests[r].state == to && r in after.holds && after.holds[r].released
                 && after.queue == db.queue
            else after == db
  {
    if Transition(db.requests[r].state, to) { assert AbortInference(db, r, to) == Commit(Ledger.Ended(db, r, to), ()); }
  }

  lemma MovedRow(db: Db, r: RequestId, to: RequestState, landing: Landing)
    requires r in db.requests && Transition(db.requests[r].state, to)
    ensures MovedOn(db, r, to, landing)
         == if landing == Lost then db
            else db.(requests := db.requests[r := db.requests[r].(state := to)],
                     outbox := db.outbox + [Notice(r, db.requests[r].state, to)])
  {
  }

  ghost function AcceptedNow(db: Db, v: Reservation): (after: Db)
    requires ReserveInference(db, v).Commit?
  {
    MovedOn(ReserveInference(db, v).db, v.request, Accepted, Done)
  }

  ghost function StreamingNow(db: Db, v: Reservation): (after: Db)
    requires ReserveInference(db, v).Commit?
  {
    MovedOn(AcceptedNow(db, v), v.request, Streaming, Done)
  }

  /** Reserved, accepted, streaming, completed: one after another. */
  lemma PerformedInTurn(db: Db, script: Script, v: Reservation, usage: Usage)
    requires ReserveInference(db, v).Commit? && v.request !in db.proposals && Within(usage, v.limits)
    requires script.landing(Completing) != Lost
    ensures var streaming := StreamingNow(db, v);
            && CompleteInference(streaming, v.request, ProposalOf(script, v, usage)).Commit?
            && Persisted(streaming, script, v, usage) == Performed(db, script, v, usage)
  {
    var reserved := ReserveInference(db, v).db;
    var accepted := MovedOn(reserved, v.request, Accepted, Done);
    MovedRow(reserved, v.request, Accepted, Done);
    var streaming := MovedOn(accepted, v.request, Streaming, Done);
    MovedRow(accepted, v.request, Streaming, Done);
    var performed, persisted := Performed(db, script, v, usage), Persisted(streaming, script, v, usage);
    assert persisted.outbox == performed.outbox;
    assert persisted.requests == performed.requests;
  }

  /** How a request ends that was not queued. */
  ghost predicate Ends(after: Db, script: Script, r: RequestId, to: RequestState) {
    && r in after.requests && r in after.holds && r !in after.queue && after.requests[r].state != Signed
    && (script.landing(Ending) != Lost ==> after.requests[r].state == to && after.holds[r].released)
  }

  lemma AbandonedEnds(db: Db, script: Script, r: RequestId, to: RequestState)
    requires r in db.requests && r in db.holds && r !in db.queue && (to == Failed || to == Cancelled)
    requires db.requests[r].state.Accepted? || db.requests[r].state.Streaming?
          || (db.requests[r].state == RequestState.Completed && to == Failed)
    ensures Ends(Abandoned(db, script, r, to), script, r, to)
  {
    AbandonedRow(db, script, r, to);
  }

  /** The request is signed and its receipt queued. */
  ghost predicate Queued(after: Db, r: RequestId, receipt: Receipt) {
    && r in after.requests && after.requests[r].state == Signed && r in after.holds
    && r in after.queue && after.queue[r] == QueueRow(receipt, Cosigned, None)
  }

  lemma ReceiptedRow(db: Db, script: Script, r: RequestId)
    requires r in db.requests && r in db.holds && db.requests[r].state == RequestState.Completed && r !in db.queue
    ensures var after := Receipted(db, script, r);
            if Queues(db, script, r) then Queued(after, r, PrepareReceipt(db, r, script.domain.value).value)
            else r in after.requests && r in after.holds && after.requests[r].state == RequestState.Completed
                 && r !in after.queue
  {
  }

  /** From the completed request on. */
  lemma SettlingEnds(db: Db, script: Script, r: RequestId)
    requires r in db.requests && r in db.holds && db.requests[r].state == RequestState.Completed && r !in db.queue
    ensures var receipted := Receipted(db, script, r);
            var after := if Settles(db, script, r) then receipted else Abandoned(receipted, script, r, Failed);
            if Queues(db, script, r) then Queued(after, r, PrepareReceipt(db, r, script.domain.value).value)
            else Ends(after, script, r, Failed)
  {
    ReceiptedRow(db, script, r);
    AbandonedRow(Receipted(db, script, r), script, r, Failed);
    if !Queues(db, script, r) { AbandonedEnds(Receipted(db, script, r), script, r, Failed); }
  }

  predicate New(db: Db, r: RequestId) { r !in db.requests && r !in db.holds && r !in db.proposals && r !in db.queue }

  lemma MovedStates(db: Db, v: Reservation)
    requires ReserveInference(db, v).Commit? && New(db, v.request)
    ensures var r, reserved, accepted, streaming := v.request, ReserveInference(db, v).db, AcceptedNow(db, v),
            StreamingNow(db, v);
            && r in reserved.requests && reserved.requests[r].state == Offered && r in reserved.holds
              && r !in reserved.queue
            && r in accepted.requests && accepted.requests[r].state == Accepted && r in accepted.holds
              && r !in accepted.queue
            && r in streaming.requests && streaming.requests[r].state == Streaming && r in streaming.holds
            && r !in streaming.queue
  {
    MovedRow(ReserveInference(db, v).db, v.request, Accepted, Done);
    MovedRow(AcceptedNow(db, v), v.request, Streaming, Done);
  }

  /** The last chunk of a job within its limits. */
  lemma FinalEnds(db: Db, script: Script, v: Reservation)
    requires ReserveInference(db, v).Commit? && New(db, v.request)
    requires Relays(script) && script.landing(Starting) == Done && Final(LastInput(script.inputs), v.limits)
    ensures var r, last := v.request, LastInput(script.inputs);
            var after := WoundUp(StreamingNow(db, v), script, v, last);
            if Concludes(db, script, v)
            then Queued(after, r, PrepareReceipt(Performed(db, script, v, last.usage), r, script.domain.value).value)
            else Ends(after, script, r, Failed)
  {
    var r, last, streaming := v.request, LastInput(script.inputs), StreamingNow(db, v);
    MovedStates(db, v);
    if script.landing(Completing) == Lost {
      AbandonedEnds(streaming, script, r, Failed);
    } else {
      var performed := Performed(db, script, v, last.usage);
      PerformedInTurn(db, script, v, last.usage);
      if script.landing(Completing) == Done {
        SettlingEnds(performed, script, r);
      } else {
        AbandonedEnds(performed, script, r, Failed);
      }
    }
  }

  lemma RelayEnds(db: Db, script: Script, v: Reservation)
    requires ReserveInference(db, v).Commit? && New(db, v.request) && Relays(script)
    ensures var r, last := v.request, LastInput(script.inputs);
            var after := Relayed(AcceptedNow(db, v), script, v, script.inputs, false);
            if Concludes(db, script, v)
            then Queued(after, r, PrepareReceipt(Performed(db, script, v, last.usage), r, script.domain.value).value)
            else Ends(after, script, r, if WalksOut(script) then Cancelled else Failed)
  {
    var r, last, accepted := v.request, LastInput(script.inputs), AcceptedNow(db, v);
    RelayIsItsEnd(accepted, script, v, script.inputs, false);
    MovedStates(db, v);
    FinalBegins(script.inputs, v.limits);
    if Begins(script.inputs) {
      if script.landing(Starting) != Done {
        MovedRow(accepted, r, Streaming, script.landing(Starting));
        AbandonedEnds(MovedOn(accepted, r, Streaming, script.landing(Starting)), script, r, Failed);
      } else if Final(last, v.limits) {
        FinalEnds(db, script, v);
      } else {
        AbandonedEnds(StreamingNow(db, v), script, r, Farewell(last));
      }
    } else {
      AbandonedEnds(accepted, script, r, Farewell(last));
    }
  }

  lemma FinalBegins(inputs: seq<Input>, limits: Usage)
    ensures Final(LastInput(inputs), limits) ==> Begins(inputs)
  {
    if Final(LastInput(inputs), limits) { assert Starts(inputs[FirstStop(inputs)]); }
  }

  /** What becomes of a reserved request. Exactly when the provider finishes within the
      limits and every call from the acceptance to the queue succeeds, it is signed and its
      receipt queued; the receipt is the one drafted from the usage of the last chunk. If
      not, and the abort is not lost, it is cancelled when the customer has left and failed
      otherwise, with its hold released; but one that the provider has not accepted stays
      offered, its hold locked. */
  lemma Outcome(db: Db, script: Script, v: Reservation)
    requires ReserveInference(db, v).Commit? && script.landing(Reserving) == Done && New(db, v.request)
    ensures var r, last, after := v.request, LastInput(script.inputs), Handled(db, script, v);
            && r in after.requests && r in after.holds
            && (after.requests[r].state == Signed <==> Concludes(db, script, v))
                                                       && (r in after.queue <==> Concludes(db, script, v))
            && (Concludes(db, script, v) ==>
                  Queued(after, r, PrepareReceipt(Performed(db, script, v, last.usage), r, script.domain.value).value))
            && (!Answered(script) ==> after.requests[r].state == Offered && !after.holds[r].released)
            && (Answered(script) && !Concludes(db, script, v) && script.landing(Ending) != Lost ==>
                  && after.requests[r].state == (if WalksOut(script) then Cancelled else Failed)
                  && after.holds[r].released)
  {
    if Relays(script) { RelayEnds(db, script, v); } else { NeverRelayed(db, script, v); }
  }

  lemma NeverRelayed(db: Db, script: Script, v: Reservation)
    requires ReserveInference(db, v).Commit? && script.landing(Reserving) == Done && New(db, v.request)
             && !Relays(script)
    ensures var r, after := v.request, Handled(db, script, v);
            if Answered(script) then Ends(after, script, r, Failed)
            else && r in after.requests && after.requests[r].state == Offered && r in after.holds
                 && !after.holds[r].released
                 && r !in after.queue
  {
    var r, reserved := v.request, ReserveInference(db, v).db;
    MovedStates(db, v);
    MovedRow(reserved, r, Accepted, script.landing(Accepting));
    if Answered(script) {
      AbandonedEnds(MovedOn(reserved, r, Accepted, script.landing(Accepting)), script, r, Failed);
    } else {
      AbandonedRow(reserved, script, r, Failed);
    }
  }

  /** The receipt that is queued states what the last chunk reported, and charges it at the
      published rates. */
  lemma ReceiptOfLastChunk(db: Db, script: Script, v: Reservation)
    requires ReserveInference(db, v).Commit? && New(db, v.request) && Concludes(db, script, v)
    ensures var r, last := v.request, LastInput(script.inputs);
            var receipt := PrepareReceipt(Performed(db, script, v, last.usage), r, script.domain.value).value;
            var key := OfferKey(receipt.provider, receipt.hashes.offer, receipt.version);
            && receipt.request == r && receipt.session == v.session && receipt.version == v.version
            && receipt.usage == last.usage && receipt.inputHash == script.inputHash
            && receipt.outputHash == script.outputHash && receipt.completedAt == script.completedAt
            && key in db.chain.offers && receipt.total == ExactTotal(db.chain.offers[key].rates, last.usage)
  {
  }
}
