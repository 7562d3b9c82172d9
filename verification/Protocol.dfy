/** Every interleaving of the broker's activities with the outside world: request
    handlers, heartbeats, settlement batches, the indexer, crashes and forks. */
module Protocol {
  import opened Basics
  import opened Charging
  import opened Tables
  import opened Projecting
  import opened Ledger

  /** Where the handler of a request stands, from its reservation to its exit. */
  datatype Pc =
    | Waiting                        // reserved; the provider has not accepted yet
    | Looping(streaming: bool)       // relaying chunks
    | Persisting(proposal: Proposal) // about to complete the inference
    | Finalizing                     // completed; about to prepare the receipt
    | Signing(receipt: Receipt)      // receipt prepared; about to queue it
    | Aborting(to: RequestState)     // about to abort
    | Exited(clean: bool)            // gone; unclean when its abort was lost or it crashed

  /** What became of a transaction, as against what its caller was told. */
  datatype Landing = Lost | Unreported | Done

  datatype State = State(
    db: Db,
    pcs: map<RequestId, Pc>,
    chain: seq<Block>,            // the canonical chain
    broadcast: set<Transaction>,  // every transaction ever sent out
    applied: seq<Log>)            // the log the projection stands for

  datatype Step =
    | Enrol(wallet: Address, account: AccountId)
    | Register(machine: MachineId, row: Machine)
    | Revoke(machine: MachineId)
    | Serve(v: Reservation, landing: Landing)
    | Accept(r: RequestId, landing: Landing)
    | Stream(r: RequestId, landing: Landing)
    | Report(r: RequestId, usage: Usage, inputHash: Hash, outputHash: Hash, completedAt: nat)
    | Complete(r: RequestId, landing: Landing)
    | Draft(r: RequestId, domain: Domain, landing: Landing)
    | Queue(r: RequestId, landing: Landing)
    | GiveUp(r: RequestId, to: RequestState)
    | Abort(r: RequestId, lost: bool)
    | Crash(r: RequestId)
    | Submit(rs: seq<RequestId>, nonce: nat)
    | Broadcast(transaction: Transaction)
    | Beat(machine: MachineId, beat: Heartbeat)
    | Mine(chain: seq<Block>)
    | Index(first: nat, last: nat)
    | Unwind(rs: seq<RequestId>)

  function After<T>(db: Db, result: TxResult<T>, landing: Landing): (after: Db) {
    if result.Commit? && landing != Lost then result.db else db
  }

  /** The handler carries on only when the call succeeded and said so; otherwise it aborts. */
  function Onward<T>(result: TxResult<T>, landing: Landing, pc: Pc): (next: Pc) {
    if result.Commit? && landing == Done then pc else Aborting(Failed)
  }

  predicate MayGiveUp(pc: Pc, to: RequestState) {
    match pc
    case Waiting => to == Failed
    case Looping(_) => to == Failed || to == Cancelled
    case Persisting(_) => to == Failed
    case Finalizing => to == Failed
    case Signing(_) => to == Failed
    case _ => false
  }

  /** A settlement on chain comes from a receipt this broker sent out. */
  ghost predicate Backed(event: Event, broadcast: set<Transaction>)
    requires event.ReceiptSettled?
  {
    exists t, i ::
      && t in broadcast && 0 <= i < |t.receipts|
      && t.receipts[i].request == event.request && t.receipts[i].session == event.session
      && t.receipts[i].total == event.providerAmount + event.feeAmount
  }

  ghost predicate AllBacked(logs: seq<Log>, broadcast: set<Transaction>) {
    forall i :: 0 <= i < |logs| && logs[i].event.ReceiptSettled? ==> Backed(logs[i].event, broadcast)
  }

  /** The indexer may read blocks from..to: nothing between its cursor and them is skipped. */
  predicate MayIndex(s: State, from: nat, to: nat) {
    && from <= to < |s.chain|
    && match s.db.cursor
       case None => Logs(s.chain[..from]) == []
       case Some(c) =>
         && c.next <= from && c.hash <= s.chain
         && Logs(s.chain[c.next..from]) == []
  }

  function Indexed(s: State, feeRecipient: Address, first: nat, last: nat): (after: State)
    requires first <= last < |s.chain|
  {
    var result := IndexRange(s.db, feeRecipient, s.chain, first, last);
    if result.Rollback? then s
    else s.(db := result.db, applied := s.applied + Logs(s.chain[first..last + 1]))
  }

  // ------------------------------------------------------------------- the handler's steps

  ghost predicate ServeStep(s: State, s': State, v: Reservation, landing: Landing) {
    && v.request !in s.pcs
    && var result := ReserveInference(s.db, v);
       s' == if result.Commit? && landing != Lost
             then s.(db := result.db, pcs := s.pcs[v.request := if landing == Done then Waiting else Exited(true)])
             else s
  }

  ghost predicate AcceptStep(s: State, s': State, r: RequestId, landing: Landing) {
    && r in s.pcs && s.pcs[r] == Waiting
    && var result := TransitionRequest(s.db, r, Accepted);
       s' == s.(db := After(s.db, result, landing), pcs := s.pcs[r := Onward(result, landing, Looping(false))])
  }

  ghost predicate StreamStep(s: State, s': State, r: RequestId, landing: Landing) {
    && r in s.pcs && s.pcs[r] == Looping(false)
    && var result := TransitionRequest(s.db, r, Streaming);
       s' == s.(db := After(s.db, result, landing), pcs := s.pcs[r := Onward(result, landing, Looping(true))])
  }

  ghost predicate ReportStep(s: State, s': State, r: RequestId, usage: Usage, inputHash: Hash, outputHash: Hash,
                             completedAt: nat) {
    && r in s.pcs && s.pcs[r] == Looping(true) && r in s.db.requests
    && var q := s.db.requests[r];
       && Within(usage, q.limits)
       && s' == s.(pcs := s.pcs[r := Persisting(
            Proposal(q.session, q.machine, q.offer, q.version, usage, inputHash, outputHash, completedAt))])
  }

  ghost predicate CompleteStep(s: State, s': State, r: RequestId, landing: Landing) {
    && r in s.pcs && s.pcs[r].Persisting?
    && var result := CompleteInference(s.db, r, s.pcs[r].proposal);
       s' == s.(db := After(s.db, result, landing), pcs := s.pcs[r := Onward(result, landing, Finalizing)])
  }

  ghost predicate DraftStep(s: State, s': State, r: RequestId, domain: Domain, landing: Landing) {
    && r in s.pcs && s.pcs[r] == Finalizing
    && var result := PrepareReceipt(s.db, r, domain);
       s' == s.(db := After(s.db, result, landing),
                pcs := s.pcs[r := if result.Commit? && landing == Done then Signing(result.value)
                  else Aborting(Failed)])
  }

  ghost predicate QueueStep(s: State, s': State, r: RequestId, landing: Landing) {
    && r in s.pcs && s.pcs[r].Signing?
    && s' == s.(db := if landing != Lost then Enqueue(s.db, s.pcs[r].receipt) else s.db,
                pcs := s.pcs[r := if landing == Done then Exited(true) else Aborting(Failed)])
  }

  ghost predicate GiveUpStep(s: State, s': State, r: RequestId, to: RequestState) {
    r in s.pcs && MayGiveUp(s.pcs[r], to) && s' == s.(pcs := s.pcs[r := Aborting(to)])
  }

  ghost predicate AbortStep(s: State, s': State, r: RequestId, lost: bool) {
    && r in s.pcs && s.pcs[r].Aborting?
    && var result := AbortInference(s.db, r, s.pcs[r].to);
       s' == s.(db := if result.Commit? && !lost then result.db else s.db, pcs := s.pcs[r := Exited(!lost)])
  }

  ghost predicate CrashStep(s: State, s': State, r: RequestId) {
    r in s.pcs && !s.pcs[r].Exited? && s' == s.(pcs := s.pcs[r := Exited(false)])
  }

  // ------------------------------------------------------- other activities of the broker

  ghost predicate EnrolStep(s: State, s': State, wallet: Address, account: AccountId) {
    && wallet !in s.db.accounts && account !in s.db.accounts.Values
    && s' == s.(db := s.db.(accounts := s.db.accounts[wallet := account]))
  }

  ghost predicate RegisterStep(s: State, s': State, m: MachineId, row: Machine) {
    m !in s.db.machines && s' == s.(db := s.db.(machines := s.db.machines[m := row]))
  }

  ghost predicate RevokeStep(s: State, s': State, m: MachineId) {
    && m in s.db.machines
    && s' == s.(db := s.db.(machines := s.db.machines[m := s.db.machines[m].(revoked := true)]))
  }

  ghost predicate SubmitStep(s: State, s': State, rs: seq<RequestId>, nonce: nat) {
    && rs != []
    && (forall i :: 0 <= i < |rs| ==> rs[i] in s.db.queue && s.db.queue[rs[i]].state == Cosigned)
    && (forall i, j :: 0 <= i < j < |rs| ==> rs[i] != rs[j])
    && s' == s.(db := SubmitAll(s.db, rs, Transaction(nonce, BatchReceipts(s.db, rs))))
  }

  ghost predicate BroadcastStep(s: State, s': State, t: Transaction) {
    && (exists r :: r in s.db.queue && s.db.queue[r].transaction == Some(t))
    && s' == s.(broadcast := s.broadcast + {t})
  }

  ghost predicate BeatStep(s: State, s': State, m: MachineId, beat: Heartbeat) {
    s' == s.(db := After(s.db, ReconcileCapacity(s.db, m, beat), Done))
  }

  // ----------------------------------------------------------------- the chain and the indexer

  ghost predicate MineStep(world: World, s: State, s': State, chain: seq<Block>) {
    && WellFormed(world, Logs(chain)) && AllBacked(Logs(chain), s.broadcast)
    && s' == s.(chain := chain)
  }

  ghost predicate IndexStep(world: World, s: State, s': State, first: nat, last: nat) {
    MayIndex(s, first, last) && s' == Indexed(s, world.feeRecipient, first, last)
  }

  ghost predicate UnwindStep(s: State, s': State, rs: seq<RequestId>) {
    Enumerates(rs, s.db.chain.settlements.Keys) && s' == s.(db := Rewind(s.db, rs), applied := [])
  }

  ghost predicate Next(world: World, s: State, s': State, step: Step) {
    match step
    case Enrol(wallet, account) => EnrolStep(s, s', wallet, account)
    case Register(m, row) => RegisterStep(s, s', m, row)
    case Revoke(m) => RevokeStep(s, s', m)
    case Serve(v, landing) => ServeStep(s, s', v, landing)
    case Accept(r, landing) => AcceptStep(s, s', r, landing)
    case Stream(r, landing) => StreamStep(s, s', r, landing)
    case Report(r, usage, input, output, at) => ReportStep(s, s', r, usage, input, output, at)
    case Complete(r, landing) => CompleteStep(s, s', r, landing)
    case Draft(r, domain, landing) => DraftStep(s, s', r, domain, landing)
    case Queue(r, landing) => QueueStep(s, s', r, landing)
    case GiveUp(r, to) => GiveUpStep(s, s', r, to)
    case Abort(r, lost) => AbortStep(s, s', r, lost)
    case Crash(r) => CrashStep(s, s', r)
    case Submit(rs, nonce) => SubmitStep(s, s', rs, nonce)
    case Broadcast(t) => BroadcastStep(s, s', t)
    case Beat(m, beat) => BeatStep(s, s', m, beat)
    case Mine(chain) => MineStep(world, s, s', chain)
    case Index(first, last) => IndexStep(world, s, s', first, last)
    case Unwind(rs) => UnwindStep(s, s', rs)
  }

  const EMPTY_DB := Db(map[], map[], map[], map[], map[], map[], map[], map[], map[], [], EMPTY_PROJECTION, None)

  ghost predicate Init(world: World, s: State) {
    s == State(EMPTY_DB, map[], s.chain, {}, []) && WellFormed(world, Logs(s.chain)) && AllBacked(Logs(s.chain), {})
  }

  /** A run: states joined by steps, from an empty database. */
  ghost predicate Run(world: World, states: seq<State>, steps: seq<Step>) {
    && |states| == |steps| + 1
    && Init(world, states[0])
    && forall i {:trigger steps[i]} :: 0 <= i < |steps| ==> Next(world, states[i], states[i + 1], steps[i])
  }

  /** A run goes on by any step. */
  lemma RunOn(world: World, states: seq<State>, steps: seq<Step>, step: Step, s': State)
    requires Run(world, states, steps) && Next(world, states[|steps|], s', step)
    ensures Run(world, states + [s'], steps + [step])
  {
    var longer, more := states + [s'], steps + [step];
    forall i | 0 <= i < |more| ensures Next(world, longer[i], longer[i + 1], more[i]) {
      if i < |steps| { assert more[i] == steps[i]; }
    }
  }

  /** Steps of one activity, nothing else happening in between. */
  ghost predicate Walk(world: World, s: State, steps: seq<Step>, s': State)
    decreases |steps|
  {
    if steps == [] then s' == s else
    var before, last := steps[..|steps| - 1], steps[|steps| - 1];
    exists mid :: Walk(world, s, before, mid) && Next(world, mid, s', last)
  }

  lemma WalkOn(world: World, s: State, steps: seq<Step>, mid: State, step: Step, s': State)
    requires Walk(world, s, steps, mid) && Next(world, mid, s', step)
    ensures Walk(world, s, steps + [step], s')
  {
    assert (steps + [step])[..|steps|] == steps;
  }
}
