/** What a step of the protocol does to the tables: one transaction, or nothing. Facts
    about every step need only look at these. */
module Changes {
  import opened Basics
  import opened Tables
  import opened Projecting
  import opened Ledger
  import opened Protocol
  import opened Coherence

  datatype Change =
    | NoChange
    | NewAccount(wallet: Address, account: AccountId)
    | NewMachine(machine: MachineId, row: Machine)
    | MachineRevoked(machine: MachineId)
    | NewReservation(v: Reservation)
    | Moved(r: RequestId, to: RequestState)
    | NewProposal(r: RequestId, proposal: Proposal)
    | NewReceipt(r: RequestId, domain: Domain)
    | NewQueueRow(receipt: Receipt)
    | Ending(r: RequestId, to: RequestState)
    | BatchWritten(rs: seq<RequestId>, transaction: Transaction)
    | RoutesReconciled(machine: MachineId, beat: Heartbeat)
    | LogsIndexed(logs: seq<Log>, cursor: Cursor)
    | Unwound(rs: seq<RequestId>)

  ghost predicate Committed<T>(result: TxResult<T>, db': Db) { result.Commit? && result.db == db' }

  ghost predicate Changed(feeRecipient: Address, db: Db, db': Db, change: Change) {
    match change
    case NoChange => db' == db
    case NewAccount(wallet, account) => wallet !in db.accounts && db' == db.(accounts := db.accounts[wallet := account])
    case NewMachine(m, row) => m !in db.machines && db' == db.(machines := db.machines[m := row])
    case MachineRevoked(m) =>
      m in db.machines && db' == db.(machines := db.machines[m := db.machines[m].(revoked := true)])
    case NewReservation(v) => Committed(ReserveInference(db, v), db')
    case Moved(r, to) => (to == Accepted || to == Streaming) && Committed(TransitionRequest(db, r, to), db')
    case NewProposal(r, p) => Committed(CompleteInference(db, r, p), db') && r in db.requests
      && Reported(p, db.requests[r])
    case NewReceipt(r, domain) => Committed(PrepareReceipt(db, r, domain), db')
    case NewQueueRow(receipt) => db' == Enqueue(db, receipt)
    case Ending(r, to) => Committed(AbortInference(db, r, to), db')
    case BatchWritten(rs, t) =>
      && (forall i :: 0 <= i < |rs| ==> rs[i] in db.queue && db.queue[rs[i]].state == Cosigned)
      && (forall i, j :: 0 <= i < j < |rs| ==> rs[i] != rs[j])
      && t.receipts == BatchReceipts(db, rs) && db' == SubmitAll(db, rs, t)
    case RoutesReconciled(m, beat) => Committed(ReconcileCapacity(db, m, beat), db')
    case LogsIndexed(logs, cursor) =>
      var result := IndexLogs(db, feeRecipient, logs);
      result.Commit? && db' == result.db.(cursor := Some(cursor))
    case Unwound(rs) => db' == Rewind(db, rs)
  }

  lemma HandlerChange(world: World, s: State, s': State, step: Step) returns (change: Change)
    requires Coherent(s.db, s.pcs) && Next(world, s, s', step)
    requires step.Serve? || step.Accept? || step.Stream? || step.Complete?
    ensures Changed(world.feeRecipient, s.db, s'.db, change)
    ensures change.NewProposal? ==> step.Complete? && step.r == change.r && s.pcs[step.r] == Persisting(change.proposal)
    ensures !change.Ending? && !change.LogsIndexed? && !change.NewQueueRow?
  {
    change := NoChange;
    if s'.db != s.db {
      match step
      case Serve(v, _) => change := NewReservation(v);
      case Accept(r, _) => change := Moved(r, Accepted);
      case Stream(r, _) => change := Moved(r, Streaming);
      case Complete(r, _) =>
        assert RowOK(s.db, s.pcs, r);
        change := NewProposal(r, s.pcs[r].proposal);
    }
  }

  lemma FinishingChange(world: World, s: State, s': State, step: Step) returns (change: Change)
    requires Next(world, s, s', step) && (step.Draft? || step.Queue? || step.Abort?)
    ensures Changed(world.feeRecipient, s.db, s'.db, change)
    ensures change.NewQueueRow? ==> step.Queue? && s.pcs[step.r] == Signing(change.receipt)
    ensures change.Ending? ==> step.Abort? && step.r == change.r
    ensures !change.NewProposal? && !change.LogsIndexed?
  {
    change := NoChange;
    if s'.db != s.db {
      match step
      case Draft(r, domain, _) => change := NewReceipt(r, domain);
      case Queue(r, _) => change := NewQueueRow(s.pcs[r].receipt);
      case Abort(r, _) => change := Ending(r, s.pcs[r].to);
    }
  }

  lemma BrokerChange(world: World, s: State, s': State, step: Step) returns (change: Change)
    requires Next(world, s, s', step) && (step.Enrol? || step.Register? || step.Revoke? || step.Submit? || step.Beat?)
    ensures Changed(world.feeRecipient, s.db, s'.db, change)
    ensures !change.NewProposal? && !change.NewQueueRow? && !change.Ending? && !change.LogsIndexed?
  {
    if step.Submit? {
      change := BatchWritten(step.rs, Transaction(step.nonce, BatchReceipts(s.db, step.rs)));
    } else if step.Beat? {
      change := if ReconcileCapacity(s.db, step.machine, step.beat).Commit?
        then RoutesReconciled(step.machine, step.beat) else NoChange;
    } else {
      change := RegistrationChange(world, s, s', step);
    }
  }

  lemma RegistrationChange(world: World, s: State, s': State, step: Step) returns (change: Change)
    requires Next(world, s, s', step) && (step.Enrol? || step.Register? || step.Revoke?)
    ensures Changed(world.feeRecipient, s.db, s'.db, change)
    ensures !change.NewProposal? && !change.NewQueueRow? && !change.Ending? && !change.LogsIndexed?
  {
    match step
    case Enrol(wallet, account) => change := NewAccount(wallet, account);
    case Register(m, row) => change := NewMachine(m, row);
    case Revoke(m) => change := MachineRevoked(m);
  }

  lemma ChainChange(world: World, s: State, s': State, step: Step) returns (change: Change)
    requires Next(world, s, s', step) && (step.Index? || step.Unwind?)
    ensures Changed(world.feeRecipient, s.db, s'.db, change)
    ensures !change.NewProposal? && !change.NewQueueRow? && !change.Ending? && s'.pcs == s.pcs
  {
    if step.Unwind? { change := Unwound(step.rs); } else { change := IndexChange(world, s, s', step.first, step.last); }
  }

  lemma IndexChange(world: World, s: State, s': State, first: nat, last: nat) returns (change: Change)
    requires IndexStep(world, s, s', first, last)
    ensures Changed(world.feeRecipient, s.db, s'.db, change)
    ensures !change.NewProposal? && !change.NewQueueRow? && !change.Ending? && s'.pcs == s.pcs
  {
    change := if s' == s then NoChange
              else LogsIndexed(Logs(s.chain[first..last + 1]), Cursor(last + 1, last, s.chain[..last + 1]));
  }

  /** Every step changes the tables by one of these transactions, or not at all. */
  lemma ChangeOf(world: World, s: State, s': State, step: Step) returns (change: Change)
    requires Coherent(s.db, s.pcs) && Next(world, s, s', step)
    ensures Changed(world.feeRecipient, s.db, s'.db, change)
    ensures change.NewProposal? ==> step.Complete? && step.r == change.r && s.pcs[step.r] == Persisting(change.proposal)
    ensures change.NewQueueRow? ==> step.Queue? && s.pcs[step.r] == Signing(change.receipt)
    ensures change.Ending? ==> step.Abort? && step.r == change.r
    ensures change.LogsIndexed? ==> s'.pcs == s.pcs
  {
    if step.Serve? || step.Accept? || step.Stream? || step.Complete? {
      change := HandlerChange(world, s, s', step);
    } else if step.Draft? || step.Queue? || step.Abort? {
      change := FinishingChange(world, s, s', step);
    } else if step.Enrol? || step.Register? || step.Revoke? || step.Submit? || step.Beat? {
      change := BrokerChange(world, s, s', step);
    } else if step.Index? || step.Unwind? {
      change := ChainChange(world, s, s', step);
    } else {
      change := NoChange;
    }
  }
}
