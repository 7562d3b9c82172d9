/** The invariant of the whole protocol, and that every step keeps it. */
module Safety {
  import opened Basics
  import opened Charging
  import opened Tables
  import opened Projecting
  import opened Ledger
  import opened Protocol
  import opened Coherence
  import Solvency
  import Capacity
  import Trails
  import Nonces
  import Prices
  import Dispatch

  /** What holds of the tables, whatever part of the log has been applied. */
  ghost predicate TablesOK(world: World, db: Db, pcs: map<RequestId, Pc>, broadcast: set<Transaction>) {
    Coherent(db, pcs) && MoneyOK(world, db, broadcast)
  }

  ghost predicate MoneyOK(world: World, db: Db, broadcast: set<Transaction>) {
    && OneWalletEach(db.accounts)
    && Solvency.ChainSessionsOK(world, db.chain) && Solvency.SessionsOK(world, db) && Solvency.Solvent(world, db)
    && Capacity.CapacityOK(db)
    && Trails.OutboxOK(db)
    && Nonces.NoncesOK(db.nonces)
    && Prices.PricesOK(world, db)
    && Dispatch.QueueOK(db.queue, broadcast)
  }

  /** The projection is the fold of the applied log, and the applied log is the one
      the cursor's block hash commits to. */
  ghost predicate IndexOK(world: World, db: Db, applied: seq<Log>) {
    && ProjectAll(world.feeRecipient, applied) == Some(db.chain)
    && WellFormed(world, applied)
    && match db.cursor
       case None => applied == []
       case Some(c) => applied == Logs(c.hash) && |c.hash| == c.next == c.last + 1
  }

  ghost predicate Inv(world: World, s: State) {
    && TablesOK(world, s.db, s.pcs, s.broadcast)
    && IndexOK(world, s.db, s.applied)
    && AllBacked(s.applied, s.broadcast)
    && WellFormed(world, Logs(s.chain)) && AllBacked(Logs(s.chain), s.broadcast)
  }

  lemma AtInit(world: World, s: State)
    requires Init(world, s)
    ensures Inv(world, s)
  {
  }

  /** The tables that no request step writes. */
  predicate Untouched(db: Db, db': Db) {
    && db'.accounts == db.accounts && db'.machines == db.machines && db'.sessions == db.sessions
    && db'.chain == db.chain && db'.cursor == db.cursor
  }

  // ------------------------------------------------------------- the handler's steps

  lemma AtServe(world: World, s: State, s': State, v: Reservation, landing: Landing)
    requires Inv(world, s) && ServeStep(s, s', v, landing)
    ensures Inv(world, s')
  {
    if s' != s {
      Coherence.AtServe(s.db, s.pcs, v, s'.pcs[v.request]);
      Solvency.AtServe(world, s.db, v);
      Capacity.AtServe(s.db, v);
      Trails.AtServe(s.db, v);
      Prices.AtServe(world, s.db, v);
    }
  }

  /** A request moves on without touching money, routes or receipts. */
  lemma AtSetState(world: World, db: Db, r: RequestId, to: RequestState, pcs: map<RequestId, Pc>,
                   broadcast: set<Transaction>)
    requires TablesOK(world, db, pcs, broadcast) && TransitionRequest(db, r, to).Commit?
    requires Executing(db.requests[r].state) && Executing(to)
    ensures var db' := SetState(db, r, to);
            && Solvency.ChainSessionsOK(world, db'.chain) && Solvency.SessionsOK(world, db')
              && Solvency.Solvent(world, db')
            && Capacity.CapacityOK(db') && Trails.OutboxOK(db') && Prices.PricesOK(world, db')
  {
    var db' := SetState(db, r, to);
    Solvency.AtSame(world, db, db');
    Capacity.AtTransition(db, r, to);
    Trails.AtSetState(db, r, to);
    Prices.AtSame(world, db, db');
  }

  lemma AtAccept(world: World, s: State, s': State, r: RequestId, landing: Landing)
    requires Inv(world, s) && AcceptStep(s, s', r, landing)
    ensures Inv(world, s')
  {
    assert RowOK(s.db, s.pcs, r);
    Coherence.AtTransition(s.db, s.pcs, r, Accepted, landing);
    if s'.db != s.db { AtSetState(world, s.db, r, Accepted, s.pcs, s.broadcast); }
  }

  lemma AtStream(world: World, s: State, s': State, r: RequestId, landing: Landing)
    requires Inv(world, s) && StreamStep(s, s', r, landing)
    ensures Inv(world, s')
  {
    assert RowOK(s.db, s.pcs, r);
    Coherence.AtTransition(s.db, s.pcs, r, Streaming, landing);
    if s'.db != s.db { AtSetState(world, s.db, r, Streaming, s.pcs, s.broadcast); }
  }

  lemma AtReport(world: World, s: State, s': State, r: RequestId, usage: Usage, inputHash: Hash, outputHash: Hash,
                 completedAt: nat)
    requires Inv(world, s) && ReportStep(s, s', r, usage, inputHash, outputHash, completedAt)
    ensures Inv(world, s')
  {
    assert RowOK(s.db, s.pcs, r);
    AtPcOnly(s.db, s.pcs, r, s'.pcs[r]);
  }

  lemma CompleteKeeps(db: Db, r: RequestId, p: Proposal)
    requires CompleteInference(db, r, p).Commit?
    ensures var db' := CompleteInference(db, r, p).db;
            && Untouched(db, db') && db'.holds == db.holds && db'.nonces == db.nonces && db'.queue == db.queue
            && Prices.SameTerms(db, db')
  {
    var db' := CompleteInference(db, r, p).db;
    if db' != db {
      var key := RouteKey(p.machine, p.offer);
      assert db'.routes == FreeSlot(db.routes, key) && db'.machines == db.machines;
      Prices.SameButState(db, db', r);
    }
  }

  lemma AtComplete(world: World, s: State, s': State, r: RequestId, landing: Landing)
    requires Inv(world, s) && CompleteStep(s, s', r, landing)
    ensures Inv(world, s')
  {
    Coherence.AtComplete(s.db, s.pcs, r, landing);
    if s'.db != s.db { AfterComplete(world, s.db, s.pcs, s.broadcast, r); }
  }

  lemma AfterComplete(world: World, db: Db, pcs: map<RequestId, Pc>, broadcast: set<Transaction>, r: RequestId)
    requires TablesOK(world, db, pcs, broadcast) && r in pcs && pcs[r].Persisting?
    requires CompleteInference(db, r, pcs[r].proposal).Commit?
    ensures var db' := CompleteInference(db, r, pcs[r].proposal).db;
            MoneyOK(world, db', broadcast) && Untouched(db, db')
  {
    var db' := CompleteInference(db, r, pcs[r].proposal).db;
    CompleteKeeps(db, r, pcs[r].proposal);
    Solvency.AtSame(world, db, db');
    Capacity.AtComplete(db, pcs, r);
    Trails.AtComplete(db, r, pcs[r].proposal);
    Prices.AtSame(world, db, db');
  }

  lemma DraftKeeps(db: Db, r: RequestId, domain: Domain)
    requires PrepareReceipt(db, r, domain).Commit?
    ensures var db' := PrepareReceipt(db, r, domain).db;
            && Untouched(db, db') && db'.requests == db.requests && db'.routes == db.routes && db'.queue == db.queue
            && db'.outbox == db.outbox && db'.proposals == db.proposals && r in db.holds && r in db'.holds
              && db'.holds == db.holds[r := db'.holds[r]]
            && db'.holds[r].session == db.holds[r].session && db'.holds[r].amount <= db.holds[r].amount
  {
  }

  lemma AtDraft(world: World, s: State, s': State, r: RequestId, domain: Domain, landing: Landing)
    requires Inv(world, s) && DraftStep(s, s', r, domain, landing)
    ensures Inv(world, s')
  {
    Coherence.AtDraft(s.db, s.pcs, r, domain, landing);
    if s'.db != s.db { AfterDraft(world, s.db, s.pcs, s.broadcast, r, domain); }
  }

  lemma AfterDraft(world: World, db: Db, pcs: map<RequestId, Pc>, broadcast: set<Transaction>, r: RequestId,
                   domain: Domain)
    requires TablesOK(world, db, pcs, broadcast) && r in pcs && pcs[r] == Finalizing
    requires PrepareReceipt(db, r, domain).Commit?
    ensures var db' := PrepareReceipt(db, r, domain).db;
            MoneyOK(world, db', broadcast) && Untouched(db, db')
  {
    assert RowOK(db, pcs, r);
    DraftKeeps(db, r, domain);
    Capacity.AtDraft(db, r, domain);
    Nonces.AtDraft(db, r, domain);
    HoldShrunk(world, db, PrepareReceipt(db, r, domain).db, broadcast, r);
  }

  /** One hold is lowered or released, and a number may have been issued. */
  lemma HoldShrunk(world: World, db: Db, db': Db, broadcast: set<Transaction>, r: RequestId)
    requires MoneyOK(world, db, broadcast) && r in db.holds && r in db'.holds
    requires db' == db.(holds := db.holds[r := db'.holds[r]], nonces := db'.nonces)
    requires db'.holds[r].session == db.holds[r].session && db'.holds[r].amount <= db.holds[r].amount
    requires db.holds[r].released ==> db'.holds[r].released || db'.holds[r].amount == 0
    requires Capacity.CapacityOK(db') && Nonces.NoncesOK(db'.nonces)
    ensures MoneyOK(world, db', broadcast)
  {
    Solvency.AtRelief(world, db, db', r);
    Trails.Quiet(db, db');
    Prices.AtSame(world, db, db');
  }

  lemma QueueKeeps(db: Db, receipt: Receipt)
    requires receipt.request !in db.queue
    ensures var db' := Enqueue(db, receipt);
            && Untouched(db, db') && db'.holds == db.holds && db'.routes == db.routes && db'.nonces == db.nonces
            && Prices.SameTerms(db, db') && db'.queue == db.queue[receipt.request := QueueRow(receipt, Cosigned, None)]
  {
    Prices.MovedOn(db, Enqueue(db, receipt), receipt.request);
  }

  lemma AtQueue(world: World, s: State, s': State, r: RequestId, landing: Landing)
    requires Inv(world, s) && QueueStep(s, s', r, landing)
    ensures Inv(world, s')
  {
    Coherence.AtQueue(s.db, s.pcs, r, landing);
    assert RowOK(s.db, s.pcs, r);
    if landing != Lost { AfterQueue(world, s.db, s.broadcast, s.pcs[r].receipt); }
  }

  lemma AfterQueue(world: World, db: Db, broadcast: set<Transaction>, receipt: Receipt)
    requires MoneyOK(world, db, broadcast) && receipt.request !in db.queue
    ensures var db' := Enqueue(db, receipt);
            MoneyOK(world, db', broadcast) && Untouched(db, db')
  {
    var r, db' := receipt.request, Enqueue(db, receipt);
    QueueKeeps(db, receipt);
    Solvency.AtSame(world, db, db');
    Capacity.AtQueue(db, receipt);
    Trails.AtSettlementTransition(db, db.(queue := db.queue[r := QueueRow(receipt, Cosigned, None)]), r, Completed,
      Signed);
    Prices.AtSame(world, db, db');
    Dispatch.AtKept(db.queue, db'.queue, broadcast);
  }

  lemma AtGiveUp(world: World, s: State, s': State, r: RequestId, to: RequestState)
    requires Inv(world, s) && GiveUpStep(s, s', r, to)
    ensures Inv(world, s')
  {
    assert RowOK(s.db, s.pcs, r);
    AtPcOnly(s.db, s.pcs, r, Aborting(to));
  }

  lemma AtCrash(world: World, s: State, s': State, r: RequestId)
    requires Inv(world, s) && CrashStep(s, s', r)
    ensures Inv(world, s')
  {
    assert RowOK(s.db, s.pcs, r);
    AtPcOnly(s.db, s.pcs, r, Exited(false));
  }

  lemma AbortKeeps(db: Db, r: RequestId, to: RequestState)
    requires AbortInference(db, r, to).Commit?
    ensures var db' := AbortInference(db, r, to).db;
            && Untouched(db, db') && db'.nonces == db.nonces && db'.queue == db.queue && Prices.SameTerms(db, db')
  {
    var db' := AbortInference(db, r, to).db;
    if db' != db {
      assert db' == Ended(db, r, to);
      Prices.SameButState(db, db', r);
    }
  }

  lemma AtAbort(world: World, s: State, s': State, r: RequestId, lost: bool)
    requires Inv(world, s) && AbortStep(s, s', r, lost)
    ensures Inv(world, s')
  {
    Coherence.AtAbort(s.db, s.pcs, r, lost);
    if s'.db != s.db { AfterAbort(world, s.db, s.pcs, s.broadcast, r, s.pcs[r].to); }
  }

  lemma AfterAbort(world: World, db: Db, pcs: map<RequestId, Pc>, broadcast: set<Transaction>, r: RequestId,
                   to: RequestState)
    requires TablesOK(world, db, pcs, broadcast) && AbortInference(db, r, to).Commit?
    ensures var db' := AbortInference(db, r, to).db;
            MoneyOK(world, db', broadcast) && Untouched(db, db')
  {
    AbortKeeps(db, r, to);
    Released(world, db, r, to);
    Capacity.AtAbort(db, r, to);
    Trails.AtAbort(db, r, to);
    Prices.AtSame(world, db, AbortInference(db, r, to).db);
  }

  lemma Released(world: World, db: Db, r: RequestId, to: RequestState)
    requires Solvency.SessionsOK(world, db) && Solvency.Solvent(world, db) && AbortInference(db, r, to).Commit?
    ensures var db' := AbortInference(db, r, to).db; Solvency.SessionsOK(world, db') && Solvency.Solvent(world, db')
  {
    var db' := AbortInference(db, r, to).db;
    AbortKeeps(db, r, to);
    ReleasedHold(db, r, to);
    if db'.holds == db.holds { Solvency.AtSame(world, db, db'); } else { Solvency.AtRelief(world, db, db', r); }
  }

  lemma ReleasedHold(db: Db, r: RequestId, to: RequestState)
    requires AbortInference(db, r, to).Commit?
    ensures var db' := AbortInference(db, r, to).db;
            db'.holds == db.holds || (r in db.holds && db'.holds == db.holds[r := db.holds[r].(released := true)])
  {
  }

  // -------------------------------------------------------- other broker activities

  /** New wallets and machines, and revocations, disturb no row of a request. */
  lemma AfterRegistration(world: World, db: Db, db': Db, pcs: map<RequestId, Pc>, broadcast: set<Transaction>)
    requires TablesOK(world, db, pcs, broadcast) && db' == db.(accounts := db'.accounts, machines := db'.machines)
    requires forall a <- db.accounts :: a in db'.accounts && db'.accounts[a] == db.accounts[a]
    requires forall m <- db.machines :: m in db'.machines && db'.machines[m].wallet == db.machines[m].wallet
    requires OneWalletEach(db'.accounts)
    ensures TablesOK(world, db', pcs, broadcast)
  {
    Coherence.AtSame(db, pcs, db');
    Solvency.AtSame(world, db, db');
    Capacity.Unmoved(db, db');
    Trails.Quiet(db, db');
    Prices.AtSame(world, db, db');
  }

  lemma AtEnrol(world: World, s: State, s': State, wallet: Address, account: AccountId)
    requires Inv(world, s) && EnrolStep(s, s', wallet, account)
    ensures Inv(world, s')
  {
    AfterRegistration(world, s.db, s'.db, s.pcs, s.broadcast);
  }

  lemma AtRegister(world: World, s: State, s': State, m: MachineId, row: Machine)
    requires Inv(world, s) && RegisterStep(s, s', m, row)
    ensures Inv(world, s')
  {
    AfterRegistration(world, s.db, s'.db, s.pcs, s.broadcast);
  }

  lemma AtRevoke(world: World, s: State, s': State, m: MachineId)
    requires Inv(world, s) && RevokeStep(s, s', m)
    ensures Inv(world, s')
  {
    AfterRegistration(world, s.db, s'.db, s.pcs, s.broadcast);
  }

  lemma RouteAllKeeps(db: Db, m: MachineId, available: nat, adverts: seq<Advert>)
    requires m in db.machines && RouteAll(db, m, available, adverts).Some?
    ensures var db' := RouteAll(db, m, available, adverts).value; db'.(routes := db.routes) == db
    decreases |adverts|
  {
    if adverts != [] {
      RouteAllKeeps(db, m, available, adverts[..|adverts| - 1]);
      RouteAdvertKeeps(RouteAll(db, m, available, adverts[..|adverts| - 1]).value, m, available,
        adverts[|adverts| - 1]);
    }
  }

  lemma RouteAdvertKeeps(db: Db, m: MachineId, available: nat, advert: Advert)
    requires m in db.machines
    ensures var db' := RouteAdvert(db, m, available, advert); db'.(routes := db.routes) == db
  {
  }

  lemma AtBeat(world: World, s: State, s': State, m: MachineId, beat: Heartbeat)
    requires Inv(world, s) && BeatStep(s, s', m, beat)
    ensures Inv(world, s')
  {
    if ReconcileCapacity(s.db, m, beat).Commit? { AfterBeat(world, s.db, s.pcs, s.broadcast, m, beat); }
  }

  lemma BeatKeeps(db: Db, m: MachineId, beat: Heartbeat)
    requires ReconcileCapacity(db, m, beat).Commit?
    ensures var db' := ReconcileCapacity(db, m, beat).db; db'.(routes := db.routes) == db
  {
    RouteAllKeeps(db.(routes := Drain(db.routes, m)), m, beat.available, beat.adverts);
  }

  lemma AfterBeat(world: World, db: Db, pcs: map<RequestId, Pc>, broadcast: set<Transaction>, m: MachineId,
                  beat: Heartbeat)
    requires TablesOK(world, db, pcs, broadcast) && ReconcileCapacity(db, m, beat).Commit?
    ensures var db' := ReconcileCapacity(db, m, beat).db;
            TablesOK(world, db', pcs, broadcast) && Untouched(db, db')
  {
    var db' := ReconcileCapacity(db, m, beat).db;
    BeatKeeps(db, m, beat);
    Coherence.AtSame(db, pcs, db');
    Solvency.AtSame(world, db, db');
    Capacity.AtBeat(db, m, beat);
    Trails.Quiet(db, db');
    Prices.AtBeat(world, db, m, beat);
  }

  lemma SubmitAllKeeps(db: Db, rs: seq<RequestId>, t: Transaction)
    requires forall i :: 0 <= i < |rs| ==> rs[i] in db.queue
    ensures var db' := SubmitAll(db, rs, t);
            && Untouched(db, db') && db'.holds == db.holds && db'.routes == db.routes && db'.nonces == db.nonces
            && Prices.SameTerms(db, db')
    decreases |rs|
  {
    if rs != [] {
      SubmitAllKeeps(db, rs[..|rs| - 1], t);
      var before := SubmitAll(db, rs[..|rs| - 1], t);
      SubmitOneKeeps(before, rs[|rs| - 1], t);
      SameTermsTransitive(db, before, SubmitAll(db, rs, t));
    }
  }

  lemma SubmitOneKeeps(db: Db, r: RequestId, t: Transaction)
    requires r in db.queue
    ensures var db' := SubmitOne(db, r, t);
            && Untouched(db, db') && db'.holds == db.holds && db'.routes == db.routes && db'.nonces == db.nonces
            && Prices.SameTerms(db, db')
  {
    Prices.MovedOn(db, SubmitOne(db, r, t), r);
  }

  lemma SameTermsTransitive(a: Db, b: Db, c: Db)
    requires Prices.SameTerms(a, b) && Prices.SameTerms(b, c)
    ensures Prices.SameTerms(a, c)
  {
  }

  lemma AtSubmit(world: World, s: State, s': State, rs: seq<RequestId>, nonce: nat)
    requires Inv(world, s) && SubmitStep(s, s', rs, nonce)
    ensures Inv(world, s')
  {
    var t := Transaction(nonce, BatchReceipts(s.db, rs));
    SubmitAllKeeps(s.db, rs, t);
    Coherence.AtSubmit(s.db, s.pcs, rs, t);
    Solvency.AtSame(world, s.db, s'.db);
    Capacity.AtSubmit(s.db, rs, t);
    Trails.AtSubmit(s.db, rs, t);
    Prices.AtSame(world, s.db, s'.db);
    Dispatch.AtSubmit(s.db, s.pcs, s.broadcast, rs, nonce);
  }

  lemma AtBroadcast(world: World, s: State, s': State, t: Transaction)
    requires Inv(world, s) && BroadcastStep(s, s', t)
    ensures Inv(world, s')
  {
    MoreBacked(Logs(s.chain), s.broadcast, s'.broadcast);
    MoreBacked(s.applied, s.broadcast, s'.broadcast);
  }

  lemma MoreBacked(logs: seq<Log>, broadcast: set<Transaction>, broadcast': set<Transaction>)
    requires AllBacked(logs, broadcast) && broadcast <= broadcast'
    ensures AllBacked(logs, broadcast')
  {
    forall i | 0 <= i < |logs| && logs[i].event.ReceiptSettled? ensures Backed(logs[i].event, broadcast') {
      assert Backed(logs[i].event, broadcast);
      var t, k :| t in broadcast && 0 <= k < |t.receipts|
        && t.receipts[k].request == logs[i].event.request && t.receipts[k].session == logs[i].event.session
        && t.receipts[k].total == logs[i].event.providerAmount + logs[i].event.feeAmount;
      assert t in broadcast';
    }
  }

  // ------------------------------------------------------------------- the indexer

  /** The next entry of a well-formed, backed log is applied without error. */
  lemma AtApplyLog(world: World, db: Db, pcs: map<RequestId, Pc>, broadcast: set<Transaction>, log: Log)
    requires TablesOK(world, db, pcs, broadcast) && Allowed(world, db.chain, log.event)
    requires log.event.ReceiptSettled? ==> Backed(log.event, broadcast)
    ensures ApplyLog(db, world.feeRecipient, log).Commit?
    ensures var db' := ApplyLog(db, world.feeRecipient, log).db;
            && TablesOK(world, db', pcs, broadcast) && db'.cursor == db.cursor
            && Some(db'.chain) == Project(db.chain, world.feeRecipient, log)
  {
    if log.event.ReceiptSettled? {
      Dispatch.BackedMatches(db, broadcast, log.event);
      AfterSettlement(world, db, pcs, broadcast, log);
    } else {
      AfterOtherLog(world, db, pcs, broadcast, log);
    }
  }

  lemma SettlementKeeps(db: Db, feeRecipient: Address, log: Log)
    requires log.event.ReceiptSettled? && log.event.request !in db.chain.settlements
    requires ApplyLog(db, feeRecipient, log).Commit?
    ensures var db' := ApplyLog(db, feeRecipient, log).db;
            && Prices.SameTerms(db, db') && db'.nonces == db.nonces && db'.cursor == db.cursor
            && Dispatch.Kept(db.queue, db'.queue) && Dispatch.NoneAssigned(db.queue, db'.queue)
            && Some(db'.chain) == Project(db.chain, feeRecipient, log)
  {
    var noted := SettlementApplies(db, feeRecipient, log);
    MarkKeeps(noted, log.event.request);
    Prices.MovedOn(db, MarkSettled(noted, log.event.request), log.event.request);
  }

  lemma AfterSettlement(world: World, db: Db, pcs: map<RequestId, Pc>, broadcast: set<Transaction>, log: Log)
    requires TablesOK(world, db, pcs, broadcast)
    requires log.event.ReceiptSettled? && Allowed(world, db.chain, log.event) && Matches(db, log.event)
    ensures ApplyLog(db, world.feeRecipient, log).Commit?
    ensures var db' := ApplyLog(db, world.feeRecipient, log).db;
            && TablesOK(world, db', pcs, broadcast) && db'.cursor == db.cursor
            && Some(db'.chain) == Project(db.chain, world.feeRecipient, log)
  {
    Coherence.AtSettlement(db, pcs, world.feeRecipient, log);
    Solvency.AtSettlement(world, db, pcs, log);
    Capacity.AtLog(db, pcs, world.feeRecipient, log);
    SettlementKeeps(db, world.feeRecipient, log);
    SettlementTrail(db, world.feeRecipient, log);
    Prices.AtLog(world, db.chain, log);
    var db' := ApplyLog(db, world.feeRecipient, log).db;
    Prices.AtSame(world, db, db');
    Dispatch.AtKept(db.queue, db'.queue, broadcast);
  }

  lemma SettlementTrail(db: Db, feeRecipient: Address, log: Log)
    requires Trails.OutboxOK(db) && log.event.ReceiptSettled? && log.event.request !in db.chain.settlements
    requires ApplyLog(db, feeRecipient, log).Commit?
    ensures Trails.OutboxOK(ApplyLog(db, feeRecipient, log).db)
  {
    var before := db.(chain := Project(db.chain, feeRecipient, log).value, sessions := SessionEffect(db, log.event));
    Trails.Quiet(db, before);
    Trails.AtMarkSettled(before, log.event.request);
  }

  /** Only the projection and the sessions table change, and no settlement does. */
  lemma AfterChainRows(world: World, db: Db, db': Db, pcs: map<RequestId, Pc>, broadcast: set<Transaction>)
    requires TablesOK(world, db, pcs, broadcast) && db' == db.(chain := db'.chain, sessions := db'.sessions)
    requires db'.chain.settlements == db.chain.settlements && Prices.OffersOK(world, db'.chain)
    requires Solvency.ChainSessionsOK(world, db'.chain) && Solvency.SessionsOK(world, db')
             && Solvency.Solvent(world, db')
    ensures TablesOK(world, db', pcs, broadcast)
  {
    Coherence.AtSame(db, pcs, db');
    Capacity.Unmoved(db, db');
    Trails.Quiet(db, db');
    Prices.AtSame(world, db, db');
  }

  lemma AfterOtherLog(world: World, db: Db, pcs: map<RequestId, Pc>, broadcast: set<Transaction>, log: Log)
    requires TablesOK(world, db, pcs, broadcast)
    requires !log.event.ReceiptSettled? && Allowed(world, db.chain, log.event)
    ensures ApplyLog(db, world.feeRecipient, log).Commit?
    ensures var db' := ApplyLog(db, world.feeRecipient, log).db;
            && TablesOK(world, db', pcs, broadcast) && db'.cursor == db.cursor
            && Some(db'.chain) == Project(db.chain, world.feeRecipient, log)
  {
    if log.event.SessionOpened? { Solvency.AtOpened(world, db, log); } else { Solvency.AtOtherLog(world, db, log); }
    OtherLogKeeps(db, world.feeRecipient, log);
    Prices.AtLog(world, db.chain, log);
    AfterChainRows(world, db, ApplyLog(db, world.feeRecipient, log).db, pcs, broadcast);
  }

  lemma OtherLogKeeps(db: Db, feeRecipient: Address, log: Log)
    requires !log.event.ReceiptSettled? && ApplyLog(db, feeRecipient, log).Commit?
    ensures var db' := ApplyLog(db, feeRecipient, log).db;
            db'.(chain := db.chain, sessions := db.sessions) == db
              && Some(db'.chain) == Project(db.chain, feeRecipient, log)
  {
  }

  lemma MoreLogIds(world: World, db: Db, pcs: map<RequestId, Pc>, broadcast: set<Transaction>, id: LogId)
    requires TablesOK(world, db, pcs, broadcast)
    ensures TablesOK(world, db.(chain := db.chain.(logs := db.chain.logs + {id})), pcs, broadcast)
  {
    var db' := db.(chain := db.chain.(logs := db.chain.logs + {id}));
    Solvency.MoreLogIds(world, db, id);
    AfterChainRows(world, db, db', pcs, broadcast);
  }

  lemma AtIndexLog(world: World, db: Db, pcs: map<RequestId, Pc>, broadcast: set<Transaction>, log: Log)
    requires TablesOK(world, db, pcs, broadcast) && Follows(world, db.chain, log)
    requires log.event.ReceiptSettled? ==> Backed(log.event, broadcast)
    ensures IndexLog(db, world.feeRecipient, log).Commit?
    ensures var db' := IndexLog(db, world.feeRecipient, log).db;
            && TablesOK(world, db', pcs, broadcast) && db'.cursor == db.cursor
            && Some(db'.chain) == Record(db.chain, world.feeRecipient, log)
  {
    MoreLogIds(world, db, pcs, broadcast, log.id);
    AtApplyLog(world, db.(chain := db.chain.(logs := db.chain.logs + {log.id})), pcs, broadcast, log);
  }

  /** The projection stands at entry `n` of the log. */
  ghost predicate StandsAt(world: World, d: Db, pcs: map<RequestId, Pc>, broadcast: set<Transaction>, log: seq<Log>,
                           n: nat) {
    && n <= |log| && TablesOK(world, d, pcs, broadcast) && ProjectAll(world.feeRecipient, log[..n]) == Some(d.chain)
  }

  lemma AtEntry(world: World, d: Db, pcs: map<RequestId, Pc>, broadcast: set<Transaction>, log: seq<Log>, n: nat)
    requires WellFormed(world, log) && AllBacked(log, broadcast) && n < |log|
             && StandsAt(world, d, pcs, broadcast, log, n)
    ensures var result := Entries(world.feeRecipient)(d, log[n]);
            result.Commit? && StandsAt(world, result.db, pcs, broadcast, log, n + 1)
  {
    NextEntry(world, log, n);
    BackedAt(log, n, broadcast);
    AtIndexLog(world, d, pcs, broadcast, log[n]);
  }

  ghost function Standing(world: World, pcs: map<RequestId, Pc>, broadcast: set<Transaction>,
                          log: seq<Log>): (holds: (nat, Db) -> bool) {
    (n: nat, d: Db) => StandsAt(world, d, pcs, broadcast, log, n)
  }

  lemma {:induction false} EveryEntry(world: World, pcs: map<RequestId, Pc>, broadcast: set<Transaction>,
                                      log: seq<Log>, end: nat)
    requires end <= |log| && WellFormed(world, log) && AllBacked(log, broadcast)
    ensures Carries(Entries(world.feeRecipient), log, Standing(world, pcs, broadcast, log), end)
  {
    if end > 0 {
      var n: nat := end - 1;
      EveryEntry(world, pcs, broadcast, log, n);
      forall d | StandsAt(world, d, pcs, broadcast, log, n)
        ensures var result := Entries(world.feeRecipient)(d, log[n]);
                result.Commit? && StandsAt(world, result.db, pcs, broadcast, log, end)
      {
        AtEntry(world, d, pcs, broadcast, log, n);
      }
    }
  }

  /** A stretch of the log that starts where the projection stands. */
  lemma AtIndexLogs(world: World, db: Db, pcs: map<RequestId, Pc>, broadcast: set<Transaction>, log: seq<Log>,
                    from: nat, end: nat)
    requires from <= end <= |log| && WellFormed(world, log) && AllBacked(log, broadcast)
    requires StandsAt(world, db, pcs, broadcast, log, from)
    ensures IndexLogs(db, world.feeRecipient, log[from..end]).Commit?
    ensures StandsAt(world, IndexLogs(db, world.feeRecipient, log[from..end]).db, pcs, broadcast, log, end)
  {
    EveryEntry(world, pcs, broadcast, log, end);
    StretchCarries(Entries(world.feeRecipient), db, log, from, end, Standing(world, pcs, broadcast, log));
  }

  lemma NextEntry(world: World, log: seq<Log>, n: nat)
    requires WellFormed(world, log) && n < |log|
    ensures var before := ProjectAll(world.feeRecipient, log[..n]);
            && before.Some? && Follows(world, before.value, log[n])
            && ProjectAll(world.feeRecipient, log[..n + 1]) == Record(before.value, world.feeRecipient, log[n])
  {
    assert log[..n + 1][..n] == log[..n];
  }

  lemma BackedAt(logs: seq<Log>, n: nat, broadcast: set<Transaction>)
    requires AllBacked(logs, broadcast) && n < |logs|
    ensures logs[n].event.ReceiptSettled? ==> Backed(logs[n].event, broadcast)
  {
  }

  lemma LogsConcat(a: seq<Block>, b: seq<Block>)
    ensures Logs(a + b) == Logs(a) + Logs(b)
    decreases |b|
  {
    if b == [] {
      assert a + b == a;
    } else {
      var n := |b| - 1;
      assert (a + b)[..|a + b| - 1] == a + b[..n];
      LogsConcat(a, b[..n]);
    }
  }

  /** The blocks a batch reads continue the log the cursor stands for. */
  lemma BatchContinues(world: World, s: State, first: nat, last: nat)
    requires IndexOK(world, s.db, s.applied) && MayIndex(s, first, last)
    ensures Logs(s.chain[..last + 1]) == s.applied + Logs(s.chain[first..last + 1])
  {
    assert s.chain[..last + 1] == s.chain[..first] + s.chain[first..last + 1];
    LogsConcat(s.chain[..first], s.chain[first..last + 1]);
    match s.db.cursor {
      case None =>
      case Some(c) =>
        assert c.hash == s.chain[..c.next];
        assert s.chain[..first] == s.chain[..c.next] + s.chain[c.next..first];
        LogsConcat(s.chain[..c.next], s.chain[c.next..first]);
        assert Logs(s.chain[..first]) == s.applied;
    }
  }

  /** The batch is the stretch of the canonical log after the applied part. */
  lemma BatchStretch(world: World, s: State, first: nat, last: nat)
    requires IndexOK(world, s.db, s.applied) && MayIndex(s, first, last)
    ensures var log, batch := Logs(s.chain), Logs(s.chain[first..last + 1]);
            var from, to := |s.applied|, |s.applied| + |batch|;
            to <= |log| && log[..from] == s.applied && log[from..to] == batch && log[..to] == Logs(s.chain[..last + 1])
  {
    BatchContinues(world, s, first, last);
    assert s.chain == s.chain[..last + 1] + s.chain[last + 1..];
    LogsConcat(s.chain[..last + 1], s.chain[last + 1..]);
  }

  /** Indexing the canonical chain never fails. */
  lemma IndexNeverBlocks(world: World, s: State, first: nat, last: nat)
    requires Inv(world, s) && MayIndex(s, first, last)
    ensures IndexRange(s.db, world.feeRecipient, s.chain, first, last).Commit?
    ensures Inv(world, Indexed(s, world.feeRecipient, first, last))
  {
    BatchContinues(world, s, first, last);
    BatchTables(world, s, first, last);
    var logged := IndexLogs(s.db, world.feeRecipient, Logs(s.chain[first..last + 1])).db;
    CursorOnly(world, logged, s.pcs, s.broadcast, Some(Cursor(last + 1, last, s.chain[..last + 1])));
    BatchLog(world, s, first, last);
  }

  /** The longer applied log is as well-formed as the canonical log it comes from. */
  lemma BatchLog(world: World, s: State, first: nat, last: nat)
    requires Inv(world, s) && MayIndex(s, first, last)
    ensures var applied' := s.applied + Logs(s.chain[first..last + 1]);
            WellFormed(world, applied') && AllBacked(applied', s.broadcast)
  {
    var log, _, end := BatchReady(world, s, first, last);
    WellFormedPrefix(world, log, end);
    BackedPrefix(log, end, s.broadcast);
  }

  lemma BackedPrefix(logs: seq<Log>, n: nat, broadcast: set<Transaction>)
    requires AllBacked(logs, broadcast) && n <= |logs|
    ensures AllBacked(logs[..n], broadcast)
  {
    forall i | 0 <= i < n && logs[..n][i].event.ReceiptSettled? ensures Backed(logs[..n][i].event, broadcast) {
      assert logs[..n][i] == logs[i];
    }
  }

  /** The canonical log and where in it the batch lies. */
  lemma BatchReady(world: World, s: State, first: nat, last: nat) returns (log: seq<Log>, from: nat, end: nat)
    requires IndexOK(world, s.db, s.applied) && MayIndex(s, first, last)
    requires WellFormed(world, Logs(s.chain)) && AllBacked(Logs(s.chain), s.broadcast)
    ensures from <= end <= |log| && WellFormed(world, log) && AllBacked(log, s.broadcast)
    ensures ProjectAll(world.feeRecipient, log[..from]) == Some(s.db.chain)
    ensures log[from..end] == Logs(s.chain[first..last + 1])
    ensures log[..end] == s.applied + Logs(s.chain[first..last + 1])
  {
    BatchStretch(world, s, first, last);
    BatchContinues(world, s, first, last);
    log, from := Logs(s.chain), |s.applied|;
    end := from + |Logs(s.chain[first..last + 1])|;
  }

  lemma BatchTables(world: World, s: State, first: nat, last: nat)
    requires Inv(world, s) && MayIndex(s, first, last)
    ensures var batch := Logs(s.chain[first..last + 1]);
            var result := IndexLogs(s.db, world.feeRecipient, batch);
            && result.Commit? && TablesOK(world, result.db, s.pcs, s.broadcast)
            && ProjectAll(world.feeRecipient, s.applied + batch) == Some(result.db.chain)
  {
    var log, from, end := BatchReady(world, s, first, last);
    AtIndexLogs(world, s.db, s.pcs, s.broadcast, log, from, end);
  }

  lemma CursorOnly(world: World, db: Db, pcs: map<RequestId, Pc>, broadcast: set<Transaction>, cursor: Option<Cursor>)
    requires TablesOK(world, db, pcs, broadcast)
    ensures TablesOK(world, db.(cursor := cursor), pcs, broadcast)
  {
    var db' := db.(cursor := cursor);
    Coherence.AtSame(db, pcs, db');
    Solvency.AtSame(world, db, db');
    Capacity.Unmoved(db, db');
    Trails.Quiet(db, db');
    Prices.AtSame(world, db, db');
  }

  lemma AtIndex(world: World, s: State, s': State, first: nat, last: nat)
    requires Inv(world, s) && IndexStep(world, s, s', first, last)
    ensures Inv(world, s')
  {
    IndexNeverBlocks(world, s, first, last);
  }

  lemma ReopenKeeps(db: Db)
    ensures var db' := Reopen(db);
            && Prices.SameTerms(db, db')
            && Dispatch.Kept(db.queue, db'.queue) && Dispatch.NoneAssigned(db.queue, db'.queue)
  {
  }

  lemma AfterUnwind(world: World, db: Db, pcs: map<RequestId, Pc>, broadcast: set<Transaction>, rs: seq<RequestId>)
    requires TablesOK(world, db, pcs, broadcast) && Enumerates(rs, db.chain.settlements.Keys)
    ensures TablesOK(world, Rewind(db, rs), pcs, broadcast)
  {
    Trails.AtUnwind(db, rs);
    AfterReopen(world, db, pcs, broadcast);
    AfterNotices(world, Reopen(db), Rewind(db, rs), pcs, broadcast);
  }

  /** Everything but the trails, which the notices of a rewind complete. */
  ghost predicate ButTrails(world: World, db: Db, pcs: map<RequestId, Pc>, broadcast: set<Transaction>) {
    && Coherent(db, pcs) && OneWalletEach(db.accounts)
    && Solvency.ChainSessionsOK(world, db.chain) && Solvency.SessionsOK(world, db) && Solvency.Solvent(world, db)
    && Capacity.CapacityOK(db) && Nonces.NoncesOK(db.nonces) && Prices.PricesOK(world, db)
    && Dispatch.QueueOK(db.queue, broadcast)
  }

  lemma AfterReopen(world: World, db: Db, pcs: map<RequestId, Pc>, broadcast: set<Transaction>)
    requires TablesOK(world, db, pcs, broadcast)
    ensures ButTrails(world, Reopen(db), pcs, broadcast)
  {
    Coherence.AtUnwind(db, pcs);
    Solvency.AtUnwind(world, db, pcs);
    Capacity.AtUnwind(db, pcs);
    ReopenKeeps(db);
    Prices.AtSame(world, db, Reopen(db));
    Dispatch.AtKept(db.queue, Reopen(db).queue, broadcast);
  }

  lemma AfterNotices(world: World, db: Db, db': Db, pcs: map<RequestId, Pc>, broadcast: set<Transaction>)
    requires ButTrails(world, db, pcs, broadcast) && db' == db.(outbox := db'.outbox) && Trails.OutboxOK(db')
    ensures TablesOK(world, db', pcs, broadcast)
  {
    Coherence.AtSame(db, pcs, db');
    Solvency.AtSame(world, db, db');
    Capacity.Unmoved(db, db');
    Prices.AtSame(world, db, db');
  }

  lemma AtUnwind(world: World, s: State, s': State, rs: seq<RequestId>)
    requires Inv(world, s) && UnwindStep(s, s', rs)
    ensures Inv(world, s')
  {
    AfterUnwind(world, s.db, s.pcs, s.broadcast, rs);
  }

  // ------------------------------------------------------------------- every run

  lemma AtMine(world: World, s: State, s': State, chain: seq<Block>)
    requires Inv(world, s) && MineStep(world, s, s', chain)
    ensures Inv(world, s')
  {
  }

  lemma OpeningPreserves(world: World, s: State, s': State, step: Step)
    requires Inv(world, s) && Next(world, s, s', step) && (step.Serve? || step.Accept? || step.Stream? || step.Report?)
    ensures Inv(world, s')
  {
    match step
    case Serve(v, landing) => AtServe(world, s, s', v, landing);
    case Accept(r, landing) => AtAccept(world, s, s', r, landing);
    case Stream(r, landing) => AtStream(world, s, s', r, landing);
    case Report(r, usage, input, output, at) => AtReport(world, s, s', r, usage, input, output, at);
  }

  lemma FinishingPreserves(world: World, s: State, s': State, step: Step)
    requires Inv(world, s) && Next(world, s, s', step) && (step.Complete? || step.Draft? || step.Queue?)
    ensures Inv(world, s')
  {
    match step
    case Complete(r, landing) => AtComplete(world, s, s', r, landing);
    case Draft(r, domain, landing) => AtDraft(world, s, s', r, domain, landing);
    case Queue(r, landing) => AtQueue(world, s, s', r, landing);
  }

  lemma LeavingPreserves(world: World, s: State, s': State, step: Step)
    requires Inv(world, s) && Next(world, s, s', step) && (step.GiveUp? || step.Abort? || step.Crash?)
    ensures Inv(world, s')
  {
    match step
    case GiveUp(r, to) => AtGiveUp(world, s, s', r, to);
    case Abort(r, lost) => AtAbort(world, s, s', r, lost);
    case Crash(r) => AtCrash(world, s, s', r);
  }

  lemma RegistrationPreserves(world: World, s: State, s': State, step: Step)
    requires Inv(world, s) && Next(world, s, s', step) && (step.Enrol? || step.Register? || step.Revoke?)
    ensures Inv(world, s')
  {
    match step
    case Enrol(wallet, account) => AtEnrol(world, s, s', wallet, account);
    case Register(m, row) => AtRegister(world, s, s', m, row);
    case Revoke(m) => AtRevoke(world, s, s', m);
  }

  lemma BrokerPreserves(world: World, s: State, s': State, step: Step)
    requires Inv(world, s) && Next(world, s, s', step) && (step.Submit? || step.Broadcast? || step.Beat?)
    ensures Inv(world, s')
  {
    match step
    case Submit(rs, nonce) => AtSubmit(world, s, s', rs, nonce);
    case Broadcast(t) => AtBroadcast(world, s, s', t);
    case Beat(m, beat) => AtBeat(world, s, s', m, beat);
  }

  lemma ChainPreserves(world: World, s: State, s': State, step: Step)
    requires Inv(world, s) && Next(world, s, s', step) && (step.Mine? || step.Index? || step.Unwind?)
    ensures Inv(world, s')
  {
    match step
    case Mine(chain) => AtMine(world, s, s', chain);
    case Index(first, last) => AtIndex(world, s, s', first, last);
    case Unwind(rs) => AtUnwind(world, s, s', rs);
  }

  /** Every step of every activity keeps the invariant. */
  lemma Preserved(world: World, s: State, s': State, step: Step)
    requires Inv(world, s) && Next(world, s, s', step)
    ensures Inv(world, s')
  {
    if step.Enrol? || step.Register? || step.Revoke? {
      RegistrationPreserves(world, s, s', step);
    } else if step.Submit? || step.Broadcast? || step.Beat? {
      BrokerPreserves(world, s, s', step);
    } else if step.Mine? || step.Index? || step.Unwind? {
      ChainPreserves(world, s, s', step);
    } else if step.Complete? || step.Draft? || step.Queue? {
      FinishingPreserves(world, s, s', step);
    } else if step.GiveUp? || step.Abort? || step.Crash? {
      LeavingPreserves(world, s, s', step);
    } else {
      OpeningPreserves(world, s, s', step);
    }
  }

  lemma {:induction false} Reached(world: World, states: seq<State>, steps: seq<Step>, k: nat)
    requires Run(world, states, steps) && k < |states|
    ensures Inv(world, states[k])
  {
    if k == 0 {
      AtInit(world, states[0]);
    } else {
      Reached(world, states, steps, k - 1);
      Preserved(world, states[k - 1], states[k], steps[k - 1]);
    }
  }

  lemma CoherentAt(world: World, states: seq<State>, steps: seq<Step>, k: nat)
    requires Run(world, states, steps) && k < |states|
    ensures Coherent(states[k].db, states[k].pcs)
  {
    Reached(world, states, steps, k);
  }

  /** Some run of the protocol ends in s. */
  ghost predicate Reachable(world: World, s: State) {
    exists states, steps :: EndsIn(world, states, steps, s)
  }

  ghost predicate EndsIn(world: World, states: seq<State>, steps: seq<Step>, s: State) {
    Run(world, states, steps) && states[|steps|] == s
  }

  lemma ReachableIsSound(world: World, s: State)
    requires Reachable(world, s)
    ensures Inv(world, s)
  {
    var states, steps :| EndsIn(world, states, steps, s);
    Reached(world, states, steps, |steps|);
  }
}
