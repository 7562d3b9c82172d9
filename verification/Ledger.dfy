/** The broker's transactions as functions from tables to tables. Every SQL
    transaction is one atomic step: it commits whole or changes nothing. */
module Ledger {
  import opened Basics
  import opened Charging
  import opened Tables
  import opened Projecting

  // ------------------------------------------------------------------ aggregates

  function Held(holds: map<RequestId, Hold>, s: SessionId, r: RequestId): (amount: nat) {
    if r in holds && holds[r].session == s && !holds[r].released then holds[r].amount else 0
  }

  /** SELECT sum(amount) of the unreleased holds of a session. */
  ghost function HeldSum(holds: map<RequestId, Hold>, s: SessionId): (sum: nat) {
    Total(holds.Keys, r => Held(holds, s, r))
  }

  function Spent(settlements: map<RequestId, Settlement>, s: SessionId, r: RequestId): (amount: nat) {
    if r in settlements && settlements[r].session == s then settlements[r].Charge() else 0
  }

  /** The settlements of a session that the projection currently holds. */
  ghost function SettledSum(settlements: map<RequestId, Settlement>, s: SessionId): (sum: nat) {
    Total(settlements.Keys, r => Spent(settlements, s, r))
  }

  predicate Occupies(db: Db, key: RouteKey, r: RequestId) {
    && r in db.requests && r in db.holds && !db.holds[r].released
    && db.requests[r].machine == key.machine && db.requests[r].offer == key.offer
    && Executing(db.requests[r].state)
  }

  /** The requests executing on a provider's offer. */
  ghost function Occupants(db: Db, key: RouteKey): (rs: set<RequestId>) {
    set r | r in db.requests && Occupies(db, key, r)
  }

  /** COALESCE(max(nonce), 0) over a provider's receipts. */
  ghost function Highest(rows: set<RequestId>, nonces: map<RequestId, Nonce>, provider: Address): (n: nat)
    requires rows <= nonces.Keys
    ensures forall r <- rows :: nonces[r].provider == provider ==> nonces[r].number <= n
    ensures n == 0 || exists r :: r in rows && nonces[r].provider == provider && nonces[r].number == n
  {
    if rows == {} then 0 else
    var r := Pick(rows);
    var rest := Highest(rows - {r}, nonces, provider);
    if nonces[r].provider == provider && nonces[r].number > rest then nonces[r].number else rest
  }

  function Cost(rates: Rates, usage: Usage): (total: Option<nat>) {
    var total := ExactTotal(rates, usage);
    if total < TWO_64 then Some(total) else None
  }

  // ------------------------------------------------------------- shared statements

  function SetState(db: Db, r: RequestId, to: RequestState): (after: Db)
    requires r in db.requests
  {
    db.(requests := db.requests[r := db.requests[r].(state := to)],
        outbox := db.outbox + [Notice(r, db.requests[r].state, to)])
  }

  /** UPDATE ... WHERE state = from, with a notice only when a row changed. */
  function TransitionSettlement(db: Db, r: RequestId, from: RequestState, to: RequestState): (after: Db) {
    if r in db.requests && db.requests[r].state == from then SetState(db, r, to) else db
  }

  function FreeSlot(routes: map<RouteKey, Route>, key: RouteKey): (after: map<RouteKey, Route>) {
    if key in routes then routes[key := routes[key].(capacity := routes[key].capacity + 1)] else routes
  }

  // -------------------------------------------------------------------- inference

  datatype Reservation = Reservation(
    request: RequestId, session: SessionId, account: AccountId, machine: MachineId, offer: OfferId,
    version: nat, maximumSpend: nat, limits: Usage)

  function Key(v: Reservation): RouteKey { RouteKey(v.machine, v.offer) }

  predicate Routable(db: Db, v: Reservation) {
    && Key(v) in db.routes
    && var route := db.routes[Key(v)];
       route.version == v.version && route.bonded && route.healthy && route.capacity > 0
  }

  /** The tables after a successful reservation of `worst` wei. */
  function Reserve(db: Db, v: Reservation, worst: nat, hashes: OfferHashes): (after: Db)
    requires Routable(db, v)
  {
    var route := db.routes[Key(v)];
    db.(routes := db.routes[Key(v) := route.(capacity := route.capacity - 1)],
        requests := db.requests[v.request :=
          Request(v.session, v.machine, v.offer, v.version, Offered, worst, v.limits, hashes)],
        holds := db.holds[v.request := Hold(v.session, worst, false)],
        outbox := db.outbox + [Notice(v.request, Created, Reserved), Notice(v.request, Reserved, Offered)])
  }

  ghost function ReserveInference(db: Db, v: Reservation): (r: TxResult<()>) {
    if v.limits.input == 0 || v.limits.output == 0 || v.limits.compute == 0 then Rollback(IneligibleRoute) else
    if v.session !in db.sessions then Rollback(NoRows) else
    var session := db.sessions[v.session];
    if session.account != v.account || session.status != Open then Rollback(InsufficientBalance) else
    var locked := HeldSum(db.holds, v.session);
    if locked > session.balance then Rollback(InsufficientBalance) else
    if !Routable(db, v) then Rollback(IneligibleRoute) else
    var route := db.routes[Key(v)];
    var worst := Cost(route.rates, v.limits);
    if worst.None? || worst.value == 0 || worst.value > v.maximumSpend then Rollback(IneligibleRoute) else
    if worst.value > session.balance - locked then Rollback(InsufficientBalance) else
    if route.hashes.None? then Rollback(IneligibleRoute) else
    if v.request in db.requests || v.request in db.holds then Rollback(Duplicate) else
    Commit(Reserve(db, v, worst.value, route.hashes.value), ())
  }

  function TransitionRequest(db: Db, r: RequestId, to: RequestState): (result: TxResult<()>) {
    if r !in db.requests then Rollback(NoRows) else
    if !Transition(db.requests[r].state, to) then Rollback(InvalidTransition) else
    Commit(SetState(db, r, to), ())
  }

  function CompleteInference(db: Db, r: RequestId, p: Proposal): (result: TxResult<()>) {
    if !(r in db.requests && db.requests[r].session == p.session && db.requests[r].state == Streaming
         && Within(p.usage, db.requests[r].limits)) then
      if r in db.proposals then Commit(db, ()) else
      if r in db.requests && db.requests[r].state == Streaming && !Within(p.usage, db.requests[r].limits)
      then Rollback(UsageLimitExceeded) else Rollback(InvalidTransition)
    else if r in db.proposals then Rollback(Duplicate) else
    var key := RouteKey(p.machine, p.offer);
    Commit(SetState(db, r, Completed).(
             proposals := db.proposals[r := p],
             routes := FreeSlot(db.routes, key)), ())
  }

  function AbortInference(db: Db, r: RequestId, to: RequestState): (result: TxResult<()>) {
    if to != Failed && to != Cancelled then Rollback(InvalidTransition) else
    if r !in db.requests then Rollback(NoRows) else
    var request := db.requests[r];
    if request.state == to then Commit(db, ()) else
    if !Transition(request.state, to) then Rollback(InvalidTransition) else
    Commit(Ended(db, r, to), ())
  }

  /** The tables after an abort: the hold is released, and a slot still occupied is freed. */
  function Ended(db: Db, r: RequestId, to: RequestState): (after: Db)
    requires r in db.requests
  {
    var request, held := db.requests[r], r in db.holds && !db.holds[r].released;
    db.(requests := db.requests[r := request.(state := to)],
        outbox := db.outbox + [Notice(r, request.state, to)],
        holds := if held then db.holds[r := db.holds[r].(released := true)] else db.holds,
        routes := if held && Executing(request.state)
                  then FreeSlot(db.routes, RouteKey(request.machine, request.offer)) else db.routes)
  }

  // --------------------------------------------------------------------- receipts

  datatype Domain = Domain(valid: bool, signer: Address, feeBasisPoints: nat, feeVersion: nat)

  const MAXIMUM_FEE_BASIS_POINTS: nat := 1_500

  predicate ValidReceipt(receipt: Receipt) {
    && receipt.request != 0 && receipt.session != 0 && receipt.customer != 0 && receipt.provider != 0
    && receipt.signer != 0 && receipt.hashes.offer != 0 && receipt.hashes.model != 0 && receipt.hashes.capability != 0
    && receipt.inputHash != 0 && receipt.outputHash != 0
    && receipt.version != 0 && receipt.feeVersion != 0 && receipt.completedAt != 0 && receipt.nonce != 0
    && receipt.feeBasisPoints <= MAXIMUM_FEE_BASIS_POINTS
    && receipt.total <= receipt.maximum
  }

  /** The wallet behind an account, if some wallet maps to it. */
  ghost predicate WalletOf(accounts: map<Address, AccountId>, account: AccountId, wallet: Address) {
    wallet in accounts && accounts[wallet] == account
  }

  /** Each account belongs to one wallet: accounts.id and wallet_address are both keys. */
  ghost predicate OneWalletEach(accounts: map<Address, AccountId>) {
    forall a, b :: a in accounts && b in accounts && accounts[a] == accounts[b] ==> a == b
  }

  /** The joins that PrepareReceipt starts from find a row. */
  ghost predicate Preparable(db: Db, r: RequestId) {
    && r in db.proposals && r in db.requests && db.requests[r].state == Completed
    && db.proposals[r].session in db.sessions
    && (exists wallet :: WalletOf(db.accounts, db.sessions[db.proposals[r].session].account, wallet))
    && db.proposals[r].machine in db.machines && !db.machines[db.proposals[r].machine].revoked
  }

  ghost function WalletFor(accounts: map<Address, AccountId>, account: AccountId): (wallet: Address)
    requires exists wallet :: WalletOf(accounts, account, wallet)
    ensures WalletOf(accounts, account, wallet)
  {
    var wallet :| WalletOf(accounts, account, wallet);
    wallet
  }

  function OfferOf(db: Db, r: RequestId): (key: OfferKey)
    requires r in db.proposals && r in db.requests && db.proposals[r].machine in db.machines
  {
    OfferKey(db.machines[db.proposals[r].machine].wallet, db.requests[r].hashes.offer, db.proposals[r].version)
  }

  /** The published rates of the offer the request was reserved on. */
  function PublishedRates(db: Db, r: RequestId): (rates: Option<Rates>)
    requires r in db.proposals && r in db.requests && db.proposals[r].machine in db.machines
  {
    var key, hashes := OfferOf(db, r), db.requests[r].hashes;
    if key in db.chain.offers && db.chain.offers[key].model == hashes.model
      && db.chain.offers[key].capability == hashes.capability
    then Some(db.chain.offers[key].rates) else None
  }

  ghost function NonceOf(db: Db, r: RequestId, provider: Address): (nonce: Nonce) {
    if r in db.nonces then db.nonces[r]
    else Nonce(provider, Highest(db.nonces.Keys, db.nonces, provider) + 1)
  }

  ghost function ReceiptOf(db: Db, r: RequestId, domain: Domain, total: nat): (receipt: Receipt)
    requires Preparable(db, r)
  {
    var p, request := db.proposals[r], db.requests[r];
    var provider := db.machines[p.machine].wallet;
    Receipt(r, p.session, WalletFor(db.accounts, db.sessions[p.session].account), provider, domain.signer, p.version,
      request.hashes, p.usage,
            request.maximumSpend, total, domain.feeBasisPoints, domain.feeVersion, p.completedAt,
            p.inputHash, p.outputHash, NonceOf(db, r, provider).number)
  }

  /** The hold shrinks to the charge; a free completion holds nothing. */
  ghost function Prepare(db: Db, r: RequestId, total: nat): (after: Db)
    requires Preparable(db, r) && r in db.holds
  {
    db.(holds := db.holds[r := db.holds[r].(amount := total, released := total == 0)],
        nonces := db.nonces[r := NonceOf(db, r, db.machines[db.proposals[r].machine].wallet)])
  }

  ghost function PrepareReceipt(db: Db, r: RequestId, domain: Domain): (result: TxResult<Receipt>) {
    if !domain.valid || domain.feeVersion == 0 || domain.feeBasisPoints > MAXIMUM_FEE_BASIS_POINTS
      then Rollback(InvalidReceipt) else
    if !Preparable(db, r) then Rollback(NoRows) else
    var rates := PublishedRates(db, r);
    if rates.None? then Rollback(NoRows) else
    var total := Cost(rates.value, db.proposals[r].usage);
    if total.None? then Rollback(InvalidReceipt) else
    if total.value > db.requests[r].maximumSpend then Rollback(Error.MaximumExceeded) else
    if r !in db.holds || db.holds[r].amount < total.value then Rollback(Error.MaximumExceeded) else
    var receipt := ReceiptOf(db, r, domain, total.value);
    if !ValidReceipt(receipt) then Rollback(InvalidReceipt) else
    Commit(Prepare(db, r, total.value), receipt)
  }

  // ------------------------------------------------------------- settlement queue

  /** Queue a co-signed receipt; a request already queued is left as it is. */
  function Enqueue(db: Db, receipt: Receipt): (after: Db) {
    if receipt.request in db.queue then db else
    TransitionSettlement(
      db.(queue := db.queue[receipt.request := QueueRow(receipt, Cosigned, None)]),
      receipt.request, Completed, Signed)
  }

  function SubmitOne(db: Db, r: RequestId, transaction: Transaction): (after: Db)
    requires r in db.queue
  {
    TransitionSettlement(
      db.(queue := db.queue[r := db.queue[r].(state := Broadcasting, transaction := Some(transaction))]),
      r, Signed, Submitted)
  }

  /** The commit half of SettleBatch: every chosen row gets the same transaction. */
  function SubmitAll(db: Db, rs: seq<RequestId>, transaction: Transaction): (after: Db)
    requires forall i :: 0 <= i < |rs| ==> rs[i] in db.queue
    ensures after.queue.Keys == db.queue.Keys
  {
    if rs == [] then db else
    SubmitOne(SubmitAll(db, rs[..|rs| - 1], transaction), rs[|rs| - 1], transaction)
  }

  function BatchReceipts(db: Db, rs: seq<RequestId>): (receipts: seq<Receipt>)
    requires forall i :: 0 <= i < |rs| ==> rs[i] in db.queue
  {
    seq(|rs|, i requires 0 <= i < |rs| => db.queue[rs[i]].receipt)
  }

  // -------------------------------------------------------------------- heartbeats

  datatype Advert = Advert(
    offer: OfferId, version: nat, hashes: Option<OfferHashes>, genuine: bool,
    model: Hash, kinded: bool, evidence: Hash, computeOnly: bool)  // kinded: a kind of evidence is named
  datatype Heartbeat = Heartbeat(valid: bool, available: nat, adverts: seq<Advert>)

  /** Evidence without a kind or without a digest is the provider's word for the model. */
  function EvidenceOf(advert: Advert): (digest: Hash) {
    if !advert.kinded || advert.evidence == 0 then advert.model else advert.evidence
  }

  predicate EvidenceEligible(db: Db, key: RouteKey, advert: Advert) {
    var digest := if key in db.routes then db.routes[key].evidence else 0;
    var version := if key in db.routes then db.routes[key].version else 0;
    digest == 0 || digest == advert.model || digest == advert.evidence || advert.version > version
  }

  /** The published, bonded rates an advert may be routed on. */
  function AdvertRates(db: Db, wallet: Address, advert: Advert): (rates: Option<Rates>) {
    if advert.hashes.None? then None else
    var key := OfferKey(wallet, advert.hashes.value.offer, advert.version);
    if key !in db.chain.offers || wallet !in db.chain.accounts then None else
    var terms, account := db.chain.offers[key], db.chain.accounts[wallet];
    if terms.model != advert.hashes.value.model || terms.capability != advert.hashes.value.capability then None else
    if account.bond == 0 || account.exitAt != 0 then None else
    if terms.rates.input >= TWO_256 || terms.rates.output >= TWO_256 || terms.rates.compute >= TWO_256 then None else
    if advert.computeOnly && (terms.rates.input != 0 || terms.rates.output != 0) then None else
    Some(terms.rates)
  }

  function Drain(routes: map<RouteKey, Route>, m: MachineId): (after: map<RouteKey, Route>) {
    map key | key in routes :: if key.machine == m then routes[key].(capacity := 0) else routes[key]
  }

  /** One advertised offer: skipped, or routed with one slot when nothing runs on it. */
  ghost function RouteAdvert(db: Db, m: MachineId, available: nat, advert: Advert): (after: Db)
    requires m in db.machines
  {
    var key := RouteKey(m, advert.offer);
    var rates := AdvertRates(db, db.machines[m].wallet, advert);
    if advert.hashes.None? || !EvidenceEligible(db, key, advert) || rates.None? then db else
    var capacity := if available > 0 && Occupants(db, key) == {} then 1 else 0;
    db.(routes := db.routes[key :=
      Route(advert.version, true, true, capacity, rates.value, advert.hashes, EvidenceOf(advert))])
  }

  ghost function RouteAll(db: Db, m: MachineId, available: nat, adverts: seq<Advert>): (after: Option<Db>)
    requires m in db.machines
    ensures after.Some? ==> after.value.machines == db.machines
  {
    if adverts == [] then Some(db) else
    var before := RouteAll(db, m, available, adverts[..|adverts| - 1]);
    var advert := adverts[|adverts| - 1];
    if before.None? then None else
    if advert.hashes.Some? && !advert.genuine then None else
    Some(RouteAdvert(before.value, m, available, advert))
  }

  ghost function ReconcileCapacity(db: Db, m: MachineId, beat: Heartbeat): (result: TxResult<()>) {
    if !beat.valid then Rollback(IneligibleRoute) else
    if m !in db.machines || db.machines[m].revoked then Rollback(NoRows) else
    var machine := db.machines[m];
    if machine.wallet != machine.signer
       && !((machine.wallet, machine.signer) in db.chain.signers && db.chain.signers[(machine.wallet, machine.signer)])
    then Rollback(IneligibleRoute) else
    var after := RouteAll(db.(routes := Drain(db.routes, m)), m, beat.available, beat.adverts);
    if after.None? then Rollback(IneligibleRoute) else Commit(after.value, ())
  }

  // ---------------------------------------------------------------------- indexing

  /** What a log entry does to the sessions table, besides the projection. */
  function SessionEffect(db: Db, event: Event): (sessions: map<SessionId, Session>) {
    match event
    case SessionOpened(s, customer, allowance) =>
      if customer in db.accounts then db.sessions[s := Session(db.accounts[customer], Open, allowance)] else db.sessions
    case SessionCloseRequested(s, _) =>
      if s in db.sessions && db.sessions[s].status == Open
      then db.sessions[s := db.sessions[s].(status := Closing)] else db.sessions
    case SessionClosed(s, _) =>
      if s in db.sessions then db.sessions[s := db.sessions[s].(status := Closed, balance := 0)] else db.sessions
    case ReceiptSettled(_, s, _, providerAmount, feeAmount) =>
      if s in db.sessions then db.sessions[s := db.sessions[s].(balance := Debit(db.sessions[s].balance,
        providerAmount + feeAmount))]
      else db.sessions
    case _ => db.sessions
  }

  /** GREATEST(0, balance - charge). */
  function Debit(balance: nat, charge: nat): (after: nat) {
    if charge <= balance then balance - charge else 0
  }

  /** The broker's own rows of a request whose settlement has been seen on chain. */
  function MarkSettled(db: Db, r: RequestId): (after: Db) {
    TransitionSettlement(
      db.(queue := if r in db.queue && db.queue[r].state == Broadcasting
                   then db.queue[r := db.queue[r].(state := QueueSettled)] else db.queue,
          holds := if r in db.holds then db.holds[r := db.holds[r].(released := true)] else db.holds),
      r, Submitted, Settled)
  }

  function ApplyLog(db: Db, feeRecipient: Address, log: Log): (result: TxResult<()>) {
    if log.event.ReceiptSettled? then
      var r := log.event.request;
      if r in db.holds && db.holds[r].amount != log.event.providerAmount + log.event.feeAmount
        then Rollback(ChargeMismatch) else
      if r in db.chain.settlements then Commit(db, ()) else
      var chain := Project(db.chain, feeRecipient, log);
      if chain.None? then Rollback(NoRows) else
      Commit(MarkSettled(db.(chain := chain.value, sessions := SessionEffect(db, log.event)), r), ())
    else
      var chain := Project(db.chain, feeRecipient, log);
      if chain.None? then Rollback(NoRows) else
      Commit(db.(chain := chain.value, sessions := SessionEffect(db, log.event)), ())
  }

  function IndexLog(db: Db, feeRecipient: Address, log: Log): (result: TxResult<()>) {
    if log.id in db.chain.logs then Commit(db, ()) else
    ApplyLog(db.(chain := db.chain.(logs := db.chain.logs + {log.id})), feeRecipient, log)
  }

  type Entry = (Db, Log) -> TxResult<()>

  function Entries(feeRecipient: Address): (step: Entry) { (db, log) => IndexLog(db, feeRecipient, log) }

  /** Entry after entry; one failure undoes them all. */
  function Fold(step: Entry, db: Db, logs: seq<Log>): (result: TxResult<()>) {
    if logs == [] then Commit(db, ()) else
    var before := Fold(step, db, logs[..|logs| - 1]);
    if before.Rollback? then before else step(before.db, logs[|logs| - 1])
  }

  function IndexLogs(db: Db, feeRecipient: Address, logs: seq<Log>): (result: TxResult<()>) {
    Fold(Entries(feeRecipient), db, logs)
  }

  /** Each of the first `end` entries succeeds and takes what holds before it to what
      holds after it. */
  ghost predicate Carries(step: Entry, log: seq<Log>, holds: (nat, Db) -> bool, end: nat)
    requires end <= |log|
  {
    end > 0 ==>
      var n: nat := end - 1;
      && Carries(step, log, holds, n)
      && forall d :: holds(n, d) ==> step(d, log[n]).Commit? && holds(end, step(d, log[n]).db)
  }

  lemma {:induction false} StretchCarries(step: Entry, db: Db, log: seq<Log>, from: nat, end: nat,
                                          holds: (nat, Db) -> bool)
    requires from <= end <= |log| && Carries(step, log, holds, end) && holds(from, db)
    ensures Fold(step, db, log[from..end]).Commit? && holds(end, Fold(step, db, log[from..end]).db)
    decreases end
  {
    if from < end {
      StretchCarries(step, db, log, from, end - 1, holds);
      FoldStretch(step, db, log, from, end - 1);
    }
  }

  lemma FoldStretch(step: Entry, db: Db, log: seq<Log>, from: nat, n: nat)
    requires from <= n < |log|
    ensures Fold(step, db, log[from..n + 1])
         == var before := Fold(step, db, log[from..n]); if before.Rollback? then before else step(before.db, log[n])
  {
    var batch := log[from..n + 1];
    assert batch[..n - from] == log[from..n] && batch[n - from] == log[n] && batch[..n - from + 1] == batch;
    FoldMore(step, db, batch, n - from);
  }

  /** If every entry that succeeds keeps P, so do all of them. */
  lemma {:induction false} FoldRelates(step: Entry, db: Db, logs: seq<Log>, P: (nat, Db) -> bool)
    requires P(0, db) && Fold(step, db, logs).Commit?
    requires forall n, d :: 0 <= n < |logs| && P(n, d) && step(d, logs[n]).Commit? ==> P(n + 1, step(d, logs[n]).db)
    ensures P(|logs|, Fold(step, db, logs).db)
    decreases |logs|
  {
    if logs != [] {
      var n := |logs| - 1;
      forall k, d | 0 <= k < n && P(k, d) && step(d, logs[..n][k]).Commit? ensures P(k + 1, step(d, logs[..n][k]).db) {
        assert logs[..n][k] == logs[k];
      }
      FoldRelates(step, db, logs[..n], P);
    }
  }

  lemma FoldMore(step: Entry, db: Db, logs: seq<Log>, i: nat)
    requires i < |logs|
    ensures Fold(step, db, logs[..i + 1])
         == var before := Fold(step, db, logs[..i]); if before.Rollback? then before else step(before.db, logs[i])
  {
    assert logs[..i + 1][..i] == logs[..i];
  }

  /** One batch: the logs of blocks from..to, then the cursor. */
  function IndexRange(db: Db, feeRecipient: Address, chain: seq<Block>, from: nat, to: nat): (result: TxResult<()>)
    requires from <= to < |chain|
  {
    var logged := IndexLogs(db, feeRecipient, Logs(chain[from..to + 1]));
    if logged.Rollback? then logged
    else Commit(logged.db.(cursor := Some(Cursor(to + 1, to, chain[..to + 1]))), ())
  }

  /** Forget the projection; put the requests it had settled back in flight. */
  function Reopen(db: Db): (after: Db) {
    var settled := db.chain.settlements;
    db.(holds := map r | r in db.holds ::
          if r in settled && db.holds[r].amount > 0 then db.holds[r].(released := false) else db.holds[r],
        queue := map r | r in db.queue ::
          if r in settled && db.queue[r].state == QueueSettled then db.queue[r].(state := Broadcasting)
            else db.queue[r],
        requests := map r | r in db.requests ::
          if r in settled && db.requests[r].state == Settled then db.requests[r].(state := Submitted)
            else db.requests[r],
        chain := EMPTY_PROJECTION,
        cursor := None)
  }

  function Reverted(db: Db, rs: seq<RequestId>): (notices: seq<Notice>) {
    if rs == [] then [] else
    var r := rs[|rs| - 1];
    Reverted(db, rs[..|rs| - 1])
    + (if r in db.requests && db.requests[r].state == Settled then [Notice(r, Settled, Submitted)] else [])
  }

  /** `rs` is the order in which the settlement rows were read. */
  function Rewind(db: Db, rs: seq<RequestId>): (after: Db) {
    Reopen(db).(outbox := db.outbox + Reverted(db, rs))
  }

  /** Each settled request, once, in some order. */
  ghost predicate Enumerates(rs: seq<RequestId>, rows: set<RequestId>) {
    && (forall r :: r in rs <==> r in rows)
    && (forall i, j :: 0 <= i < j < |rs| ==> rs[i] != rs[j])
  }

  /** What marking a request settled may change. */
  lemma MarkKeeps(db: Db, r: RequestId)
    ensures var db' := MarkSettled(db, r);
            && db' == db.(requests := db'.requests, outbox := db'.outbox, queue := db'.queue, holds := db'.holds)
            && (db'.requests == db.requests || (r in db.requests && db.requests[r].state == Submitted
                  && db'.requests == db.requests[r := db.requests[r].(state := Settled)]))
            && (db'.queue == db.queue || (r in db.queue
              && db'.queue == db.queue[r := db.queue[r].(state := QueueSettled)]))
            && (db'.holds == db.holds || (r in db.holds && db'.holds == db.holds[r := db.holds[r].(released := true)]))
  {
  }

  /** A settlement not seen before: projected, debited, marked. */
  lemma SettlementApplies(db: Db, feeRecipient: Address, log: Log) returns (noted: Db)
    requires log.event.ReceiptSettled? && log.event.request !in db.chain.settlements
    requires ApplyLog(db, feeRecipient, log).Commit?
    ensures Project(db.chain, feeRecipient, log).Some?
    ensures noted == db.(chain := Project(db.chain, feeRecipient, log).value, sessions := SessionEffect(db, log.event))
    ensures ApplyLog(db, feeRecipient, log).db == MarkSettled(noted, log.event.request)
  {
    noted := db.(chain := Project(db.chain, feeRecipient, log).value, sessions := SessionEffect(db, log.event));
  }

  lemma EntryMore(db: Db, feeRecipient: Address, logs: seq<Log>, i: nat)
    requires i < |logs|
    ensures IndexLogs(db, feeRecipient, logs[..i + 1])
         == var before := IndexLogs(db, feeRecipient, logs[..i]);
            if before.Rollback? then before else IndexLog(before.db, feeRecipient, logs[i])
  {
    FoldMore(Entries(feeRecipient), db, logs, i);
  }
}
