/** The rows the broker keeps: its own tables, and the projection of the contract's
    log that the indexer maintains in the chain_* tables. */
module Tables {
  import opened Basics
  import opened Charging

  newtype RequestId = int
  newtype SessionId = int
  newtype AccountId = int
  newtype MachineId = int
  newtype OfferId = int
  newtype Address = int
  newtype Hash = int

  // ------------------------------------------------------------- contract events

  datatype OfferKey = OfferKey(provider: Address, offer: Hash, version: nat)
  datatype OfferTerms = OfferTerms(model: Hash, capability: Hash, rates: Rates)

  datatype Event =
    | Deposited(customer: Address, amount: nat)
    | WithdrawalRequested(account: Address, amount: nat)
    | Claimed(account: Address, amount: nat)
    | BondDeposited(provider: Address, amount: nat, totalBond: nat)
    | ProviderSignerSet(provider: Address, signer: Address, allowed: bool)
    | BondExitRequested(provider: Address, availableAt: nat)
    | BondExitFinalized(provider: Address, amount: nat)
    | OfferPublished(key: OfferKey, terms: OfferTerms)
    | SessionOpened(session: SessionId, customer: Address, allowance: nat)
    | SessionCloseRequested(session: SessionId, availableAt: nat)
    | SessionClosed(session: SessionId, returned: nat)
    | ReceiptSettled(request: RequestId, session: SessionId, provider: Address, providerAmount: nat, feeAmount: nat)
    | ProviderSlashed(provider: Address, request: RequestId, amount: nat)
    | FeeNotice

  datatype LogId = LogId(transaction: Hash, index: nat)
  datatype Log = Log(id: LogId, event: Event)
  /** A block is told apart from a competing one by its seal as well as its logs. */
  datatype Block = Block(seal: nat, logs: seq<Log>)

  function Logs(blocks: seq<Block>): (logs: seq<Log>) {
    if blocks == [] then [] else Logs(blocks[..|blocks| - 1]) + blocks[|blocks| - 1].logs
  }

  // ---------------------------------------------------------------- chain_* rows

  datatype ChainAccount = ChainAccount(balance: int, bond: int, claimable: int, exitAt: nat)
  datatype ChainSession = ChainSession(customer: Address, allowance: nat, spent: nat, closeAt: nat, finalized: bool)
  datatype Settlement = Settlement(session: SessionId, provider: Address, providerAmount: nat, feeAmount: nat) {
    function Charge(): nat { providerAmount + feeAmount }
  }
  datatype SlashKey = SlashKey(request: RequestId, provider: Address, transaction: Hash)

  datatype Projection = Projection(
    accounts: map<Address, ChainAccount>,
    sessions: map<SessionId, ChainSession>,
    offers: map<OfferKey, OfferTerms>,
    signers: map<(Address, Address), bool>,
    settlements: map<RequestId, Settlement>,
    slashes: map<SlashKey, nat>,
    logs: set<LogId>)

  const EMPTY_PROJECTION := Projection(map[], map[], map[], map[], map[], map[], {})

  const NO_ACCOUNT := ChainAccount(0, 0, 0, 0)

  function AccountOf(accounts: map<Address, ChainAccount>, a: Address): (row: ChainAccount) {
    if a in accounts then accounts[a] else NO_ACCOUNT
  }

  // ---------------------------------------------------------------- broker rows

  datatype RequestState =
    | Created | Reserved | Offered | Accepted | Streaming | Completed
    | Signed | Submitted | Settled | Rejected | Expired | Cancelled | Failed

  /** The edges of a request's life that the broker's own code may take. */
  predicate Transition(from: RequestState, to: RequestState) {
    match from
    case Created => to.Reserved? || to.Cancelled? || to.Failed?
    case Reserved => to.Offered? || to.Cancelled? || to.Expired? || to.Failed?
    case Offered => to.Accepted? || to.Rejected? || to.Expired? || to.Cancelled?
    case Accepted => to.Streaming? || to.Cancelled? || to.Failed?
    case Streaming => to.Completed? || to.Cancelled? || to.Failed?
    case Completed => to.Signed? || to.Failed?
    case Signed => to == Submitted
    case Submitted => to == Settled
    case _ => false
  }

  /** A request in one of these states occupies its provider's slot. */
  predicate Executing(state: RequestState) {
    state.Reserved? || state.Offered? || state.Accepted? || state.Streaming?
  }

  datatype SessionStatus = Open | Closing | Closed
  datatype Session = Session(account: AccountId, status: SessionStatus, balance: nat)
  datatype OfferHashes = OfferHashes(offer: Hash, model: Hash, capability: Hash)
  datatype Request = Request(
    session: SessionId, machine: MachineId, offer: OfferId, version: nat, state: RequestState,
    maximumSpend: nat, limits: Usage, hashes: OfferHashes)
  datatype Hold = Hold(session: SessionId, amount: nat, released: bool)
  datatype RouteKey = RouteKey(machine: MachineId, offer: OfferId)
  datatype Route = Route(
    version: nat, bonded: bool, healthy: bool, capacity: nat, rates: Rates,
    hashes: Option<OfferHashes>, evidence: Hash)
  datatype Machine = Machine(wallet: Address, signer: Address, revoked: bool)
  datatype Proposal = Proposal(
    session: SessionId, machine: MachineId, offer: OfferId, version: nat, usage: Usage,
    inputHash: Hash, outputHash: Hash, completedAt: nat)
  datatype Nonce = Nonce(provider: Address, number: nat)
  datatype Receipt = Receipt(
    request: RequestId, session: SessionId, customer: Address, provider: Address, signer: Address,
    version: nat, hashes: OfferHashes, usage: Usage, maximum: nat, total: nat,
    feeBasisPoints: nat, feeVersion: nat, completedAt: nat, inputHash: Hash, outputHash: Hash, nonce: nat)
  datatype QueueState = Cosigned | Broadcasting | QueueSettled
  /** A prepared transaction: the account nonce it was signed with and its receipts. */
  datatype Transaction = Transaction(nonce: nat, receipts: seq<Receipt>)
  datatype QueueRow = QueueRow(receipt: Receipt, state: QueueState, transaction: Option<Transaction>)
  datatype Notice = Notice(request: RequestId, from: RequestState, to: RequestState)
  /** A block hash commits to the whole chain below it, so the chain prefix stands for it. */
  datatype Cursor = Cursor(next: nat, last: nat, hash: seq<Block>)

  datatype Db = Db(
    accounts: map<Address, AccountId>,
    machines: map<MachineId, Machine>,
    sessions: map<SessionId, Session>,
    requests: map<RequestId, Request>,
    holds: map<RequestId, Hold>,
    routes: map<RouteKey, Route>,
    proposals: map<RequestId, Proposal>,
    nonces: map<RequestId, Nonce>,
    queue: map<RequestId, QueueRow>,
    outbox: seq<Notice>,
    chain: Projection,
    cursor: Option<Cursor>)

  datatype Error =
    | InsufficientBalance | IneligibleRoute | UsageLimitExceeded | InvalidTransition | NoRows
    | Duplicate | InvalidReceipt | MaximumExceeded | ChargeMismatch

  /** A transaction either leaves new tables behind or, rolled back, nothing at all. */
  datatype TxResult<+T> = Commit(db: Db, value: T) | Rollback(error: Error)
}
