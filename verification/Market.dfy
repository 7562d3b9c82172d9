/** The market contract: its storage, its calls, and the events they emit. A call either
    reverts, leaving nothing, or yields new storage. Values, so that forks can hold copies. */
module Market {
  import opened Basics
  import opened Ceilings
  import opened Charging
  import opened Tables
  import opened Ledger

  const SESSION_CLOSE_DELAY: nat := 86_400
  const BASIS: nat := 10_000

  datatype Escrow = Escrow(customer: Address, allowance: nat, spent: nat, expiresAt: nat, closeAt: nat, finalized: bool)

  datatype Config = Config(feeRecipient: Address, signer: Address, minimumBond: nat, bondExitDelay: nat, feeDelay: nat)

  datatype PendingFee = PendingFee(basisPoints: nat, availableAt: nat)

  datatype Contract = Contract(
    config: Config,
    owner: Address,
    paused: bool,
    balances: map<Address, nat>,
    claimable: map<Address, nat>,
    bonds: map<Address, nat>,
    exits: map<Address, nat>,
    latest: map<(Address, Hash), nat>,
    offers: map<OfferKey, OfferTerms>,
    sessions: map<SessionId, Escrow>,
    settled: set<RequestId>,
    used: set<Nonce>,
    signers: map<(Address, Address), bool>,
    slashed: set<RequestId>,
    fees: map<nat, nat>,
    feeVersion: nat,
    pendingFee: Option<PendingFee>,
    totalBalances: nat,
    totalBonds: nat,
    totalLocked: nat,
    totalClaimable: nat,
    ether: nat)

  /** A Solidity mapping reads zero where nothing was written. */
  function At<K>(m: map<K, nat>, k: K): (v: nat) { if k in m then m[k] else 0 }

  /** A receipt with the outcome of its two signature checks. */
  datatype Signed = Signed(receipt: Receipt, byProvider: bool, byBroker: bool)

  datatype Call =
    | Deposit(value: nat)
    | RequestWithdrawal(amount: nat)
    | DepositBond(value: nat)
    | SetProviderSigner(signer: Address, allowed: bool)
    | RequestBondExit
    | FinalizeBondExit
    | PublishOffer(offer: Hash, terms: OfferTerms)
    | OpenSession(id: SessionId, allowance: nat, expiresAt: nat)
    | RequestSessionClose(id: SessionId)
    | FinalizeSessionClose(id: SessionId)
    | SettleReceipt(signed: Signed)
    | SlashDoubleSign(provider: Address, request: RequestId, proven: bool)
    | ProposeFee(basisPoints: nat)
    | ExecuteFeeChange
    | SetPaused(paused: bool)

  datatype Message = Message(sender: Address, now: nat, call: Call)

  /** The contract after a call, and the event it emitted. */
  datatype Effect = Effect(contract: Contract, event: Event)

  /** The published offers are as they were. */
  predicate SameCatalog(c: Contract, c': Contract) {
    c'.latest == c.latest && c'.offers == c.offers && c'.config == c.config
  }

  /** Money moves between accounts, nothing else. */
  predicate AccountsOnly(c: Contract, c': Contract) {
    SameCatalog(c, c') && c'.sessions == c.sessions && c'.signers == c.signers && c'.settled == c.settled
      && c'.slashed == c.slashed
  }

  function Credited(c: Contract, a: Address, amount: nat): (after: Contract) {
    c.(claimable := c.claimable[a := At(c.claimable, a) + amount], totalClaimable := c.totalClaimable + amount)
  }

  // ----------------------------------------------------------------------- settlement

  /** The receipt's price is the published one, exactly, and within its maximum. */
  predicate Priced(c: Contract, receipt: Receipt) {
    var key := OfferKey(receipt.provider, receipt.hashes.offer, receipt.version);
    && key in c.offers
    && c.offers[key].model == receipt.hashes.model && c.offers[key].capability == receipt.hashes.capability
    && ExactTotal(c.offers[key].rates, receipt.usage) == receipt.total <= receipt.maximum
  }

  predicate Affordable(c: Contract, receipt: Receipt) {
    && receipt.session in c.sessions
    && var session := c.sessions[receipt.session];
       && session.customer == receipt.customer && !session.finalized
       && session.spent + receipt.total <= session.allowance
  }

  predicate Acceptable(c: Contract, now: nat, signed: Signed) {
    var receipt := signed.receipt;
    && receipt.request !in c.settled && Nonce(receipt.provider, receipt.nonce) !in c.used
    && receipt.request != 0 && receipt.signer == c.config.signer
    && receipt.feeVersion != 0 && At(c.fees, receipt.feeVersion) == receipt.feeBasisPoints
    && receipt.completedAt <= now
    && Affordable(c, receipt) && receipt.completedAt <= c.sessions[receipt.session].expiresAt
    && Priced(c, receipt)
    && signed.byProvider && signed.byBroker
  }

  function FeeOf(receipt: Receipt): (fee: nat) { receipt.total * receipt.feeBasisPoints / BASIS }

  lemma QuotientFits(n: nat, q: nat, d: nat)
    requires d > 0 && n <= q * d
    ensures n / d <= q
  {
    assert n / d * d <= n;
    if q < n / d { LessTimes(q + 1, n / d, d); }
  }

  /** No fee exceeds its charge, so the provider's share is never negative. */
  lemma FeeFits(receipt: Receipt)
    requires receipt.feeBasisPoints <= BASIS
    ensures FeeOf(receipt) <= receipt.total
  {
    LessTimes(receipt.feeBasisPoints, BASIS, receipt.total);
    var product := receipt.total * receipt.feeBasisPoints;
    assert product <= receipt.total * BASIS;
    QuotientFits(product, receipt.total, BASIS);
  }

  function Spending(c: Contract, receipt: Receipt): (after: Contract)
    requires Affordable(c, receipt) && receipt.total <= c.totalLocked
  {
    var session := c.sessions[receipt.session];
    c.(settled := c.settled + {receipt.request},
       used := c.used + {Nonce(receipt.provider, receipt.nonce)},
       sessions := c.sessions[receipt.session := session.(spent := session.spent + receipt.total)],
       totalLocked := c.totalLocked - receipt.total)
  }

  function Paid(c: Contract, receipt: Receipt): (after: Contract)
    requires Affordable(c, receipt) && receipt.total <= c.totalLocked && FeeOf(receipt) <= receipt.total
  {
    Credited(Credited(Spending(c, receipt), receipt.provider, receipt.total - FeeOf(receipt)), c.config.feeRecipient,
      FeeOf(receipt))
  }

  // ---------------------------------------------------------------------------- calls

  /** What the sums below keep: nothing is ever subtracted that is not there. */
  ghost predicate Books(c: Contract) {
    && c.totalBalances == Sum(c.balances) && c.totalBonds == Sum(c.bonds) && c.totalClaimable == Sum(c.claimable)
    && c.totalLocked == LockedSum(c.sessions)
    && (forall s <- c.sessions :: c.sessions[s].spent <= c.sessions[s].allowance)
    && (forall version <- c.fees :: version <= c.feeVersion && c.fees[version] <= MAXIMUM_FEE_BASIS_POINTS)
    && (c.pendingFee.Some? ==> c.pendingFee.value.basisPoints <= MAXIMUM_FEE_BASIS_POINTS)
    && c.ether == c.totalBalances + c.totalBonds + c.totalLocked + c.totalClaimable
  }

  ghost function Sum(m: map<Address, nat>): nat { Total(m.Keys, a => At(m, a)) }

  function Locked(sessions: map<SessionId, Escrow>, s: SessionId): nat {
    if s in sessions && !sessions[s].finalized && sessions[s].spent <= sessions[s].allowance
    then sessions[s].allowance - sessions[s].spent else 0
  }

  ghost function LockedSum(sessions: map<SessionId, Escrow>): nat { Total(sessions.Keys, s => Locked(sessions, s)) }

  lemma SumAfter(m: map<Address, nat>, a: Address, v: nat)
    ensures Sum(m[a := v]) == Sum(m) - At(m, a) + v && At(m, a) <= Sum(m)
  {
    TotalChange(m.Keys, k => At(m, k), m[a := v].Keys, k => At(m[a := v], k), a);
    if a in m { TotalAtLeast(m.Keys, k => At(m, k), a); }
  }

  lemma LockedAfter(sessions: map<SessionId, Escrow>, s: SessionId, row: Escrow)
    ensures LockedSum(sessions[s := row]) == LockedSum(sessions) - Locked(sessions, s) + Locked(sessions[s := row], s)
    ensures Locked(sessions, s) <= LockedSum(sessions)
  {
    TotalChange(sessions.Keys, k => Locked(sessions, k), sessions[s := row].Keys, k => Locked(sessions[s := row], k),
      s);
    if s in sessions { TotalAtLeast(sessions.Keys, k => Locked(sessions, k), s); }
  }

  /** Every checked subtraction of the contract is safe: the books bound each part. */
  lemma Covered(c: Contract, a: Address, s: SessionId)
    requires Books(c)
    ensures At(c.balances, a) <= c.totalBalances && At(c.bonds, a) <= c.totalBonds
            && At(c.claimable, a) <= c.totalClaimable
    ensures Locked(c.sessions, s) <= c.totalLocked
  {
    SumAfter(c.balances, a, 0);
    SumAfter(c.bonds, a, 0);
    SumAfter(c.claimable, a, 0);
    if s in c.sessions { LockedAfter(c.sessions, s, c.sessions[s]); } else { assert Locked(c.sessions, s) == 0; }
  }

  lemma FeesFit(c: Contract, now: nat, signed: Signed)
    requires Books(c) && Acceptable(c, now, signed)
    ensures signed.receipt.total <= c.totalLocked && FeeOf(signed.receipt) <= signed.receipt.total
  {
    Covered(c, 0, signed.receipt.session);
    FeeFits(signed.receipt);
  }

  function Depositing(c: Contract, a: Address, value: nat): (effect: Option<Effect>)
    ensures effect.Some? ==> AccountsOnly(c, effect.value.contract)
  {
    if c.paused || value == 0 then None else
    Some(Effect(c.(balances := c.balances[a := At(c.balances, a) + value],
                   totalBalances := c.totalBalances + value, ether := c.ether + value),
                Deposited(a, value)))
  }

  ghost function Withdrawing(c: Contract, a: Address, amount: nat): (effect: Option<Effect>)
    requires Books(c)
    ensures effect.Some? ==> AccountsOnly(c, effect.value.contract)
  {
    if amount == 0 || amount > At(c.balances, a) then None else
    Covered(c, a, 0);
    Some(Effect(Credited(c.(balances := c.balances[a := At(c.balances, a) - amount],
                            totalBalances := c.totalBalances - amount), a, amount),
                WithdrawalRequested(a, amount)))
  }

  function Bonding(c: Contract, a: Address, value: nat): (effect: Option<Effect>)
    ensures effect.Some? ==> AccountsOnly(c, effect.value.contract)
  {
    if c.paused || value == 0 || At(c.exits, a) != 0 then None else
    Some(Effect(c.(bonds := c.bonds[a := At(c.bonds, a) + value],
                   totalBonds := c.totalBonds + value, ether := c.ether + value),
                BondDeposited(a, value, At(c.bonds, a) + value)))
  }

  function NamingSigner(c: Contract, a: Address, signer: Address, allowed: bool): (effect: Option<Effect>)
    ensures effect.Some? ==> SameCatalog(c, effect.value.contract)
  {
    if signer == 0 then None else
    Some(Effect(c.(signers := c.signers[(a, signer) := allowed]), ProviderSignerSet(a, signer, allowed)))
  }

  function AskingBondExit(c: Contract, a: Address, now: nat): (effect: Option<Effect>)
    ensures effect.Some? ==> AccountsOnly(c, effect.value.contract)
  {
    if At(c.bonds, a) == 0 || At(c.exits, a) != 0 then None else
    var availableAt := now + c.config.bondExitDelay;
    Some(Effect(c.(exits := c.exits[a := availableAt]), BondExitRequested(a, availableAt)))
  }

  ghost function TakingBond(c: Contract, a: Address, now: nat): (effect: Option<Effect>)
    requires Books(c)
    ensures effect.Some? ==> AccountsOnly(c, effect.value.contract)
  {
    if At(c.exits, a) == 0 || now < At(c.exits, a) then None else
    Covered(c, a, 0);
    var amount := At(c.bonds, a);
    Some(Effect(Credited(c.(bonds := c.bonds[a := 0], exits := c.exits[a := 0], totalBonds := c.totalBonds - amount), a,
      amount),
                BondExitFinalized(a, amount)))
  }

  function Publishing(c: Contract, a: Address, offer: Hash, terms: OfferTerms): (effect: Option<Effect>) {
    if c.paused || At(c.bonds, a) < c.config.minimumBond || At(c.exits, a) != 0 then None else
    var version := At(c.latest, (a, offer)) + 1;
    var key := OfferKey(a, offer, version);
    Some(Effect(c.(latest := c.latest[(a, offer) := version], offers := c.offers[key := terms]),
      OfferPublished(key, terms)))
  }

  ghost function Opening(c: Contract, a: Address, now: nat, id: SessionId, allowance: nat,
                         expiresAt: nat): (effect: Option<Effect>)
    requires Books(c)
    ensures effect.Some? ==> SameCatalog(c, effect.value.contract)
  {
    if c.paused || id == 0 || allowance == 0 || expiresAt <= now then None else
    if id in c.sessions || At(c.balances, a) < allowance then None else
    Covered(c, a, 0);
    Some(Effect(c.(balances := c.balances[a := At(c.balances, a) - allowance],
                   totalBalances := c.totalBalances - allowance, totalLocked := c.totalLocked + allowance,
                   sessions := c.sessions[id := Escrow(a, allowance, 0, expiresAt, 0, false)]),
                SessionOpened(id, a, allowance)))
  }

  function AskingClose(c: Contract, a: Address, now: nat, id: SessionId): (effect: Option<Effect>)
    ensures effect.Some? ==> SameCatalog(c, effect.value.contract)
  {
    if id !in c.sessions || c.sessions[id].customer != a || c.sessions[id].finalized then None else
    if c.sessions[id].closeAt != 0 then None else
    var availableAt := now + SESSION_CLOSE_DELAY;
    Some(Effect(c.(sessions := c.sessions[id := c.sessions[id].(closeAt := availableAt)]),
      SessionCloseRequested(id, availableAt)))
  }

  ghost function TakingBack(c: Contract, a: Address, now: nat, id: SessionId): (effect: Option<Effect>)
    requires Books(c)
    ensures effect.Some? ==> SameCatalog(c, effect.value.contract)
  {
    if id !in c.sessions || c.sessions[id].customer != a || c.sessions[id].finalized then None else
    var session := c.sessions[id];
    if session.closeAt == 0 || now < session.closeAt then None else
    Covered(c, a, id);
    var remaining := session.allowance - session.spent;
    Some(Effect(c.(sessions := c.sessions[id := session.(finalized := true)],
                   totalLocked := c.totalLocked - remaining,
                   balances := c.balances[a := At(c.balances, a) + remaining],
                   totalBalances := c.totalBalances + remaining),
                SessionClosed(id, remaining)))
  }

  ghost function Settling(c: Contract, now: nat, signed: Signed): (effect: Option<Effect>)
    requires Books(c)
    ensures effect.Some? ==> SameCatalog(c, effect.value.contract)
  {
    if c.paused || !Acceptable(c, now, signed) then None else
    FeesFit(c, now, signed);
    var receipt := signed.receipt;
    Some(Effect(Paid(c, receipt),
                ReceiptSettled(receipt.request, receipt.session, receipt.provider, receipt.total - FeeOf(receipt),
                  FeeOf(receipt))))
  }

  ghost function Slashing(c: Contract, provider: Address, request: RequestId, proven: bool): (effect: Option<Effect>)
    requires Books(c)
    ensures effect.Some? ==> SameCatalog(c, effect.value.contract)
  {
    if request == 0 || provider == 0 || !proven || request in c.slashed then None else
    var bond := At(c.bonds, provider);
    var amount := if bond < c.config.minimumBond then bond else c.config.minimumBond;
    if amount == 0 then None else
    Covered(c, provider, 0);
    Some(Effect(Credited(c.(slashed := c.slashed + {request}, bonds := c.bonds[provider := bond - amount],
                            totalBonds := c.totalBonds - amount,
                            exits := if bond == amount then c.exits[provider := 0] else c.exits),
                         c.config.feeRecipient, amount),
                ProviderSlashed(provider, request, amount)))
  }

  function Proposing(c: Contract, a: Address, now: nat, basisPoints: nat): (effect: Option<Effect>)
    ensures effect.Some? ==> AccountsOnly(c, effect.value.contract)
  {
    if a != c.owner || basisPoints > MAXIMUM_FEE_BASIS_POINTS then None else
    Some(Effect(c.(pendingFee := Some(PendingFee(basisPoints, now + c.config.feeDelay))), FeeNotice))
  }

  function ChangingFee(c: Contract, now: nat): (effect: Option<Effect>)
    ensures effect.Some? ==> AccountsOnly(c, effect.value.contract)
  {
    if c.pendingFee.None? || now < c.pendingFee.value.availableAt then None else
    Some(Effect(c.(feeVersion := c.feeVersion + 1, fees := c.fees[c.feeVersion + 1 := c.pendingFee.value.basisPoints],
                   pendingFee := None),
                FeeNotice))
  }

  function Pausing(c: Contract, a: Address, paused: bool): (effect: Option<Effect>)
    ensures effect.Some? ==> AccountsOnly(c, effect.value.contract)
  {
    if a != c.owner || paused == c.paused then None else Some(Effect(c.(paused := paused), FeeNotice))
  }

  /** One call that emits one event; None when it reverts. */
  ghost function Act(c: Contract, m: Message): (effect: Option<Effect>)
    requires Books(c)
    ensures effect.Some? && !m.call.PublishOffer? ==> SameCatalog(c, effect.value.contract)
  {
    match m.call
    case Deposit(value) => Depositing(c, m.sender, value)
    case RequestWithdrawal(amount) => Withdrawing(c, m.sender, amount)
    case DepositBond(value) => Bonding(c, m.sender, value)
    case SetProviderSigner(signer, allowed) => NamingSigner(c, m.sender, signer, allowed)
    case RequestBondExit => AskingBondExit(c, m.sender, m.now)
    case FinalizeBondExit => TakingBond(c, m.sender, m.now)
    case PublishOffer(offer, terms) => Publishing(c, m.sender, offer, terms)
    case OpenSession(id, allowance, expiresAt) => Opening(c, m.sender, m.now, id, allowance, expiresAt)
    case RequestSessionClose(id) => AskingClose(c, m.sender, m.now, id)
    case FinalizeSessionClose(id) => TakingBack(c, m.sender, m.now, id)
    case SettleReceipt(signed) => Settling(c, m.now, signed)
    case SlashDoubleSign(provider, request, proven) => Slashing(c, provider, request, proven)
    case ProposeFee(basisPoints) => Proposing(c, m.sender, m.now, basisPoints)
    case ExecuteFeeChange => ChangingFee(c, m.now)
    case SetPaused(paused) => Pausing(c, m.sender, paused)
  }

  // ------------------------------------------------------------------------ the books

  lemma WithdrawalBooks(c: Contract, a: Address, amount: nat)
    requires Books(c) && Withdrawing(c, a, amount).Some?
    ensures Books(Withdrawing(c, a, amount).value.contract)
  {
    SumAfter(c.balances, a, At(c.balances, a) - amount);
    SumAfter(c.claimable, a, At(c.claimable, a) + amount);
  }

  lemma BondBooks(c: Contract, a: Address, now: nat)
    requires Books(c) && TakingBond(c, a, now).Some?
    ensures Books(TakingBond(c, a, now).value.contract)
  {
    SumAfter(c.bonds, a, 0);
    SumAfter(c.claimable, a, At(c.claimable, a) + At(c.bonds, a));
  }

  lemma OpeningBooks(c: Contract, a: Address, now: nat, id: SessionId, allowance: nat, expiresAt: nat)
    requires Books(c) && Opening(c, a, now, id, allowance, expiresAt).Some?
    ensures Books(Opening(c, a, now, id, allowance, expiresAt).value.contract)
  {
    SumAfter(c.balances, a, At(c.balances, a) - allowance);
    LockedAfter(c.sessions, id, Escrow(a, allowance, 0, expiresAt, 0, false));
  }

  lemma ClosingBooks(c: Contract, a: Address, now: nat, id: SessionId)
    requires Books(c) && TakingBack(c, a, now, id).Some?
    ensures Books(TakingBack(c, a, now, id).value.contract)
  {
    SumAfter(c.balances, a, At(c.balances, a) + Locked(c.sessions, id));
    LockedAfter(c.sessions, id, c.sessions[id].(finalized := true));
  }

  lemma SlashingBooks(c: Contract, provider: Address, request: RequestId, proven: bool)
    requires Books(c) && Slashing(c, provider, request, proven).Some?
    ensures Books(Slashing(c, provider, request, proven).value.contract)
  {
    var bond, fees := At(c.bonds, provider), c.config.feeRecipient;
    var amount := if bond < c.config.minimumBond then bond else c.config.minimumBond;
    SumAfter(c.bonds, provider, bond - amount);
    SumAfter(c.claimable, fees, At(c.claimable, fees) + amount);
  }

  /** The fee is the published share of the charge, rounded down. */
  lemma FeeIsShare(receipt: Receipt)
    ensures FeeOf(receipt) * 10_000 <= receipt.total * receipt.feeBasisPoints < (FeeOf(receipt) + 1) * 10_000
  {
  }

  /** What a settlement does, without how its price was checked: the provider's claim grows
      by its share, the fee recipient's by the fee. */
  lemma SettlingPays(c: Contract, now: nat, signed: Signed) returns (share: nat, fee: nat, c': Contract)
    requires Books(c) && Settling(c, now, signed).Some?
    ensures Affordable(c, signed.receipt) && signed.receipt.total <= c.totalLocked
            && share + fee == signed.receipt.total
    ensures signed.receipt.request !in c.settled
    ensures fee * 10_000 <= signed.receipt.total * signed.receipt.feeBasisPoints < (fee + 1) * 10_000
    ensures forall a: Address :: At(c'.claimable, a) == At(c.claimable, a)
              + (if a == signed.receipt.provider then share else 0) + (if a == c.config.feeRecipient then fee else 0)
    ensures c' == Credited(Credited(Spending(c, signed.receipt), signed.receipt.provider, share), c.config.feeRecipient,
            fee)
    ensures Settling(c, now, signed).value.contract == c'
    ensures Settling(c, now, signed).value.event
         == ReceiptSettled(signed.receipt.request, signed.receipt.session, signed.receipt.provider, share, fee)
  {
    FeesFit(c, now, signed);
    FeeIsShare(signed.receipt);
    fee := FeeOf(signed.receipt);
    share := signed.receipt.total - fee;
    c' := Paid(c, signed.receipt);
  }

  lemma SettlementBooks(c: Contract, now: nat, signed: Signed)
    requires Books(c) && Settling(c, now, signed).Some?
    ensures Books(Settling(c, now, signed).value.contract)
  {
    var share, fee, c' := SettlingPays(c, now, signed);
    assert Books(c') by { PaidBooks(c, signed.receipt, share, fee); }
  }

  lemma PaidBooks(c: Contract, receipt: Receipt, share: nat, fee: nat)
    requires Books(c) && Affordable(c, receipt) && receipt.total <= c.totalLocked && share + fee == receipt.total
    ensures Books(Credited(Credited(Spending(c, receipt), receipt.provider, share), c.config.feeRecipient, fee))
  {
    SpentBooks(c, receipt);
    PaidClaimable(Spending(c, receipt), receipt.provider, share, c.config.feeRecipient, fee);
  }

  lemma SpentBooks(c: Contract, receipt: Receipt)
    requires Books(c) && Affordable(c, receipt) && receipt.total <= c.totalLocked
    ensures var spent := Spending(c, receipt);
            && spent.totalLocked == LockedSum(spent.sessions)
            && forall s <- spent.sessions :: spent.sessions[s].spent <= spent.sessions[s].allowance
  {
    var session := c.sessions[receipt.session];
    LockedAfter(c.sessions, receipt.session, session.(spent := session.spent + receipt.total));
  }

  lemma PaidClaimable(c: Contract, a: Address, share: nat, b: Address, fee: nat)
    ensures var paid := Credited(Credited(c, a, share), b, fee);
            && Sum(paid.claimable) == Sum(c.claimable) + share + fee
            && paid.totalClaimable == c.totalClaimable + share + fee
  {
    SumAfter(c.claimable, a, At(c.claimable, a) + share);
    var paid := Credited(c, a, share).claimable;
    SumAfter(paid, b, At(paid, b) + fee);
  }

  lemma SimpleBooks(c: Contract, m: Message)
    requires Books(c) && Act(c, m).Some?
    requires m.call.Deposit? || m.call.DepositBond? || m.call.RequestSessionClose?
    ensures Books(Act(c, m).value.contract)
  {
    if m.call.Deposit? {
      SumAfter(c.balances, m.sender, At(c.balances, m.sender) + m.call.value);
    } else if m.call.DepositBond? {
      SumAfter(c.bonds, m.sender, At(c.bonds, m.sender) + m.call.value);
    } else {
      LockedAfter(c.sessions, m.call.id, c.sessions[m.call.id].(closeAt := m.now + SESSION_CLOSE_DELAY));
    }
  }

  /** Calls that move no money. */
  lemma SameBooks(c: Contract, c': Contract)
    requires Books(c)
    requires c'.balances == c.balances && c'.bonds == c.bonds && c'.claimable == c.claimable
             && c'.sessions == c.sessions
    requires c'.totalBalances == c.totalBalances && c'.totalBonds == c.totalBonds
             && c'.totalClaimable == c.totalClaimable
    requires c'.totalLocked == c.totalLocked && c'.ether == c.ether
    requires forall version <- c'.fees :: version <= c'.feeVersion && c'.fees[version] <= MAXIMUM_FEE_BASIS_POINTS
    requires c'.pendingFee.Some? ==> c'.pendingFee.value.basisPoints <= MAXIMUM_FEE_BASIS_POINTS
    ensures Books(c')
  {
  }

  lemma QuietBooks(c: Contract, m: Message)
    requires Books(c) && Act(c, m).Some?
    requires m.call.SetProviderSigner? || m.call.RequestBondExit? || m.call.PublishOffer? || m.call.ProposeFee?
          || m.call.ExecuteFeeChange? || m.call.SetPaused?
    ensures Books(Act(c, m).value.contract)
  {
    SameBooks(c, Act(c, m).value.contract);
  }

  /** Every call keeps the books: the contract owes exactly what it holds. */
  lemma ActKeepsBooks(c: Contract, m: Message)
    requires Books(c) && Act(c, m).Some?
    ensures Books(Act(c, m).value.contract)
  {
    match m.call
    case Deposit(_) => SimpleBooks(c, m);
    case DepositBond(_) => SimpleBooks(c, m);
    case RequestSessionClose(_) => SimpleBooks(c, m);
    case RequestWithdrawal(amount) => WithdrawalBooks(c, m.sender, amount);
    case FinalizeBondExit => BondBooks(c, m.sender, m.now);
    case OpenSession(id, allowance, expiresAt) => OpeningBooks(c, m.sender, m.now, id, allowance, expiresAt);
    case FinalizeSessionClose(id) => ClosingBooks(c, m.sender, m.now, id);
    case SettleReceipt(signed) => SettlementBooks(c, m.now, signed);
    case SlashDoubleSign(provider, request, proven) => SlashingBooks(c, provider, request, proven);
    case _ => QuietBooks(c, m);
  }
}
