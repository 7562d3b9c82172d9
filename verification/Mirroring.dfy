/** The indexer's projection of the contract's log is the contract's storage. */
module Mirroring {
  import opened Basics
  import opened Tables
  import opened Projecting
  import opened Market

  /** A claim whose payment is on its way while the payee's own code runs. */
  datatype Payment = Payment(account: Address, amount: nat)
  const NO_PAYMENT := Payment(0, 0)

  function Due(payment: Payment, a: Address): nat { if a == payment.account then payment.amount else 0 }

  /** The account row the contract's mappings amount to. */
  function RowOf(c: Contract, payment: Payment, a: Address): (row: ChainAccount) {
    ChainAccount(At(c.balances, a), At(c.bonds, a), At(c.claimable, a) + Due(payment, a), At(c.exits, a))
  }

  ghost predicate AccountsMirror(c: Contract, accounts: map<Address, ChainAccount>, payment: Payment) {
    forall a :: AccountOf(accounts, a) == RowOf(c, payment, a)
  }

  /** Everything but the accounts. */
  ghost predicate TablesMirror(c: Contract, p: Projection) {
    && (forall s :: s in p.sessions <==> s in c.sessions)
    && (forall s <- p.sessions ::
          var session := c.sessions[s];
          p.sessions[s] == ChainSession(session.customer, session.allowance, session.spent, session.closeAt,
            session.finalized))
    && p.offers == c.offers && p.signers == c.signers
    && p.settlements.Keys == c.settled
    && (forall key <- p.slashes :: key.request in c.slashed)
  }

  /** A session's customer has paid in, so there is a row to pay back into. */
  ghost predicate CustomersKnown(p: Projection) {
    forall s <- p.sessions :: p.sessions[s].customer in p.accounts
  }

  ghost predicate Mirror(c: Contract, p: Projection, payment: Payment) {
    AccountsMirror(c, p.accounts, payment) && TablesMirror(c, p) && CustomersKnown(p)
  }

  /** Offer versions are handed out in order, so none is published twice. */
  ghost predicate Numbered(c: Contract) {
    forall key <- c.offers :: key.version <= At(c.latest, (key.provider, key.offer))
  }

  /** The names an event uses mean on this fork what they mean on every fork. */
  predicate Fits(world: World, event: Event) {
    match event
    case SessionOpened(s, customer, allowance) => world.terms(s) == Terms(customer, allowance)
    case OfferPublished(key, terms) => world.offer(key) == terms
    case _ => true
  }

  /** What one call must establish of its event. */
  ghost predicate Mirrored(world: World, p: Projection, log: Log, c': Contract, payment: Payment) {
    && Allowed(world, p, log.event)
    && var after := Project(p, world.feeRecipient, log);
       after.Some? && Mirror(c', after.value, payment)
  }

  /** The accounts after a call, given what it does to the mappings. */
  ghost predicate AccountsMove(world: World, p: Projection, log: Log, c': Contract, payment: Payment) {
    var after := Project(p, world.feeRecipient, log);
    && after.Some? && AccountsMirror(c', after.value.accounts, payment)
    && p.accounts.Keys <= after.value.accounts.Keys
  }

  /** Only one account's row changes, and on both sides alike. */
  lemma OneRowMoves(c: Contract, accounts: map<Address, ChainAccount>, c': Contract,
                    accounts': map<Address, ChainAccount>, payment: Payment, a: Address)
    requires AccountsMirror(c, accounts, payment)
    requires AccountOf(accounts, a) == RowOf(c, payment, a) ==> AccountOf(accounts', a) == RowOf(c', payment, a)
    requires forall b :: b != a ==> AccountOf(accounts', b) == AccountOf(accounts, b)
                                    && RowOf(c', payment, b) == RowOf(c, payment, b)
    ensures AccountsMirror(c', accounts', payment)
  {
  }

  // Each call of an account touches the row of its sender only.

  lemma DepositMoves(world: World, c: Contract, p: Projection, payment: Payment, sender: Address, value: nat, log: Log)
    requires Books(c) && AccountsMirror(c, p.accounts, payment)
    requires Depositing(c, sender, value).Some? && log.event == Depositing(c, sender, value).value.event
    ensures AccountsMove(world, p, log, Depositing(c, sender, value).value.contract, payment)
  {
    OneRowMoves(c, p.accounts, Depositing(c, sender, value).value.contract,
      Project(p, world.feeRecipient, log).value.accounts, payment, sender);
  }

  lemma WithdrawalMoves(world: World, c: Contract, p: Projection, payment: Payment, sender: Address, amount: nat,
                        log: Log)
    requires Books(c) && AccountsMirror(c, p.accounts, payment)
    requires Withdrawing(c, sender, amount).Some? && log.event == Withdrawing(c, sender, amount).value.event
    ensures AccountsMove(world, p, log, Withdrawing(c, sender, amount).value.contract, payment)
  {
    OneRowMoves(c, p.accounts, Withdrawing(c, sender, amount).value.contract,
      Project(p, world.feeRecipient, log).value.accounts, payment, sender);
  }

  lemma BondMoves(world: World, c: Contract, p: Projection, payment: Payment, sender: Address, value: nat, log: Log)
    requires Books(c) && AccountsMirror(c, p.accounts, payment)
    requires Bonding(c, sender, value).Some? && log.event == Bonding(c, sender, value).value.event
    ensures AccountsMove(world, p, log, Bonding(c, sender, value).value.contract, payment)
  {
    OneRowMoves(c, p.accounts, Bonding(c, sender, value).value.contract,
      Project(p, world.feeRecipient, log).value.accounts, payment, sender);
  }

  lemma BondExitMoves(world: World, c: Contract, p: Projection, payment: Payment, sender: Address, now: nat, log: Log)
    requires Books(c) && AccountsMirror(c, p.accounts, payment)
    requires AskingBondExit(c, sender, now).Some? && log.event == AskingBondExit(c, sender, now).value.event
    ensures AccountsMove(world, p, log, AskingBondExit(c, sender, now).value.contract, payment)
  {
    OneRowMoves(c, p.accounts, AskingBondExit(c, sender, now).value.contract,
      Project(p, world.feeRecipient, log).value.accounts, payment, sender);
  }

  lemma BondPaid(world: World, c: Contract, p: Projection, payment: Payment, sender: Address, now: nat, log: Log)
    requires Books(c) && AccountsMirror(c, p.accounts, payment)
    requires TakingBond(c, sender, now).Some? && log.event == TakingBond(c, sender, now).value.event
    ensures AccountsMove(world, p, log, TakingBond(c, sender, now).value.contract, payment)
  {
    OneRowMoves(c, p.accounts, TakingBond(c, sender, now).value.contract,
      Project(p, world.feeRecipient, log).value.accounts, payment, sender);
  }

  lemma OpeningMoves(world: World, c: Contract, p: Projection, payment: Payment, sender: Address, now: nat,
                     id: SessionId, allowance: nat, expiresAt: nat, log: Log)
    requires Books(c) && AccountsMirror(c, p.accounts, payment)
    requires Opening(c, sender, now, id, allowance, expiresAt).Some?
             && log.event == Opening(c, sender, now, id, allowance, expiresAt).value.event
    ensures AccountsMove(world, p, log, Opening(c, sender, now, id, allowance, expiresAt).value.contract, payment)
  {
    OneRowMoves(c, p.accounts, Opening(c, sender, now, id, allowance, expiresAt).value.contract,
      Project(p, world.feeRecipient, log).value.accounts, payment, sender);
  }

  lemma ClosingMoves(world: World, c: Contract, p: Projection, payment: Payment, sender: Address, now: nat,
                     id: SessionId, log: Log)
    requires Books(c) && AccountsMirror(c, p.accounts, payment)
    requires TakingBack(c, sender, now, id).Some? && log.event == TakingBack(c, sender, now, id).value.event
    requires TablesMirror(c, p) && CustomersKnown(p)
    ensures AccountsMove(world, p, log, TakingBack(c, sender, now, id).value.contract, payment)
  {
    OneRowMoves(c, p.accounts, TakingBack(c, sender, now, id).value.contract,
      Project(p, world.feeRecipient, log).value.accounts, payment, sender);
  }

  lemma SettlementMoves(world: World, c: Contract, p: Projection, payment: Payment, receipt: Receipt, share: nat,
                        fee: nat, log: Log)
    requires AccountsMirror(c, p.accounts, payment) && receipt.request !in p.settlements
    requires Affordable(c, receipt) && receipt.total <= c.totalLocked
    requires log.event == ReceiptSettled(receipt.request, receipt.session, receipt.provider, share, fee)
    ensures AccountsMove(world, p, log, Credited(Credited(Spending(c, receipt), receipt.provider, share),
            world.feeRecipient, fee), payment)
  {
    var spent, provider := Spending(c, receipt), receipt.provider;
    SameAccounts(c, spent, p.accounts, payment);
    CreditMoves(spent, p.accounts, payment, provider, share);
    CreditMoves(Credited(spent, provider, share), Credit(p.accounts, provider, share), payment, world.feeRecipient,
      fee);
  }

  lemma SettlementFollows(world: World, c: Contract, p: Projection, payment: Payment, now: nat, signed: Signed,
                          log: Log)
    requires Books(c) && AccountsMirror(c, p.accounts, payment) && p.settlements.Keys == c.settled
    requires Settling(c, now, signed).Some? && log.event == Settling(c, now, signed).value.event
    requires c.config.feeRecipient == world.feeRecipient
    ensures AccountsMove(world, p, log, Settling(c, now, signed).value.contract, payment)
  {
    var share, fee, c' := SettlingPays(c, now, signed);
    assert AccountsMove(world, p, log, c', payment) by {
      SettlementMoves(world, c, p, payment, signed.receipt, share, fee, log);
    }
  }

  lemma CreditMoves(c: Contract, accounts: map<Address, ChainAccount>, payment: Payment, to: Address, amount: nat)
    requires AccountsMirror(c, accounts, payment)
    ensures AccountsMirror(Credited(c, to, amount), Credit(accounts, to, amount), payment)
  {
    var after := Credit(accounts, to, amount);
    assert AccountOf(accounts, to) == RowOf(c, payment, to);
    forall a: Address ensures AccountOf(after, a) == RowOf(Credited(c, to, amount), payment, a) {
      assert AccountOf(accounts, a) == RowOf(c, payment, a);
    }
  }

  /** The contract after the provider's bond is cut, before the fee recipient is credited. */
  function Cut(c: Contract, provider: Address, amount: nat): (after: Contract)
    requires amount <= At(c.bonds, provider) && amount <= c.totalBonds
  {
    var bond := At(c.bonds, provider);
    c.(bonds := c.bonds[provider := bond - amount], totalBonds := c.totalBonds - amount,
       exits := if bond == amount then c.exits[provider := 0] else c.exits)
  }

  lemma CutMoves(c: Contract, accounts: map<Address, ChainAccount>, payment: Payment, provider: Address, amount: nat)
    requires AccountsMirror(c, accounts, payment) && 0 < amount <= At(c.bonds, provider) && amount <= c.totalBonds
    ensures AccountsMirror(Cut(c, provider, amount),
            Update(accounts, provider, Slashed(AccountOf(accounts, provider), amount)), payment)
  {
    var after := Update(accounts, provider, Slashed(AccountOf(accounts, provider), amount));
    assert AccountOf(accounts, provider) == RowOf(c, payment, provider);
    forall a: Address ensures AccountOf(after, a) == RowOf(Cut(c, provider, amount), payment, a) {
      assert AccountOf(accounts, a) == RowOf(c, payment, a);
    }
  }

  lemma SlashMoves(world: World, c: Contract, p: Projection, payment: Payment, provider: Address, request: RequestId,
                   proven: bool, log: Log)
    requires Books(c) && AccountsMirror(c, p.accounts, payment)
    requires Slashing(c, provider, request, proven).Some?
             && log.event == Slashing(c, provider, request, proven).value.event
    requires c.config.feeRecipient == world.feeRecipient
    ensures AccountsMove(world, p, log, Slashing(c, provider, request, proven).value.contract, payment)
  {
    var amount := log.event.amount;
    Covered(c, provider, 0);
    var paid := CutAndPaid(world, c, p, payment, provider, amount, log);
    SameAccounts(paid, Slashing(c, provider, request, proven).value.contract,
      Project(p, world.feeRecipient, log).value.accounts, payment);
  }

  lemma CutAndPaid(world: World, c: Contract, p: Projection, payment: Payment, provider: Address, amount: nat, log: Log)
    returns (paid: Contract)
    requires AccountsMirror(c, p.accounts, payment) && 0 < amount <= At(c.bonds, provider) && amount <= c.totalBonds
    requires log.event.ProviderSlashed? && log.event.provider == provider && log.event.amount == amount
    ensures paid == Credited(Cut(c, provider, amount), world.feeRecipient, amount)
    ensures AccountsMove(world, p, log, paid, payment)
  {
    CutMoves(c, p.accounts, payment, provider, amount);
    var cut := Update(p.accounts, provider, Slashed(AccountOf(p.accounts, provider), amount));
    CreditMoves(Cut(c, provider, amount), cut, payment, world.feeRecipient, amount);
    paid := Credited(Cut(c, provider, amount), world.feeRecipient, amount);
  }

  lemma SameAccounts(c: Contract, c': Contract, accounts: map<Address, ChainAccount>, payment: Payment)
    requires AccountsMirror(c, accounts, payment)
    requires c'.balances == c.balances && c'.bonds == c.bonds && c'.claimable == c.claimable && c'.exits == c.exits
    ensures AccountsMirror(c', accounts, payment)
  {
    forall a: Address ensures AccountOf(accounts, a) == RowOf(c', payment, a) {
      assert AccountOf(accounts, a) == RowOf(c, payment, a);
    }
  }

  lemma AccountsFollow(world: World, c: Contract, p: Projection, payment: Payment, m: Message, log: Log)
    requires Books(c) && Mirror(c, p, payment) && c.config.feeRecipient == world.feeRecipient
    requires Act(c, m).Some? && log.event == Act(c, m).value.event
    ensures AccountsMove(world, p, log, Act(c, m).value.contract, payment)
  {
    match m.call
    case Deposit(value) => DepositMoves(world, c, p, payment, m.sender, value, log);
    case RequestWithdrawal(amount) => WithdrawalMoves(world, c, p, payment, m.sender, amount, log);
    case DepositBond(value) => BondMoves(world, c, p, payment, m.sender, value, log);
    case RequestBondExit => BondExitMoves(world, c, p, payment, m.sender, m.now, log);
    case FinalizeBondExit => BondPaid(world, c, p, payment, m.sender, m.now, log);
    case OpenSession(id, allowance, expiresAt) => OpeningMoves(world, c, p, payment, m.sender, m.now, id, allowance,
      expiresAt, log);
    case FinalizeSessionClose(id) => ClosingMoves(world, c, p, payment, m.sender, m.now, id, log);
    case SettleReceipt(signed) => SettlementFollows(world, c, p, payment, m.now, signed, log);
    case SlashDoubleSign(provider, request, proven) => SlashMoves(world, c, p, payment, provider, request, proven, log);
    case _ => Unpaid(world, c, p, payment, m, log);
  }

  lemma Unpaid(world: World, c: Contract, p: Projection, payment: Payment, m: Message, log: Log)
    requires Books(c) && AccountsMirror(c, p.accounts, payment) && Act(c, m).Some? && log.event == Act(c, m).value.event
    requires m.call.PublishOffer? || m.call.SetProviderSigner? || m.call.RequestSessionClose? || m.call.ProposeFee?
          || m.call.ExecuteFeeChange? || m.call.SetPaused?
    ensures AccountsMove(world, p, log, Act(c, m).value.contract, payment)
  {
    UnpaidEvent(p, world.feeRecipient, log);
    SameAccounts(c, Act(c, m).value.contract, p.accounts, payment);
  }

  lemma UnpaidEvent(p: Projection, feeRecipient: Address, log: Log)
    requires log.event.OfferPublished? || log.event.ProviderSignerSet? || log.event.SessionCloseRequested?
             || log.event.FeeNotice?
    ensures Project(p, feeRecipient, log).Some? && Project(p, feeRecipient, log).value.accounts == p.accounts
  {
  }

  // ------------------------------------------------------------------- the other tables

  ghost predicate TablesMove(world: World, p: Projection, log: Log, c': Contract) {
    && Allowed(world, p, log.event)
    && var after := Project(p, world.feeRecipient, log);
       after.Some? && TablesMirror(c', after.value)
  }

  lemma OpeningTables(world: World, c: Contract, p: Projection, c': Contract, id: SessionId, row: Escrow, log: Log)
    requires TablesMirror(c, p) && Fits(world, log.event) && log.event == SessionOpened(id, row.customer, row.allowance)
    requires c' == c.(sessions := c.sessions[id := row], balances := c'.balances, totalBalances := c'.totalBalances,
             totalLocked := c'.totalLocked)
    requires id !in c.sessions && row.spent == 0 && row.closeAt == 0 && !row.finalized
    ensures TablesMove(world, p, log, c')
  {
  }

  lemma AskingTables(world: World, c: Contract, p: Projection, id: SessionId, availableAt: nat, log: Log)
    requires TablesMirror(c, p) && log.event == SessionCloseRequested(id, availableAt) && availableAt > 0
    requires id in c.sessions && !c.sessions[id].finalized
    ensures TablesMove(world, p, log, c.(sessions := c.sessions[id := c.sessions[id].(closeAt := availableAt)]))
  {
  }

  lemma ClosingTables(world: World, c: Contract, p: Projection, c': Contract, id: SessionId, log: Log)
    requires TablesMirror(c, p) && id in c.sessions && !c.sessions[id].finalized
             && c.sessions[id].spent <= c.sessions[id].allowance
    requires log.event == SessionClosed(id, c.sessions[id].allowance - c.sessions[id].spent)
    requires c' == c.(sessions := c.sessions[id := c.sessions[id].(finalized := true)],
                      balances := c'.balances, totalBalances := c'.totalBalances, totalLocked := c'.totalLocked)
    ensures TablesMove(world, p, log, c')
  {
  }

  lemma SettlementTables(world: World, c: Contract, p: Projection, now: nat, signed: Signed, log: Log)
    requires Books(c) && TablesMirror(c, p) && Settling(c, now, signed).Some?
             && log.event == Settling(c, now, signed).value.event
    ensures TablesMove(world, p, log, Settling(c, now, signed).value.contract)
  {
    var share, fee, c' := SettlingPays(c, now, signed);
    assert TablesMove(world, p, log, c') by { SpendingTables(world, c, p, signed.receipt, log); }
  }

  lemma SpendingTables(world: World, c: Contract, p: Projection, receipt: Receipt, log: Log)
    requires TablesMirror(c, p) && Affordable(c, receipt) && receipt.total <= c.totalLocked
             && receipt.request !in c.settled
    requires log.event.ReceiptSettled? && log.event.request == receipt.request && log.event.session == receipt.session
    requires log.event.providerAmount + log.event.feeAmount == receipt.total
    ensures TablesMove(world, p, log, Spending(c, receipt))
  {
  }

  lemma AccountTables(world: World, c: Contract, p: Projection, c': Contract, log: Log)
    requires TablesMirror(c, p) && AccountsOnly(c, c')
    requires log.event.Deposited? || log.event.WithdrawalRequested? || log.event.BondDeposited?
             || log.event.BondExitRequested?
          || log.event.BondExitFinalized? || log.event.FeeNotice? || log.event.Claimed?
    ensures TablesMove(world, p, log, c')
  {
  }

  lemma PublishingTables(world: World, c: Contract, p: Projection, a: Address, offer: Hash, terms: OfferTerms, log: Log)
    requires TablesMirror(c, p) && Numbered(c) && Fits(world, log.event)
    requires Publishing(c, a, offer, terms).Some? && log.event == Publishing(c, a, offer, terms).value.event
    ensures TablesMove(world, p, log, Publishing(c, a, offer, terms).value.contract)
  {
    var key := log.event.key;
    assert key !in c.offers;
    assert Project(p, world.feeRecipient, log) == Some(p.(offers := p.offers[key := terms]));
  }

  lemma SignerTables(world: World, c: Contract, p: Projection, a: Address, signer: Address, allowed: bool, log: Log)
    requires TablesMirror(c, p) && log.event == ProviderSignerSet(a, signer, allowed)
    ensures TablesMove(world, p, log, c.(signers := c.signers[(a, signer) := allowed]))
  {
  }

  lemma SlashTables(world: World, c: Contract, p: Projection, c': Contract, log: Log)
    requires TablesMirror(c, p) && log.event.ProviderSlashed? && c'.slashed == c.slashed + {log.event.request}
    requires SameCatalog(c, c') && c'.sessions == c.sessions && c'.signers == c.signers && c'.settled == c.settled
    ensures TablesMove(world, p, log, c')
  {
  }

  lemma SessionTables(world: World, c: Contract, p: Projection, m: Message, log: Log)
    requires Books(c) && TablesMirror(c, p) && Act(c, m).Some? && log.event == Act(c, m).value.event
             && Fits(world, log.event)
    requires m.call.OpenSession? || m.call.RequestSessionClose? || m.call.FinalizeSessionClose?
    ensures TablesMove(world, p, log, Act(c, m).value.contract)
  {
    match m.call
    case OpenSession(id, allowance, expiresAt) =>
      OpeningTables(world, c, p, Act(c, m).value.contract, id, Escrow(m.sender, allowance, 0, expiresAt, 0, false),
        log);
    case RequestSessionClose(id) => AskingTables(world, c, p, id, m.now + SESSION_CLOSE_DELAY, log);
    case FinalizeSessionClose(id) => ClosingTables(world, c, p, Act(c, m).value.contract, id, log);
  }

  lemma TablesFollow(world: World, c: Contract, p: Projection, m: Message, log: Log)
    requires Books(c) && Numbered(c) && TablesMirror(c, p)
    requires Act(c, m).Some? && log.event == Act(c, m).value.event && Fits(world, log.event)
    ensures TablesMove(world, p, log, Act(c, m).value.contract)
  {
    match m.call
    case OpenSession(_, _, _) => SessionTables(world, c, p, m, log);
    case RequestSessionClose(_) => SessionTables(world, c, p, m, log);
    case FinalizeSessionClose(_) => SessionTables(world, c, p, m, log);
    case SettleReceipt(signed) => SettlementTables(world, c, p, m.now, signed, log);
    case PublishOffer(offer, terms) => PublishingTables(world, c, p, m.sender, offer, terms, log);
    case SetProviderSigner(signer, allowed) => SignerTables(world, c, p, m.sender, signer, allowed, log);
    case SlashDoubleSign(_, _, _) => SlashTables(world, c, p, Act(c, m).value.contract, log);
    case _ => AccountTables(world, c, p, Act(c, m).value.contract, log);
  }

  lemma CustomersFollow(world: World, c: Contract, p: Projection, payment: Payment, m: Message, log: Log)
    requires Books(c) && AccountsMirror(c, p.accounts, payment) && CustomersKnown(p)
    requires Act(c, m).Some? && log.event == Act(c, m).value.event
    requires AccountsMove(world, p, log, Act(c, m).value.contract, payment)
    ensures CustomersKnown(Project(p, world.feeRecipient, log).value)
  {
    if m.call.OpenSession? { assert AccountOf(p.accounts, m.sender) == RowOf(c, payment, m.sender); }
    OldCustomers(p, world.feeRecipient, log);
  }

  /** No entry but an opening adds a customer. */
  lemma OldCustomers(p: Projection, feeRecipient: Address, log: Log)
    requires Project(p, feeRecipient, log).Some?
    ensures var sessions := Project(p, feeRecipient, log).value.sessions;
            forall s <- sessions ::
              || (s in p.sessions && sessions[s].customer == p.sessions[s].customer)
              || (log.event.SessionOpened? && sessions[s].customer == log.event.customer)
  {
  }

  /** Whatever call is made, its event may follow the log so far, and projecting it
      takes the image of the old storage to the image of the new one. */
  lemma ActMirrors(world: World, c: Contract, p: Projection, payment: Payment, m: Message, log: Log)
    requires Books(c) && Numbered(c) && Mirror(c, p, payment) && c.config.feeRecipient == world.feeRecipient
    requires Act(c, m).Some? && log.event == Act(c, m).value.event && Fits(world, log.event)
    ensures Mirrored(world, p, log, Act(c, m).value.contract, payment)
  {
    AccountsFollow(world, c, p, payment, m, log);
    TablesFollow(world, c, p, m, log);
    CustomersFollow(world, c, p, payment, m, log);
  }

  /** An offer's version is the next one of its provider and name. */
  lemma PublishingNumbers(c: Contract, a: Address, offer: Hash, terms: OfferTerms)
    requires Numbered(c) && Publishing(c, a, offer, terms).Some?
    ensures Numbered(Publishing(c, a, offer, terms).value.contract)
  {
    var c' := Publishing(c, a, offer, terms).value.contract;
    forall key <- c'.offers ensures key.version <= At(c'.latest, (key.provider, key.offer)) {
      if key in c.offers { assert key.version <= At(c.latest, (key.provider, key.offer)); }
    }
  }

  lemma ActKeepsNumbers(c: Contract, m: Message)
    requires Books(c) && Numbered(c) && Act(c, m).Some?
    ensures Numbered(Act(c, m).value.contract) && Act(c, m).value.contract.config == c.config
  {
    if m.call.PublishOffer? { PublishingNumbers(c, m.sender, m.call.offer, m.call.terms); }
  }
}
