/** How one log entry changes the chain_* tables: the table part of applyLog. */
module Projecting {
  import opened Basics
  import opened Tables

  function Credit(accounts: map<Address, ChainAccount>, a: Address, amount: nat): (after: map<Address, ChainAccount>) {
    var row := AccountOf(accounts, a);
    accounts[a := row.(claimable := row.claimable + amount)]
  }

  function Deposit(accounts: map<Address, ChainAccount>, a: Address, amount: nat): (after: map<Address, ChainAccount>) {
    var row := AccountOf(accounts, a);
    accounts[a := row.(balance := row.balance + amount)]
  }

  /** UPDATE ... WHERE address: a row that is not there stays away. */
  function Update(accounts: map<Address, ChainAccount>, a: Address,
                  row: ChainAccount): (after: map<Address, ChainAccount>) {
    if a in accounts then accounts[a := row] else accounts
  }

  function Slashed(row: ChainAccount, amount: nat): (after: ChainAccount) {
    row.(bond := row.bond - amount, exitAt := if row.bond - amount == 0 then 0 else row.exitAt)
  }

  function Settle(p: Projection, feeRecipient: Address, r: RequestId, row: Settlement): (after: Projection) {
    p.(settlements := p.settlements[r := row],
       sessions := if row.session in p.sessions
                   then var s := p.sessions[row.session];
                        p.sessions[row.session := s.(spent := s.spent + row.providerAmount + row.feeAmount)]
                   else p.sessions,
       accounts := Credit(Credit(p.accounts, row.provider, row.providerAmount), feeRecipient, row.feeAmount))
  }

  predicate OfSession(event: Event) {
    event.SessionOpened? || event.SessionCloseRequested? || event.SessionClosed? || event.ReceiptSettled?
  }

  /** One log entry; None when the statement expects a row and finds none. */
  function Project(p: Projection, feeRecipient: Address, log: Log): (after: Option<Projection>)
    ensures after.None? ==> log.event.SessionClosed?
    ensures after.Some? ==> after.value.logs == p.logs
    ensures after.Some? && !log.event.ReceiptSettled? ==> after.value.settlements == p.settlements
    ensures after.Some? && !log.event.OfferPublished? ==> after.value.offers == p.offers
    ensures after.Some? && !OfSession(log.event) ==> after.value.sessions == p.sessions
  {
    match log.event
    case Deposited(a, amount) => Some(p.(accounts := Deposit(p.accounts, a, amount)))
    case WithdrawalRequested(a, amount) =>
      var row := AccountOf(p.accounts, a);
      Some(p.(accounts := Update(p.accounts, a,
        row.(balance := row.balance - amount, claimable := row.claimable + amount))))
    case Claimed(a, amount) =>
      var row := AccountOf(p.accounts, a);
      Some(p.(accounts := Update(p.accounts, a, row.(claimable := row.claimable - amount))))
    case BondDeposited(a, _, totalBond) =>
      Some(p.(accounts := p.accounts[a := AccountOf(p.accounts, a).(bond := totalBond)]))
    case ProviderSignerSet(a, signer, allowed) => Some(p.(signers := p.signers[(a, signer) := allowed]))
    case BondExitRequested(a, availableAt) =>
      Some(p.(accounts := Update(p.accounts, a, AccountOf(p.accounts, a).(exitAt := availableAt))))
    case BondExitFinalized(a, amount) =>
      var row := AccountOf(p.accounts, a);
      Some(p.(accounts := Update(p.accounts, a, row.(bond := 0, exitAt := 0, claimable := row.claimable + amount))))
    case OfferPublished(key, terms) =>
      Some(if key in p.offers then p else p.(offers := p.offers[key := terms]))
    case SessionOpened(s, customer, allowance) =>
      var row := AccountOf(p.accounts, customer);
      Some(p.(sessions := if s in p.sessions then p.sessions
                          else p.sessions[s := ChainSession(customer, allowance, 0, 0, false)],
              accounts := Update(p.accounts, customer, row.(balance := row.balance - allowance))))
    case SessionCloseRequested(s, availableAt) =>
      Some(if s in p.sessions then p.(sessions := p.sessions[s := p.sessions[s].(closeAt := availableAt)]) else p)
    case SessionClosed(s, returned) =>
      if s !in p.sessions then None else
      var customer := p.sessions[s].customer;
      var row := AccountOf(p.accounts, customer);
      Some(p.(sessions := p.sessions[s := p.sessions[s].(finalized := true)],
              accounts := Update(p.accounts, customer, row.(balance := row.balance + returned))))
    case ReceiptSettled(r, s, provider, providerAmount, feeAmount) =>
      Some(if r in p.settlements then p
           else Settle(p, feeRecipient, r, Settlement(s, provider, providerAmount, feeAmount)))
    case ProviderSlashed(a, r, amount) =>
      var key := SlashKey(r, a, log.id.transaction);
      Some(p.(slashes := if key in p.slashes then p.slashes else p.slashes[key := amount],
              accounts := Credit(Update(p.accounts, a, Slashed(AccountOf(p.accounts, a), amount)), feeRecipient,
                amount)))
    case FeeNotice => Some(p)
  }

  /** insertLog then applyLog: an entry already stored is not applied again. */
  function Record(p: Projection, feeRecipient: Address, log: Log): (after: Option<Projection>) {
    if log.id in p.logs then Some(p) else Project(p.(logs := p.logs + {log.id}), feeRecipient, log)
  }

  /** The plain fold the incremental indexer is measured against. */
  function ProjectAll(feeRecipient: Address, logs: seq<Log>): (p: Option<Projection>) {
    if logs == [] then Some(EMPTY_PROJECTION) else
    var before := ProjectAll(feeRecipient, logs[..|logs| - 1]);
    if before.None? then None else Record(before.value, feeRecipient, logs[|logs| - 1])
  }

  // ------------------------------------------------------------- well-formed logs

  /** What a session identifier stands for on every fork. */
  datatype Terms = Terms(customer: Address, allowance: nat)
  /** Facts of the outside world that no step changes. */
  datatype World = World(
    feeRecipient: Address,
    terms: SessionId -> Terms,
    offer: OfferKey -> OfferTerms)

  /** The event may follow a log whose projection is p: what the contract guarantees
      about its own log. */
  predicate Allowed(world: World, p: Projection, event: Event) {
    match event
    case SessionOpened(s, customer, allowance) =>
      s !in p.sessions && world.terms(s) == Terms(customer, allowance)
    case SessionCloseRequested(s, availableAt) =>
      s in p.sessions && !p.sessions[s].finalized && availableAt > 0
    case SessionClosed(s, returned) =>
      s in p.sessions && !p.sessions[s].finalized && p.sessions[s].spent + returned == p.sessions[s].allowance
    case ReceiptSettled(r, s, _, providerAmount, feeAmount) =>
      && r !in p.settlements && s in p.sessions && !p.sessions[s].finalized
      && p.sessions[s].spent + providerAmount + feeAmount <= p.sessions[s].allowance
    case OfferPublished(key, terms) => key !in p.offers && world.offer(key) == terms
    case _ => true
  }

  predicate Follows(world: World, p: Projection, log: Log) {
    log.id !in p.logs && Allowed(world, p, log.event)
  }

  ghost predicate WellFormed(world: World, logs: seq<Log>) {
    forall i :: 0 <= i < |logs| ==>
      var p := ProjectAll(world.feeRecipient, logs[..i]);
      p.Some? && Follows(world, p.value, logs[i])
  }

  lemma WellFormedPrefix(world: World, logs: seq<Log>, n: nat)
    requires WellFormed(world, logs) && n <= |logs|
    ensures WellFormed(world, logs[..n])
  {
    forall i | 0 <= i < n
      ensures var p := ProjectAll(world.feeRecipient, logs[..n][..i]);
              p.Some? && Follows(world, p.value, logs[..n][i])
    {
      assert logs[..n][..i] == logs[..i];
    }
  }

  /** A well-formed log never makes the projection fail. */
  lemma WellFormedProjects(world: World, logs: seq<Log>)
    requires WellFormed(world, logs)
    ensures ProjectAll(world.feeRecipient, logs).Some?
  {
    if logs != [] {
      var n := |logs| - 1;
      var p := ProjectAll(world.feeRecipient, logs[..n]);
      assert p.Some? && Follows(world, p.value, logs[n]);
    }
  }

  lemma ProjectAppend(feeRecipient: Address, logs: seq<Log>, log: Log)
    ensures ProjectAll(feeRecipient, logs + [log])
         == var before := ProjectAll(feeRecipient, logs);
            if before.None? then None else Record(before.value, feeRecipient, log)
  {
    assert (logs + [log])[..|logs|] == logs;
  }

  /** The stored identifiers are those of the log. */
  lemma {:induction false} StoredIds(feeRecipient: Address, logs: seq<Log>, id: LogId)
    requires ProjectAll(feeRecipient, logs).Some?
    ensures id in ProjectAll(feeRecipient, logs).value.logs <==> exists i :: 0 <= i < |logs| && logs[i].id == id
    decreases |logs|
  {
    if logs != [] {
      var n := |logs| - 1;
      StoredIds(feeRecipient, logs[..n], id);
      OneMoreId(ProjectAll(feeRecipient, logs[..n]).value, feeRecipient, logs[n]);
      if id == logs[n].id {
      } else if i :| 0 <= i < n && logs[..n][i].id == id {
        assert logs[i].id == id;
      } else {
        assert forall i :: 0 <= i < n ==> logs[i].id == logs[..n][i].id;
      }
    }
  }

  lemma OneMoreId(p: Projection, feeRecipient: Address, log: Log)
    requires Record(p, feeRecipient, log).Some?
    ensures Record(p, feeRecipient, log).value.logs == p.logs + {log.id}
  {
  }
}
