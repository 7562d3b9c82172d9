/** The broker's transactions as they run: statements on a private copy of the tables,
    which replaces the shared ones when, and only when, the commit lands. */
module Storage {
  import opened Basics
  import opened Charging
  import opened Tables
  import opened Ledger
  import opened Protocol
  import opened Decimals

  /** What a caller is told. Unknown: the commit failed, or its answer was lost. */
  datatype Outcome = Fine | Denied(error: Error) | Unknown

  /** What a call may say, given what its transaction came to. A call that found its
      work done already, and so had nothing to commit, says so whatever happens. */
  predicate Told<T>(outcome: Outcome, db: Db, result: TxResult<T>, landing: Landing) {
    if result.Rollback? then outcome == Denied(result.error)
    else if landing == Done then outcome.Fine?
    else outcome.Unknown? || (outcome.Fine? && result.db == db)
  }

  // ------------------------------------------------------------------------ queries

  method SumHeld(holds: map<RequestId, Hold>, session: SessionId) returns (sum: nat)
    ensures sum == HeldSum(holds, session)
  {
    var rows := holds.Keys;
    ghost var column := r => Held(holds, session, r);
    sum := 0;
    while rows != {}
      invariant rows <= holds.Keys
      invariant sum + Total(rows, column) == HeldSum(holds, session)
      decreases rows
    {
      ghost var some := Pick(rows);
      assert some in rows;
      var r :| r in rows;
      TotalRemove(rows, column, r);
      sum := sum + Held(holds, session, r);
      rows := rows - {r};
    }
  }

  method AnyExecuting(tx: Db, key: RouteKey) returns (busy: bool)
    ensures busy <==> Occupants(tx, key) != {}
  {
    var rows := tx.requests.Keys;
    busy := false;
    while rows != {} && !busy
      invariant rows <= tx.requests.Keys
      invariant busy ==> Occupants(tx, key) != {}
      invariant !busy ==> forall r <- Occupants(tx, key) :: r in rows
      decreases rows, !busy
    {
      ghost var some := Pick(rows);
      assert some in rows;
      var r :| r in rows;
      if Occupies(tx, key, r) {
        assert r in Occupants(tx, key);
        busy := true;
      }
      rows := rows - {r};
    }
    if !busy { assert Occupants(tx, key) == {}; }
  }

  method HighestNonce(nonces: map<RequestId, Nonce>, provider: Address) returns (n: nat)
    ensures n == Highest(nonces.Keys, nonces, provider)
  {
    var rows := nonces.Keys;
    n := 0;
    while rows != {}
      invariant rows <= nonces.Keys
      invariant forall r <- nonces.Keys - rows :: nonces[r].provider == provider ==> nonces[r].number <= n
      invariant n == 0 || exists r :: r in nonces && nonces[r].provider == provider && nonces[r].number == n
      decreases rows
    {
      ghost var some := Pick(rows);
      assert some in rows;
      var r :| r in rows;
      if nonces[r].provider == provider && nonces[r].number > n { n := nonces[r].number; }
      rows := rows - {r};
    }
  }

  method FindWallet(accounts: map<Address, AccountId>, account: AccountId) returns (wallet: Option<Address>)
    requires OneWalletEach(accounts)
    ensures wallet.Some? <==> exists w :: WalletOf(accounts, account, w)
    ensures wallet.Some? ==> wallet.value == WalletFor(accounts, account)
  {
    var rows := accounts.Keys;
    wallet := None;
    while rows != {} && wallet.None?
      invariant rows <= accounts.Keys
      invariant wallet.Some? ==> WalletOf(accounts, account, wallet.value)
      invariant wallet.None? ==> forall w :: WalletOf(accounts, account, w) ==> w in rows
      decreases rows
    {
      ghost var some := Pick(rows);
      assert some in rows;
      var w :| w in rows;
      if accounts[w] == account { wallet := Some(w); assert WalletOf(accounts, account, w); }
      rows := rows - {w};
    }
  }

  /** WorstCaseCost on rates read back from the database as text. */
  method WorstCase(rates: Rates, limits: Usage) returns (worst: Option<nat>)
    requires limits.input > 0 && limits.output > 0 && limits.compute > 0
    ensures worst == Cost(rates, limits)
  {
    WorstCaseOnStoredRates(rates, limits);
    var cost := WorstCaseCost(Card(rates), limits);
    worst := if cost.Charged? then Some(cost.wei) else None;
  }

  method ChargeFor(rates: Rates, usage: Usage) returns (total: Option<nat>)
    ensures total == Cost(rates, usage)
  {
    ChargeOnStoredRates(rates, usage);
    var charge := ExactCharge(usage, Card(rates));
    total := if charge.Charged? then Some(charge.wei) else None;
  }

  // ------------------------------------------------------------------- transactions

  class Store {
    var db: Db

    ghost predicate Valid()
      reads this
    {
      OneWalletEach(db.accounts)
    }

    constructor ()
      ensures Valid() && db == EMPTY_DB
    {
      db := EMPTY_DB;
    }

    method Commit(tx: Db, landing: Landing) returns (outcome: Outcome)
      modifies this
      ensures db == if landing == Lost then old(db) else tx
      ensures outcome == if landing == Done then Fine else Unknown
    {
      if landing != Lost { db := tx; }
      outcome := if landing == Done then Fine else Unknown;
    }

    method ReserveInference(v: Reservation, landing: Landing) returns (outcome: Outcome)
      requires Valid()
      modifies this
      ensures Valid() && db == After(old(db), Ledger.ReserveInference(old(db), v), landing)
      ensures Told(outcome, old(db), Ledger.ReserveInference(old(db), v), landing) && (outcome.Fine? ==>
                landing == Done)
    {
      if v.limits.input == 0 || v.limits.output == 0 || v.limits.compute == 0 { return Denied(IneligibleRoute); }
      var tx := db;
      if v.session !in tx.sessions { return Denied(NoRows); }
      var session := tx.sessions[v.session];
      if session.account != v.account || session.status != Open { return Denied(InsufficientBalance); }
      var locked := SumHeld(tx.holds, v.session);
      if locked > session.balance { return Denied(InsufficientBalance); }
      if !Routable(tx, v) { return Denied(IneligibleRoute); }
      var key := Key(v);
      var route := tx.routes[key];
      var cost := WorstCase(route.rates, v.limits);
      if cost.None? || cost.value == 0 || cost.value > v.maximumSpend { return Denied(IneligibleRoute); }
      var worst := cost.value;
      if worst > session.balance - locked { return Denied(InsufficientBalance); }
      tx := tx.(routes := tx.routes[key := route.(capacity := route.capacity - 1)]);
      if route.hashes.None? { return Denied(IneligibleRoute); }
      if v.request in tx.requests { return Denied(Duplicate); }
      tx := tx.(requests := tx.requests[v.request :=
        Request(v.session, v.machine, v.offer, v.version, Created, worst, v.limits, route.hashes.value)]);
      if v.request in tx.holds { return Denied(Duplicate); }
      tx := tx.(holds := tx.holds[v.request := Hold(v.session, worst, false)]);
      tx := SetState(tx, v.request, Reserved);
      tx := SetState(tx, v.request, Offered);
      assert tx == Reserve(db, v, worst, route.hashes.value);
      outcome := Commit(tx, landing);
    }

    method TransitionRequest(r: RequestId, to: RequestState, landing: Landing) returns (outcome: Outcome)
      requires Valid()
      modifies this
      ensures Valid() && db == After(old(db), Ledger.TransitionRequest(old(db), r, to), landing)
      ensures Told(outcome, old(db), Ledger.TransitionRequest(old(db), r, to), landing) && (outcome.Fine? ==>
                landing == Done)
    {
      var tx := db;
      if r !in tx.requests { return Denied(NoRows); }
      var current := tx.requests[r].state;
      if !Transition(current, to) { return Denied(InvalidTransition); }
      tx := tx.(requests := tx.requests[r := tx.requests[r].(state := to)]);
      tx := tx.(outbox := tx.outbox + [Notice(r, current, to)]);
      outcome := Commit(tx, landing);
    }

    method CompleteInference(r: RequestId, p: Proposal, landing: Landing) returns (outcome: Outcome)
      requires Valid()
      modifies this
      ensures Valid() && db == After(old(db), Ledger.CompleteInference(old(db), r, p), landing)
      ensures Told(outcome, old(db), Ledger.CompleteInference(old(db), r, p), landing)
    {
      var tx := db;
      if r in tx.requests && tx.requests[r].session == p.session && tx.requests[r].state == Streaming
         && Within(p.usage, tx.requests[r].limits) {
        tx := tx.(requests := tx.requests[r := tx.requests[r].(state := Completed)]);
      } else {
        if r in tx.proposals { return Fine; }
        if r in tx.requests && tx.requests[r].state == Streaming && !Within(p.usage, tx.requests[r].limits) {
          return Denied(UsageLimitExceeded);
        }
        return Denied(InvalidTransition);
      }
      if r in tx.proposals { return Denied(Duplicate); }
      tx := tx.(proposals := tx.proposals[r := p]);
      tx := tx.(routes := FreeSlot(tx.routes, RouteKey(p.machine, p.offer)));
      tx := tx.(outbox := tx.outbox + [Notice(r, Streaming, Completed)]);
      outcome := Commit(tx, landing);
    }

    method AbortInference(r: RequestId, to: RequestState, landing: Landing) returns (outcome: Outcome)
      requires Valid()
      modifies this
      ensures Valid() && db == After(old(db), Ledger.AbortInference(old(db), r, to), landing)
      ensures Told(outcome, old(db), Ledger.AbortInference(old(db), r, to), landing)
    {
      if to != Failed && to != Cancelled { return Denied(InvalidTransition); }
      var tx := db;
      if r !in tx.requests { return Denied(NoRows); }
      var state, key := tx.requests[r].state, RouteKey(tx.requests[r].machine, tx.requests[r].offer);
      if state == to { return Fine; }
      if !Transition(state, to) { return Denied(InvalidTransition); }
      tx := tx.(requests := tx.requests[r := tx.requests[r].(state := to)]);
      var released := r in tx.holds && !tx.holds[r].released;
      if released {
        tx := tx.(holds := tx.holds[r := tx.holds[r].(released := true)]);
      }
      if released && Executing(state) {
        tx := tx.(routes := FreeSlot(tx.routes, key));
      }
      tx := tx.(outbox := tx.outbox + [Notice(r, state, to)]);
      assert tx == Ended(db, r, to);
      outcome := Commit(tx, landing);
    }

    method PrepareReceipt(r: RequestId, domain: Domain, landing: Landing)
                          returns (outcome: Outcome, receipt: Option<Receipt>)
      requires Valid()
      modifies this
      ensures Valid() && db == After(old(db), Ledger.PrepareReceipt(old(db), r, domain), landing)
      ensures Told(outcome, old(db), Ledger.PrepareReceipt(old(db), r, domain), landing)
      ensures outcome.Fine? ==> landing == Done
      ensures receipt == if outcome.Fine? then Some(Ledger.PrepareReceipt(old(db), r, domain).value) else None
    {
      receipt := None;
      if !domain.valid || domain.feeVersion == 0 || domain.feeBasisPoints > MAXIMUM_FEE_BASIS_POINTS {
        return Denied(InvalidReceipt), None;
      }
      var tx := db;
      if r !in tx.proposals || r !in tx.requests || tx.requests[r].state != Completed { return Denied(NoRows), None; }
      var p, request := tx.proposals[r], tx.requests[r];
      if p.session !in tx.sessions || p.machine !in tx.machines
        || tx.machines[p.machine].revoked { return Denied(NoRows), None; }
      var customer := FindWallet(tx.accounts, tx.sessions[p.session].account);
      if customer.None? { return Denied(NoRows), None; }
      assert Preparable(db, r);
      var provider := tx.machines[p.machine].wallet;
      var rates := PublishedRates(tx, r);
      if rates.None? { return Denied(NoRows), None; }
      var charge := ChargeFor(rates.value, p.usage);
      if charge.None? { return Denied(InvalidReceipt), None; }
      var total := charge.value;
      if total > request.maximumSpend { return Denied(Error.MaximumExceeded), None; }
      if r !in tx.holds || tx.holds[r].amount < total { return Denied(Error.MaximumExceeded), None; }
      tx := tx.(holds := tx.holds[r := tx.holds[r].(amount := total, released := total == 0)]);
      if r !in tx.nonces {
        var highest := HighestNonce(tx.nonces, provider);
        tx := tx.(nonces := tx.nonces[r := Nonce(provider, highest + 1)]);
      }
      var drafted := Receipt(r, p.session, customer.value, provider, domain.signer, p.version, request.hashes, p.usage,
                             request.maximumSpend, total, domain.feeBasisPoints, domain.feeVersion, p.completedAt,
                             p.inputHash, p.outputHash, tx.nonces[r].number);
      assert drafted == ReceiptOf(db, r, domain, total);
      if !ValidReceipt(drafted) { return Denied(InvalidReceipt), None; }
      assert tx.nonces == Prepare(db, r, total).nonces;
      assert tx == Prepare(db, r, total);
      outcome := Commit(tx, landing);
      if outcome.Fine? { receipt := Some(drafted); }
    }

    // ------------------------------------------------------------------ heartbeats

    /** One advert of a heartbeat, on the transaction's copy. */
    method RouteOffer(tx: Db, m: MachineId, available: nat, advert: Advert) returns (after: Db)
      requires m in tx.machines
      ensures after == RouteAdvert(tx, m, available, advert)
    {
      if advert.hashes.None? { return tx; }
      var key := RouteKey(m, advert.offer);
      if !EvidenceEligible(tx, key, advert) { return tx; }
      var rates := AdvertRates(tx, tx.machines[m].wallet, advert);
      if rates.None? { return tx; }
      var slots := 0;
      if available > 0 {
        slots := 1;
        var busy := AnyExecuting(tx, key);
        if busy { slots := 0; }
      }
      after := tx.(routes := tx.routes[key :=
        Route(advert.version, true, true, slots, rates.value, advert.hashes, EvidenceOf(advert))]);
    }

    method ReconcileProviderCapacity(m: MachineId, beat: Heartbeat, landing: Landing) returns (outcome: Outcome)
      requires Valid()
      modifies this
      ensures Valid() && db == After(old(db), ReconcileCapacity(old(db), m, beat), landing)
      ensures Told(outcome, old(db), ReconcileCapacity(old(db), m, beat), landing)
    {
      if !beat.valid { return Denied(IneligibleRoute); }
      var tx := db.(routes := Drain(db.routes, m));
      if m !in tx.machines || tx.machines[m].revoked { return Denied(NoRows); }
      var machine := tx.machines[m];
      if machine.wallet != machine.signer {
        var pair := (machine.wallet, machine.signer);
        if pair !in tx.chain.signers || !tx.chain.signers[pair] { return Denied(IneligibleRoute); }
      }
      ghost var drained := tx;
      for i := 0 to |beat.adverts|
        invariant RouteAll(drained, m, beat.available, beat.adverts[..i]) == Some(tx)
        invariant db == old(db) && tx.(routes := db.routes) == db
      {
        var advert := beat.adverts[i];
        AdvertsMore(drained, m, beat.available, beat.adverts, i);
        if advert.hashes.Some? && !advert.genuine {
          AdvertsFail(drained, m, beat.available, beat.adverts, i + 1);
          return Denied(IneligibleRoute);
        }
        tx := RouteOffer(tx, m, beat.available, advert);
      }
      assert beat.adverts[..|beat.adverts|] == beat.adverts;
      outcome := Commit(tx, landing);
    }
  }

  lemma AdvertsMore(db: Db, m: MachineId, available: nat, adverts: seq<Advert>, i: nat)
    requires m in db.machines && i < |adverts|
    ensures RouteAll(db, m, available, adverts[..i + 1])
         == var before := RouteAll(db, m, available, adverts[..i]);
            if before.None? || (adverts[i].hashes.Some? && !adverts[i].genuine) then None
            else Some(RouteAdvert(before.value, m, available, adverts[i]))
  {
    assert adverts[..i + 1][..i] == adverts[..i];
  }

  lemma AdvertsFail(db: Db, m: MachineId, available: nat, adverts: seq<Advert>, i: nat)
    requires m in db.machines && i <= |adverts| && RouteAll(db, m, available, adverts[..i]).None?
    ensures RouteAll(db, m, available, adverts).None?
    decreases |adverts| - i
  {
    if i < |adverts| {
      AdvertsMore(db, m, available, adverts, i);
      AdvertsFail(db, m, available, adverts, i + 1);
    } else {
      assert adverts[..i] == adverts;
    }
  }
}
