/** No session is ever committed beyond its allowance: what its holds lock plus what
    its settlements have spent stays within what the customer put up on chain. */
module Solvency {
  import opened Basics
  import opened Tables
  import opened Projecting
  import opened Ledger
  import opened Protocol
  import opened Coherence

  /** The sessions table row the indexed chain session stands for. */
  function SessionRow(account: AccountId, c: ChainSession): (row: Session)
    requires c.spent <= c.allowance
  {
    if c.finalized then Session(account, Closed, 0)
    else Session(account, if c.closeAt > 0 then Closing else Open, c.allowance - c.spent)
  }

  ghost predicate ChainSessionsOK(world: World, p: Projection) {
    && (forall s <- p.sessions ::
          && world.terms(s) == Terms(p.sessions[s].customer, p.sessions[s].allowance)
          && p.sessions[s].spent <= p.sessions[s].allowance
          && p.sessions[s].spent == SettledSum(p.settlements, s))
    && (forall r <- p.settlements :: p.settlements[r].session in p.sessions)
  }

  ghost predicate SessionsOK(world: World, db: Db) {
    && (forall s <- db.sessions ::
          && world.terms(s).customer in db.accounts && db.sessions[s].account == db.accounts[world.terms(s).customer]
          && db.sessions[s].balance + SettledSum(db.chain.settlements, s) <= world.terms(s).allowance
          && (s in db.chain.sessions && db.chain.sessions[s].spent <= db.chain.sessions[s].allowance ==>
                db.sessions[s] == SessionRow(db.accounts[world.terms(s).customer], db.chain.sessions[s])))
    && (forall r <- db.holds :: db.holds[r].session in db.sessions)
  }

  /** What a session is committed to: locked by holds, or spent by settlements. */
  ghost function Committed(db: Db, s: SessionId): (wei: nat) {
    HeldSum(db.holds, s) + SettledSum(db.chain.settlements, s)
  }

  ghost predicate Solvent(world: World, db: Db) {
    forall s <- db.sessions :: Committed(db, s) <= world.terms(s).allowance
  }

  lemma HeldChange(holds: map<RequestId, Hold>, r: RequestId, h: Hold, s: SessionId)
    ensures HeldSum(holds[r := h], s) == HeldSum(holds, s) - Held(holds, s, r) + Held(holds[r := h], s, r)
  {
    TotalChange(holds.Keys, k => Held(holds, s, k), holds[r := h].Keys, k => Held(holds[r := h], s, k), r);
  }

  lemma SettledChange(rows: map<RequestId, Settlement>, r: RequestId, row: Settlement, s: SessionId)
    ensures SettledSum(rows[r := row], s) == SettledSum(rows, s) - Spent(rows, s, r) + Spent(rows[r := row], s, r)
  {
    TotalChange(rows.Keys, k => Spent(rows, s, k), rows[r := row].Keys, k => Spent(rows[r := row], s, k), r);
  }

  /** A session no settlement names has spent nothing. */
  lemma NothingSpent(rows: map<RequestId, Settlement>, s: SessionId)
    requires forall r <- rows :: rows[r].session != s
    ensures SettledSum(rows, s) == 0
  {
    TotalZero(rows.Keys, k => Spent(rows, s, k));
  }

  lemma NothingHeld(holds: map<RequestId, Hold>, s: SessionId)
    requires forall r <- holds :: holds[r].session != s
    ensures HeldSum(holds, s) == 0
  {
    TotalZero(holds.Keys, k => Held(holds, s, k));
  }

  // ------------------------------------------------------------- the broker's steps

  /** The balance check of a reservation is enough even while the projection is being
      rebuilt and the balance is stale. */
  lemma AtServe(world: World, db: Db, v: Reservation)
    requires SessionsOK(world, db) && Solvent(world, db)
    requires ReserveInference(db, v).Commit?
    ensures var db' := ReserveInference(db, v).db; SessionsOK(world, db') && Solvent(world, db')
  {
    var db' := ReserveInference(db, v).db;
    forall s <- db'.sessions ensures Committed(db', s) <= world.terms(s).allowance {
      HeldChange(db.holds, v.request, db'.holds[v.request], s);
    }
  }

  /** Lowering or releasing a hold never commits more. */
  lemma AtRelief(world: World, db: Db, db': Db, r: RequestId)
    requires SessionsOK(world, db) && Solvent(world, db)
    requires r in db.holds && r in db'.holds && db'.holds == db.holds[r := db'.holds[r]]
    requires db'.holds[r].session == db.holds[r].session && db'.holds[r].amount <= db.holds[r].amount
    requires db.holds[r].released ==> db'.holds[r].released || db'.holds[r].amount == 0
    requires db'.sessions == db.sessions && db'.chain == db.chain && db'.accounts == db.accounts
    ensures SessionsOK(world, db') && Solvent(world, db')
  {
    forall s <- db'.sessions ensures Committed(db', s) <= world.terms(s).allowance {
      HeldChange(db.holds, r, db'.holds[r], s);
    }
  }

  lemma AtSame(world: World, db: Db, db': Db)
    requires SessionsOK(world, db) && Solvent(world, db)
    requires db'.holds == db.holds && db'.sessions == db.sessions && db'.chain == db.chain
    requires forall a <- db.accounts :: a in db'.accounts && db'.accounts[a] == db.accounts[a]
    ensures SessionsOK(world, db') && Solvent(world, db')
  {
    forall s <- db'.sessions ensures Committed(db', s) <= world.terms(s).allowance {
      assert Committed(db', s) == Committed(db, s);
    }
  }

  // ----------------------------------------------------------------- the indexer

  /** A settlement moves its charge from the hold to the projection. */
  lemma SettlementConserves(db: Db, pcs: map<RequestId, Pc>, feeRecipient: Address, log: Log, s: SessionId)
    requires Coherent(db, pcs)
    requires log.event.ReceiptSettled? && log.event.request !in db.chain.settlements && Matches(db, log.event)
    ensures ApplyLog(db, feeRecipient, log).Commit?
    ensures Committed(ApplyLog(db, feeRecipient, log).db, s) == Committed(db, s)
    ensures SettledSum(ApplyLog(db, feeRecipient, log).db.chain.settlements, s)
         == SettledSum(db.chain.settlements, s) + if s == log.event.session
           then log.event.providerAmount + log.event.feeAmount else 0
  {
    var e := log.event;
    var r := e.request;
    assert RowOK(db, pcs, r);
    var noted := SettlementApplies(db, feeRecipient, log);
    MarkKeeps(noted, r);
    assert MarkSettled(noted, r).holds == db.holds[r := db.holds[r].(released := true)];
    HeldChange(db.holds, r, db.holds[r].(released := true), s);
    SettledChange(db.chain.settlements, r, Settlement(e.session, e.provider, e.providerAmount, e.feeAmount), s);
  }

  lemma UnwindRow(db: Db, pcs: map<RequestId, Pc>, s: SessionId, r: RequestId)
    requires Coherent(db, pcs) && r in db.holds
    ensures Held(Reopen(db).holds, s, r) == Held(db.holds, s, r) + Spent(db.chain.settlements, s, r)
  {
    assert RowOK(db, pcs, r);
  }

  /** Unwinding moves every settled charge back to its hold. */
  lemma UnwindConserves(db: Db, pcs: map<RequestId, Pc>, s: SessionId)
    requires Coherent(db, pcs)
    ensures Committed(Reopen(db), s) == Committed(db, s)
    ensures SettledSum(Reopen(db).chain.settlements, s) == 0
  {
    var holds' := Reopen(db).holds;
    forall r | r in db.chain.settlements ensures r in db.holds { assert RowOK(db, pcs, r); }
    forall r <- db.holds ensures Held(holds', s, r) == Held(db.holds, s, r) + Spent(db.chain.settlements, s, r) {
      UnwindRow(db, pcs, s, r);
    }
    HeldAgain(db.holds, db.chain.settlements, holds', s);
    NothingSpent(map[], s);
  }

  lemma HeldAgain(holds: map<RequestId, Hold>, settled: map<RequestId, Settlement>, holds': map<RequestId, Hold>,
                  s: SessionId)
    requires settled.Keys <= holds.Keys == holds'.Keys
    requires forall r <- holds :: Held(holds', s, r) == Held(holds, s, r) + Spent(settled, s, r)
    ensures HeldSum(holds', s) == HeldSum(holds, s) + SettledSum(settled, s)
  {
    TotalWiden(settled.Keys, holds.Keys, r => Spent(settled, s, r));
    TotalPlus(holds.Keys, r => Held(holds, s, r), r => Spent(settled, s, r), r => Held(holds', s, r));
  }

  lemma AtUnwind(world: World, db: Db, pcs: map<RequestId, Pc>)
    requires Coherent(db, pcs) && SessionsOK(world, db) && Solvent(world, db)
    ensures var db' := Reopen(db);
            SessionsOK(world, db') && Solvent(world, db') && ChainSessionsOK(world, db'.chain)
  {
    var db' := Reopen(db);
    forall s <- db'.sessions
      ensures Committed(db', s) <= world.terms(s).allowance
      ensures SettledSum(db'.chain.settlements, s) == 0
    {
      UnwindConserves(db, pcs, s);
    }
  }

  /** The effect of a settlement on the tables that sessions live in. */
  predicate SettledTables(db: Db, db': Db, e: Event)
    requires e.ReceiptSettled? && e.session in db.chain.sessions && e.request in db.holds
  {
    && db'.accounts == db.accounts
    && db'.holds == db.holds[e.request := db.holds[e.request].(released := true)]
    && db'.chain.settlements == db.chain.settlements[e.request := Settlement(e.session, e.provider, e.providerAmount,
      e.feeAmount)]
    && db'.chain.sessions == db.chain.sessions[e.session :=
         db.chain.sessions[e.session].(spent := db.chain.sessions[e.session].spent + e.providerAmount + e.feeAmount)]
    && db'.sessions == SessionEffect(db, e)
  }

  /** And on the sums over them. */
  ghost predicate SettledInto(db: Db, db': Db, e: Event)
    requires e.ReceiptSettled? && e.session in db.chain.sessions && e.request in db.holds
  {
    && SettledTables(db, db', e)
    && (forall s :: SettledSum(db'.chain.settlements, s)
                 == SettledSum(db.chain.settlements, s) + if s == e.session then e.providerAmount + e.feeAmount else 0)
    && (forall s :: Committed(db', s) == Committed(db, s))
  }

  /** The rows a settlement touches, as far as sessions are concerned. */
  lemma SettledRows(world: World, db: Db, pcs: map<RequestId, Pc>, log: Log)
    requires Coherent(db, pcs)
    requires log.event.ReceiptSettled? && Allowed(world, db.chain, log.event) && Matches(db, log.event)
    ensures ApplyLog(db, world.feeRecipient, log).Commit?
    ensures log.event.request in db.holds && db.holds[log.event.request].session == log.event.session
    ensures SettledTables(db, ApplyLog(db, world.feeRecipient, log).db, log.event)
  {
    Coherence.AtSettlement(db, pcs, world.feeRecipient, log);
    assert RowOK(db, pcs, log.event.request);
  }

  lemma IntoSettled(world: World, db: Db, pcs: map<RequestId, Pc>, log: Log)
    requires Coherent(db, pcs)
    requires log.event.ReceiptSettled? && Allowed(world, db.chain, log.event) && Matches(db, log.event)
    ensures ApplyLog(db, world.feeRecipient, log).Commit?
    ensures log.event.request in db.holds && db.holds[log.event.request].session == log.event.session
    ensures SettledInto(db, ApplyLog(db, world.feeRecipient, log).db, log.event)
  {
    SettledRows(world, db, pcs, log);
    var db' := ApplyLog(db, world.feeRecipient, log).db;
    forall s ensures SettledSum(db'.chain.settlements, s) == SettledSum(db.chain.settlements, s)
                     + if s == log.event.session then log.event.providerAmount + log.event.feeAmount else 0
             ensures Committed(db', s) == Committed(db, s) {
      SettlementConserves(db, pcs, world.feeRecipient, log, s);
    }
  }

  lemma ChainAfterSettlement(world: World, db: Db, db': Db, e: Event)
    requires ChainSessionsOK(world, db.chain)
    requires e.ReceiptSettled? && Allowed(world, db.chain, e) && e.request in db.holds && SettledInto(db, db', e)
    ensures ChainSessionsOK(world, db'.chain)
  {
  }

  lemma SessionsAfterSettlement(world: World, db: Db, db': Db, e: Event)
    requires ChainSessionsOK(world, db.chain) && SessionsOK(world, db)
    requires e.ReceiptSettled? && Allowed(world, db.chain, e) && e.request in db.holds && SettledInto(db, db', e)
    requires e.session in db.sessions
    ensures e.providerAmount + e.feeAmount <= db.sessions[e.session].balance
    ensures SessionsOK(world, db')
  {
    var c, row := e.providerAmount + e.feeAmount, db.sessions[e.session];
    assert row.balance == db.chain.sessions[e.session].allowance - db.chain.sessions[e.session].spent;
    assert db'.sessions == db.sessions[e.session := row.(balance := row.balance - c)];
    forall s <- db'.sessions
      ensures db'.sessions[s].balance + SettledSum(db'.chain.settlements, s) <= world.terms(s).allowance {}
  }

  /** Indexing a settlement leaves the session row at what remains of the allowance:
      the clamp at zero is never needed. */
  lemma AtSettlement(world: World, db: Db, pcs: map<RequestId, Pc>, log: Log)
    requires Coherent(db, pcs) && ChainSessionsOK(world, db.chain) && SessionsOK(world, db) && Solvent(world, db)
    requires log.event.ReceiptSettled? && Allowed(world, db.chain, log.event) && Matches(db, log.event)
    ensures ApplyLog(db, world.feeRecipient, log).Commit?
    ensures var db' := ApplyLog(db, world.feeRecipient, log).db;
            ChainSessionsOK(world, db'.chain) && SessionsOK(world, db') && Solvent(world, db')
    ensures log.event.session in db.sessions
         && log.event.providerAmount + log.event.feeAmount <= db.sessions[log.event.session].balance
  {
    IntoSettled(world, db, pcs, log);
    var db' := ApplyLog(db, world.feeRecipient, log).db;
    ChainAfterSettlement(world, db, db', log.event);
    SessionsAfterSettlement(world, db, db', log.event);
  }

  /** An opened session starts, or starts again, from its whole allowance. */
  lemma AtOpened(world: World, db: Db, log: Log)
    requires ChainSessionsOK(world, db.chain) && SessionsOK(world, db) && Solvent(world, db)
    requires log.event.SessionOpened? && Allowed(world, db.chain, log.event)
    ensures ApplyLog(db, world.feeRecipient, log).Commit?
    ensures var db' := ApplyLog(db, world.feeRecipient, log).db;
            ChainSessionsOK(world, db'.chain) && SessionsOK(world, db') && Solvent(world, db')
  {
    OpeningRows(db, world.feeRecipient, log);
    AtOpening(world, db, ApplyLog(db, world.feeRecipient, log).db, log.event.session);
  }

  /** One session appears, and its row if its customer is enrolled. */
  ghost predicate Opening(db: Db, db': Db, s: SessionId, terms: Terms) {
    && db' == db.(chain := db'.chain, sessions := db'.sessions) && db'.chain.settlements == db.chain.settlements
    && db'.chain.sessions == db.chain.sessions[s := ChainSession(terms.customer, terms.allowance, 0, 0, false)]
    && db'.sessions == if terms.customer in db.accounts
                       then db.sessions[s := Session(db.accounts[terms.customer], Open, terms.allowance)]
                         else db.sessions
  }

  lemma OpeningRows(db: Db, feeRecipient: Address, log: Log)
    requires log.event.SessionOpened? && log.event.session !in db.chain.sessions
    ensures ApplyLog(db, feeRecipient, log).Commit?
    ensures Opening(db, ApplyLog(db, feeRecipient, log).db, log.event.session,
            Terms(log.event.customer, log.event.allowance))
  {
  }

  lemma AtOpening(world: World, db: Db, db': Db, s: SessionId)
    requires ChainSessionsOK(world, db.chain) && SessionsOK(world, db) && Solvent(world, db)
    requires s !in db.chain.sessions && Opening(db, db', s, world.terms(s))
    ensures ChainSessionsOK(world, db'.chain) && SessionsOK(world, db') && Solvent(world, db')
  {
    NothingSpent(db.chain.settlements, s);
    if s !in db.sessions { NothingHeld(db.holds, s); }
    forall other <- db'.sessions ensures Committed(db', other) <= world.terms(other).allowance {
      assert Committed(db', other) == Committed(db, other);
    }
    OpenedSessions(world, db, db', s);
  }

  lemma OpenedSessions(world: World, db: Db, db': Db, s: SessionId)
    requires ChainSessionsOK(world, db.chain) && SessionsOK(world, db) && SettledSum(db.chain.settlements, s) == 0
    requires s !in db.chain.sessions && Opening(db, db', s, world.terms(s))
    ensures ChainSessionsOK(world, db'.chain) && SessionsOK(world, db')
  {
  }

  lemma AtOtherLog(world: World, db: Db, log: Log)
    requires ChainSessionsOK(world, db.chain) && SessionsOK(world, db) && Solvent(world, db)
    requires !log.event.SessionOpened? && !log.event.ReceiptSettled? && Allowed(world, db.chain, log.event)
    ensures ApplyLog(db, world.feeRecipient, log).Commit?
    ensures var db' := ApplyLog(db, world.feeRecipient, log).db;
            ChainSessionsOK(world, db'.chain) && SessionsOK(world, db') && Solvent(world, db')
  {
    if log.event.SessionClosed? || log.event.SessionCloseRequested? {
      ClosingRows(world, db, log);
      AtSessionChange(world, db, ApplyLog(db, world.feeRecipient, log).db, log.event.session);
    } else {
      AtNeutralLog(world, db, log);
    }
  }

  /** The one session a closing entry speaks of, on chain and in the broker's table. */
  lemma ClosingRows(world: World, db: Db, log: Log)
    requires ChainSessionsOK(world, db.chain) && SessionsOK(world, db) && Allowed(world, db.chain, log.event)
    requires log.event.SessionClosed? || log.event.SessionCloseRequested?
    ensures ApplyLog(db, world.feeRecipient, log).Commit?
    ensures SessionChange(db, ApplyLog(db, world.feeRecipient, log).db, log.event.session)
  {
  }

  /** One session moves on, its row along with it; the rest is as it was. */
  ghost predicate SessionChange(db: Db, db': Db, s: SessionId) {
    && db' == db.(chain := db'.chain, sessions := db'.sessions) && db'.chain.settlements == db.chain.settlements
    && s in db.chain.sessions && s in db'.chain.sessions
    && db'.chain.sessions == db.chain.sessions[s := db'.chain.sessions[s]]
    && (var before, after := db.chain.sessions[s], db'.chain.sessions[s];
        after == before.(closeAt := after.closeAt, finalized := after.finalized)
        && after.spent <= after.allowance
        && (if s in db.sessions
            then db'.sessions == db.sessions[s := SessionRow(db.sessions[s].account, after)]
            else db'.sessions == db.sessions))
  }

  lemma AtSessionChange(world: World, db: Db, db': Db, s: SessionId)
    requires ChainSessionsOK(world, db.chain) && SessionsOK(world, db) && Solvent(world, db)
             && SessionChange(db, db', s)
    ensures ChainSessionsOK(world, db'.chain) && SessionsOK(world, db') && Solvent(world, db')
  {
    forall other ensures Committed(db', other) == Committed(db, other) {}
  }

  lemma AtNeutralLog(world: World, db: Db, log: Log)
    requires ChainSessionsOK(world, db.chain) && SessionsOK(world, db) && Solvent(world, db) && !OfSession(log.event)
    ensures ApplyLog(db, world.feeRecipient, log).Commit?
    ensures var db' := ApplyLog(db, world.feeRecipient, log).db;
            ChainSessionsOK(world, db'.chain) && SessionsOK(world, db') && Solvent(world, db')
  {
    var db' := ApplyLog(db, world.feeRecipient, log).db;
    assert db' == db.(chain := db'.chain);
    forall s ensures Committed(db', s) == Committed(db, s) {}
  }

  lemma MoreLogIds(world: World, db: Db, id: LogId)
    requires ChainSessionsOK(world, db.chain) && SessionsOK(world, db) && Solvent(world, db)
    ensures var db' := db.(chain := db.chain.(logs := db.chain.logs + {id}));
            ChainSessionsOK(world, db'.chain) && SessionsOK(world, db') && Solvent(world, db')
  {
    var db' := db.(chain := db.chain.(logs := db.chain.logs + {id}));
    forall s ensures Committed(db', s) == Committed(db, s) {}
  }
}
