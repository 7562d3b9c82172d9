/** Unwinding the projection and indexing the same log again brings every table back. */
module Restoring {
  import opened Basics
  import opened Tables
  import opened Projecting
  import opened Ledger
  import opened Protocol
  import opened Coherence
  import opened Safety
  import Solvency

  /** All that indexing may do to the broker's own rows. */
  ghost predicate OnlySettles(db: Db, db': Db) {
    && db'.accounts == db.accounts && db'.machines == db.machines && db'.routes == db.routes
    && db'.proposals == db.proposals && db'.nonces == db.nonces
    && db'.requests.Keys == db.requests.Keys && db'.holds.Keys == db.holds.Keys && db'.queue.Keys == db.queue.Keys
    && (forall r <- db.requests :: db'.requests[r] == db.requests[r]
          || (r in db'.chain.settlements && db.requests[r].state == Submitted
            && db'.requests[r] == db.requests[r].(state := Settled)))
    && (forall r <- db.holds :: db'.holds[r] == db.holds[r]
          || (r in db'.chain.settlements && db'.holds[r] == db.holds[r].(released := true)))
    && (forall r <- db.queue :: db'.queue[r] == db.queue[r]
          || (r in db'.chain.settlements && db'.queue[r] == db.queue[r].(state := QueueSettled)))
    && db.chain.settlements.Keys <= db'.chain.settlements.Keys
  }

  /** All that indexing may do to the sessions table. */
  ghost predicate OnlyOpens(db: Db, db': Db) {
    && db'.accounts == db.accounts
    && (forall s <- db.chain.sessions :: s in db'.chain.sessions
          && db'.chain.sessions[s].customer == db.chain.sessions[s].customer)
    && (forall s :: s in db'.sessions <==>
          s in db.sessions || (s in db'.chain.sessions && s !in db.chain.sessions
            && db'.chain.sessions[s].customer in db.accounts))
    && (forall s <- db.sessions :: s !in db'.chain.sessions ==> db'.sessions[s] == db.sessions[s])
  }

  lemma EntrySettles(db: Db, feeRecipient: Address, log: Log)
    requires IndexLog(db, feeRecipient, log).Commit?
    ensures OnlySettles(db, IndexLog(db, feeRecipient, log).db)
  {
    if log.id !in db.chain.logs {
      var noted := db.(chain := db.chain.(logs := db.chain.logs + {log.id}));
      if log.event.ReceiptSettled? && log.event.request !in noted.chain.settlements {
        NewSettles(noted, feeRecipient, log);
      } else {
        OldSettles(noted, feeRecipient, log);
      }
      NotedSettles(db, noted, ApplyLog(noted, feeRecipient, log).db);
    }
  }

  lemma NewSettles(db: Db, feeRecipient: Address, log: Log)
    requires ApplyLog(db, feeRecipient, log).Commit? && log.event.ReceiptSettled?
             && log.event.request !in db.chain.settlements
    ensures OnlySettles(db, ApplyLog(db, feeRecipient, log).db)
  {
    var projected := SettlementApplies(db, feeRecipient, log);
    SettlementEntry(db, feeRecipient, log, projected);
    NotedSettles(db, projected, MarkSettled(projected, log.event.request));
  }

  lemma OldSettles(db: Db, feeRecipient: Address, log: Log)
    requires ApplyLog(db, feeRecipient, log).Commit? && (log.event.ReceiptSettled? ==>
               log.event.request in db.chain.settlements)
    ensures OnlySettles(db, ApplyLog(db, feeRecipient, log).db)
  {
    if !log.event.ReceiptSettled? {
      OtherLogKeeps(db, feeRecipient, log);
    }
  }

  lemma SettlementEntry(db: Db, feeRecipient: Address, log: Log, noted: Db)
    requires log.event.ReceiptSettled? && log.event.request !in db.chain.settlements
    requires noted.chain == Project(db.chain, feeRecipient, log).value
    ensures OnlySettles(noted, MarkSettled(noted, log.event.request))
    ensures db.chain.settlements.Keys <= noted.chain.settlements.Keys
  {
    assert noted.chain.settlements.Keys == db.chain.settlements.Keys + {log.event.request};
    MarkEntry(noted, log.event.request);
  }

  lemma NotedSettles(db: Db, noted: Db, db': Db)
    requires OnlySettles(noted, db') && noted == db.(chain := noted.chain, sessions := noted.sessions)
    requires db.chain.settlements.Keys <= noted.chain.settlements.Keys
    ensures OnlySettles(db, db')
  {
  }

  lemma MarkEntry(db: Db, r: RequestId)
    requires r in db.chain.settlements
    ensures OnlySettles(db, MarkSettled(db, r))
  {
    MarkKeeps(db, r);
  }

  lemma SettlesTwice(a: Db, b: Db, c: Db)
    requires OnlySettles(a, b) && OnlySettles(b, c)
    ensures OnlySettles(a, c)
  {
  }

  lemma EntryOpens(world: World, db: Db, log: Log)
    requires IndexLog(db, world.feeRecipient, log).Commit? && Follows(world, db.chain, log)
    ensures OnlyOpens(db, IndexLog(db, world.feeRecipient, log).db)
  {
    var noted := db.(chain := db.chain.(logs := db.chain.logs + {log.id}));
    ApplyOpens(world, noted, log);
    NotedOpens(db, noted, IndexLog(db, world.feeRecipient, log).db);
  }

  lemma NotedOpens(db: Db, noted: Db, db': Db)
    requires OnlyOpens(noted, db')
    requires noted.accounts == db.accounts && noted.sessions == db.sessions && noted.chain.sessions == db.chain.sessions
    ensures OnlyOpens(db, db')
  {
  }

  lemma ApplyOpens(world: World, db: Db, log: Log)
    requires ApplyLog(db, world.feeRecipient, log).Commit? && Allowed(world, db.chain, log.event)
    ensures OnlyOpens(db, ApplyLog(db, world.feeRecipient, log).db)
  {
    EventOpens(world, db, log);
    if log.event.ReceiptSettled? { SettlementOpens(db, world.feeRecipient, log); }
  }

  lemma SettlementOpens(db: Db, feeRecipient: Address, log: Log)
    requires log.event.ReceiptSettled? && log.event.request !in db.chain.settlements
             && ApplyLog(db, feeRecipient, log).Commit?
    ensures var db' := ApplyLog(db, feeRecipient, log).db;
            && db'.accounts == db.accounts && db'.sessions == SessionEffect(db, log.event)
            && Some(db'.chain) == Project(db.chain, feeRecipient, log)
  {
  }

  lemma EventOpens(world: World, db: Db, log: Log)
    requires Allowed(world, db.chain, log.event) && Project(db.chain, world.feeRecipient, log).Some?
    ensures OnlyOpens(db, db.(chain := Project(db.chain, world.feeRecipient, log).value,
            sessions := SessionEffect(db, log.event)))
  {
    if log.event.SessionOpened? {
      SessionOpens(world, db, log);
    } else if log.event.SessionClosed? || log.event.SessionCloseRequested? || log.event.ReceiptSettled? {
      SessionMoves(world, db, log);
    }
  }

  lemma SessionOpens(world: World, db: Db, log: Log)
    requires log.event.SessionOpened? && Allowed(world, db.chain, log.event)
    ensures OnlyOpens(db, db.(chain := Project(db.chain, world.feeRecipient, log).value,
            sessions := SessionEffect(db, log.event)))
  {
    var after := Project(db.chain, world.feeRecipient, log).value;
    assert after.sessions.Keys == db.chain.sessions.Keys + {log.event.session};
  }

  lemma SessionMoves(world: World, db: Db, log: Log)
    requires log.event.SessionClosed? || log.event.SessionCloseRequested? || log.event.ReceiptSettled?
    requires Allowed(world, db.chain, log.event) && Project(db.chain, world.feeRecipient, log).Some?
    ensures OnlyOpens(db, db.(chain := Project(db.chain, world.feeRecipient, log).value,
            sessions := SessionEffect(db, log.event)))
  {
    var after := Project(db.chain, world.feeRecipient, log).value;
    assert after.sessions.Keys == db.chain.sessions.Keys;
    assert SessionEffect(db, log.event).Keys == db.sessions.Keys;
  }

  lemma OpensTwice(a: Db, b: Db, c: Db)
    requires OnlyOpens(a, b) && OnlyOpens(b, c)
    ensures OnlyOpens(a, c)
  {
  }

  lemma StretchSettles(db: Db, feeRecipient: Address, logs: seq<Log>)
    requires IndexLogs(db, feeRecipient, logs).Commit?
    ensures OnlySettles(db, IndexLogs(db, feeRecipient, logs).db)
  {
    var step := Entries(feeRecipient);
    var P: (nat, Db) -> bool := (_: nat, d: Db) => OnlySettles(db, d);
    forall n, d | 0 <= n < |logs| && P(n, d) && step(d, logs[n]).Commit? ensures P(n + 1, step(d, logs[n]).db) {
      EntrySettles(d, feeRecipient, logs[n]);
      SettlesTwice(db, d, step(d, logs[n]).db);
    }
    FoldRelates(step, db, logs, P);
  }

  lemma CursorAside(db: Db, db': Db, cursor: Option<Cursor>)
    requires OnlySettles(db, db')
    ensures OnlySettles(db, db'.(cursor := cursor))
  {
  }

  lemma EntryProjects(db: Db, feeRecipient: Address, log: Log)
    requires IndexLog(db, feeRecipient, log).Commit?
    ensures Some(IndexLog(db, feeRecipient, log).db.chain) == Record(db.chain, feeRecipient, log)
  {
  }

  ghost function Opening(world: World, pcs: map<RequestId, Pc>, broadcast: set<Transaction>, log: seq<Log>,
                         db: Db): (holds: (nat, Db) -> bool) {
    (n: nat, d: Db) => StandsAt(world, d, pcs, broadcast, log, n) && OnlyOpens(db, d)
  }

  /** Entry `n` of a well-formed log, on tables that project the entries before it. */
  lemma NextOpens(world: World, pcs: map<RequestId, Pc>, broadcast: set<Transaction>, db: Db, d: Db, log: seq<Log>,
                  n: nat)
    requires WellFormed(world, log) && AllBacked(log, broadcast) && n < |log|
             && StandsAt(world, d, pcs, broadcast, log, n) && OnlyOpens(db, d)
    ensures var result := Entries(world.feeRecipient)(d, log[n]); result.Commit? && OnlyOpens(db, result.db)
  {
    AtEntry(world, d, pcs, broadcast, log, n);
    NextEntry(world, log, n);
    EntryOpens(world, d, log[n]);
    OpensTwice(db, d, Entries(world.feeRecipient)(d, log[n]).db);
  }

  lemma {:induction false} EveryEntryOpens(world: World, pcs: map<RequestId, Pc>, broadcast: set<Transaction>,
                                           log: seq<Log>, db: Db, end: nat)
    requires end <= |log| && WellFormed(world, log) && AllBacked(log, broadcast)
    ensures Carries(Entries(world.feeRecipient), log, Opening(world, pcs, broadcast, log, db), end)
  {
    if end > 0 {
      var n: nat := end - 1;
      EveryEntryOpens(world, pcs, broadcast, log, db, n);
      forall d {:trigger StandsAt(world, d, pcs, broadcast, log, n)} | StandsAt(world, d, pcs, broadcast, log, n)
        && OnlyOpens(db, d)
        ensures var result := Entries(world.feeRecipient)(d, log[n]);
                result.Commit? && StandsAt(world, result.db, pcs, broadcast, log, end) && OnlyOpens(db, result.db)
      {
        AtEntry(world, d, pcs, broadcast, log, n);
        NextOpens(world, pcs, broadcast, db, d, log, n);
      }
    }
  }

  /** Indexing the whole log from an empty projection. */
  lemma StretchOpens(world: World, pcs: map<RequestId, Pc>, broadcast: set<Transaction>, db: Db, log: seq<Log>)
    requires WellFormed(world, log) && AllBacked(log, broadcast) && StandsAt(world, db, pcs, broadcast, log, 0)
    ensures var result := IndexLogs(db, world.feeRecipient, log); result.Commit? && OnlyOpens(db, result.db)
  {
    EveryEntryOpens(world, pcs, broadcast, log, db, |log|);
    assert log[0..|log|] == log;
    StretchCarries(Entries(world.feeRecipient), db, log, 0, |log|, Opening(world, pcs, broadcast, log, db));
  }

  // -------------------------------------------------------------- the round trip

  /** Every indexed session whose customer is enrolled has its row. */
  ghost predicate RowsForSessions(db: Db) {
    forall s <- db.chain.sessions :: db.chain.sessions[s].customer in db.accounts ==> s in db.sessions
  }

  lemma RequestsRestored(db: Db, pcs: map<RequestId, Pc>, db': Db)
    requires Coherent(db, pcs) && Coherent(db', pcs) && OnlySettles(Reopen(db), db')
    requires db'.chain.settlements == db.chain.settlements
    ensures db'.requests == db.requests && db'.holds == db.holds && db'.queue == db.queue
  {
    SameKeys(db, db');
    forall r | r in db.requests ensures db'.requests[r] == db.requests[r] { Restored(db, pcs, db', r); }
    forall r | r in db.holds ensures db'.holds[r] == db.holds[r] { Restored(db, pcs, db', r); }
    forall r | r in db.queue ensures db'.queue[r] == db.queue[r] { Restored(db, pcs, db', r); }
  }

  lemma Restored(db: Db, pcs: map<RequestId, Pc>, db': Db, r: RequestId)
    requires Coherent(db, pcs) && Coherent(db', pcs) && (r in db.requests || r in db.holds || r in db.queue)
    requires OnlySettles(Reopen(db), db') && db'.chain.settlements == db.chain.settlements
    ensures r in db.requests && r in db'.requests && db'.requests[r] == db.requests[r]
    ensures r in db.holds && r in db'.holds && db'.holds[r] == db.holds[r]
    ensures r in db.queue ==> r in db'.queue && db'.queue[r] == db.queue[r]
  {
    assert RowOK(db, pcs, r);
    OneRestored(db, pcs, db', r);
  }

  lemma SameKeys(db: Db, db': Db)
    requires OnlySettles(Reopen(db), db')
    ensures db'.requests.Keys == db.requests.Keys && db'.holds.Keys == db.holds.Keys && db'.queue.Keys == db.queue.Keys
  {
  }

  lemma OneRestored(db: Db, pcs: map<RequestId, Pc>, db': Db, r: RequestId)
    requires Coherent(db, pcs) && Coherent(db', pcs) && r in db.requests
    requires OnlySettles(Reopen(db), db') && db'.chain.settlements == db.chain.settlements
    ensures r in db'.requests && r in db.holds && r in db'.holds
    ensures db'.requests[r] == db.requests[r] && db'.holds[r] == db.holds[r]
    ensures r in db.queue ==> r in db'.queue && db'.queue[r] == db.queue[r]
  {
    assert RowOK(db, pcs, r) && RowOK(db', pcs, r);
  }

  lemma SessionsRestored(world: World, db: Db, db': Db)
    requires Solvency.SessionsOK(world, db) && Solvency.SessionsOK(world, db')
    requires Solvency.ChainSessionsOK(world, db.chain) && db'.chain == db.chain && OnlyOpens(Reopen(db), db')
    ensures db'.sessions == db.sessions <==> RowsForSessions(db)
  {
    forall s | s in db.sessions ensures s in db'.sessions && db'.sessions[s] == db.sessions[s] {}
    if RowsForSessions(db) {
      forall s | s in db'.sessions ensures s in db.sessions {}
    } else {
      var s :| s in db.chain.sessions && db.chain.sessions[s].customer in db.accounts && s !in db.sessions;
      assert s in db'.sessions;
    }
  }

  /** Rewind, then re-index the same log: request states, queue, holds, receipts and
      the whole projection are as before. The sessions table is too, exactly when no
      indexed session was opened before its customer enrolled. */
  lemma RewindThenReindex(world: World, s: State, rs: seq<RequestId>)
    requires Inv(world, s) && Enumerates(rs, s.db.chain.settlements.Keys)
    ensures var result := IndexLogs(Rewind(s.db, rs), world.feeRecipient, s.applied);
            && result.Commit?
            && result.db.(sessions := s.db.sessions, outbox := s.db.outbox, cursor := s.db.cursor) == s.db
            && (result.db.sessions == s.db.sessions <==> RowsForSessions(s.db))
  {
    var db0, log := Rewind(s.db, rs), s.applied;
    AfterUnwind(world, s.db, s.pcs, s.broadcast, rs);
    assert log[..0] == [] && log[0..|log|] == log && log[..|log|] == log;
    AtIndexLogs(world, db0, s.pcs, s.broadcast, log, 0, |log|);
    StretchSettles(db0, world.feeRecipient, log);
    StretchOpens(world, s.pcs, s.broadcast, db0, log);
    var db' := IndexLogs(db0, world.feeRecipient, log).db;
    FrameWithoutOutbox(s.db, rs, db');
    RequestsRestored(s.db, s.pcs, db');
    SessionsRestored(world, s.db, db');
  }

  lemma FrameWithoutOutbox(db: Db, rs: seq<RequestId>, db': Db)
    requires OnlySettles(Rewind(db, rs), db') && OnlyOpens(Rewind(db, rs), db')
    ensures OnlySettles(Reopen(db), db') && OnlyOpens(Reopen(db), db')
  {
  }

  /** In ranges of blocks: indexing the cursor's own chain again also restores the cursor. */
  lemma RewindThenReindexBlocks(world: World, s: State, rs: seq<RequestId>)
    requires Inv(world, s) && Enumerates(rs, s.db.chain.settlements.Keys) && s.db.cursor.Some?
    ensures var c := s.db.cursor.value;
            var result := IndexRange(Rewind(s.db, rs), world.feeRecipient, c.hash, 0, c.last);
            && result.Commit?
            && result.db.(sessions := s.db.sessions, outbox := s.db.outbox) == s.db
            && (result.db.sessions == s.db.sessions <==> RowsForSessions(s.db))
  {
    var c := s.db.cursor.value;
    RewindThenReindex(world, s, rs);
    assert c.hash[0..c.last + 1] == c.hash && c.hash[..c.last + 1] == c.hash;
  }
}
