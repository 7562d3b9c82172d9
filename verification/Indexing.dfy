/** The indexer as it runs: batches, restarts, a search for the deployment block, and
    a rewind when its last block is no longer canonical. */
module Indexing {
  import opened Basics
  import opened Charging
  import opened Tables
  import opened Projecting
  import opened Ledger
  import opened Protocol
  import opened Storage
  import opened Safety
  import opened Resuming

  const MAXIMUM_INITIAL_HISTORY: uint64 := 10_000

  // --------------------------------------------------------------------- the network

  datatype Call =
    | ReadHead | ReadCursor | ReadCode(block: nat) | ReadHeader(block: nat)
    | ReadLogs(first: nat, last: nat) | WriteRange(last: nat) | WriteRewind

  /** What the node and the database answer during one synchronisation. The chain does
      not change while it runs. `code`: the contract's bytecode is present at a block. */
  datatype Network = Network(chain: seq<Block>, code: nat -> bool, answer: Call -> Landing) {
    predicate Answers(call: Call) { answer(call) == Done }

    /** Only a deployed contract logs, and it stays deployed. */
    ghost predicate Honest() {
      && 0 < |chain| < TWO_64
      && (forall n :: 0 <= n < |chain| && !code(n) ==> chain[n].logs == [])
      && (forall m, n :: 0 <= m <= n < |chain| && code(m) ==> code(n))
    }
  }

  // ------------------------------------------------------------------- the procedures

  /** A binary search for the block at which the contract appears. */
  method FirstCodeBlock(net: Network, configured: nat, head: nat) returns (n: Option<nat>)
    requires configured <= head < TWO_64
    ensures n.Some? ==> configured <= n.value <= head && net.code(n.value)
                        && (n.value == configured || !net.code(n.value - 1))
    ensures n.None? ==> (exists b :: !net.Answers(ReadCode(b))) || (!net.code(configured) && !net.code(head))
  {
    if !net.Answers(ReadCode(configured)) { return None; }
    if net.code(configured) { return Some(configured); }
    if !net.Answers(ReadCode(head)) { return None; }
    if !net.code(head) { return None; }
    var low, high := configured, head;
    while low < high
      invariant configured <= low <= high <= head
      invariant net.code(high)
      invariant low == configured || !net.code(low - 1)
    {
      var mid := low + (high - low) / 2;
      if !net.Answers(ReadCode(mid)) { return None; }
      if !net.code(mid) { low := mid + 1; } else { high := mid; }
    }
    return Some(low);
  }

  /** With a contract that never goes away, the search skips no log. */
  lemma SearchSkipsNothing(net: Network, configured: nat, n: nat)
    requires net.Honest() && configured <= n < |net.chain| && (n == configured || !net.code(n - 1))
    ensures Quiet(net.chain, configured, n)
  {
    if configured < n {
      var before: nat := n - 1;
      forall k | configured <= k < n && k < |net.chain| ensures net.chain[k].logs == [] {
        assert net.code(k) ==> net.code(before);
      }
    }
  }

  /** A remembered deployment block stays sound on every fork that does not have the
      contract before it. */
  lemma DeploymentStaysSound(net: Network, start: nat)
    requires net.Honest() && 0 < start <= |net.chain| && !net.code(start - 1)
    ensures Sound(net.chain, start)
  {
    var before: nat := start - 1;
    forall k | 0 <= k < start && k < |net.chain| ensures net.chain[k].logs == [] {
      assert net.code(k) ==> net.code(before);
    }
  }

  // ------------------------------------------------------------------------- rewinding

  function HeldAgain(holds: map<RequestId, Hold>, rs: seq<RequestId>): (after: map<RequestId, Hold>) {
    map r | r in holds :: if r in rs && holds[r].amount > 0 then holds[r].(released := false) else holds[r]
  }

  function InFlightAgain(queue: map<RequestId, QueueRow>, rs: seq<RequestId>): (after: map<RequestId, QueueRow>) {
    map r | r in queue :: if r in rs && queue[r].state == QueueSettled then queue[r].(state := Broadcasting)
      else queue[r]
  }

  function SubmittedAgain(requests: map<RequestId, Request>, rs: seq<RequestId>): (after: map<RequestId, Request>) {
    map r | r in requests :: if r in rs && requests[r].state == Settled then requests[r].(state := Submitted)
      else requests[r]
  }

  /** The rows after the settled requests `rs` have been put back in flight. */
  function Reverting(db: Db, rs: seq<RequestId>): (after: Db) {
    db.(holds := HeldAgain(db.holds, rs), queue := InFlightAgain(db.queue, rs),
      requests := SubmittedAgain(db.requests, rs),
        outbox := db.outbox + Reverted(db, rs))
  }

  lemma RevertingNone(db: Db)
    ensures Reverting(db, []) == db
  {
    var after := Reverting(db, []);
    assert after.holds == db.holds && after.queue == db.queue && after.requests == db.requests;
  }

  lemma HeldAll(db: Db, rs: seq<RequestId>)
    requires Enumerates(rs, db.chain.settlements.Keys)
    ensures HeldAgain(db.holds, rs) == Reopen(db).holds && InFlightAgain(db.queue, rs) == Reopen(db).queue
  {
    var after := Reopen(db);
    forall r | r in db.holds ensures HeldAgain(db.holds, rs)[r] == after.holds[r] {}
    forall r | r in db.queue ensures InFlightAgain(db.queue, rs)[r] == after.queue[r] {}
  }

  lemma SubmittedAll(db: Db, rs: seq<RequestId>)
    requires Enumerates(rs, db.chain.settlements.Keys)
    ensures SubmittedAgain(db.requests, rs) == Reopen(db).requests
  {
    var after := Reopen(db);
    forall r | r in db.requests ensures SubmittedAgain(db.requests, rs)[r] == after.requests[r] {}
  }

  lemma RevertingAll(db: Db, rs: seq<RequestId>)
    requires Enumerates(rs, db.chain.settlements.Keys)
    ensures Reverting(db, rs).(chain := EMPTY_PROJECTION, cursor := None) == Rewind(db, rs)
  {
    HeldAll(db, rs);
    SubmittedAll(db, rs);
  }

  lemma HeldMore(holds: map<RequestId, Hold>, rs: seq<RequestId>, r: RequestId)
    requires r !in rs
    ensures var tx := HeldAgain(holds, rs);
            (if r in tx && tx[r].amount > 0 then tx[r := tx[r].(released := false)]
              else tx) == HeldAgain(holds, rs + [r])
  {
  }

  lemma InFlightMore(queue: map<RequestId, QueueRow>, rs: seq<RequestId>, r: RequestId)
    requires r !in rs
    ensures var tx := InFlightAgain(queue, rs);
            (if r in tx && tx[r].state == QueueSettled then tx[r := tx[r].(state := Broadcasting)] else tx)
            == InFlightAgain(queue, rs + [r])
  {
  }

  lemma SubmittedMore(requests: map<RequestId, Request>, rs: seq<RequestId>, r: RequestId)
    requires r !in rs
    ensures var tx := SubmittedAgain(requests, rs);
            && (if r in tx && tx[r].state == Settled then tx[r := tx[r].(state := Submitted)] else tx)
               == SubmittedAgain(requests, rs + [r])
            && (r in tx <==> r in requests) && (r in tx ==> tx[r] == requests[r])
  {
  }

  method SettledRequests(settlements: map<RequestId, Settlement>) returns (rs: seq<RequestId>)
    ensures Enumerates(rs, settlements.Keys)
  {
    var rows := settlements.Keys;
    rs := [];
    while rows != {}
      invariant rows <= settlements.Keys
      invariant forall r :: r in rs <==> r in settlements.Keys - rows
      invariant forall i, j :: 0 <= i < j < |rs| ==> rs[i] != rs[j]
      decreases rows
    {
      ghost var some := Pick(rows);
      assert some in rows;
      var r :| r in rows;
      rs, rows := rs + [r], rows - {r};
    }
  }

  function Revert(tx: Db, r: RequestId): (after: Db) {
    TransitionSettlement(
      tx.(holds := if r in tx.holds && tx.holds[r].amount > 0 then tx.holds[r := tx.holds[r].(released := false)]
        else tx.holds,
          queue := if r in tx.queue && tx.queue[r].state == QueueSettled
                   then tx.queue[r := tx.queue[r].(state := Broadcasting)] else tx.queue),
      r, Settled, Submitted)
  }

  lemma RevertedMore(db: Db, rs: seq<RequestId>, r: RequestId)
    ensures Reverted(db, rs + [r])
         == Reverted(db, rs) + (if r in db.requests && db.requests[r].state == Settled
           then [Notice(r, Settled, Submitted)] else [])
  {
    assert (rs + [r])[..|rs|] == rs;
  }

  lemma Assembled(tx: Db, after: Db, r: RequestId)
    requires after == tx.(holds := after.holds, queue := after.queue, requests := after.requests,
             outbox := after.outbox)
    requires after.holds == if r in tx.holds && tx.holds[r].amount > 0
             then tx.holds[r := tx.holds[r].(released := false)] else tx.holds
    requires after.queue == if r in tx.queue && tx.queue[r].state == QueueSettled
                            then tx.queue[r := tx.queue[r].(state := Broadcasting)] else tx.queue
    requires after.requests == if r in tx.requests && tx.requests[r].state == Settled
                               then tx.requests[r := tx.requests[r].(state := Submitted)] else tx.requests
    requires after.outbox == tx.outbox + if r in tx.requests && tx.requests[r].state == Settled
             then [Notice(r, Settled, Submitted)] else []
    ensures Revert(tx, r) == after
  {
    var mid := tx.(holds := after.holds, queue := after.queue);
    assert Revert(tx, r) == TransitionSettlement(mid, r, Settled, Submitted);
  }

  lemma RevertingMore(db: Db, rs: seq<RequestId>, r: RequestId)
    requires r !in rs
    ensures Revert(Reverting(db, rs), r) == Reverting(db, rs + [r])
  {
    HeldMore(db.holds, rs, r);
    InFlightMore(db.queue, rs, r);
    SubmittedMore(db.requests, rs, r);
    RevertedMore(db, rs, r);
    Assembled(Reverting(db, rs), Reverting(db, rs + [r]), r);
  }

  method RevertOne(db: Db, r: RequestId) returns (tx: Db)
    ensures tx == Revert(db, r)
  {
    tx := db;
    if r in tx.holds && tx.holds[r].amount > 0 {
      tx := tx.(holds := tx.holds[r := tx.holds[r].(released := false)]);
    }
    if r in tx.queue && tx.queue[r].state == QueueSettled {
      tx := tx.(queue := tx.queue[r := tx.queue[r].(state := Broadcasting)]);
    }
    tx := TransitionSettlement(tx, r, Settled, Submitted);
  }

  /** The settled requests, one by one, back in flight. */
  method RevertEach(db: Db, rs: seq<RequestId>) returns (tx: Db)
    requires forall i, j :: 0 <= i < j < |rs| ==> rs[i] != rs[j]
    ensures tx == Reverting(db, rs)
  {
    tx := db;
    RevertingNone(db);
    for i := 0 to |rs|
      invariant tx == Reverting(db, rs[..i])
    {
      assert rs[..i] + [rs[i]] == rs[..i + 1];
      RevertingMore(db, rs[..i], rs[i]);
      tx := RevertOne(tx, rs[i]);
    }
    assert rs[..|rs|] == rs;
  }

  // ------------------------------------------------------------- the protocol's steps

  class Indexer {
    const store: Store
    const feeRecipient: Address
    const confirmations: nat
    var startBlock: nat

    constructor (store: Store, feeRecipient: Address, startBlock: nat, confirmations: nat)
      ensures this.store == store && this.feeRecipient == feeRecipient
      ensures this.startBlock == startBlock && this.confirmations == confirmations
    {
      this.store, this.feeRecipient, this.startBlock, this.confirmations := store, feeRecipient, startBlock,
        confirmations;
    }

    /** Statement by statement, event by event. */
    method ApplyLog(db: Db, log: Log) returns (result: TxResult<()>)
      ensures result == Ledger.ApplyLog(db, feeRecipient, log)
    {
      var p := db.chain;
      match log.event {
        case ReceiptSettled(_, _, _, _, _) =>
          result := ApplySettlement(db, log);
          return;
        case SessionOpened(_, _, _) =>
          result := ApplyOpening(db, log);
          return;
        case SessionCloseRequested(_, _) =>
          result := ApplyClosing(db, log);
          return;
        case SessionClosed(_, _) =>
          result := ApplyClosing(db, log);
          return;
        case OfferPublished(key, terms) =>
          if key !in p.offers { p := p.(offers := p.offers[key := terms]); }
        case ProviderSignerSet(a, signer, allowed) =>
          p := p.(signers := p.signers[(a, signer) := allowed]);
        case FeeNotice =>
        case _ =>
          p := ApplyAccounts(p, log);
      }
      return TxResult.Commit(db.(chain := p), ());
    }

    /** The events of accounts: INSERT ... ON CONFLICT adds a row or changes the one that is
        there, UPDATE ... WHERE changes one only if it is there. */
    method ApplyAccounts(before: Projection, log: Log) returns (p: Projection)
      requires log.event.Deposited? || log.event.WithdrawalRequested? || log.event.Claimed? || log.event.BondDeposited?
            || log.event.BondExitRequested? || log.event.BondExitFinalized? || log.event.ProviderSlashed?
      ensures Project(before, feeRecipient, log) == Some(p)
    {
      p := before;
      var rows := p.accounts;
      match log.event {
        case Deposited(a, amount) =>
          if a in rows {
            rows := rows[a := rows[a].(balance := rows[a].balance + amount)];
          } else {
            rows := rows[a := ChainAccount(amount, 0, 0, 0)];
          }
        case WithdrawalRequested(a, amount) =>
          if a in rows {
            rows := rows[a := rows[a].(balance := rows[a].balance - amount, claimable := rows[a].claimable + amount)];
          }
        case Claimed(a, amount) =>
          if a in rows { rows := rows[a := rows[a].(claimable := rows[a].claimable - amount)]; }
        case BondDeposited(a, _, totalBond) =>
          rows := rows[a := if a in rows then rows[a].(bond := totalBond) else ChainAccount(0, totalBond, 0, 0)];
        case BondExitRequested(a, availableAt) =>
          if a in rows { rows := rows[a := rows[a].(exitAt := availableAt)]; }
        case BondExitFinalized(a, amount) =>
          if a in rows {
            rows := rows[a := rows[a].(bond := 0, exitAt := 0, claimable := rows[a].claimable + amount)];
          }
        case ProviderSlashed(a, r, amount) =>
          var key := SlashKey(r, a, log.id.transaction);
          if key !in p.slashes { p := p.(slashes := p.slashes[key := amount]); }
          if a in rows {
            var bond := rows[a].bond - amount;
            rows := rows[a := rows[a].(bond := bond, exitAt := if bond == 0 then 0 else rows[a].exitAt)];
          }
          rows := Pay(rows, feeRecipient, amount);
      }
      p := p.(accounts := rows);
    }

    method Pay(accounts: map<Address, ChainAccount>, a: Address, amount: nat) returns (rows: map<Address, ChainAccount>)
      ensures rows == Credit(accounts, a, amount)
    {
      rows := accounts;
      if a in rows {
        rows := rows[a := rows[a].(claimable := rows[a].claimable + amount)];
      } else {
        rows := rows[a := ChainAccount(0, 0, amount, 0)];
      }
    }

    method ProjectOpening(before: Projection, log: Log) returns (p: Projection)
      requires log.event.SessionOpened?
      ensures Project(before, feeRecipient, log) == Some(p)
    {
      var e := log.event;
      var sessions, accounts := before.sessions, before.accounts;
      if e.session !in sessions { sessions := sessions[e.session := ChainSession(e.customer, e.allowance, 0, 0, false)];
        }
      if e.customer in accounts {
        var row := accounts[e.customer];
        accounts := accounts[e.customer := row.(balance := row.balance - e.allowance)];
      }
      p := before.(sessions := sessions, accounts := accounts);
    }

    method ApplyOpening(db: Db, log: Log) returns (result: TxResult<()>)
      requires log.event.SessionOpened?
      ensures result == Ledger.ApplyLog(db, feeRecipient, log)
    {
      var tx, e := db, log.event;
      var p := ProjectOpening(tx.chain, log);
      tx := tx.(chain := p);
      if e.customer in tx.accounts {
        tx := tx.(sessions := tx.sessions[e.session := Session(tx.accounts[e.customer], Open, e.allowance)]);
      }
      return TxResult.Commit(tx, ());
    }

    method ApplyClosing(db: Db, log: Log) returns (result: TxResult<()>)
      requires log.event.SessionCloseRequested? || log.event.SessionClosed?
      ensures result == Ledger.ApplyLog(db, feeRecipient, log)
    {
      var tx, p, s := db, db.chain, log.event.session;
      if log.event.SessionCloseRequested? {
        if s in p.sessions { p := p.(sessions := p.sessions[s := p.sessions[s].(closeAt := log.event.availableAt)]); }
        tx := tx.(chain := p);
        if s in tx.sessions && tx.sessions[s].status == Open {
          tx := tx.(sessions := tx.sessions[s := tx.sessions[s].(status := Closing)]);
        }
        return TxResult.Commit(tx, ());
      }
      if s !in p.sessions { return Rollback(NoRows); }
      var customer := p.sessions[s].customer;
      p := p.(sessions := p.sessions[s := p.sessions[s].(finalized := true)]);
      if customer in p.accounts {
        var row := p.accounts[customer];
        p := p.(accounts := p.accounts[customer := row.(balance := row.balance + log.event.returned)]);
      }
      tx := tx.(chain := p);
      if s in tx.sessions { tx := tx.(sessions := tx.sessions[s := tx.sessions[s].(status := Closed, balance := 0)]); }
      return TxResult.Commit(tx, ());
    }

    method ApplySettlement(db: Db, log: Log) returns (result: TxResult<()>)
      requires log.event.ReceiptSettled?
      ensures result == Ledger.ApplyLog(db, feeRecipient, log)
    {
      var tx, e := db, log.event;
      var r, charge := e.request, e.providerAmount + e.feeAmount;
      if r in tx.holds && tx.holds[r].amount != charge { return Rollback(ChargeMismatch); }
      if r in tx.chain.settlements { return TxResult.Commit(tx, ()); }
      var chain := ProjectSettlement(tx.chain, e);
      tx := Debited(tx, e, chain);
      assert tx == db.(chain := Project(db.chain, feeRecipient, log).value, sessions := SessionEffect(db, e));
      tx := Mark(tx, r);
      return TxResult.Commit(tx, ());
    }

    /** The settlement's own row, what its session has spent, and the two payees. */
    method ProjectSettlement(before: Projection, e: Event) returns (p: Projection)
      requires e.ReceiptSettled?
      ensures p == Settle(before, feeRecipient, e.request, Settlement(e.session, e.provider, e.providerAmount,
              e.feeAmount))
    {
      p := before.(settlements := before.settlements[e.request :=
        Settlement(e.session, e.provider, e.providerAmount, e.feeAmount)]);
      if e.session in p.sessions {
        var session := p.sessions[e.session];
        p := p.(sessions := p.sessions[e.session := session.(spent := session.spent + e.providerAmount + e.feeAmount)]);
      }
      var rows := Pay(p.accounts, e.provider, e.providerAmount);
      rows := Pay(rows, feeRecipient, e.feeAmount);
      p := p.(accounts := rows);
    }

    /** The projection as it becomes, and the session's balance less the charge. */
    method Debited(db: Db, e: Event, chain: Projection) returns (tx: Db)
      requires e.ReceiptSettled?
      ensures tx == db.(chain := chain, sessions := SessionEffect(db, e))
    {
      tx := db.(chain := chain);
      if e.session in tx.sessions {
        var session := tx.sessions[e.session];
        var balance := Debit(session.balance, e.providerAmount + e.feeAmount);
        tx := tx.(sessions := tx.sessions[e.session := session.(balance := balance)]);
      }
    }

    method Mark(db: Db, r: RequestId) returns (tx: Db)
      ensures tx == MarkSettled(db, r)
    {
      tx := db;
      if r in tx.queue && tx.queue[r].state == Broadcasting {
        tx := tx.(queue := tx.queue[r := tx.queue[r].(state := QueueSettled)]);
      }
      if r in tx.holds { tx := tx.(holds := tx.holds[r := tx.holds[r].(released := true)]); }
      tx := TransitionSettlement(tx, r, Submitted, Settled);
    }

    /** Header, logs, then one transaction. */
    method IndexRange(net: Network, first: nat, last: nat) returns (ok: bool)
      requires first <= last < |net.chain|
      modifies store
      ensures var result := Ledger.IndexRange(old(store.db), feeRecipient, net.chain, first, last);
              && (store.db == old(store.db) || (result.Commit? && store.db == result.db))
              && (ok ==> result.Commit? && store.db == result.db)
    {
      if !net.Answers(ReadHeader(last)) || !net.Answers(ReadLogs(first, last)) { return false; }
      var logs := Logs(net.chain[first..last + 1]);
      var tx := store.db;
      for i := 0 to |logs|
        invariant store.db == old(store.db)
        invariant IndexLogs(store.db, feeRecipient, logs[..i]) == TxResult.Commit(tx, ())
      {
        EntryMore(store.db, feeRecipient, logs, i);
        if logs[i].id !in tx.chain.logs {
          tx := tx.(chain := tx.chain.(logs := tx.chain.logs + {logs[i].id}));
          var result := ApplyLog(tx, logs[i]);
          if result.Rollback? { return false; }
          tx := result.db;
        }
      }
      assert logs[..|logs|] == logs;
      tx := tx.(cursor := Some(Cursor(last + 1, last, net.chain[..last + 1])));
      var outcome := store.Commit(tx, net.answer(WriteRange(last)));
      ok := outcome.Fine?;
    }

    method Rewind(net: Network) returns (ok: bool, rs: seq<RequestId>)
      modifies store
      ensures Enumerates(rs, old(store.db).chain.settlements.Keys)
      ensures store.db == old(store.db) || store.db == Ledger.Rewind(old(store.db), rs)
      ensures ok ==> store.db == Ledger.Rewind(old(store.db), rs)
    {
      rs := SettledRequests(store.db.chain.settlements);
      var tx := RevertEach(store.db, rs);
      RevertingAll(store.db, rs);
      tx := tx.(chain := EMPTY_PROJECTION, cursor := None);
      var outcome := store.Commit(tx, net.answer(WriteRewind));
      ok := outcome.Fine?;
    }

    /** Where indexing is to go on; a long gap is shortened to the deployment block. */
    method Locate(net: Network, cursor: Option<Cursor>, target: nat) returns (next: Option<nat>)
      requires net.Honest() && target < |net.chain|
      modifies this`startBlock
      ensures old(Sound(net.chain, startBlock)) ==> Sound(net.chain, startBlock)
      ensures startBlock == old(startBlock) || (0 < startBlock && !net.code(startBlock - 1)
              && Sound(net.chain, startBlock))
      ensures next.Some? ==> match cursor
                             case None => next.value == startBlock
                             case Some(c) => c.next <= next.value && Quiet(net.chain, c.next, next.value)
    {
      var from := if cursor.None? then startBlock else cursor.value.next;
      next := Some(from);
      if target > from && target - from > MAXIMUM_INITIAL_HISTORY {
        next := FirstCodeBlock(net, from, target);
        if next.None? { return; }
        SearchSkipsNothing(net, from, next.value);
        if next.value > from { SearchSkipsNothing(net, 0, next.value); }
        if cursor.None? || next.value > from { startBlock := next.value; }
      }
    }

    /** The cursor's block is looked up; unless it is found unchanged, everything is rewound. */
    method Recover(ghost world: World, net: Network, ghost s: State, c: Cursor)
      returns (ok: bool, rewound: bool, ghost steps: seq<Step>, ghost s': State)
      requires world.feeRecipient == feeRecipient && s.db == store.db && s.chain == net.chain && Reachable(world, s)
      requires s.db.cursor == Some(c)
      modifies store
      ensures Took(world, s, steps, s') && s'.db == store.db
      ensures ok && rewound ==> store.db.cursor.None?
      ensures !rewound ==> ok && s' == s && c.next <= |net.chain| && c.hash <= net.chain
      ensures rewound <==> !(net.Answers(ReadHeader(c.last)) && c.hash <= net.chain)
    {
      steps, s', ok := [], s, true;
      CursorIsItsChain(world, s, c);
      rewound := !net.Answers(ReadHeader(c.last)) || c.last >= |net.chain| || net.chain[..c.last + 1] != c.hash;
      if rewound {
        var rs;
        ok, rs := Rewind(net);
        ghost var taken, after := TookRewind(world, s, rs);
        if store.db != s.db { steps, s' := taken, after; }
      }
    }

    /** Batch after batch up to the target; each is a step of the protocol, if no log lies
        between the cursor and the first. */
    method Advance(ghost world: World, net: Network, ghost s: State, ghost before: seq<Step>, ghost mid: State,
                   from: nat, target: nat)
      returns (ok: bool, ghost steps: seq<Step>, ghost s': State)
      requires target < |net.chain| < TWO_64 && world.feeRecipient == feeRecipient
      requires s.chain == net.chain && Reachable(world, s) && Took(world, s, before, mid) && mid.db == store.db
      modifies store
      ensures ok && old(store.db).chain == EMPTY_PROJECTION && from <= target ==>
                Holds(store.db, feeRecipient, net.chain, from, target + 1)
      ensures Ready(old(store.db), net.chain, from) ==>
                && Took(world, s, steps, s') && s'.db == store.db
                && (ok ==> CaughtUp(world, store.db, net.chain, target))
    {
      ghost var ready, empty := Ready(store.db, net.chain, from), store.db.chain == EMPTY_PROJECTION && from <= target;
      steps, s', ok := before, mid, true;
      var next := from;
      if empty { HoldsNothing(store.db, feeRecipient, net.chain, from); }
      while next <= target
        invariant from <= next && (from <= target ==> next <= target + 1)
        invariant empty ==> Holds(store.db, feeRecipient, net.chain, from, next)
        invariant ready ==> Going(world, s, steps, s', store.db, next)
      {
        var end := EndFrom(next, target);
        ok, steps, s' := Batch(world, net, s, steps, s', from, next, end);
        if !ok { return; }
        next := end + 1;
      }
      if ready { Arrived(world, s, steps, s', store.db, next, target); }
    }

    method EndFrom(next: nat, target: nat) returns (end: nat)
      requires next <= target < TWO_64
      ensures next <= end <= target && (end == target || end - next + 1 == INDEX_BATCH_SIZE)
    {
      end := BatchEnd(next, target, INDEX_BATCH_SIZE);
    }

    /** One of the batches from block `from` on. */
    method Batch(ghost world: World, net: Network, ghost s: State, ghost before: seq<Step>, ghost mid: State,
                 ghost from: nat, next: nat, end: nat)
      returns (ok: bool, ghost steps: seq<Step>, ghost s': State)
      requires from <= next <= end < |net.chain| && world.feeRecipient == feeRecipient
      requires s.chain == net.chain && Reachable(world, s)
      modifies store
      ensures ok && Holds(old(store.db), feeRecipient, net.chain, from, next) ==>
                Holds(store.db, feeRecipient, net.chain, from, end + 1)
      ensures Going(world, s, before, mid, old(store.db), next) ==>
                && Took(world, s, steps, s') && s'.db == store.db
                && (ok ==> Going(world, s, steps, s', store.db, end + 1))
    {
      ghost var db := store.db;
      ok := IndexRange(net, next, end);
      steps, s' := before, mid;
      if ok && Holds(db, feeRecipient, net.chain, from, next) {
        BatchOnTop(db, feeRecipient, net.chain, from, next, end);
      }
      if Going(world, s, before, mid, db, next) {
        steps, s' := AfterBatch(world, s, steps, s', next, end, store.db, ok);
      }
    }

    /** From the cursor to the block to go on from, rewinding if need be. */
    method Resume(ghost world: World, net: Network, ghost s: State, target: nat)
      returns (next: Option<nat>, ghost steps: seq<Step>, ghost s': State)
      requires net.Honest() && target < |net.chain| && world.feeRecipient == feeRecipient
      requires s.db == store.db && s.chain == net.chain && Reachable(world, s)
      modifies this, store
      ensures Took(world, s, steps, s') && s'.db == store.db
      ensures old(Sound(net.chain, startBlock)) ==> Sound(net.chain, startBlock)
      ensures startBlock == old(startBlock) || (0 < startBlock && !net.code(startBlock - 1))
      ensures next.Some? && Sound(net.chain, startBlock) ==> Ready(store.db, net.chain, next.value)
      ensures next.Some? && Fresh(old(store.db.cursor), net) ==> store.db.cursor.None? && next.value == startBlock
    {
      steps, s' := [], s;
      var cursor := store.db.cursor;
      next := Locate(net, cursor, target);
      if next.None? || cursor.None? { return; }
      var ok, rewound;
      ok, rewound, steps, s' := Recover(world, net, s, cursor.value);
      if !ok { return None, steps, s'; }
      if rewound { next := Some(startBlock); }
    }

    /** One synchronisation. It takes only steps of the protocol, whatever fails on the way,
        and when it succeeds the tables are the plain fold of the canonical log as far as it
        is confirmed - provided no log lies below the remembered start. If it starts from
        there, and succeeds, the tables are that fold exactly under this condition. */
    method Sync(ghost world: World, net: Network, ghost s: State)
                returns (ok: bool, ghost steps: seq<Step>, ghost s': State)
      requires net.Honest() && world.feeRecipient == feeRecipient
      requires s.db == store.db && s.chain == net.chain && Reachable(world, s)
      modifies this, store
      ensures startBlock == old(startBlock) || (0 < startBlock && !net.code(startBlock - 1))
      ensures old(Sound(net.chain, startBlock)) ==>
                && Took(world, s, steps, s') && s'.db == store.db && Sound(net.chain, startBlock)
                && (ok && |net.chain| > confirmations ==>
                  CaughtUp(world, store.db, net.chain, |net.chain| - 1 - confirmations))
      ensures ok && Fresh(old(store.db.cursor), net) && startBlock + confirmations < |net.chain| ==>
                (Rebuilt(world, store.db, net.chain, |net.chain| - 1 - confirmations) <==> Sound(net.chain, startBlock))
    {
      steps, s', ok := [], s, true;
      if !net.Answers(ReadHead) { ok := false; return; }
      var head := |net.chain| - 1;
      if head < confirmations { return; }
      var target := head - confirmations;
      if !net.Answers(ReadCursor) { ok := false; return; }
      ok, steps, s' := SyncTo(world, net, s, target);
    }

    /** A synchronisation up to the confirmed block `target`. */
    method SyncTo(ghost world: World, net: Network, ghost s: State, target: nat)
      returns (ok: bool, ghost steps: seq<Step>, ghost s': State)
      requires net.Honest() && target < |net.chain| && world.feeRecipient == feeRecipient
      requires s.db == store.db && s.chain == net.chain && Reachable(world, s)
      modifies this, store
      ensures startBlock == old(startBlock) || (0 < startBlock && !net.code(startBlock - 1))
      ensures old(Sound(net.chain, startBlock)) ==>
                && Took(world, s, steps, s') && s'.db == store.db && Sound(net.chain, startBlock)
                && (ok ==> CaughtUp(world, store.db, net.chain, target))
      ensures ok && Fresh(old(store.db.cursor), net) && startBlock <= target ==>
                (Rebuilt(world, store.db, net.chain, target) <==> Sound(net.chain, startBlock))
    {
      var next;
      next, steps, s' := Resume(world, net, s, target);
      if next.None? { return false, steps, s'; }
      ghost var taken, mid := steps, s';
      ghost var anew := Fresh(s.db.cursor, net);
      if anew { EmptyWithoutCursor(world, s, taken, mid); }
      ok, steps, s' := Advance(world, net, s, steps, s', next.value, target);
      if ok && anew && startBlock <= target {
        RebuiltIff(world, s, taken, mid, startBlock, target, store.db.chain);
      }
    }
  }

  /** The projection is what the logs of blocks from..next come to. */
  ghost predicate Holds(db: Db, feeRecipient: Address, chain: seq<Block>, from: nat, next: nat)
    requires from <= next <= |chain|
  {
    ProjectAll(feeRecipient, Logs(chain[from..next])) == Some(db.chain)
  }

  lemma HoldsNothing(db: Db, feeRecipient: Address, chain: seq<Block>, from: nat)
    requires from <= |chain| && db.chain == EMPTY_PROJECTION
    ensures Holds(db, feeRecipient, chain, from, from)
  {
    assert chain[from..from] == [];
  }

  /** The indexer's steps so far have led to these tables, and it may go on. */
  ghost predicate Going(world: World, s: State, steps: seq<Step>, s': State, db: Db, next: nat) {
    Took(world, s, steps, s') && s'.db == db && Ready(db, s.chain, next)
  }

  /** Nothing is kept: there is no cursor, or its block is unreadable or no longer canonical. */
  predicate Fresh(cursor: Option<Cursor>, net: Network) {
    cursor.None? || !(net.Answers(ReadHeader(cursor.value.last)) && cursor.value.hash <= net.chain)
  }

  /** The projection is the fold of the canonical log up to `target`. */
  ghost predicate Rebuilt(world: World, db: Db, chain: seq<Block>, target: nat)
    requires target < |chain|
  {
    ProjectAll(world.feeRecipient, Logs(chain[..target + 1])) == Some(db.chain)
  }

  lemma RebuiltIff(world: World, s: State, steps: seq<Step>, mid: State, start: nat, target: nat, p: Projection)
    requires Reachable(world, s) && Walk(world, s, steps, mid) && mid.db.cursor.None? && start <= target < |mid.chain|
    requires ProjectAll(world.feeRecipient, Logs(mid.chain[start..target + 1])) == Some(p)
    ensures ProjectAll(world.feeRecipient, Logs(mid.chain[..target + 1])) == Some(p) <==> Sound(mid.chain, start)
  {
    WalkKeepsInv(world, s, steps, mid);
    CanonicalFront(world, mid, target);
    FoldIff(world, mid.chain, start, target, p);
  }

  lemma EmptyWithoutCursor(world: World, s: State, steps: seq<Step>, mid: State)
    requires Reachable(world, s) && Walk(world, s, steps, mid) && mid.db.cursor.None?
    ensures mid.db.chain == EMPTY_PROJECTION
  {
    WalkKeepsInv(world, s, steps, mid);
  }

  /** The run after a batch, whether or not it landed. */
  lemma AfterBatch(world: World, s: State, before: seq<Step>, mid: State, first: nat, last: nat, db: Db, ok: bool)
    returns (steps: seq<Step>, s': State)
    requires Reachable(world, s) && Took(world, s, before, mid) && Ready(mid.db, mid.chain, first)
             && first <= last < |mid.chain|
    requires var result := IndexRange(mid.db, world.feeRecipient, mid.chain, first, last);
             (db == mid.db && !ok) || result == Commit(db, ())
    ensures Took(world, s, steps, s') && s'.db == db && (ok ==> Ready(db, mid.chain, last + 1))
  {
    steps, s' := TookBatch(world, s, before, mid, first, last);
    if db == mid.db && s'.db != db { steps, s' := before, mid; }
  }

  /** The indexer went from s to s' by its own steps of the protocol. */
  ghost predicate Took(world: World, s: State, steps: seq<Step>, s': State) {
    && Walk(world, s, steps, s') && (forall step <- steps :: step.Index? || step.Unwind?)
    && s' == s.(db := s'.db, applied := s'.applied)
  }

  /** A walk from a sound state ends in one. */
  lemma {:induction false} WalkKeepsInv(world: World, s: State, steps: seq<Step>, s': State)
    requires Reachable(world, s) && Walk(world, s, steps, s')
    ensures Inv(world, s')
    decreases |steps|
  {
    if steps == [] {
      ReachableIsSound(world, s);
    } else {
      var n := |steps| - 1;
      var mid :| Walk(world, s, steps[..n], mid) && Next(world, mid, s', steps[n]);
      WalkKeepsInv(world, s, steps[..n], mid);
      Preserved(world, mid, s', steps[n]);
    }
  }

  /** One more batch of a synchronisation that began in a sound state. */
  lemma TookBatch(world: World, s: State, before: seq<Step>, mid: State, first: nat, last: nat)
                  returns (steps: seq<Step>, s': State)
    requires Reachable(world, s) && Took(world, s, before, mid) && Ready(mid.db, mid.chain, first)
             && first <= last < |mid.chain|
    ensures s' == Indexed(mid, world.feeRecipient, first, last) && Took(world, s, steps, s')
            && Ready(s'.db, s'.chain, last + 1)
    ensures IndexRange(mid.db, world.feeRecipient, mid.chain, first, last) == Commit(s'.db, ())
  {
    WalkKeepsInv(world, s, before, mid);
    BatchStep(world, mid, first, last);
    steps, s' := before + [Index(first, last)], Indexed(mid, world.feeRecipient, first, last);
    WalkOn(world, s, before, mid, Index(first, last), s');
  }

  lemma TookRewind(world: World, s: State, rs: seq<RequestId>) returns (steps: seq<Step>, s': State)
    requires Enumerates(rs, s.db.chain.settlements.Keys)
    ensures Took(world, s, steps, s') && s'.db == Rewind(s.db, rs) && s'.db.cursor.None?
  {
    steps, s' := [] + [Unwind(rs)], s.(db := Rewind(s.db, rs), applied := []);
    WalkOn(world, s, [], s, Unwind(rs), s');
  }

  lemma CursorIsItsChain(world: World, s: State, c: Cursor)
    requires Reachable(world, s) && s.db.cursor == Some(c)
    ensures |c.hash| == c.next == c.last + 1
  {
    ReachableIsSound(world, s);
  }

  /** The projection is the fold of the canonical log up to `target`, or up to the
      cursor where that is further on. */
  ghost predicate CaughtUp(world: World, db: Db, chain: seq<Block>, target: nat) {
    var last := if db.cursor.Some? && db.cursor.value.last > target then db.cursor.value.last else target;
    last < |chain| && ProjectAll(world.feeRecipient, Logs(chain[..last + 1])) == Some(db.chain)
  }

  lemma Arrived(world: World, s: State, steps: seq<Step>, s': State, db: Db, next: nat, target: nat)
    requires Reachable(world, s) && Going(world, s, steps, s', db, next) && target < next && target < |s.chain|
    ensures Took(world, s, steps, s') && s'.db == db && CaughtUp(world, db, s.chain, target)
  {
    UpToDate(world, s, steps, s', next, target);
  }

  lemma UpToDate(world: World, s: State, steps: seq<Step>, s': State, next: nat, target: nat)
    requires Reachable(world, s) && Walk(world, s, steps, s')
    requires Ready(s'.db, s'.chain, next) && target < next && target < |s'.chain|
    ensures CaughtUp(world, s'.db, s'.chain, target)
  {
    WalkKeepsInv(world, s, steps, s');
    Folded(world, s', next, target);
  }

  lemma Folded(world: World, s: State, next: nat, target: nat)
    requires IndexOK(world, s.db, s.applied) && Ready(s.db, s.chain, next) && target < next && target < |s.chain|
    ensures CaughtUp(world, s.db, s.chain, target)
  {
    match s.db.cursor {
      case None => QuietAddsNothing(s.chain, 0, target + 1);
      case Some(c) => FoldedPast(s.chain, c.hash, next, target);
    }
  }

  /** Nothing was logged between the cursor's chain and the target. */
  lemma FoldedPast(chain: seq<Block>, hash: seq<Block>, next: nat, target: nat)
    requires hash <= chain && |hash| <= next && Quiet(chain, |hash|, next) && target < next && target < |chain|
    ensures Logs(hash) == Logs(chain[..if |hash| > target then |hash| else target + 1])
  {
    assert hash == chain[..|hash|];
    if |hash| <= target { QuietAddsNothing(chain, |hash|, target + 1); }
  }
}
