/** The settlement queue: receipts wait co-signed, are given one transaction, and that
    transaction is sent out, again and again, until the chain shows it. */
module Settling {
  import opened Basics
  import opened Tables
  import opened Projecting
  import opened Ledger
  import opened Protocol
  import opened Storage

  predicate Unsent(queue: map<RequestId, QueueRow>, r: RequestId) {
    r in queue && queue[r].state == Cosigned
  }

  predicate Unconfirmed(queue: map<RequestId, QueueRow>, r: RequestId) {
    r in queue && queue[r].state == Broadcasting && queue[r].transaction.Some?
  }

  /** The first `limit` co-signed rows in the order of their creation. */
  function Chosen(queue: map<RequestId, QueueRow>, order: seq<RequestId>, limit: nat): (rs: seq<RequestId>) {
    if order == [] then [] else
    var before, r := Chosen(queue, order[..|order| - 1], limit), order[|order| - 1];
    if Unsent(queue, r) && |before| < limit then before + [r] else before
  }

  /** x comes before y in the order. */
  ghost predicate Precedes(order: seq<RequestId>, x: RequestId, y: RequestId) {
    exists a, b :: 0 <= a < b < |order| && order[a] == x && order[b] == y
  }

  /** The batch is distinct co-signed rows, no more than allowed, none is passed over
      while there is room or while a younger one is taken, and the oldest goes first. */
  lemma {:induction false} ChosenIsABatch(queue: map<RequestId, QueueRow>, order: seq<RequestId>, limit: nat)
    requires forall i, j :: 0 <= i < j < |order| ==> order[i] != order[j]
    ensures var rs := Chosen(queue, order, limit);
            && |rs| <= limit
            && (forall i :: 0 <= i < |rs| ==> Unsent(queue, rs[i]) && rs[i] in order)
            && (forall i, j :: 0 <= i < j < |rs| ==> rs[i] != rs[j])
            && (|rs| < limit ==> forall r <- order :: Unsent(queue, r) ==> r in rs)
            && (forall x, y :: Precedes(order, x, y) && Unsent(queue, x) && y in rs ==> x in rs)
            && (forall i, j :: 0 <= i < j < |rs| ==> Precedes(order, rs[i], rs[j]))
    decreases |order|
  {
    if order != [] {
      var n := |order| - 1;
      ChosenIsABatch(queue, order[..n], limit);
      var before := Chosen(queue, order[..n], limit);
      forall i | 0 <= i < |before| ensures before[i] != order[n] {
        assert before[i] in order[..n];
      }
      assert order == order[..n] + [order[n]];
      OldestFirst(queue, order, limit);
    }
  }

  lemma OldestFirst(queue: map<RequestId, QueueRow>, order: seq<RequestId>, limit: nat)
    requires order != [] && forall i, j :: 0 <= i < j < |order| ==> order[i] != order[j]
    requires var n := |order| - 1;
             var before := Chosen(queue, order[..n], limit);
             && |before| <= limit && (forall r <- before :: r in order[..n])
             && (|before| < limit ==> forall r <- order[..n] :: Unsent(queue, r) ==> r in before)
             && (forall x, y :: Precedes(order[..n], x, y) && Unsent(queue, x) && y in before ==> x in before)
             && (forall i, j :: 0 <= i < j < |before| ==> Precedes(order[..n], before[i], before[j]))
    ensures var rs := Chosen(queue, order, limit);
            && (forall x, y :: Precedes(order, x, y) && Unsent(queue, x) && y in rs ==> x in rs)
            && (forall i, j :: 0 <= i < j < |rs| ==> Precedes(order, rs[i], rs[j]))
  {
    var n, rs := |order| - 1, Chosen(queue, order, limit);
    var before := Chosen(queue, order[..n], limit);
    forall x, y | Precedes(order, x, y) && Unsent(queue, x) && y in rs ensures x in rs {
      var a, b :| 0 <= a < b < |order| && order[a] == x && order[b] == y;
      assert order[..n][a] == x;
      if b < n { assert order[..n][b] == y && y in before && Precedes(order[..n], x, y); }
    }
    forall i, j | 0 <= i < j < |rs| ensures Precedes(order, rs[i], rs[j]) {
      assert before[i] in order[..n];
      var a :| 0 <= a < n && order[..n][a] == before[i];
      if j < |before| {
        assert Precedes(order[..n], before[i], before[j]);
        var b, c :| 0 <= b < c < n && order[..n][b] == before[i] && order[..n][c] == before[j];
        assert order[b] == rs[i] && order[c] == rs[j];
      } else {
        assert order[a] == rs[i] && order[n] == rs[j];
      }
    }
  }

  /** Writing the batch is the protocol's Submit step. */
  lemma BatchMaySubmit(world: World, s: State, order: seq<RequestId>, limit: nat, nonce: nat)
    requires Enumerates(order, s.db.queue.Keys) && Chosen(s.db.queue, order, limit) != []
    ensures var rs := Chosen(s.db.queue, order, limit);
            && (forall i :: 0 <= i < |rs| ==> rs[i] in s.db.queue)
            && Next(world, s, s.(db := SubmitAll(s.db, rs, Transaction(nonce, BatchReceipts(s.db, rs)))),
              Submit(rs, nonce))
  {
    ChosenIsABatch(s.db.queue, order, limit);
  }

  /** The least recently updated of the rows whose transaction is not confirmed. */
  ghost predicate Oldest(queue: map<RequestId, QueueRow>, updated: seq<RequestId>, i: nat) {
    i < |updated| && Unconfirmed(queue, updated[i]) && forall k :: 0 <= k < i ==> !Unconfirmed(queue, updated[k])
  }

  /** A batch run's circumstances. Rows in the order of creation, and of their last update;
      `prepared`: the client could build and sign a transaction; `accepted`: the node took
      what it was sent. */
  datatype Occasion = Occasion(order: seq<RequestId>, updated: seq<RequestId>, limit: int, nonce: nat,
                               prepared: bool, landing: Landing, accepted: bool)

  ghost predicate Listed(db: Db, o: Occasion) {
    Enumerates(o.order, db.queue.Keys) && Enumerates(o.updated, db.queue.Keys)
  }

  /** What a batch run leaves behind: the tables, the transaction sent out, if any, and
      what the caller is told. */
  ghost predicate Batched(db: Db, o: Occasion, db': Db, sent: Option<Transaction>, outcome: Outcome)
    requires Listed(db, o)
  {
    if o.limit <= 0 then db' == db && sent.None? && outcome == Denied(NoRows)
    else if exists r :: Unconfirmed(db.queue, r) then
      && db' == db && outcome == Announced(o.accepted)
      && exists i: nat :: Oldest(db.queue, o.updated, i) && sent == db.queue[o.updated[i]].transaction
    else
      var rs := Chosen(db.queue, o.order, o.limit);
      ChosenIsABatch(db.queue, o.order, o.limit);
      var t := Transaction(o.nonce, BatchReceipts(db, rs));
      if rs == [] then db' == db && sent.None? && outcome == Denied(NoRows)
      else if !o.prepared then db' == db && sent.None? && outcome.Unknown?
      else
        && db' == (if o.landing == Lost then db else SubmitAll(db, rs, t))
        && sent == (if o.landing == Done then Some(t) else None)
        && outcome == Announced(o.landing == Done && o.accepted)
  }

  function Announced(accepted: bool): (outcome: Outcome) { if accepted then Fine else Unknown }

  /** Whatever is sent out is stored at that moment: the protocol's Broadcast guard. */
  lemma SentIsStored(world: World, s: State, o: Occasion, db': Db, t: Transaction, outcome: Outcome)
    requires Listed(s.db, o) && Batched(s.db, o, db', Some(t), outcome)
    ensures var s' := s.(db := db'); Next(world, s', s'.(broadcast := s'.broadcast + {t}), Broadcast(t))
  {
    if !(exists r :: Unconfirmed(s.db.queue, r)) {
      var rs := Chosen(s.db.queue, o.order, o.limit);
      ChosenIsABatch(s.db.queue, o.order, o.limit);
      SubmittedRow(s.db, rs, t);
    }
  }

  lemma SubmittedRow(db: Db, rs: seq<RequestId>, t: Transaction)
    requires rs != [] && forall i :: 0 <= i < |rs| ==> rs[i] in db.queue
    ensures var r, db' := rs[|rs| - 1], SubmitAll(db, rs, t); r in db'.queue && db'.queue[r].transaction == Some(t)
  {
  }

  lemma SubmitMore(db: Db, rs: seq<RequestId>, t: Transaction, i: nat)
    requires i < |rs| && forall k :: 0 <= k < |rs| ==> rs[k] in db.queue
    ensures SubmitAll(db, rs[..i + 1], t) == SubmitOne(SubmitAll(db, rs[..i], t), rs[i], t)
  {
    assert rs[..i + 1][..i] == rs[..i];
  }

  class SettlementQueue {
    const store: Store

    constructor (store: Store)
      ensures this.store == store
    {
      this.store := store;
    }

    method Enqueue(receipt: Receipt, landing: Landing) returns (outcome: Outcome)
      requires store.Valid()
      modifies store
      ensures store.Valid() && store.db == if landing == Lost then old(store.db)
              else Ledger.Enqueue(old(store.db), receipt)
      ensures outcome == if landing == Done then Fine else Unknown
    {
      var tx, r := store.db, receipt.request;
      var inserted := r !in tx.queue;
      if inserted {
        tx := tx.(queue := tx.queue[r := QueueRow(receipt, Cosigned, None)]);
        tx := TransitionSettlement(tx, r, Completed, Signed);
      }
      outcome := store.Commit(tx, landing);
    }

    /** The least recently updated first. */
    method PendingBroadcast(updated: seq<RequestId>) returns (t: Option<Transaction>)
      requires Enumerates(updated, store.db.queue.Keys)
      ensures t.None? <==> forall r :: !Unconfirmed(store.db.queue, r)
      ensures t.Some? ==> exists i: nat :: Oldest(store.db.queue, updated, i)
                            && t == store.db.queue[updated[i]].transaction
    {
      var queue := store.db.queue;
      for i := 0 to |updated|
        invariant forall k :: 0 <= k < i ==> !Unconfirmed(queue, updated[k])
      {
        if Unconfirmed(queue, updated[i]) {
          assert Oldest(queue, updated, i);
          return queue[updated[i]].transaction;
        }
      }
      return None;
    }

    method SettleBatch(o: Occasion) returns (outcome: Outcome, sent: Option<Transaction>)
      requires store.Valid() && Listed(store.db, o)
      modifies store
      ensures store.Valid() && Batched(old(store.db), o, store.db, sent, outcome)
    {
      if o.limit <= 0 { return Denied(NoRows), None; }
      var pending := PendingBroadcast(o.updated);
      if pending.Some? { return Announced(o.accepted), pending; }
      ChosenIsABatch(store.db.queue, o.order, o.limit);
      var ids, receipts := Select(store.db, o.order, o.limit);
      if receipts == [] { return Denied(NoRows), None; }
      if !o.prepared { return Unknown, None; }
      var transaction := Transaction(o.nonce, receipts);
      var tx := Write(ids, transaction);
      outcome := store.Commit(tx, o.landing);
      if !outcome.Fine? { return Unknown, None; }
      return Announced(o.accepted), Some(transaction);
    }

    /** The chosen rows, one by one, under one transaction. */
    method Write(ids: seq<RequestId>, transaction: Transaction) returns (tx: Db)
      requires forall i :: 0 <= i < |ids| ==> ids[i] in store.db.queue
      ensures tx == SubmitAll(store.db, ids, transaction) && tx.accounts == store.db.accounts
    {
      tx := store.db;
      for i := 0 to |ids|
        invariant tx == SubmitAll(store.db, ids[..i], transaction)
        invariant tx.accounts == store.db.accounts
      {
        SubmitMore(store.db, ids, transaction, i);
        tx := tx.(queue := tx.queue[ids[i] := tx.queue[ids[i]].(state := Broadcasting,
          transaction := Some(transaction))]);
        tx := TransitionSettlement(tx, ids[i], Signed, Submitted);
      }
      assert ids[..|ids|] == ids;
    }

    method Select(tx: Db, order: seq<RequestId>, limit: nat) returns (ids: seq<RequestId>, receipts: seq<Receipt>)
      requires forall i, j :: 0 <= i < j < |order| ==> order[i] != order[j]
      ensures ids == Chosen(tx.queue, order, limit)
      ensures (forall i :: 0 <= i < |ids| ==> ids[i] in tx.queue) && receipts == BatchReceipts(tx, ids)
    {
      ids, receipts := [], [];
      for i := 0 to |order|
        invariant ids == Chosen(tx.queue, order[..i], limit)
        invariant forall k :: 0 <= k < |ids| ==> ids[k] in tx.queue
        invariant receipts == BatchReceipts(tx, ids)
      {
        assert order[..i + 1][..i] == order[..i];
        var r := order[i];
        if Unsent(tx.queue, r) && |ids| < limit {
          ids, receipts := ids + [r], receipts + [tx.queue[r].receipt];
        }
      }
      assert order[..|order|] == order;
    }
  }
}
