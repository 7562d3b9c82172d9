/** A queued receipt is given one transaction, for good; what goes out is what was
    stored, and it was stored first. */
module Dispatch {
  import opened Basics
  import opened Tables
  import opened Ledger
  import opened Protocol
  import opened Coherence

  /** Every receipt the transaction carries is queued under it. */
  ghost predicate Stored(queue: map<RequestId, QueueRow>, t: Transaction) {
    forall i :: 0 <= i < |t.receipts| ==>
      var receipt := t.receipts[i];
      && receipt.request in queue
      && queue[receipt.request].receipt == receipt && queue[receipt.request].transaction == Some(t)
  }

  ghost predicate QueueOK(queue: map<RequestId, QueueRow>, broadcast: set<Transaction>) {
    && (forall r <- queue :: queue[r].transaction.Some? ==> Stored(queue, queue[r].transaction.value))
    && (forall t <- broadcast :: Stored(queue, t))
  }

  /** Receipts stay queued as they are, and keep the transaction they were given. */
  ghost predicate Kept(queue: map<RequestId, QueueRow>, queue': map<RequestId, QueueRow>) {
    forall r <- queue ::
      && r in queue' && queue'[r].receipt == queue[r].receipt
      && (queue[r].transaction.Some? ==> queue'[r].transaction == queue[r].transaction)
  }

  /** No step but a batch hands out transactions. */
  ghost predicate NoneAssigned(queue: map<RequestId, QueueRow>, queue': map<RequestId, QueueRow>) {
    forall r <- queue' :: queue'[r].transaction.Some? ==> r in queue && queue[r].transaction == queue'[r].transaction
  }

  lemma StoredKept(queue: map<RequestId, QueueRow>, queue': map<RequestId, QueueRow>, t: Transaction)
    requires Stored(queue, t) && Kept(queue, queue')
    ensures Stored(queue', t)
  {
  }

  lemma AtKept(queue: map<RequestId, QueueRow>, queue': map<RequestId, QueueRow>, broadcast: set<Transaction>)
    requires QueueOK(queue, broadcast) && Kept(queue, queue') && NoneAssigned(queue, queue')
    ensures QueueOK(queue', broadcast)
  {
    forall r <- queue' | queue'[r].transaction.Some? ensures Stored(queue', queue'[r].transaction.value) {
      StoredKept(queue, queue', queue[r].transaction.value);
    }
    forall t <- broadcast ensures Stored(queue', t) { StoredKept(queue, queue', t); }
  }

  lemma AtSubmit(db: Db, pcs: map<RequestId, Pc>, broadcast: set<Transaction>, rs: seq<RequestId>, nonce: nat)
    requires Coherent(db, pcs) && QueueOK(db.queue, broadcast)
    requires forall i :: 0 <= i < |rs| ==> rs[i] in db.queue && db.queue[rs[i]].state == Cosigned
    ensures var queue' := SubmitAll(db, rs, Transaction(nonce, BatchReceipts(db, rs))).queue;
            QueueOK(queue', broadcast) && Kept(db.queue, queue')
  {
    var t := Transaction(nonce, BatchReceipts(db, rs));
    var queue' := SubmitAll(db, rs, t).queue;
    SubmitAllRows(db, rs, t);
    forall r | r in rs ensures db.queue[r].transaction.None? && db.queue[r].receipt.request == r {
      assert RowOK(db, pcs, r);
    }
    forall i | 0 <= i < |t.receipts|
      ensures t.receipts[i].request in queue' && queue'[t.receipts[i].request].receipt == t.receipts[i]
           && queue'[t.receipts[i].request].transaction == Some(t)
    {
      assert rs[i] in rs;
    }
    assert Stored(queue', t);
    forall r <- queue' | queue'[r].transaction.Some? ensures Stored(queue', queue'[r].transaction.value) {
      if r !in rs { StoredKept(db.queue, queue', db.queue[r].transaction.value); }
    }
    forall t' <- broadcast ensures Stored(queue', t') { StoredKept(db.queue, queue', t'); }
  }

  /** A settlement seen on chain names a receipt that is queued and in flight. */
  lemma BackedMatches(db: Db, broadcast: set<Transaction>, e: Event)
    requires QueueOK(db.queue, broadcast) && e.ReceiptSettled? && Backed(e, broadcast)
    ensures Matches(db, e)
  {
    var t, i :| t in broadcast && 0 <= i < |t.receipts|
      && t.receipts[i].request == e.request && t.receipts[i].session == e.session
      && t.receipts[i].total == e.providerAmount + e.feeAmount;
    assert Stored(db.queue, t);
  }
}
