/** The outbox tells each request's life as one unbroken path of legal edges. */
module Trails {
  import opened Basics
  import opened Tables
  import opened Ledger

  function Trail(outbox: seq<Notice>, r: RequestId): (trail: seq<Notice>) {
    if outbox == [] then [] else
    var n := outbox[|outbox| - 1];
    Trail(outbox[..|outbox| - 1], r) + if n.request == r then [n] else []
  }

  /** The table's edges, and the one edge a reorganisation adds. */
  predicate Edge(n: Notice) {
    Transition(n.from, n.to) || (n.from == Settled && n.to == Submitted)
  }

  function End(trail: seq<Notice>): (state: RequestState) {
    if trail == [] then Created else trail[|trail| - 1].to
  }

  predicate Path(trail: seq<Notice>) {
    && (forall i :: 0 <= i < |trail| ==> Edge(trail[i]))
    && (trail != [] ==> trail[0].from == Created)
    && (forall i :: 0 < i < |trail| ==> trail[i].from == trail[i - 1].to)
  }

  function StateOf(db: Db, r: RequestId): (state: RequestState) {
    if r in db.requests then db.requests[r].state else Created
  }

  ghost predicate Told(outbox: seq<Notice>, r: RequestId, state: RequestState) {
    var trail := Trail(outbox, r);
    Path(trail) && End(trail) == state && forall i :: 0 <= i < |trail| ==> trail[i].request == r
  }

  ghost predicate OutboxOK(db: Db) {
    forall r :: Told(db.outbox, r, StateOf(db, r))
  }

  lemma TrailAppend(outbox: seq<Notice>, n: Notice, r: RequestId)
    ensures Trail(outbox + [n], r) == Trail(outbox, r) + if n.request == r then [n] else []
  {
    assert (outbox + [n])[..|outbox|] == outbox;
  }

  lemma ToldBefore(outbox: seq<Notice>, r: RequestId, state: RequestState, n: Notice)
    requires Told(outbox, r, state)
    requires n.request == r ==> n.from == state && Edge(n)
    ensures Told(outbox + [n], r, if n.request == r then n.to else state)
  {
    TrailAppend(outbox, n, r);
  }

  lemma Quiet(db: Db, db': Db)
    requires OutboxOK(db) && db'.outbox == db.outbox && forall r :: StateOf(db', r) == StateOf(db, r)
    ensures OutboxOK(db')
  {
    forall r ensures Told(db'.outbox, r, StateOf(db', r)) {
      assert Told(db.outbox, r, StateOf(db, r));
    }
  }

  lemma Noticed(db: Db, db': Db, n: Notice)
    requires OutboxOK(db) && db'.outbox == db.outbox + [n]
    requires n.from == StateOf(db, n.request) && Edge(n)
    requires forall r :: StateOf(db', r) == if r == n.request then n.to else StateOf(db, r)
    ensures OutboxOK(db')
  {
    forall r ensures Told(db'.outbox, r, StateOf(db', r)) {
      ToldBefore(db.outbox, r, StateOf(db, r), n);
    }
  }

  lemma AtServe(db: Db, v: Reservation)
    requires OutboxOK(db) && ReserveInference(db, v).Commit?
    ensures OutboxOK(ReserveInference(db, v).db)
  {
    var db' := ReserveInference(db, v).db;
    var first, second := Notice(v.request, Created, Reserved), Notice(v.request, Reserved, Offered);
    var mid := db'.(requests := db'.requests[v.request := db'.requests[v.request].(state := Reserved)],
      outbox := db.outbox + [first]);
    Noticed(db, mid, first);
    assert db'.outbox == mid.outbox + [second];
    Noticed(mid, db', second);
  }

  lemma AtSetState(db: Db, r: RequestId, to: RequestState)
    requires OutboxOK(db) && r in db.requests && Edge(Notice(r, db.requests[r].state, to))
    ensures OutboxOK(SetState(db, r, to))
  {
    Noticed(db, SetState(db, r, to), Notice(r, db.requests[r].state, to));
  }

  lemma AtSettlementTransition(db: Db, db': Db, r: RequestId, from: RequestState, to: RequestState)
    requires OutboxOK(db) && Edge(Notice(r, from, to))
    requires db'.requests == db.requests && db'.outbox == db.outbox
    ensures OutboxOK(TransitionSettlement(db', r, from, to))
  {
    Quiet(db, db');
    if r in db'.requests && db'.requests[r].state == from { AtSetState(db', r, to); }
  }

  lemma AtAbort(db: Db, r: RequestId, to: RequestState)
    requires OutboxOK(db) && AbortInference(db, r, to).Commit?
    ensures OutboxOK(AbortInference(db, r, to).db)
  {
    if db.requests[r].state != to {
      Noticed(db, Ended(db, r, to), Notice(r, db.requests[r].state, to));
    }
  }

  lemma AtComplete(db: Db, r: RequestId, p: Proposal)
    requires OutboxOK(db) && CompleteInference(db, r, p).Commit?
    ensures OutboxOK(CompleteInference(db, r, p).db)
  {
    var db' := CompleteInference(db, r, p).db;
    if db' != db { Noticed(db, db', Notice(r, Streaming, Completed)); }
  }

  lemma AtSubmit(db: Db, rs: seq<RequestId>, t: Transaction)
    requires OutboxOK(db) && forall i :: 0 <= i < |rs| ==> rs[i] in db.queue
    ensures OutboxOK(SubmitAll(db, rs, t))
    decreases |rs|
  {
    if rs != [] {
      var n := |rs| - 1;
      AtSubmit(db, rs[..n], t);
      var before := SubmitAll(db, rs[..n], t);
      AtSettlementTransition(before,
        before.(queue := before.queue[rs[n] := before.queue[rs[n]].(state := Broadcasting, transaction := Some(t))]),
        rs[n], Signed, Submitted);
    }
  }

  lemma AtMarkSettled(db: Db, r: RequestId)
    requires OutboxOK(db)
    ensures OutboxOK(MarkSettled(db, r))
  {
    AtSettlementTransition(db,
      db.(queue := if r in db.queue && db.queue[r].state == Broadcasting
                   then db.queue[r := db.queue[r].(state := QueueSettled)] else db.queue,
          holds := if r in db.holds then db.holds[r := db.holds[r].(released := true)] else db.holds),
      r, Submitted, Settled);
  }

  /** Reopening the first settlements of the list accounts for their notices. */
  lemma RevertedSoFar(db: Db, rs: seq<RequestId>, r: RequestId)
    requires OutboxOK(db)
    requires forall i, j :: 0 <= i < j < |rs| ==> rs[i] != rs[j]
    ensures Told(db.outbox + Reverted(db, rs), r, if r in rs && StateOf(db, r) == Settled then Submitted
            else StateOf(db, r))
    decreases |rs|
  {
    if rs == [] {
      assert db.outbox + [] == db.outbox;
      assert Told(db.outbox, r, StateOf(db, r));
    } else {
      var before, last := rs[..|rs| - 1], rs[|rs| - 1];
      assert last !in before && rs == before + [last];
      RevertedSoFar(db, before, r);
      if last in db.requests && db.requests[last].state == Settled {
        var n := Notice(last, Settled, Submitted);
        ToldBefore(db.outbox + Reverted(db, before), r, if r in before && StateOf(db, r) == Settled then Submitted
          else StateOf(db, r), n);
        assert db.outbox + Reverted(db, rs) == db.outbox + Reverted(db, before) + [n];
      } else {
        assert Reverted(db, rs) == Reverted(db, before);
      }
    }
  }

  lemma AtUnwind(db: Db, rs: seq<RequestId>)
    requires OutboxOK(db) && Enumerates(rs, db.chain.settlements.Keys)
    ensures OutboxOK(Rewind(db, rs))
  {
    var db' := Rewind(db, rs);
    forall r ensures Told(db'.outbox, r, StateOf(db', r)) {
      RevertedSoFar(db, rs, r);
    }
  }
}
