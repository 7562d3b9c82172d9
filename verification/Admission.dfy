/** Exactly when the broker accepts a reservation, a completion or an end, and what it
    changes then. */
module Admission {
  import opened Basics
  import opened Charging
  import opened Tables
  import opened Ledger

  /** The life of a request, edge by edge. */
  lemma EdgesOfALife(from: RequestState, to: RequestState)
    ensures Transition(from, to) <==> (from, to) in {
              (Created, Reserved), (Created, Cancelled), (Created, Failed),
              (Reserved, Offered), (Reserved, Cancelled), (Reserved, Expired), (Reserved, Failed),
              (Offered, Accepted), (Offered, Rejected), (Offered, Expired), (Offered, Cancelled),
              (Accepted, Streaming), (Accepted, Cancelled), (Accepted, Failed),
              (Streaming, Completed), (Streaming, Cancelled), (Streaming, Failed),
              (Completed, Signed), (Completed, Failed), (Signed, Submitted), (Submitted, Settled)}
  {
  }

  /** A request occupies its provider's slot from its reservation until it has completed or
      ended. */
  lemma ExecutingStates(state: RequestState)
    ensures Executing(state) <==> state in {Reserved, Offered, Accepted, Streaming}
  {
  }

  /** A request is reserved exactly for the account of an open session, on a bonded and
      healthy route with a slot in the version asked for, when its worst case at the route's
      rates is a price within the spending limit and the session's free balance. */
  lemma ReservesIff(db: Db, v: Reservation)
    ensures ReserveInference(db, v).Commit? <==>
              && v.limits.input > 0 && v.limits.output > 0 && v.limits.compute > 0
              && v.session in db.sessions && db.sessions[v.session].account == v.account
                && db.sessions[v.session].status == Open
              && RouteKey(v.machine, v.offer) in db.routes
              && (var route := db.routes[RouteKey(v.machine, v.offer)];
                  && route.version == v.version && route.bonded && route.healthy && route.capacity > 0
                    && route.hashes.Some?
                  && var worst := ExactTotal(route.rates, v.limits);
                     0 < worst < TWO_64 && worst <= v.maximumSpend
                       && HeldSum(db.holds, v.session) + worst <= db.sessions[v.session].balance)
              && v.request !in db.requests && v.request !in db.holds
  {
  }

  /** The reservation takes one slot and locks the worst case, and touches nothing else. */
  lemma ReservesThis(db: Db, v: Reservation)
    requires ReserveInference(db, v).Commit?
    ensures var after, key := ReserveInference(db, v).db, RouteKey(v.machine, v.offer);
            var worst := ExactTotal(db.routes[key].rates, v.limits);
            && after == db.(requests := after.requests, holds := after.holds, routes := after.routes,
              outbox := after.outbox)
            && after.holds == db.holds[v.request := Hold(v.session, worst, false)]
            && after.requests == db.requests[v.request :=
                 Request(v.session, v.machine, v.offer, v.version, Offered, worst, v.limits,
                   db.routes[key].hashes.value)]
            && after.routes == db.routes[key := db.routes[key].(capacity := db.routes[key].capacity - 1)]
            && after.outbox == db.outbox + [Notice(v.request, Created, Reserved), Notice(v.request, Reserved, Offered)]
  {
  }

  /** A report completes a request exactly while it streams, in its session, within its
      limits, and only once. A request completed before is answered in peace; otherwise one
      that used too much is told so. */
  lemma CompletesIff(db: Db, r: RequestId, p: Proposal)
    ensures var result := CompleteInference(db, r, p);
            var streams := r in db.requests && db.requests[r].state == Streaming;
            var within := r in db.requests && p.usage.input <= db.requests[r].limits.input
                          && p.usage.output <= db.requests[r].limits.output
                            && p.usage.compute <= db.requests[r].limits.compute;
            && ((result.Commit? && result.db != db) <==>
                  streams && db.requests[r].session == p.session && within && r !in db.proposals)
            && (result == Commit(db, ()) <==> r in db.proposals && !(streams && db.requests[r].session == p.session
                                              && within))
            && (result == Rollback(UsageLimitExceeded) <==> streams && !within && r !in db.proposals)
  {
    var result := CompleteInference(db, r, p);
    if result.Commit? && r !in db.proposals { assert r in result.db.proposals; }
  }

  /** The completion stores the report as it came and gives the slot back. */
  lemma CompletesThis(db: Db, r: RequestId, p: Proposal)
    requires CompleteInference(db, r, p).Commit? && r !in db.proposals
    ensures var after, key := CompleteInference(db, r, p).db, RouteKey(p.machine, p.offer);
            && after == db.(requests := after.requests, proposals := after.proposals, routes := after.routes,
                            outbox := after.outbox)
            && after.proposals == db.proposals[r := p]
            && r in db.requests && after.requests == db.requests[r := db.requests[r].(state := Completed)]
            && after.routes == (if key in db.routes
                                then db.routes[key := db.routes[key].(capacity := db.routes[key].capacity + 1)]
                                  else db.routes)
            && after.outbox == db.outbox + [Notice(r, Streaming, Completed)]
  {
  }

  /** A request that is not there yet ends by an abort exactly where the table has the edge. */
  lemma AbortsIff(db: Db, r: RequestId, to: RequestState)
    requires r in db.requests && db.requests[r].state != to
    ensures AbortInference(db, r, to).Commit? <==> (to == Failed || to == Cancelled)
                                                   && Transition(db.requests[r].state, to)
  {
  }

  /** Then its hold is released and, if it was still held and executing, its slot given back. */
  lemma AbortsThis(db: Db, r: RequestId, to: RequestState)
    requires r in db.requests && db.requests[r].state != to && AbortInference(db, r, to).Commit?
    ensures var after, q := AbortInference(db, r, to).db, db.requests[r];
            var held, key := r in db.holds && !db.holds[r].released, RouteKey(q.machine, q.offer);
            && after == db.(requests := after.requests, holds := after.holds, routes := after.routes,
              outbox := after.outbox)
            && after.requests == db.requests[r := q.(state := to)]
            && after.holds == (if held then db.holds[r := db.holds[r].(released := true)] else db.holds)
            && after.routes == (if held && q.state in {Reserved, Offered, Accepted, Streaming} && key in db.routes
                                then db.routes[key := db.routes[key].(capacity := db.routes[key].capacity + 1)]
                                  else db.routes)
            && after.outbox == db.outbox + [Notice(r, q.state, to)]
  {
    assert AbortInference(db, r, to) == Commit(Ended(db, r, to), ());
  }
}
