/** One slot per provider offer: its free capacity and the requests running on it
    never add up to more than one. */
module Capacity {
  import opened Basics
  import opened Tables
  import opened Ledger
  import opened Protocol
  import opened Coherence

  /** The route a request occupies, if it occupies one. */
  function Slot(db: Db, r: RequestId): (key: Option<RouteKey>) {
    if r in db.requests && r in db.holds && !db.holds[r].released && Executing(db.requests[r].state)
    then Some(RouteKey(db.requests[r].machine, db.requests[r].offer)) else None
  }

  ghost predicate CapacityOK(db: Db) {
    && (forall key <- db.routes :: db.routes[key].capacity + |Occupants(db, key)| <= 1)
    && (forall r <- db.requests :: RouteKey(db.requests[r].machine, db.requests[r].offer) in db.routes)
  }

  lemma SlotIsOccupancy(db: Db, key: RouteKey, r: RequestId)
    ensures r in Occupants(db, key) <==> Slot(db, r) == Some(key)
  {
  }

  /** A step that moves no request into or out of a slot. */
  lemma Unmoved(db: Db, db': Db)
    requires CapacityOK(db)
    requires db'.routes == db.routes && forall r :: Slot(db', r) == Slot(db, r)
    requires forall r <- db'.requests :: RouteKey(db'.requests[r].machine, db'.requests[r].offer) in db.routes
    ensures CapacityOK(db')
  {
    forall key <- db'.routes ensures Occupants(db', key) == Occupants(db, key) {
      SameOccupants(db, db', key);
    }
  }

  lemma SameOccupants(db: Db, db': Db, key: RouteKey)
    requires forall r :: Slot(db', r) == Some(key) <==> Slot(db, r) == Some(key)
    ensures Occupants(db', key) == Occupants(db, key)
  {
    forall r ensures r in Occupants(db', key) <==> r in Occupants(db, key) {
      SlotIsOccupancy(db, key, r);
      SlotIsOccupancy(db', key, r);
    }
  }

  /** A request leaves its slot and the slot is given back, once. */
  lemma Left(db: Db, db': Db, r: RequestId, key: RouteKey)
    requires CapacityOK(db)
    requires Slot(db, r) == Some(key) && Slot(db', r) == None
    requires db'.routes == FreeSlot(db.routes, key) && forall other :: other != r ==>
               Slot(db', other) == Slot(db, other)
    requires forall other <- db'.requests ::
             RouteKey(db'.requests[other].machine, db'.requests[other].offer) in db.routes
    ensures CapacityOK(db')
  {
    forall k <- db'.routes ensures db'.routes[k].capacity + |Occupants(db', k)| <= 1 {
      if k != key {
        SameOccupants(db, db', k);
      } else {
        forall other ensures other in Occupants(db', k) <==> other in Occupants(db, k) - {r} {
          SlotIsOccupancy(db, k, other);
          SlotIsOccupancy(db', k, other);
        }
        SlotIsOccupancy(db, k, r);
        assert Occupants(db', k) == Occupants(db, k) - {r};
      }
    }
  }

  lemma Taken(db: Db, db': Db, r: RequestId, key: RouteKey)
    requires CapacityOK(db) && key in db.routes && db.routes[key].capacity > 0
    requires Slot(db, r) == None && Slot(db', r) == Some(key)
    requires db'.routes == db.routes[key := db.routes[key].(capacity := db.routes[key].capacity - 1)]
    requires forall other :: other != r ==> Slot(db', other) == Slot(db, other)
    requires forall other <- db'.requests ::
             RouteKey(db'.requests[other].machine, db'.requests[other].offer) in db.routes
    ensures CapacityOK(db')
  {
    forall k <- db'.routes ensures db'.routes[k].capacity + |Occupants(db', k)| <= 1 {
      if k != key {
        SameOccupants(db, db', k);
      } else {
        forall other ensures other in Occupants(db', k) <==> other in Occupants(db, k) + {r} {
          SlotIsOccupancy(db, k, other);
          SlotIsOccupancy(db', k, other);
        }
        assert Occupants(db', k) == Occupants(db, k) + {r};
      }
    }
  }

  lemma AtServe(db: Db, v: Reservation)
    requires CapacityOK(db) && ReserveInference(db, v).Commit?
    ensures CapacityOK(ReserveInference(db, v).db)
  {
    Taken(db, ReserveInference(db, v).db, v.request, Key(v));
  }

  lemma AtTransition(db: Db, r: RequestId, to: RequestState)
    requires CapacityOK(db) && TransitionRequest(db, r, to).Commit?
    requires Executing(db.requests[r].state) && Executing(to)
    ensures CapacityOK(TransitionRequest(db, r, to).db)
  {
    Unmoved(db, TransitionRequest(db, r, to).db);
  }

  lemma AtComplete(db: Db, pcs: map<RequestId, Pc>, r: RequestId)
    requires CapacityOK(db) && Coherent(db, pcs) && r in pcs && pcs[r].Persisting?
    requires CompleteInference(db, r, pcs[r].proposal).Commit?
    ensures CapacityOK(CompleteInference(db, r, pcs[r].proposal).db)
  {
    assert RowOK(db, pcs, r);
    var p := pcs[r].proposal;
    Left(db, CompleteInference(db, r, p).db, r, RouteKey(p.machine, p.offer));
  }

  /** An abort gives back a slot exactly when the request still held one. */
  lemma AbortSlots(db: Db, r: RequestId, to: RequestState)
    requires AbortInference(db, r, to).Commit?
    ensures var db' := AbortInference(db, r, to).db;
            && Slot(db', r) == None
            && (forall other :: other != r ==> Slot(db', other) == Slot(db, other))
            && db'.routes == (if Slot(db, r).None? then db.routes else FreeSlot(db.routes, Slot(db, r).value))
            && (forall other <- db'.requests :: other in db.requests
                  && db'.requests[other].machine == db.requests[other].machine
                    && db'.requests[other].offer == db.requests[other].offer)
  {
    if db.requests[r].state != to { EndedSlots(db, r, to); }
  }

  lemma EndedSlots(db: Db, r: RequestId, to: RequestState)
    requires r in db.requests && !Executing(to)
    ensures var db' := Ended(db, r, to);
            && Slot(db', r) == None
            && (forall other :: other != r ==> Slot(db', other) == Slot(db, other))
            && db'.routes == (if Slot(db, r).None? then db.routes else FreeSlot(db.routes, Slot(db, r).value))
            && db'.requests == db.requests[r := db.requests[r].(state := to)]
  {
    var db' := Ended(db, r, to);
    forall other | other != r ensures Slot(db', other) == Slot(db, other) {}
  }

  lemma AtAbort(db: Db, r: RequestId, to: RequestState)
    requires CapacityOK(db) && AbortInference(db, r, to).Commit?
    ensures CapacityOK(AbortInference(db, r, to).db)
  {
    var db' := AbortInference(db, r, to).db;
    AbortSlots(db, r, to);
    if Slot(db, r).Some? {
      Left(db, db', r, Slot(db, r).value);
    } else {
      Unmoved(db, db');
    }
  }

  lemma AtDraft(db: Db, r: RequestId, domain: Domain)
    requires CapacityOK(db) && PrepareReceipt(db, r, domain).Commit?
    ensures CapacityOK(PrepareReceipt(db, r, domain).db)
  {
    Unmoved(db, PrepareReceipt(db, r, domain).db);
  }

  lemma AtQueue(db: Db, receipt: Receipt)
    requires CapacityOK(db)
    ensures CapacityOK(Enqueue(db, receipt))
  {
    Unmoved(db, Enqueue(db, receipt));
  }

  lemma AtSubmit(db: Db, rs: seq<RequestId>, t: Transaction)
    requires CapacityOK(db) && forall i :: 0 <= i < |rs| ==> rs[i] in db.queue
    ensures CapacityOK(SubmitAll(db, rs, t))
    decreases |rs|
  {
    if rs != [] {
      AtSubmit(db, rs[..|rs| - 1], t);
      var before := SubmitAll(db, rs[..|rs| - 1], t);
      Unmoved(before, SubmitOne(before, rs[|rs| - 1], t));
    }
  }

  /** Indexing and unwinding settle requests that have long left their slot. */
  lemma AtLog(db: Db, pcs: map<RequestId, Pc>, feeRecipient: Address, log: Log)
    requires CapacityOK(db) && Coherent(db, pcs) && ApplyLog(db, feeRecipient, log).Commit?
    requires log.event.ReceiptSettled? && log.event.request !in db.chain.settlements && Matches(db, log.event)
    ensures CapacityOK(ApplyLog(db, feeRecipient, log).db)
  {
    var r := log.event.request;
    assert RowOK(db, pcs, r);
    var noted := SettlementApplies(db, feeRecipient, log);
    MarkKeeps(noted, r);
    Unmoved(db, MarkSettled(noted, r));
  }

  lemma AtUnwind(db: Db, pcs: map<RequestId, Pc>)
    requires CapacityOK(db) && Coherent(db, pcs)
    ensures CapacityOK(Reopen(db))
  {
    var db' := Reopen(db);
    forall r ensures Slot(db', r) == Slot(db, r) {
      if r in db.requests { assert RowOK(db, pcs, r); }
    }
    Unmoved(db, db');
  }

  // ------------------------------------------------------------------ heartbeats

  lemma AtDrain(db: Db, m: MachineId)
    requires CapacityOK(db)
    ensures CapacityOK(db.(routes := Drain(db.routes, m)))
  {
    var db' := db.(routes := Drain(db.routes, m));
    forall key <- db'.routes ensures db'.routes[key].capacity + |Occupants(db', key)| <= 1 {
      SameOccupants(db, db', key);
    }
  }

  /** A route is rewritten with a free slot only when nothing runs on it. */
  lemma Rerouted(db: Db, key: RouteKey, route: Route)
    requires CapacityOK(db) && route.capacity <= 1 && (route.capacity == 1 ==> Occupants(db, key) == {})
    ensures CapacityOK(db.(routes := db.routes[key := route]))
  {
    var db' := db.(routes := db.routes[key := route]);
    forall k <- db'.routes ensures db'.routes[k].capacity + |Occupants(db', k)| <= 1 {
      SameOccupants(db, db', k);
      if k !in db.routes { Vacant(db, k); }
    }
  }

  lemma AtAdvert(db: Db, m: MachineId, available: nat, advert: Advert)
    requires CapacityOK(db) && m in db.machines
    ensures CapacityOK(RouteAdvert(db, m, available, advert))
  {
    var key, db' := RouteKey(m, advert.offer), RouteAdvert(db, m, available, advert);
    if db' != db { Rerouted(db, key, db'.routes[key]); }
  }

  /** Nothing runs on an offer that has never been routed. */
  lemma Vacant(db: Db, key: RouteKey)
    requires CapacityOK(db) && key !in db.routes
    ensures Occupants(db, key) == {}
  {
  }

  lemma AtAdverts(db: Db, m: MachineId, available: nat, adverts: seq<Advert>)
    requires CapacityOK(db) && m in db.machines && RouteAll(db, m, available, adverts).Some?
    ensures CapacityOK(RouteAll(db, m, available, adverts).value)
    decreases |adverts|
  {
    if adverts != [] {
      AtAdverts(db, m, available, adverts[..|adverts| - 1]);
      AtAdvert(RouteAll(db, m, available, adverts[..|adverts| - 1]).value, m, available, adverts[|adverts| - 1]);
    }
  }

  lemma AtBeat(db: Db, m: MachineId, beat: Heartbeat)
    requires CapacityOK(db) && ReconcileCapacity(db, m, beat).Commit?
    ensures CapacityOK(ReconcileCapacity(db, m, beat).db)
  {
    AtDrain(db, m);
    AtAdverts(db.(routes := Drain(db.routes, m)), m, beat.available, beat.adverts);
  }
}
