/** What was reserved covers whatever is charged. */
module Prices {
  import opened Basics
  import opened Charging
  import opened Tables
  import opened Projecting
  import opened Ledger
  import opened Protocol
  import opened Coherence

  ghost predicate OffersOK(world: World, p: Projection) {
    forall key <- p.offers :: p.offers[key] == world.offer(key)
  }

  ghost predicate RoutePriced(world: World, machines: map<MachineId, Machine>, key: RouteKey, route: Route) {
    && key.machine in machines
    && (route.hashes.Some? ==>
          route.rates == world.offer(OfferKey(machines[key.machine].wallet, route.hashes.value.offer,
            route.version)).rates)
  }

  ghost predicate RequestPriced(world: World, machines: map<MachineId, Machine>, q: Request) {
    && q.machine in machines
    && Cost(world.offer(OfferKey(machines[q.machine].wallet, q.hashes.offer, q.version)).rates, q.limits)
      == Some(q.maximumSpend)
  }

  ghost predicate PricesOK(world: World, db: Db) {
    && OffersOK(world, db.chain)
    && (forall key <- db.routes :: RoutePriced(world, db.machines, key, db.routes[key]))
    && (forall r <- db.requests :: RequestPriced(world, db.machines, db.requests[r]))
  }

  /** Prices do not move when rows keep their terms and machines their wallets. */
  predicate SameTerms(db: Db, db': Db) {
    && (forall m <- db.machines :: m in db'.machines && db'.machines[m].wallet == db.machines[m].wallet)
    && (forall key <- db'.routes :: key in db.routes && db'.routes[key].rates == db.routes[key].rates
          && db'.routes[key].hashes == db.routes[key].hashes && db'.routes[key].version == db.routes[key].version)
    && (forall r <- db'.requests :: r in db.requests
          && db'.requests[r].(state := Created) == db.requests[r].(state := Created))
  }

  /** One request moves on; routes keep everything but their capacity. */
  lemma SameButState(db: Db, db': Db, r: RequestId)
    requires r in db.requests && r in db'.requests
             && db'.requests == db.requests[r := db.requests[r].(state := db'.requests[r].state)]
    requires db'.machines == db.machines
    requires forall key <- db'.routes :: key in db.routes
               && db'.routes[key] == db.routes[key].(capacity := db'.routes[key].capacity)
    ensures SameTerms(db, db')
  {
  }

  lemma MovedOn(db: Db, db': Db, r: RequestId)
    requires db'.requests == db.requests || (r in db.requests && r in db'.requests
               && db'.requests == db.requests[r := db.requests[r].(state := db'.requests[r].state)])
    requires db'.machines == db.machines && db'.routes == db.routes
    ensures SameTerms(db, db')
  {
    if db'.requests != db.requests { SameButState(db, db', r); }
  }

  lemma AtSame(world: World, db: Db, db': Db)
    requires PricesOK(world, db) && SameTerms(db, db') && OffersOK(world, db'.chain)
    ensures PricesOK(world, db')
  {
    forall r <- db'.requests ensures RequestPriced(world, db'.machines, db'.requests[r]) {
      assert RequestPriced(world, db.machines, db.requests[r]);
      assert db'.requests[r].(state := Created).limits == db.requests[r].limits;
    }
    forall key <- db'.routes ensures RoutePriced(world, db'.machines, key, db'.routes[key]) {
      assert RoutePriced(world, db.machines, key, db.routes[key]);
    }
  }

  lemma AtServe(world: World, db: Db, v: Reservation)
    requires PricesOK(world, db) && ReserveInference(db, v).Commit?
    ensures PricesOK(world, ReserveInference(db, v).db)
  {
    var db' := ReserveInference(db, v).db;
    assert RoutePriced(world, db.machines, Key(v), db.routes[Key(v)]);
    forall r <- db'.requests ensures RequestPriced(world, db'.machines, db'.requests[r]) {
      if r != v.request { assert RequestPriced(world, db.machines, db.requests[r]); }
    }
    forall key <- db'.routes ensures RoutePriced(world, db'.machines, key, db'.routes[key]) {
      assert RoutePriced(world, db.machines, key, db.routes[key]);
    }
  }

  lemma AtAdvert(world: World, db: Db, m: MachineId, available: nat, advert: Advert)
    requires PricesOK(world, db) && m in db.machines
    ensures PricesOK(world, RouteAdvert(db, m, available, advert))
  {
    var db' := RouteAdvert(db, m, available, advert);
    if db' != db {
      var key := RouteKey(m, advert.offer);
      assert db' == db.(routes := db.routes[key := db'.routes[key]]);
      Rerouted(world, db, key, db'.routes[key]);
    }
  }

  lemma Rerouted(world: World, db: Db, key: RouteKey, route: Route)
    requires PricesOK(world, db) && RoutePriced(world, db.machines, key, route)
    ensures PricesOK(world, db.(routes := db.routes[key := route]))
  {
    var db' := db.(routes := db.routes[key := route]);
    forall k <- db'.routes ensures RoutePriced(world, db'.machines, k, db'.routes[k]) {
      if k != key { assert RoutePriced(world, db.machines, k, db.routes[k]); }
    }
  }

  lemma AtAdverts(world: World, db: Db, m: MachineId, available: nat, adverts: seq<Advert>)
    requires PricesOK(world, db) && m in db.machines && RouteAll(db, m, available, adverts).Some?
    ensures PricesOK(world, RouteAll(db, m, available, adverts).value)
    decreases |adverts|
  {
    if adverts != [] {
      AtAdverts(world, db, m, available, adverts[..|adverts| - 1]);
      AtAdvert(world, RouteAll(db, m, available, adverts[..|adverts| - 1]).value, m, available, adverts[|adverts| - 1]);
    }
  }

  lemma AtBeat(world: World, db: Db, m: MachineId, beat: Heartbeat)
    requires PricesOK(world, db) && ReconcileCapacity(db, m, beat).Commit?
    ensures PricesOK(world, ReconcileCapacity(db, m, beat).db)
  {
    var drained := db.(routes := Drain(db.routes, m));
    AtSame(world, db, drained);
    AtAdverts(world, drained, m, beat.available, beat.adverts);
  }

  lemma AtLog(world: World, p: Projection, log: Log)
    requires OffersOK(world, p) && Allowed(world, p, log.event) && Project(p, world.feeRecipient, log).Some?
    ensures OffersOK(world, Project(p, world.feeRecipient, log).value)
  {
  }

  lemma CostWithin(rates: Rates, usage: Usage, limits: Usage)
    requires Within(usage, limits) && Cost(rates, limits).Some?
    ensures Cost(rates, usage).Some? && Cost(rates, usage).value <= Cost(rates, limits).value
  {
    ExactTotalMonotone(rates, usage, limits);
  }

  /** A completion reported within its limits always costs something that can be
      charged, at most what was reserved: the receipt is never refused as too dear. */
  lemma NeverTooDear(world: World, db: Db, pcs: map<RequestId, Pc>, r: RequestId, domain: Domain)
    requires PricesOK(world, db) && Coherent(db, pcs) && r in pcs && pcs[r] == Finalizing
    ensures PrepareReceipt(db, r, domain) != Rollback(Error.MaximumExceeded)
    ensures Preparable(db, r) && PublishedRates(db, r).Some? ==>
              var total := Cost(PublishedRates(db, r).value, db.proposals[r].usage);
              total.Some? && total.value <= db.requests[r].maximumSpend
  {
    assert RowOK(db, pcs, r);
    var q := db.requests[r];
    assert RequestPriced(world, db.machines, q);
    if Preparable(db, r) && PublishedRates(db, r).Some? {
      assert db.chain.offers[OfferOf(db, r)] == world.offer(OfferOf(db, r));
      CostWithin(PublishedRates(db, r).value, db.proposals[r].usage, q.limits);
    }
  }
}
