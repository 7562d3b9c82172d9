/** Which offers a heartbeat opens: exactly those of a bonded provider, advertised as they
    are published, on evidence that has not changed, and on which nothing runs. */
module Heartbeats {
  import opened Basics
  import opened Charging
  import opened Tables
  import opened Ledger
  import Safety

  // ----------------------------------------------------------------------- conditions

  /** The machine signs for its wallet, or the wallet has allowed its signer on chain. */
  predicate Authorised(db: Db, m: MachineId) {
    && m in db.machines && !db.machines[m].revoked
    && var machine := db.machines[m];
       machine.signer == machine.wallet
       || ((machine.wallet, machine.signer) in db.chain.signers && db.chain.signers[(machine.wallet, machine.signer)])
  }

  /** The provider has a bond and has not asked for it back. */
  predicate Bonded(p: Projection, wallet: Address) {
    wallet in p.accounts && p.accounts[wallet].bond != 0 && p.accounts[wallet].exitAt == 0
  }

  /** The offer is published in the advertised version with this model and these
      capabilities; where only compute is metered, tokens are free. */
  predicate Published(p: Projection, wallet: Address, h: OfferHashes, advert: Advert) {
    var key := OfferKey(wallet, h.offer, advert.version);
    && key in p.offers && p.offers[key].model == h.model && p.offers[key].capability == h.capability
    && var rates := p.offers[key].rates;
       && rates.input < TWO_256 && rates.output < TWO_256 && rates.compute < TWO_256
       && (advert.computeOnly ==> rates.input == 0 && rates.output == 0)
  }

  /** Evidence may change only with the version. */
  predicate SameEvidence(routes: map<RouteKey, Route>, key: RouteKey, advert: Advert) {
    key in routes ==>
      || routes[key].evidence == 0 || routes[key].evidence == advert.model || routes[key].evidence == advert.evidence
      || routes[key].version < advert.version
  }

  predicate Advertisable(db: Db, routes: map<RouteKey, Route>, m: MachineId, advert: Advert)
    requires m in db.machines
  {
    && advert.hashes.Some? && advert.genuine
    && Bonded(db.chain, db.machines[m].wallet)
      && Published(db.chain, db.machines[m].wallet, advert.hashes.value, advert)
    && SameEvidence(routes, RouteKey(m, advert.offer), advert)
  }

  /** The row an advertised offer is routed on: at the published rates, with one slot if
      the machine has any and nothing runs on the offer. */
  ghost predicate RoutedAs(db: Db, route: Route, m: MachineId, available: nat, advert: Advert)
    requires m in db.machines
  {
    && advert.hashes.Some? && AtPublishedRates(db, route, m, advert)
    && route.version == advert.version && route.hashes == advert.hashes && route.bonded && route.healthy
    && route.capacity == (if available > 0 && Idle(db, RouteKey(m, advert.offer)) then 1 else 0)
    && route.evidence == if advert.kinded && advert.evidence != 0 then advert.evidence else advert.model
  }

  predicate AtPublishedRates(db: Db, route: Route, m: MachineId, advert: Advert)
    requires m in db.machines && advert.hashes.Some?
  {
    var key := OfferKey(db.machines[m].wallet, advert.hashes.value.offer, advert.version);
    key in db.chain.offers && route.rates == db.chain.offers[key].rates
  }

  ghost predicate Idle(db: Db, key: RouteKey) { forall r <- db.requests :: !Occupies(db, key, r) }

  function Drained(db: Db, m: MachineId): (after: Db) { db.(routes := Drain(db.routes, m)) }

  // ------------------------------------------------------------------------ one advert

  lemma Nobody(db: Db, routes: map<RouteKey, Route>, key: RouteKey)
    ensures Occupants(db.(routes := routes), key) == {} <==> Idle(db, key)
  {
    var before := db.(routes := routes);
    if r :| r in db.requests && Occupies(db, key, r) { assert r in Occupants(before, key); }
  }

  /** An advert is routed exactly when it meets the conditions; else its row stays. */
  lemma AdvertRoutes(db: Db, routes: map<RouteKey, Route>, m: MachineId, available: nat, advert: Advert)
    requires m in db.machines && (advert.hashes.Some? ==> advert.genuine)
    ensures var key, after := RouteKey(m, advert.offer), RouteAdvert(db.(routes := routes), m, available, advert);
            if Advertisable(db, routes, m, advert)
            then key in after.routes && after == db.(routes := routes[key := after.routes[key]])
                 && RoutedAs(db, after.routes[key], m, available, advert)
            else after == db.(routes := routes)
  {
    Nobody(db, routes, RouteKey(m, advert.offer));
  }

  // ------------------------------------------------------------------------- all of them

  /** Every advert that names its offer on chain names it by its own hashes. */
  predicate AllGenuine(adverts: seq<Advert>) { forall advert <- adverts :: advert.hashes.Some? ==> advert.genuine }

  lemma {:induction false} AdvertsPassIff(db: Db, m: MachineId, available: nat, adverts: seq<Advert>)
    requires m in db.machines
    ensures RouteAll(db, m, available, adverts).Some? <==> AllGenuine(adverts)
    decreases |adverts|
  {
    if adverts != [] {
      var n := |adverts| - 1;
      AdvertsPassIff(db, m, available, adverts[..n]);
      assert adverts == adverts[..n] + [adverts[n]];
    }
  }

  /** A heartbeat is accepted exactly from a machine authorised by its wallet, with offers
      under their own hashes. */
  lemma BeatCountsIff(db: Db, m: MachineId, beat: Heartbeat)
    ensures ReconcileCapacity(db, m, beat).Commit? <==> beat.valid && Authorised(db, m) && AllGenuine(beat.adverts)
  {
    if m in db.machines { AdvertsPassIff(Drained(db, m), m, beat.available, beat.adverts); }
  }

  /** The routes when the adverts before the i-th have been dealt with. */
  ghost function RoutesAt(db: Db, m: MachineId, beat: Heartbeat, i: nat): (routes: map<RouteKey, Route>)
    requires m in db.machines && i <= |beat.adverts|
  {
    var before := RouteAll(Drained(db, m), m, beat.available, beat.adverts[..i]);
    if before.Some? then before.value.routes else map[]
  }

  lemma NextRoutes(db: Db, m: MachineId, beat: Heartbeat, i: nat)
    requires ReconcileCapacity(db, m, beat).Commit? && i < |beat.adverts|
    ensures m in db.machines
    ensures var routes, routes', advert := RoutesAt(db, m, beat, i), RoutesAt(db, m, beat, i + 1), beat.adverts[i];
            var key := RouteKey(m, advert.offer);
            if Advertisable(db, routes, m, advert)
            then key in routes' && routes' == routes[key := routes'[key]]
                 && RoutedAs(db, routes'[key], m, beat.available, advert)
            else routes' == routes
  {
    BeatCountsIff(db, m, beat);
    var before, after := beat.adverts[..i], beat.adverts[..i + 1];
    assert after[..i] == before && after == before + [beat.adverts[i]];
    AdvertsPassIff(Drained(db, m), m, beat.available, before);
    AdvertsPassIff(Drained(db, m), m, beat.available, after);
    Safety.RouteAllKeeps(Drained(db, m), m, beat.available, before);
    var routes := RoutesAt(db, m, beat, i);
    assert RouteAll(Drained(db, m), m, beat.available, before).value == db.(routes := routes);
    AdvertRoutes(db, routes, m, beat.available, beat.adverts[i]);
  }

  lemma AllRoutes(db: Db, m: MachineId, beat: Heartbeat)
    requires ReconcileCapacity(db, m, beat).Commit?
    ensures m in db.machines && RoutesAt(db, m, beat, |beat.adverts|) == ReconcileCapacity(db, m, beat).db.routes
    ensures RoutesAt(db, m, beat, 0) == Drain(db.routes, m)
  {
    assert beat.adverts[..|beat.adverts|] == beat.adverts && beat.adverts[..0] == [];
  }

  /** The i-th advert opened the slot: it met every condition, and no later one for the same
      offer was routed. */
  ghost predicate OpenedBy(db: Db, m: MachineId, beat: Heartbeat, i: nat, route: Route)
    requires m in db.machines
  {
    && i < |beat.adverts| && Advertisable(db, RoutesAt(db, m, beat, i), m, beat.adverts[i])
    && RoutedAs(db, route, m, beat.available, beat.adverts[i])
  }

  lemma {:induction false} SlotFrom(db: Db, m: MachineId, beat: Heartbeat, n: nat, key: RouteKey) returns (i: nat)
    requires ReconcileCapacity(db, m, beat).Commit? && m in db.machines && n <= |beat.adverts| && key.machine == m
    requires key in RoutesAt(db, m, beat, n) && RoutesAt(db, m, beat, n)[key].capacity > 0
    ensures i < n && beat.adverts[i].offer == key.offer && OpenedBy(db, m, beat, i, RoutesAt(db, m, beat, n)[key])
    decreases n
  {
    if n == 0 {
      AllRoutes(db, m, beat);
    } else {
      NextRoutes(db, m, beat, n - 1);
      if beat.adverts[n - 1].offer == key.offer
        && Advertisable(db, RoutesAt(db, m, beat, n - 1), m, beat.adverts[n - 1]) {
        i := n - 1;
      } else {
        i := SlotFrom(db, m, beat, n - 1, key);
      }
    }
  }

  /** After a heartbeat, a slot of its machine is open only for an offer it advertised: the
      machine is authorised, its provider bonded with no exit asked for, the offer published
      in that version with those hashes and rates, its evidence unchanged, and nothing runs
      on it. The slot is one. */
  lemma OpenSlotsAreEarned(db: Db, m: MachineId, beat: Heartbeat, key: RouteKey) returns (i: nat)
    requires ReconcileCapacity(db, m, beat).Commit? && key.machine == m
    requires var routes := ReconcileCapacity(db, m, beat).db.routes; key in routes && routes[key].capacity > 0
    ensures Authorised(db, m) && beat.available > 0 && Idle(db, key)
    ensures beat.adverts != [] && OpenedBy(db, m, beat, i, ReconcileCapacity(db, m, beat).db.routes[key])
    ensures beat.adverts[i].offer == key.offer && ReconcileCapacity(db, m, beat).db.routes[key].capacity == 1
  {
    BeatCountsIff(db, m, beat);
    AllRoutes(db, m, beat);
    i := SlotFrom(db, m, beat, |beat.adverts|, key);
  }

  /** No other advert of the heartbeat is for the offer of the i-th. */
  predicate OnlyOne(adverts: seq<Advert>, i: nat) {
    i < |adverts| && forall j :: 0 <= j < |adverts| && j != i ==> adverts[j].offer != adverts[i].offer
  }

  lemma {:induction false} UntouchedRow(db: Db, m: MachineId, beat: Heartbeat, from: nat, n: nat, key: RouteKey)
    requires ReconcileCapacity(db, m, beat).Commit? && m in db.machines && from <= n <= |beat.adverts|
    requires forall j :: from <= j < n ==> RouteKey(m, beat.adverts[j].offer) != key
    ensures key in RoutesAt(db, m, beat, n) <==> key in RoutesAt(db, m, beat, from)
    ensures key in RoutesAt(db, m, beat, from) ==> RoutesAt(db, m, beat, n)[key] == RoutesAt(db, m, beat, from)[key]
    decreases n
  {
    if from < n {
      UntouchedRow(db, m, beat, from, n - 1, key);
      NextRoutes(db, m, beat, n - 1);
    }
  }

  /** Other machines' routes are left alone. */
  lemma OtherMachinesKeep(db: Db, m: MachineId, beat: Heartbeat, key: RouteKey)
    requires ReconcileCapacity(db, m, beat).Commit? && key.machine != m
    ensures var routes := ReconcileCapacity(db, m, beat).db.routes;
            (key in routes <==> key in db.routes) && (key in routes ==> routes[key] == db.routes[key])
  {
    AllRoutes(db, m, beat);
    UntouchedRow(db, m, beat, 0, |beat.adverts|, key);
  }

  /** An offer advertised once has a slot afterwards exactly when the advert meets the
      conditions, the machine has a slot to give and nothing runs on the offer. */
  lemma SlotOpensIff(db: Db, m: MachineId, beat: Heartbeat, i: nat)
    requires ReconcileCapacity(db, m, beat).Commit? && OnlyOne(beat.adverts, i)
    ensures m in db.machines
    ensures var key, routes := RouteKey(m, beat.adverts[i].offer), ReconcileCapacity(db, m, beat).db.routes;
            (key in routes && routes[key].capacity > 0)
            <==> Advertisable(db, db.routes, m, beat.adverts[i]) && beat.available > 0 && Idle(db, key)
  {
    var key := RouteKey(m, beat.adverts[i].offer);
    AllRoutes(db, m, beat);
    UntouchedRow(db, m, beat, 0, i, key);
    NextRoutes(db, m, beat, i);
    UntouchedRow(db, m, beat, i + 1, |beat.adverts|, key);
  }
}
