/** Runs from an empty database at which something one might expect does not hold. */
module Witnesses {
  import opened Basics
  import opened Charging
  import opened Tables
  import opened Projecting
  import opened Ledger
  import opened Protocol
  import opened Safety
  import Capacity
  import Restoring

  // ------------------------------------------------------- enrolled after the session

  function Opened(world: World, session: SessionId, id: LogId): (log: Log) {
    Log(id, SessionOpened(session, world.terms(session).customer, world.terms(session).allowance))
  }

  function Alone(log: Log): (chain: seq<Block>) { [Block(0, [log])] }

  lemma AloneLogs(log: Log)
    ensures Logs(Alone(log)) == [log] && Logs(Alone(log)[..0]) == [] && Alone(log)[0..1] == Alone(log)
            && Alone(log)[..1] == Alone(log)
  {
    assert Alone(log)[..0] == [];
  }

  lemma FirstEntry(db: Db, feeRecipient: Address, log: Log)
    ensures IndexLogs(db, feeRecipient, [log]) == IndexLog(db, feeRecipient, log)
  {
    var logs := [log];
    assert logs[..0] == [] && Fold(Entries(feeRecipient), db, []) == Commit(db, ());
  }

  /** The start of a run whose chain holds one log. */
  lemma AloneInit(world: World, log: Log)
    requires Follows(world, EMPTY_PROJECTION, log) && !log.event.ReceiptSettled?
    ensures Init(world, State(EMPTY_DB, map[], Alone(log), {}, []))
  {
    AloneLogs(log);
    assert [log][..0] == [];
  }

  lemma AloneIndexed(world: World, db: Db, log: Log)
    requires db.cursor.None? && IndexLog(db, world.feeRecipient, log).Commit?
    ensures var s, db' := State(db, map[], Alone(log), {}, []), IndexLog(db, world.feeRecipient, log).db;
            IndexStep(world, s, s.(db := db'.(cursor := Some(Cursor(1, 0, Alone(log)))), applied := [log]), 0, 0)
  {
    AloneLogs(log);
    FirstEntry(db, world.feeRecipient, log);
    assert [] + [log] == [log];
  }

  /** A session is indexed, then its customer enrols: the session has no row, and a rewind
      followed by the same log gives it one. */
  lemma EnrolledTooLate(world: World, session: SessionId, id: LogId, account: AccountId)
    returns (states: seq<State>, steps: seq<Step>)
    ensures Run(world, states, steps) && |steps| == 2
    ensures var db := states[2].db;
            && !Restoring.RowsForSessions(db) && db.chain.settlements == map[]
            && IndexLogs(Rewind(db, []), world.feeRecipient, states[2].applied).Commit?
            && IndexLogs(Rewind(db, []), world.feeRecipient, states[2].applied).db.sessions != db.sessions
  {
    var log, customer := Opened(world, session, id), world.terms(session).customer;
    AloneInit(world, log);
    AloneIndexed(world, EMPTY_DB, log);
    var s0 := State(EMPTY_DB, map[], Alone(log), {}, []);
    var indexed := IndexLog(EMPTY_DB, world.feeRecipient, log).db;
    var s1 := s0.(db := indexed.(cursor := Some(Cursor(1, 0, Alone(log)))), applied := [log]);
    var s2 := s1.(db := s1.db.(accounts := map[customer := account]));
    states, steps := [s0, s1, s2], [Index(0, 0), Enrol(customer, account)];
    assert EnrolStep(s1, s2, customer, account);
    Reached(world, states, steps, 2);
    Restoring.RewindThenReindex(world, s2, []);
  }

  // ------------------------------------------------------------- given up while offered

  const CUSTOMER: Address := 10
  const PROVIDER: Address := 20
  const ALLOWANCE: nat := 1_000
  const HASHES := OfferHashes(5, 6, 7)
  const KEY := OfferKey(PROVIDER, 5, 1)
  const RATES := Rates(1_000_000, 0, 0)
  const TERMS := OfferTerms(6, 7, RATES)
  const SMALL_WORLD := World(30, _ => Terms(CUSTOMER, ALLOWANCE), _ => TERMS)

  const BOND := Log(LogId(1, 0), BondDeposited(PROVIDER, 5, 5))
  const OFFER := Log(LogId(1, 1), OfferPublished(KEY, TERMS))
  const SESSION := Log(LogId(1, 2), SessionOpened(1, CUSTOMER, ALLOWANCE))
  const LOG := [BOND, OFFER, SESSION]
  const CHAIN := [Block(0, LOG)]

  const AFTER_BOND := EMPTY_PROJECTION.(accounts := map[PROVIDER := ChainAccount(0, 5, 0, 0)], logs := {BOND.id})
  const AFTER_OFFER := AFTER_BOND.(offers := map[KEY := TERMS], logs := {BOND.id, OFFER.id})
  const AFTER_SESSION := AFTER_OFFER.(sessions := map[1 := ChainSession(CUSTOMER, ALLOWANCE, 0, 0, false)],
                                      logs := {BOND.id, OFFER.id, SESSION.id})

  const ENROLLED := EMPTY_DB.(accounts := map[CUSTOMER := 1])
  const REGISTERED := ENROLLED.(machines := map[2 := Machine(PROVIDER, PROVIDER, false)])
  const INDEXED := REGISTERED.(chain := AFTER_SESSION, sessions := map[1 := Session(1, Open, ALLOWANCE)],
                               cursor := Some(Cursor(1, 0, CHAIN)))
  const ADVERT := Advert(3, 1, Some(HASHES), true, 8, false, 0, false)
  const BEAT := Heartbeat(true, 1, [ADVERT])
  const ROUTE := Route(1, true, true, 1, RATES, Some(HASHES), 8)
  const ROUTED := INDEXED.(routes := map[RouteKey(2, 3) := ROUTE])
  const RESERVATION := Reservation(9, 1, 1, 2, 3, 1, ALLOWANCE, Usage(1, 1, 1))

  lemma SmallProjection()
    ensures Record(EMPTY_PROJECTION, 30, BOND) == Some(AFTER_BOND)
    ensures Record(AFTER_BOND, 30, OFFER) == Some(AFTER_OFFER)
    ensures Record(AFTER_OFFER, 30, SESSION) == Some(AFTER_SESSION)
  {
    assert {} + {BOND.id} == AFTER_BOND.logs;
    assert AFTER_BOND.logs + {OFFER.id} == AFTER_OFFER.logs;
    assert AFTER_OFFER.logs + {SESSION.id} == AFTER_SESSION.logs;
  }

  lemma SmallPrefixes()
    ensures LOG[..0] == [] && LOG[..1] == [BOND] && LOG[..2] == [BOND, OFFER] && LOG[..3] == LOG
    ensures ProjectAll(30, []) == Some(EMPTY_PROJECTION) && ProjectAll(30, [BOND]) == Some(AFTER_BOND)
    ensures ProjectAll(30, [BOND, OFFER]) == Some(AFTER_OFFER)
  {
    SmallProjection();
    assert [] + [BOND] == [BOND] && [BOND] + [OFFER] == [BOND, OFFER];
    ProjectAppend(30, [], BOND);
    ProjectAppend(30, [BOND], OFFER);
  }

  lemma SmallLog()
    ensures WellFormed(SMALL_WORLD, LOG) && AllBacked(LOG, {})
  {
    SmallPrefixes();
    forall i | 0 <= i < |LOG|
      ensures var p := ProjectAll(SMALL_WORLD.feeRecipient, LOG[..i]); p.Some? && Follows(SMALL_WORLD, p.value, LOG[i])
    {
      if i == 0 {} else if i == 1 {} else { assert i == 2; }
    }
  }

  lemma SmallChain()
    ensures Logs(CHAIN) == LOG && CHAIN[0..1] == CHAIN && CHAIN[..1] == CHAIN && Logs(CHAIN[..0]) == []
  {
    assert CHAIN[..0] == [];
  }

  const BONDED := REGISTERED.(chain := AFTER_BOND)
  const OFFERED := REGISTERED.(chain := AFTER_OFFER)

  lemma SmallEntries()
    ensures IndexLog(REGISTERED, 30, BOND) == Commit(BONDED, ())
    ensures IndexLog(BONDED, 30, OFFER) == Commit(OFFERED, ())
    ensures IndexLog(OFFERED, 30, SESSION) == Commit(INDEXED.(cursor := None), ())
  {
    SmallProjection();
  }

  lemma SmallIndex()
    ensures IndexLogs(REGISTERED, 30, LOG) == Commit(INDEXED.(cursor := None), ())
  {
    SmallPrefixes();
    SmallEntries();
    EntryMore(REGISTERED, 30, LOG, 0);
    EntryMore(REGISTERED, 30, LOG, 1);
    EntryMore(REGISTERED, 30, LOG, 2);
  }

  lemma SmallBeat()
    ensures ReconcileCapacity(INDEXED, 2, BEAT) == Commit(ROUTED, ())
  {
    var drained := INDEXED.(routes := Drain(INDEXED.routes, 2));
    assert drained.routes == map[] && drained == INDEXED;
    assert BEAT.adverts[..0] == [] && RouteAll(INDEXED, 2, 1, []) == Some(INDEXED);
    assert Occupants(INDEXED, RouteKey(2, 3)) == {};
    assert AdvertRates(INDEXED, PROVIDER, ADVERT) == Some(RATES);
    assert RouteAdvert(INDEXED, 2, 1, ADVERT) == ROUTED;
  }

  lemma MayReserve(db: Db, v: Reservation, route: Route, worst: nat)
    requires v.limits.input > 0 && v.limits.output > 0 && v.limits.compute > 0
    requires v.session in db.sessions && v.request !in db.requests && v.request !in db.holds
    requires Routable(db, v) && db.routes[Key(v)] == route && route.hashes.Some?
    requires Cost(route.rates, v.limits) == Some(worst) && 0 < worst <= v.maximumSpend
    requires var session := db.sessions[v.session];
             && session.account == v.account && session.status == Open
             && HeldSum(db.holds, v.session) + worst <= session.balance
    ensures ReserveInference(db, v) == Commit(Reserve(db, v, worst, route.hashes.value), ())
  {
  }

  lemma SmallCost()
    ensures Cost(RATES, Usage(1, 1, 1)) == Some(1) && HeldSum(map[], 1) == 0
  {
    assert ExactTotal(RATES, Usage(1, 1, 1)) == 1;
  }

  lemma SmallReservation()
    ensures ReserveInference(ROUTED, RESERVATION) == Commit(Reserve(ROUTED, RESERVATION, 1, HASHES), ())
  {
    SmallCost();
    MayReserve(ROUTED, RESERVATION, ROUTE, 1);
  }

  lemma SmallServe()
    ensures ServeStep(Small(ROUTED, LOG, map[]), Small(RESERVED, LOG, map[9 := Waiting]), RESERVATION, Done)
  {
    SmallReservation();
    assert Reserve(ROUTED, RESERVATION, 1, HASHES) == RESERVED by {
      assert [] + [Notice(9, Created, Reserved), Notice(9, Reserved, Offered)] == RESERVED.outbox;
    }
  }

  const RESERVED := ROUTED.(
    routes := map[RouteKey(2, 3) := ROUTE.(capacity := 0)],
    requests := map[9 := Request(1, 2, 3, 1, Offered, 1, Usage(1, 1, 1), HASHES)],
    holds := map[9 := Hold(1, 1, false)],
    outbox := [Notice(9, Created, Reserved), Notice(9, Reserved, Offered)])

  function Small(db: Db, applied: seq<Log>, pcs: map<RequestId, Pc>): (s: State) { State(db, pcs, CHAIN, {}, applied) }

  lemma SmallStart()
    ensures Init(SMALL_WORLD, Small(EMPTY_DB, [], map[]))
    ensures EnrolStep(Small(EMPTY_DB, [], map[]), Small(ENROLLED, [], map[]), CUSTOMER, 1)
    ensures RegisterStep(Small(ENROLLED, [], map[]), Small(REGISTERED, [], map[]), 2,
            Machine(PROVIDER, PROVIDER, false))
  {
    SmallLog();
    SmallChain();
  }

  lemma SmallMiddle()
    ensures IndexStep(SMALL_WORLD, Small(REGISTERED, [], map[]), Small(INDEXED, LOG, map[]), 0, 0)
    ensures BeatStep(Small(INDEXED, LOG, map[]), Small(ROUTED, LOG, map[]), 2, BEAT)
  {
    SmallChain();
    SmallIndex();
    SmallBeat();
    assert [] + LOG == LOG;
  }

  lemma SmallEnd()
    ensures GiveUpStep(Small(RESERVED, LOG, map[9 := Waiting]), Small(RESERVED, LOG, map[9 := Aborting(Failed)]), 9,
            Failed)
    ensures AbortStep(Small(RESERVED, LOG, map[9 := Aborting(Failed)]), Small(RESERVED, LOG, map[9 := Exited(true)]), 9,
            false)
  {
  }

  /** A run that ends in s. */
  ghost predicate Reaches(states: seq<State>, steps: seq<Step>, s: State) {
    Run(SMALL_WORLD, states, steps) && states[|steps|] == s
  }

  lemma Step(states: seq<State>, steps: seq<Step>, s: State, step: Step, s': State)
             returns (states': seq<State>, steps': seq<Step>)
    requires Reaches(states, steps, s) && Next(SMALL_WORLD, s, s', step)
    ensures Reaches(states', steps', s')
  {
    RunOn(SMALL_WORLD, states, steps, step, s');
    states', steps' := states + [s'], steps + [step];
  }

  lemma RoutedRun() returns (states: seq<State>, steps: seq<Step>)
    ensures Reaches(states, steps, Small(ROUTED, LOG, map[]))
  {
    SmallStart();
    SmallMiddle();
    var s0, s1, s2 := Small(EMPTY_DB, [], map[]), Small(ENROLLED, [], map[]), Small(REGISTERED, [], map[]);
    states, steps := [s0], [];
    states, steps := Step(states, steps, s0, Enrol(CUSTOMER, 1), s1);
    states, steps := Step(states, steps, s1, Register(2, Machine(PROVIDER, PROVIDER, false)), s2);
    states, steps := Step(states, steps, s2, Index(0, 0), Small(INDEXED, LOG, map[]));
    states, steps := Step(states, steps, Small(INDEXED, LOG, map[]), Beat(2, BEAT), Small(ROUTED, LOG, map[]));
  }

  /** From an empty database: a customer and a machine enrol, the chain is indexed, a
      heartbeat routes the offer, and a request is reserved. Its handler gives up before
      the provider accepts, aborts, and exits cleanly - with the wei still held and the
      slot still taken. */
  lemma LeakIsReachable() returns (states: seq<State>, steps: seq<Step>)
    ensures Run(SMALL_WORLD, states, steps)
    ensures var s := states[|steps|];
            && 9 in s.pcs && s.pcs[9] == Exited(true)
            && 9 in s.db.holds && !s.db.holds[9].released && s.db.holds[9].amount == 1
            && Capacity.Slot(s.db, 9) == Some(RouteKey(2, 3))
  {
    SmallServe();
    SmallEnd();
    states, steps := RoutedRun();
    var reserved := Small(RESERVED, LOG, map[9 := Waiting]);
    states, steps := Step(states, steps, Small(ROUTED, LOG, map[]), Serve(RESERVATION, Done), reserved);
    var aborting := reserved.(pcs := map[9 := Aborting(Failed)]);
    states, steps := Step(states, steps, reserved, GiveUp(9, Failed), aborting);
    states, steps := Step(states, steps, aborting, Abort(9, false), reserved.(pcs := map[9 := Exited(true)]));
  }
}
