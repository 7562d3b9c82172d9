/** A customer's order: from its spending limit, over the choice of an offer, to the
    reservation its handler makes. */
module Purchasing {
  import opened Basics
  import opened Charging
  import opened Texts
  import opened Tables
  import opened Projecting
  import opened Ledger
  import opened Protocol
  import opened Fates
  import opened Serving
  import opened Capping
  import opened Routing

  const DEFAULT_OUTPUT: nat := 4_096
  const MAXIMUM_OUTPUT: nat := 1_000_000
  const PROMPT_ALLOWANCE: nat := 256
  const MAXIMUM_COMPUTE: nat := 120_000

  /** What the customer sends; the prompt by its length in bytes. */
  datatype Order = Order(
    model: string, workspace: bool, prompt: nat, maxCompletionTokens: nat, maxTokens: nat, maximumSpend: nat,
      pin: string)

  /** On whose behalf, as authorized. */
  datatype Principal = Principal(account: AccountId, session: SessionId, balance: nat)

  /** The rows that the names of a candidate stand for. */
  datatype Names = Names(machine: string -> MachineId, offer: string -> OfferId)

  function OutputLimit(order: Order): (tokens: nat) {
    if order.maxCompletionTokens != 0 then order.maxCompletionTokens
    else if order.maxTokens != 0 then order.maxTokens else DEFAULT_OUTPUT
  }

  predicate Sensible(order: Order) {
    && OutputLimit(order) <= MAXIMUM_OUTPUT && (order.maxTokens == 0 || order.maxCompletionTokens == 0)
    && order.maximumSpend != 0
  }

  function LimitsOf(order: Order): (limits: Usage) {
    Usage(order.prompt * 4 + PROMPT_ALLOWANCE, OutputLimit(order), MAXIMUM_COMPUTE)
  }

  function QueryOf(order: Order, principal: Principal): (query: Query) {
    Query(order.model, ["text", "stream"] + (if order.workspace then ["workspace"] else []),
          order.maximumSpend, principal.balance, order.pin)
  }

  function ReservationOf(request: RequestId, order: Order, principal: Principal, names: Names,
                         c: Candidate): (v: Reservation) {
    Reservation(request, principal.session, principal.account, names.machine(c.machine), names.offer(c.offer),
                c.version, c.maximumCost, LimitsOf(order))
  }

  /** Of the two names for the output limit the one given counts, and 4,096 if none is. */
  lemma LimitsOfOrder(order: Order)
    requires Sensible(order)
    ensures var limits := LimitsOf(order);
            && limits.input == 4 * order.prompt + 256 && limits.compute == 120_000 && 0 < limits.output <= 1_000_000
            && (order.maxTokens != 0 ==> limits.output == order.maxTokens)
            && (order.maxCompletionTokens != 0 ==> limits.output == order.maxCompletionTokens)
            && (order.maxTokens == order.maxCompletionTokens == 0 ==> limits.output == 4_096)
  {
  }

  /** The reservation is for the principal's session, on the chosen offer, up to its worst case. */
  lemma ReservationOfChoice(request: RequestId, order: Order, principal: Principal, names: Names, c: Candidate)
    ensures var v := ReservationOf(request, order, principal, names, c);
            && v.request == request && v.session == principal.session && v.account == principal.account
            && v.machine == names.machine(c.machine) && v.offer == names.offer(c.offer) && v.version == c.version
            && v.maximumSpend == c.maximumCost && v.limits == LimitsOf(order)
  {
  }

  /** The handler from the order on. Nothing happens unless some candidate can serve the
      order. Otherwise the best of them is chosen, the handler begins with the reservation of
      its worst case, and in no run that contains this reservation is the request charged
      more than the order's own limit. */
  method Purchase(handler: Handler, ghost world: World, script: Script, order: Order, principal: Principal,
                  names: Names, candidates: seq<Candidate>, connected: string -> bool, stillConnected: bool,
                  request: RequestId, ghost s: State)
    returns (chosen: Option<Candidate>, ghost steps: seq<Step>, ghost s': State)
    requires handler.store.Valid() && handler.queue.store == handler.store && s.db == handler.store.db
             && request !in s.pcs
    modifies handler.store
    ensures handler.store.Valid() && Walk(world, s, steps, s') && s'.db == handler.store.db
    ensures request in s'.pcs ==> s'.pcs[request].Exited?
    ensures chosen.Some? <==>
              && Sensible(order) && stillConnected && !Blank(order.model)
              && exists c :: c in candidates
                   && Serves(QueryOf(order, principal), c, connected(c.machine), LimitsOf(order))
    ensures chosen.None? ==> steps == [] && s' == s
    ensures chosen.Some? ==>
              var v := ReservationOf(request, order, principal, names, chosen.value);
              && v.maximumSpend == chosen.value.maximumCost <= order.maximumSpend
              && chosen.value.maximumCost <= principal.balance
              && [Serve(v, script.landing(Reserving))] <= steps && Capped(world, v, order.maximumSpend)
              && (request !in s.db.proposals ==> s'.db == Handled(s.db, script, v))
  {
    chosen, steps, s' := None, [], s;
    if !Sensible(order) { return; }
    var selection := Choose(QueryOf(order, principal), candidates, connected, LimitsOf(order));
    if !selection.Selected? || !stillConnected { return; }
    chosen := Some(selection.candidate);
    var v := ReservationOf(request, order, principal, names, selection.candidate);
    steps, s' := handler.ServeRequest(world, script, v, s);
    NeverAboveTheCustomersLimit(world, v, order.maximumSpend);
  }
}
