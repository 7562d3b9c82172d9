/** Who may have the contract do what, and when: over any calls, a receipt is settled once,
    and nobody takes money out of a session or a bond without the notice it owes. */
module Permits {
  import opened Basics
  import opened Charging
  import opened Tables
  import opened Ledger
  import opened Market
  import opened Contracting

  /** A receipt is settled exactly when it is new and under a new number, both parties have
      signed it, its fee is the published one of its version, its time has come and is within
      the session's, the open session is its customer's and covers it, and its total is the
      price of the published offer, within its maximum. */
  lemma SettlesIff(c: Contract, now: nat, signed: Signed)
    requires Books(c)
    ensures var receipt := signed.receipt;
            Settling(c, now, signed).Some? <==>
              && !c.paused && receipt.request != 0 && receipt.request !in c.settled
              && Nonce(receipt.provider, receipt.nonce) !in c.used
              && signed.byProvider && signed.byBroker && receipt.signer == c.config.signer
              && receipt.feeVersion != 0 && At(c.fees, receipt.feeVersion) == receipt.feeBasisPoints
              && receipt.completedAt <= now
              && receipt.session in c.sessions
              && (var session := c.sessions[receipt.session];
                  && session.customer == receipt.customer && !session.finalized
                    && receipt.completedAt <= session.expiresAt
                  && session.spent + receipt.total <= session.allowance)
              && var key := OfferKey(receipt.provider, receipt.hashes.offer, receipt.version);
                 && key in c.offers && c.offers[key].model == receipt.hashes.model
                 && c.offers[key].capability == receipt.hashes.capability
                 && receipt.total == ExactTotal(c.offers[key].rates, receipt.usage) <= receipt.maximum
  {
  }

  /** What a call that succeeds tells of its sender and its time. */
  lemma OnlyWhoMay(c: Contract, m: Message)
    requires Books(c) && Act(c, m).Some?
    ensures match m.call
            case Deposit(value) => !c.paused && value > 0
            case RequestWithdrawal(amount) => 0 < amount <= At(c.balances, m.sender)
            case DepositBond(value) => !c.paused && value > 0 && At(c.exits, m.sender) == 0
            case RequestBondExit => At(c.bonds, m.sender) > 0 && At(c.exits, m.sender) == 0
            case FinalizeBondExit => 0 < At(c.exits, m.sender) <= m.now
            case PublishOffer(_, _) =>
              !c.paused && c.config.minimumBond <= At(c.bonds, m.sender) && At(c.exits, m.sender) == 0
            case OpenSession(id, allowance, expiresAt) =>
              !c.paused && id !in c.sessions && 0 < allowance <= At(c.balances, m.sender) && m.now < expiresAt
            case RequestSessionClose(id) => id in c.sessions && c.sessions[id].customer == m.sender
              && !c.sessions[id].finalized
            case FinalizeSessionClose(id) =>
              id in c.sessions && c.sessions[id].customer == m.sender && !c.sessions[id].finalized
              && 0 < c.sessions[id].closeAt <= m.now
            case SlashDoubleSign(provider, request, proven) =>
              proven && request !in c.slashed && At(c.bonds, provider) > 0
            case ProposeFee(basisPoints) => m.sender == c.owner && basisPoints <= 1_500
            case ExecuteFeeChange => c.pendingFee.Some? && c.pendingFee.value.availableAt <= m.now
            case SetPaused(_) => m.sender == c.owner
            case _ => true
  {
  }

  /** A provider that signed two receipts for one request loses the minimum bond to the fee
      recipient, or all it has, and once for that request. */
  lemma SlashingTakes(c: Contract, provider: Address, request: RequestId, proven: bool)
    requires Books(c) && Slashing(c, provider, request, proven).Some?
    ensures Books(Slashing(c, provider, request, proven).value.contract)
    ensures var after, bond := Slashing(c, provider, request, proven).value, At(c.bonds, provider);
            var amount := if bond < c.config.minimumBond then bond else c.config.minimumBond;
            && after.event == ProviderSlashed(provider, request, amount)
            && At(after.contract.bonds, provider) == bond - amount
            && At(after.contract.claimable, c.config.feeRecipient) == At(c.claimable, c.config.feeRecipient) + amount
            && Slashing(after.contract, provider, request, proven).None?
  {
    SlashingBooks(c, provider, request, proven);
  }

  /** A session is opened for its sender, until the time given, out of its balance. */
  lemma OpeningLocks(c: Contract, a: Address, now: nat, id: SessionId, allowance: nat, expiresAt: nat)
    requires Books(c) && Opening(c, a, now, id, allowance, expiresAt).Some?
    ensures var after := Opening(c, a, now, id, allowance, expiresAt).value.contract;
            && id !in c.sessions && after.sessions == c.sessions[id := Escrow(a, allowance, 0, expiresAt, 0, false)]
            && At(after.balances, a) == At(c.balances, a) - allowance
  {
  }

  /** A fee applies, as the next version, no sooner than announced. */
  lemma FeeApplies(c: Contract, now: nat)
    requires ChangingFee(c, now).Some?
    ensures c.pendingFee.Some? && c.pendingFee.value.availableAt <= now
    ensures var after := ChangingFee(c, now).value.contract;
            && after.feeVersion == c.feeVersion + 1 && after.pendingFee.None?
            && after.fees == c.fees[c.feeVersion + 1 := c.pendingFee.value.basisPoints]
  {
  }

  // ------------------------------------------------------------------------ step by step

  /** Settlements and numbers stay, sessions keep their customer and the notice given, and a
      bond's notice is its provider's own. */
  ghost predicate Orderly(c: Contract, c': Contract, m: Message) {
    && c'.config == c.config && c'.owner == c.owner && c.settled <= c'.settled && c.used <= c'.used
    && (forall id <- c.sessions ::
          && id in c'.sessions && c'.sessions[id].customer == c.sessions[id].customer
          && (c.sessions[id].closeAt != 0 ==> c'.sessions[id].closeAt == c.sessions[id].closeAt))
    && (forall a: Address :: At(c'.exits, a) != At(c.exits, a) ==>
          At(c'.exits, a) == 0 || Asked(c.config, m, a, At(c'.exits, a)))
    && (forall version <- c.fees :: version in c'.fees && c'.fees[version] == c.fees[version])
    && (c'.pendingFee == c.pendingFee || c'.pendingFee.None? || Proposed(c, m, c'.pendingFee.value))
  }

  /** The owner proposes this fee, to apply after the agreed delay. */
  predicate Proposed(c: Contract, m: Message, fee: PendingFee) {
    m.sender == c.owner && m.call == ProposeFee(fee.basisPoints) && fee.availableAt == m.now + c.config.feeDelay
  }

  /** The sender asks for its bond, due after the agreed delay. */
  predicate Asked(config: Config, m: Message, a: Address, at: nat) {
    m.sender == a && m.call.RequestBondExit? && at == m.now + config.bondExitDelay
  }

  lemma SessionsOrderly(c: Contract, m: Message)
    requires Books(c) && Act(c, m).Some?
    requires m.call.OpenSession? || m.call.RequestSessionClose? || m.call.FinalizeSessionClose?
    ensures Orderly(c, Act(c, m).value.contract, m)
  {
  }

  lemma BondsOrderly(c: Contract, m: Message)
    requires Books(c) && Act(c, m).Some?
    requires m.call.RequestBondExit? || m.call.FinalizeBondExit? || m.call.SlashDoubleSign?
    ensures Orderly(c, Act(c, m).value.contract, m)
  {
  }

  lemma MoneyOrderly(c: Contract, m: Message)
    requires Books(c) && Act(c, m).Some?
    requires m.call.Deposit? || m.call.RequestWithdrawal? || m.call.DepositBond? || m.call.SettleReceipt?
    ensures Orderly(c, Act(c, m).value.contract, m)
  {
    if m.call.SettleReceipt? { var share, fee, c' := SettlingPays(c, m.now, m.call.signed); }
  }

  lemma RestOrderly(c: Contract, m: Message)
    requires Books(c) && Act(c, m).Some?
    requires m.call.SetProviderSigner? || m.call.PublishOffer? || m.call.ProposeFee? || m.call.ExecuteFeeChange?
          || m.call.SetPaused?
    ensures Orderly(c, Act(c, m).value.contract, m)
  {
  }

  lemma ActIsOrderly(c: Contract, m: Message)
    requires Books(c) && Act(c, m).Some?
    ensures Orderly(c, Act(c, m).value.contract, m)
  {
    if m.call.OpenSession? || m.call.RequestSessionClose? || m.call.FinalizeSessionClose? {
      SessionsOrderly(c, m);
    } else if m.call.RequestBondExit? || m.call.FinalizeBondExit? || m.call.SlashDoubleSign? {
      BondsOrderly(c, m);
    } else if m.call.Deposit? || m.call.RequestWithdrawal? || m.call.DepositBond? || m.call.SettleReceipt? {
      MoneyOrderly(c, m);
    } else {
      RestOrderly(c, m);
    }
  }

  // ------------------------------------------------------------------- settled for good

  lemma {:induction false} SettledStays(c: Contract, ms: seq<Message>)
    requires Books(c)
    ensures c.settled <= ActAll(c, ms).contract.settled && c.used <= ActAll(c, ms).contract.used
    decreases |ms|
  {
    if ms != [] {
      var before := ActAll(c, ms[..|ms| - 1]).contract;
      SettledStays(c, ms[..|ms| - 1]);
      if Act(before, ms[|ms| - 1]).Some? { ActIsOrderly(before, ms[|ms| - 1]); }
    }
  }

  /** After a settlement, whatever else is called, no receipt of that request and none under
      that number of its provider is settled again. */
  lemma NeverSettledTwice(c: Contract, first: Message, ms: seq<Message>, again: Message)
    requires Books(c) && first.call.SettleReceipt? && Act(c, first).Some? && again.call.SettleReceipt?
    requires var a, b := first.call.signed.receipt, again.call.signed.receipt;
             a.request == b.request || (a.provider == b.provider && a.nonce == b.nonce)
    ensures Books(Act(c, first).value.contract)
    ensures Act(ActAll(Act(c, first).value.contract, ms).contract, again).None?
  {
    ActKeepsBooks(c, first);
    var share, fee, c' := SettlingPays(c, first.now, first.call.signed);
    SettledStays(c', ms);
    SettlesIff(ActAll(c', ms).contract, again.now, again.call.signed);
  }

  /** The fee of a version never changes, so a receipt's fee stays payable. */
  lemma {:induction false} FeesStand(c: Contract, ms: seq<Message>, version: nat)
    requires Books(c) && version in c.fees
    ensures var after := ActAll(c, ms).contract; version in after.fees && after.fees[version] == c.fees[version]
    decreases |ms|
  {
    if ms != [] {
      var before := ActAll(c, ms[..|ms| - 1]).contract;
      FeesStand(c, ms[..|ms| - 1], version);
      if Act(before, ms[|ms| - 1]).Some? { ActIsOrderly(before, ms[|ms| - 1]); }
    }
  }

  // --------------------------------------------------------------------------- notice

  predicate Leaving(c: Contract, id: SessionId, customer: Address, at: nat) {
    id in c.sessions && c.sessions[id].customer == customer && c.sessions[id].closeAt == at
  }

  lemma {:induction false} LeavingStays(c: Contract, ms: seq<Message>, id: SessionId, customer: Address, at: nat)
    requires Books(c) && Leaving(c, id, customer, at) && at != 0
    ensures Leaving(ActAll(c, ms).contract, id, customer, at)
    decreases |ms|
  {
    if ms != [] {
      var before := ActAll(c, ms[..|ms| - 1]).contract;
      LeavingStays(c, ms[..|ms| - 1], id, customer, at);
      if Act(before, ms[|ms| - 1]).Some? { ActIsOrderly(before, ms[|ms| - 1]); }
    }
  }

  /** Once a customer has asked to close a session, whatever else is called, only that
      customer can close it, a day later at the earliest, and gets what is left of the
      allowance then. */
  lemma ClosingTakesNotice(c: Contract, asked: Message, ms: seq<Message>, close: Message, id: SessionId)
    requires Books(c) && asked.call == RequestSessionClose(id) && Act(c, asked).Some?
    ensures Books(Act(c, asked).value.contract)
    ensures var later := ActAll(Act(c, asked).value.contract, ms).contract;
            close.call == FinalizeSessionClose(id) && Act(later, close).Some? ==>
              && close.sender == asked.sender && close.now >= asked.now + 86_400
              && id in later.sessions
              && Act(later, close).value.event == SessionClosed(id,
                later.sessions[id].allowance - later.sessions[id].spent)
  {
    ActKeepsBooks(c, asked);
    LeavingStays(Act(c, asked).value.contract, ms, id, asked.sender, asked.now + SESSION_CLOSE_DELAY);
  }

  /** When a provider's bond is due, after the calls. */
  ghost function Due(c: Contract, ms: seq<Message>): (exits: map<Address, nat>)
    requires Books(c)
  {
    ActAll(c, ms).contract.exits
  }

  /** The notice of a bond after one more call. */
  lemma LastCall(c: Contract, ms: seq<Message>, n: nat, a: Address)
    requires Books(c) && |ms| == n + 1
    ensures At(Due(c, ms), a) in {At(Due(c, ms[..n]), a), 0} || Asked(c.config, ms[n], a, At(Due(c, ms), a))
  {
    var before := ActAll(c, ms[..n]).contract;
    OwnerStays(c, ms[..n]);
    if Act(before, ms[n]).Some? { ActIsOrderly(before, ms[n]); }
  }

  lemma {:induction false} AskedSince(c: Contract, due: seq<nat>, ms: seq<Message>, a: Address) returns (i: nat)
    requires |due| == |ms| + 1 && due[0] == 0 && due[|ms|] != 0
    requires forall n :: 0 <= n < |ms| ==> due[n + 1] in {due[n], 0} || Asked(c.config, ms[n], a, due[n + 1])
    ensures i < |ms| && Asked(c.config, ms[i], a, due[|ms|])
    decreases |ms|
  {
    i := |ms| - 1;
    if due[i] == due[|ms|] { i := AskedSince(c, due[..|ms|], ms[..i], a); }
  }

  /** A bond on its way out was asked for by its provider, and is due the agreed delay after
      that: with `OnlyWhoMay`, no bond leaves sooner. */
  lemma BondsLeaveOnNotice(c: Contract, ms: seq<Message>, a: Address) returns (i: nat)
    requires Books(c) && At(c.exits, a) == 0 && At(ActAll(c, ms).contract.exits, a) != 0
    ensures i < |ms| && Asked(c.config, ms[i], a, At(ActAll(c, ms).contract.exits, a))
  {
    var due := seq(|ms| + 1, n requires 0 <= n <= |ms| => At(Due(c, ms[..n]), a));
    forall n | 0 <= n < |ms| ensures due[n + 1] in {due[n], 0} || Asked(c.config, ms[n], a, due[n + 1]) {
      assert ms[..n + 1][..n] == ms[..n];
      LastCall(c, ms[..n + 1], n, a);
    }
    assert ms[..|ms|] == ms && ms[..0] == [];
    i := AskedSince(c, due, ms, a);
  }

  /** The fee announced after the calls. */
  ghost function Announced(c: Contract, ms: seq<Message>): (fee: Option<PendingFee>)
    requires Books(c)
  {
    ActAll(c, ms).contract.pendingFee
  }

  lemma {:induction false} OwnerStays(c: Contract, ms: seq<Message>)
    requires Books(c)
    ensures ActAll(c, ms).contract.owner == c.owner && ActAll(c, ms).contract.config == c.config
    decreases |ms|
  {
    if ms != [] {
      var before := ActAll(c, ms[..|ms| - 1]).contract;
      OwnerStays(c, ms[..|ms| - 1]);
      if Act(before, ms[|ms| - 1]).Some? { ActIsOrderly(before, ms[|ms| - 1]); }
    }
  }

  lemma NextAnnouncement(c: Contract, ms: seq<Message>, n: nat)
    requires Books(c) && n < |ms|
    ensures var fee, fee' := Announced(c, ms[..n]), Announced(c, ms[..n + 1]);
            fee' == fee || fee'.None? || Proposed(c, ms[n], fee'.value)
  {
    var before := ActAll(c, ms[..n]).contract;
    assert ms[..n + 1][..n] == ms[..n];
    OwnerStays(c, ms[..n]);
    if Act(before, ms[n]).Some? { ActIsOrderly(before, ms[n]); }
  }

  lemma {:induction false} ProposedSince(c: Contract, fees: seq<Option<PendingFee>>, ms: seq<Message>) returns (i: nat)
    requires |fees| == |ms| + 1 && fees[0].None? && fees[|ms|].Some?
    requires forall n :: 0 <= n < |ms| ==>
               fees[n + 1] == fees[n] || fees[n + 1].None? || Proposed(c, ms[n], fees[n + 1].value)
    ensures i < |ms| && Proposed(c, ms[i], fees[|ms|].value)
    decreases |ms|
  {
    i := |ms| - 1;
    if fees[i] == fees[|ms|] { i := ProposedSince(c, fees[..|ms|], ms[..i]); }
  }

  lemma Announcements(c: Contract, ms: seq<Message>) returns (fees: seq<Option<PendingFee>>)
    requires Books(c)
    ensures |fees| == |ms| + 1 && fees[0] == c.pendingFee && fees[|ms|] == ActAll(c, ms).contract.pendingFee
    ensures forall n :: 0 <= n < |ms| ==>
              fees[n + 1] == fees[n] || fees[n + 1].None? || Proposed(c, ms[n], fees[n + 1].value)
  {
    fees := seq(|ms| + 1, n requires 0 <= n <= |ms| => Announced(c, ms[..n]));
    forall n | 0 <= n < |ms|
      ensures fees[n + 1] == fees[n] || fees[n + 1].None? || Proposed(c, ms[n], fees[n + 1].value)
    {
      NextAnnouncement(c, ms, n);
    }
    assert ms[..|ms|] == ms && ms[..0] == [];
  }

  /** A fee waiting to apply was proposed by the owner, and waits the agreed delay. */
  lemma FeesChangeOnNotice(c: Contract, ms: seq<Message>) returns (i: nat)
    requires Books(c) && c.pendingFee.None? && ActAll(c, ms).contract.pendingFee.Some?
    ensures i < |ms| && Proposed(c, ms[i], ActAll(c, ms).contract.pendingFee.value)
  {
    var fees := Announcements(c, ms);
    i := ProposedSince(c, fees, ms);
  }
}
