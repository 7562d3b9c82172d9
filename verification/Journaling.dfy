/** Reversible tuning of a provider's host: the state to go back to is on disk before
    anything is changed, and it goes only when everything has been put back. */
module Journaling {
  import opened Basics

  datatype Stage = PowerPlan | KeepAwake | OllamaEnvironment | ProcessPriority
  type Value = int
  type Host = map<Stage, Value>

  predicate Whole(host: Host) { forall stage: Stage :: stage in host }

  datatype Operation = Operation(stage: Stage, value: Value)
  datatype Config = Config(valid: bool, powerAllowed: bool, powerPlan: bool, tuned: Stage -> Value)

  /** The settings as they were, and the stages recorded as changed since, oldest first. */
  datatype Journal = Journal(saved: Host, applied: seq<Stage>)

  /** What the host and the disk do when asked; true is success. */
  datatype Faults = Faults(snapshot: bool, save: bool, apply: Stage -> bool, record: Stage -> bool, remove: bool)

  function Plan(config: Config): (operations: Option<seq<Operation>>) {
    if !config.valid || !config.powerAllowed then None else
    Some((if config.powerPlan then [Operation(PowerPlan, config.tuned(PowerPlan))] else [])
         + [Operation(KeepAwake, config.tuned(KeepAwake)),
            Operation(OllamaEnvironment, config.tuned(OllamaEnvironment)),
            Operation(ProcessPriority, config.tuned(ProcessPriority))])
  }

  /** What a usable configuration changes, in this order: the power plan if it is asked for,
      then sleep, the model server's environment and process priority, each to its tuned
      value. */
  lemma PlannedStages(config: Config)
    ensures Plan(config).Some? <==> config.valid && config.powerAllowed
    ensures Plan(config).Some? ==>
              var plan := Plan(config).value;
              && |plan| == (if config.powerPlan then 4 else 3)
              && (config.powerPlan ==> plan[0].stage == PowerPlan)
              && plan[|plan| - 3].stage == KeepAwake && plan[|plan| - 2].stage == OllamaEnvironment
              && plan[|plan| - 1].stage == ProcessPriority
              && forall operation <- plan :: operation.value == config.tuned(operation.stage)
  {
  }

  lemma PlanIsDistinct(config: Config)
    requires Plan(config).Some?
    ensures var operations := Plan(config).value;
            forall i, j :: 0 <= i < j < |operations| ==> operations[i].stage != operations[j].stage
  {
  }

  // ------------------------------------------------------------------------- restoring

  /** Newest first. */
  function RollbackStages(applied: seq<Stage>): (stages: seq<Stage>) {
    if applied == [] then [] else [applied[|applied| - 1]] + RollbackStages(applied[..|applied| - 1])
  }

  function Undone(host: Host, saved: Host, stages: seq<Stage>): (after: Host)
    requires Whole(host) && Whole(saved)
    ensures Whole(after)
  {
    if stages == [] then host else Undone(host[stages[0] := saved[stages[0]]], saved, stages[1..])
  }

  /** The newest change comes first, and every recorded one comes. */
  lemma {:induction false} RollbackIsReversed(applied: seq<Stage>)
    ensures |RollbackStages(applied)| == |applied|
    ensures forall i :: 0 <= i < |applied| ==> RollbackStages(applied)[i] == applied[|applied| - 1 - i]
    decreases |applied|
  {
    if applied != [] { RollbackIsReversed(applied[..|applied| - 1]); }
  }

  lemma RollbackCoversAll(applied: seq<Stage>, stage: Stage)
    ensures stage in RollbackStages(applied) <==> stage in applied
  {
    RollbackIsReversed(applied);
    var stages := RollbackStages(applied);
    assert forall i :: 0 <= i < |applied| ==> applied[i] == stages[|applied| - 1 - i];
  }

  lemma {:induction false} UndoneAt(host: Host, saved: Host, stages: seq<Stage>, stage: Stage)
    requires Whole(host) && Whole(saved)
    ensures Undone(host, saved, stages)[stage] == if stage in stages then saved[stage] else host[stage]
    decreases |stages|
  {
    if stages != [] {
      UndoneAt(host[stages[0] := saved[stages[0]]], saved, stages[1..], stage);
      assert stages == [stages[0]] + stages[1..];
    }
  }

  function Restored(host: Host, journal: Journal): (after: Host)
    requires Whole(host) && Whole(journal.saved)
    ensures Whole(after)
  {
    Undone(host, journal.saved, RollbackStages(journal.applied))
  }

  lemma RestoredAt(host: Host, journal: Journal, stage: Stage)
    requires Whole(host) && Whole(journal.saved)
    ensures Restored(host, journal)[stage] == if stage in journal.applied then journal.saved[stage] else host[stage]
  {
    UndoneAt(host, journal.saved, RollbackStages(journal.applied), stage);
    RollbackCoversAll(journal.applied, stage);
  }

  // ----------------------------------------------------------------------- recoverable

  /** Every setting that differs from the snapshot, but those excepted, is on record. */
  predicate Covers(host: Host, snapshot: Host, applied: seq<Stage>, except: set<Stage>)
    requires Whole(host) && Whole(snapshot)
  {
    forall stage: Stage :: host[stage] != snapshot[stage] ==> stage in applied || stage in except
  }

  /** A moment a crash may leave behind. */
  datatype Moment = Moment(host: Host, journal: Option<Journal>)

  /** What is changed is journaled, but at most the one change in progress. */
  ghost predicate Recoverable(m: Moment, snapshot: Host) {
    && Whole(m.host) && Whole(snapshot)
    && match m.journal
       case None => m.host == snapshot
       case Some(j) => j.saved == snapshot && exists inProgress: Stage ::
         Covers(m.host, snapshot, j.applied, {inProgress})
  }

  predicate SameBut(a: Host, b: Host, one: Stage)
    requires Whole(a) && Whole(b)
  {
    forall stage: Stage :: stage != one ==> a[stage] == b[stage]
  }

  /** Recovery from what a crash left behind brings the host back exactly when every
      change was on record, and all but one setting in any case. */
  lemma CrashRecovery(m: Moment, snapshot: Host)
    requires Recoverable(m, snapshot) && m.journal.Some?
    ensures Restored(m.host, m.journal.value) == snapshot <==> Covers(m.host, snapshot, m.journal.value.applied, {})
    ensures exists inProgress: Stage :: SameBut(Restored(m.host, m.journal.value), snapshot, inProgress)
  {
    var j := m.journal.value;
    forall stage: Stage ensures Restored(m.host, j)[stage] == if stage in j.applied then snapshot[stage]
      else m.host[stage] {
      RestoredAt(m.host, j, stage);
    }
    var inProgress: Stage :| Covers(m.host, snapshot, j.applied, {inProgress});
    assert SameBut(Restored(m.host, j), snapshot, inProgress);
    if Covers(m.host, snapshot, j.applied, {}) {
      assert forall stage: Stage :: Restored(m.host, j)[stage] == snapshot[stage];
    }
  }

  /** Such a crash: one setting changed, not yet on record. Recovery leaves it changed. */
  lemma CrashLosesASetting(snapshot: Host, stage: Stage, v: Value)
    requires Whole(snapshot) && v != snapshot[stage]
    ensures var m := Moment(snapshot[stage := v], Some(Journal(snapshot, [])));
            && Recoverable(m, snapshot) && Restored(m.host, m.journal.value) == m.host != snapshot
  {
    var m := Moment(snapshot[stage := v], Some(Journal(snapshot, [])));
    assert Covers(m.host, snapshot, [], {stage});
  }

  lemma RestoresAll(host: Host, j: Journal)
    requires Whole(host) && Whole(j.saved) && Covers(host, j.saved, j.applied, {})
    ensures Restored(host, j) == j.saved
  {
    forall stage: Stage ensures Restored(host, j)[stage] == j.saved[stage] { RestoredAt(host, j, stage); }
  }

  // -------------------------------------------------------------------------- the host

  class Machine {
    var host: Host
    var journal: Option<Journal>
    ghost var trace: seq<Moment>   // every moment since the session began

    ghost predicate Safe(snapshot: Host)
      reads this
    {
      Recoverable(Moment(host, journal), snapshot) && forall m <- trace :: Recoverable(m, snapshot)
    }

    constructor (host: Host)
      requires Whole(host)
      ensures this.host == host && journal.None? && trace == [] && Safe(host)
    {
      this.host, journal, trace := host, None, [];
    }

    /** Save: a journal already there is another session's and stays. */
    method Save(saved: Host, faults: Faults) returns (ok: bool)
      requires Safe(saved)
      modifies this
      ensures Safe(saved) && host == old(host)
      ensures ok <==> old(journal).None? && faults.save
      ensures journal == if ok then Some(Journal(saved, [])) else old(journal)
    {
      if journal.Some? || !faults.save { return false; }
      journal := Some(Journal(saved, []));
      assert Covers(host, saved, [], {PowerPlan});
      trace := trace + [Moment(host, journal)];
      return true;
    }

    /** CompleteStage: the record is replaced whole or not at all; without one it fails. */
    method CompleteStage(stage: Stage, faults: Faults) returns (ok: bool)
      modifies this`journal
      ensures ok <==> old(journal).Some? && (stage in old(journal).value.applied || faults.record(stage))
      ensures !ok ==> journal == old(journal)
      ensures ok ==> journal == Some(old(journal).value.(
                applied := old(journal).value.applied + if stage in old(journal).value.applied then [] else [stage]))
    {
      if journal.None? { return false; }
      assert journal.value.applied + [] == journal.value.applied;
      if stage in journal.value.applied { return true; }
      if !faults.record(stage) { return false; }
      journal := Some(journal.value.(applied := journal.value.applied + [stage]));
      return true;
    }

    /** Restore: the newest change is put back first. */
    method Restore(ghost snapshot: Host, j: Journal)
      requires journal.Some? && Safe(snapshot) && j.saved == snapshot
      modifies this`host, this`trace
      ensures Safe(snapshot) && host == Restored(old(host), j)
    {
      var stages := RollbackStages(j.applied);
      ghost var start := host;
      ghost var inProgress: Stage :| Covers(host, snapshot, journal.value.applied, {inProgress});
      var k := 0;
      while k < |stages|
        invariant k <= |stages| && Whole(host) && Undone(host, j.saved, stages[k..]) == Undone(start, j.saved, stages)
        invariant Covers(host, snapshot, journal.value.applied, {inProgress})
        invariant forall m <- trace :: Recoverable(m, snapshot)
      {
        host := host[stages[k] := j.saved[stages[k]]];
        trace := trace + [Moment(host, journal)];
        assert stages[k..][1..] == stages[k + 1..];
        k := k + 1;
      }
    }

    /** CompleteRecovery: the recorded changes are put back, then the journal goes. What a
        crash left unrecorded stays, and after that nothing on disk tells of it. */
    method CompleteRecovery(ghost snapshot: Host, faults: Faults) returns (ok: bool)
      requires Safe(snapshot)
      modifies this
      ensures ok <==> old(journal).None? || faults.remove
      ensures journal == if ok then None else old(journal)
      ensures Whole(host) && exists inProgress: Stage :: SameBut(host, snapshot, inProgress)
      ensures host == snapshot <==> old(Recorded(snapshot))
      ensures old(Recorded(snapshot)) ==> Safe(snapshot)
    {
      if journal.None? {
        assert SameBut(host, snapshot, PowerPlan);
        return true;
      }
      CrashRecovery(Moment(host, journal), snapshot);
      Restore(snapshot, journal.value);
      if !faults.remove { return false; }
      journal := None;
      trace := trace + [Moment(host, journal)];
      return true;
    }

    /** Every change is on record. */
    ghost predicate Recorded(snapshot: Host)
      requires Whole(host) && Whole(snapshot)
      reads this
    {
      journal.Some? ==> Covers(host, snapshot, journal.value.applied, {})
    }

    /** applyJournaledOperation: change, then record; a change that cannot be recorded is
        undone at once. A failed change has no effect. */
    method ApplyJournaled(ghost snapshot: Host, operation: Operation, faults: Faults) returns (ok: bool)
      requires Safe(snapshot) && journal.Some? && Covers(host, snapshot, journal.value.applied, {})
      requires operation.stage !in journal.value.applied
      modifies this
      ensures Safe(snapshot) && journal.Some? && Covers(host, snapshot, journal.value.applied, {})
      ensures ok <==> faults.apply(operation.stage) && faults.record(operation.stage)
      ensures ok ==> host == old(host)[operation.stage := operation.value]
      ensures ok ==> journal.value.applied == old(journal).value.applied + [operation.stage]
    {
      var stage := operation.stage;
      if !faults.apply(stage) { return false; }
      host := host[stage := operation.value];
      assert Covers(host, snapshot, journal.value.applied, {stage});
      trace := trace + [Moment(host, journal)];
      ok := CompleteStage(stage, faults);
      if ok {
        assert Covers(host, snapshot, journal.value.applied, {stage});
        trace := trace + [Moment(host, journal)];
      } else {
        var j := journal.value.(applied := journal.value.applied + [stage]);
        RestoresAll(host, j);
        Restore(snapshot, j);
      }
    }

    /** StartProviderTuning. */
    method Start(config: Config, faults: Faults) returns (ok: bool)
      requires Whole(host) && (journal.None? ==> Safe(host))
      modifies this
      ensures ok ==> Plan(config).Some? && journal.Some? && Safe(old(host))
      ensures ok ==> forall operation <- Plan(config).value :: host[operation.stage] == operation.value
                       && operation.stage in journal.value.applied
      ensures ok ==> forall stage <- host :: stage in journal.value.applied || host[stage] == old(host)[stage]
      ensures !ok ==> host == old(host)
      ensures !ok ==> journal == old(journal) || (journal.Some? && !faults.remove)
      ensures old(journal).Some? ==> !ok && journal == old(journal)
      ensures old(journal).None? ==> Safe(old(host))
    {
      ghost var snapshot := host;
      if !faults.snapshot { return false; }
      var operations := Plan(config);
      if operations.None? { return false; }
      if journal.Some? { return false; }
      ok := Save(host, faults);
      if !ok { return; }
      PlanIsDistinct(config);
      var plan := operations.value;
      for i := 0 to |plan|
        invariant Safe(snapshot) && journal.Some? && Covers(host, snapshot, journal.value.applied, {})
        invariant forall k :: 0 <= k < i ==>
                    host[plan[k].stage] == plan[k].value && plan[k].stage in journal.value.applied
        invariant forall stage <- journal.value.applied :: exists k :: 0 <= k < i && plan[k].stage == stage
      {
        ok := ApplyJournaled(snapshot, plan[i], faults);
        if !ok {
          var _ := CompleteRecovery(snapshot, faults);
          return;
        }
      }
      ok := true;
    }

    /** A session from start to cleanup: the host is as it was, and the journal is gone
        unless it could not be removed. */
    method Session(config: Config, faults: Faults) returns (started: bool, cleaned: bool)
      requires journal.None? && Safe(host)
      modifies this
      ensures Safe(old(host)) && host == old(host)
      ensures faults.remove ==> journal.None?
      ensures started && cleaned ==> journal.None?
    {
      cleaned := false;
      started := Start(config, faults);
      if started { cleaned := CompleteRecovery(old(host), faults); }
    }
  }
}
