/** The update of a provider's backends and their credentials: all of it or none. */
module Configuring {
  import opened Basics
  import opened Decimals
  import opened Texts

  datatype Candidate = Candidate(name: string, kind: string, url: string, model: string, image: string)
  datatype Selection = Selection(candidate: Candidate, secret: string)
  datatype Backend = Backend(
    name: string, kind: string, url: string, model: string, image: string, enabled: bool, offer: string, version: nat)

  /** What makes two backends the same, and the name a new one is given. */
  datatype Naming = Naming(stable: (string, string, string) -> string, base: Candidate -> string) {
    function OfCandidate(c: Candidate): string { stable(c.kind, c.url, c.model) }
    function OfBackend(b: Backend): string { stable(b.kind, b.url, b.model) }
  }

  // ---------------------------------------------------------------------------- names

  predicate Named(backends: seq<Backend>, name: string) { exists i :: 0 <= i < |backends| && backends[i].name == name }

  ghost predicate DistinctNames(backends: seq<Backend>) {
    forall i, j :: 0 <= i < j < |backends| ==> backends[i].name != backends[j].name
  }

  function Suffixed(base: string, suffix: nat): (name: string) { base + "-" + Print(suffix) }

  lemma SuffixesDiffer(base: string, a: nat, b: nat)
    requires a != b
    ensures Suffixed(base, a) != Suffixed(base, b) && Suffixed(base, a) != base
  {
    PrintedReadsBack(a);
    PrintedReadsBack(b);
    assert Suffixed(base, a)[|base| + 1..] == Print(a) && Suffixed(base, b)[|base| + 1..] == Print(b);
    assert |Suffixed(base, a)| > |base|;
  }

  ghost function Tried(base: string, end: nat): (names: set<string>)
    requires end >= 2
  {
    set suffix | 2 <= suffix < end :: Suffixed(base, suffix)
  }

  lemma {:induction false} TriedCount(base: string, end: nat)
    requires end >= 2
    ensures |Tried(base, end)| == end - 2 && base !in Tried(base, end)
    decreases end
  {
    forall suffix | 2 <= suffix < end ensures Suffixed(base, suffix) != base {
      SuffixesDiffer(base, suffix, suffix + 1);
    }
    if end > 2 {
      TriedCount(base, end - 1);
      var last := Suffixed(base, end - 1);
      assert Tried(base, end) == Tried(base, end - 1) + {last};
      if last in Tried(base, end - 1) {
        var suffix :| 2 <= suffix < end - 1 && Suffixed(base, suffix) == last;
        SuffixesDiffer(base, suffix, end - 1);
      }
    } else {
      assert Tried(base, end) == {};
    }
  }

  ghost function Names(backends: seq<Backend>): (names: set<string>) {
    set i | 0 <= i < |backends| :: backends[i].name
  }

  lemma {:induction false} NamesCount(backends: seq<Backend>)
    ensures |Names(backends)| <= |backends|
    decreases |backends|
  {
    if backends != [] {
      var n := |backends| - 1;
      NamesCount(backends[..n]);
      assert Names(backends) == Names(backends[..n]) + {backends[n].name};
    } else {
      assert Names(backends) == {};
    }
  }

  /** More names cannot be taken than there are backends. */
  lemma Pigeonhole(base: string, backends: seq<Backend>, end: nat)
    requires end >= 2 && Named(backends, base) && forall suffix :: 2 <= suffix < end ==>
               Named(backends, Suffixed(base, suffix))
    ensures end <= |backends| + 1
  {
    TriedCount(base, end);
    NamesCount(backends);
    var taken := Tried(base, end) + {base};
    forall name <- taken ensures name in Names(backends) {
      assert Named(backends, name);
    }
    Smaller(taken, Names(backends));
  }

  /** The base name itself, or else the first suffixed one that is free. */
  ghost predicate FirstFree(base: string, backends: seq<Backend>, name: string) {
    if !Named(backends, base) then name == base else
    exists suffix ::
      && 2 <= suffix <= |backends| + 1 && name == Suffixed(base, suffix) && !Named(backends, name)
      && forall s :: 2 <= s < suffix ==> Named(backends, Suffixed(base, s))
  }

  /** The search ends within |backends| suffixes. */
  method UniqueBackendName(base: string, backends: seq<Backend>) returns (name: string)
    ensures !Named(backends, name) && FirstFree(base, backends, name)
  {
    if !Named(backends, base) { return base; }
    var suffix := 2;
    Pigeonhole(base, backends, suffix);
    while true
      invariant 2 <= suffix <= |backends| + 1
      invariant forall s :: 2 <= s < suffix ==> Named(backends, Suffixed(base, s))
      decreases |backends| + 1 - suffix
    {
      var candidate := Suffixed(base, suffix);
      if !Named(backends, candidate) { return candidate; }
      Pigeonhole(base, backends, suffix + 1);
      suffix := suffix + 1;
    }
  }

  // ---------------------------------------------------------------------- credentials

  datatype Change = Change(account: string, previous: Option<string>)
  type Entries = map<string, string>

  function Undo(entries: Entries, change: Change): (after: Entries) {
    match change.previous
    case Some(secret) => entries[change.account := secret]
    case None => entries - {change.account}
  }

  /** Newest change first. */
  function RolledBack(entries: Entries, changes: seq<Change>): (after: Entries)
    decreases |changes|
  {
    if changes == [] then entries else
    RolledBack(Undo(entries, changes[|changes| - 1]), changes[..|changes| - 1])
  }

  function Previous(entries: Entries, account: string): (secret: Option<string>) {
    if account in entries then Some(entries[account]) else None
  }

  /** Rolling a write back, even a second write to one account, leaves what was there. */
  lemma WriteRollsBack(entries: Entries, changes: seq<Change>, account: string, secret: string)
    ensures RolledBack(entries[account := secret], changes + [Change(account, Previous(entries, account))])
            == RolledBack(entries, changes)
  {
    var change := Change(account, Previous(entries, account));
    assert (changes + [change])[..|changes|] == changes;
    assert Undo(entries[account := secret], change) == entries;
  }

  /** Without a way to read the old secret, nothing is known of what a write replaced. */
  ghost predicate Blind(changes: seq<Change>, touched: set<string>) {
    && (forall change <- changes :: change.previous.None? && change.account in touched)
    && (forall account <- touched :: exists change <- changes :: change.account == account)
  }

  /** Then rolling back removes every account that was written. */
  lemma {:induction false} BlindRollback(entries: Entries, changes: seq<Change>)
    requires forall change <- changes :: change.previous.None?
    ensures forall account :: account in RolledBack(entries, changes) <==>
              account in entries && forall change <- changes :: change.account != account
    ensures forall account <- RolledBack(entries, changes) :: account in entries
              && RolledBack(entries, changes)[account] == entries[account]
    decreases |changes|
  {
    if changes != [] {
      var n := |changes| - 1;
      assert changes == changes[..n] + [changes[n]];
      BlindRollback(Undo(entries, changes[n]), changes[..n]);
    }
  }

  lemma BlindRollbackRemoves(entries: Entries, changes: seq<Change>, touched: set<string>)
    requires Blind(changes, touched)
    ensures RolledBack(entries, changes) == entries - touched
  {
    BlindRollback(entries, changes);
  }

  /** So a secret that was there before the update, and was overwritten by it, is lost. */
  lemma BlindRollbackLoses(entries: Entries, account: string, secret: string)
    requires account in entries
    ensures account !in RolledBack(entries[account := secret], [Change(account, None)])
  {
    BlindRollback(entries[account := secret], [Change(account, None)]);
  }

  datatype Write = Write(account: string, secret: string)

  /** The entries after secrets written one by one. */
  function Written(entries: Entries, writes: seq<Write>): (after: Entries) {
    if writes == [] then entries else
    Written(entries, writes[..|writes| - 1])[writes[|writes| - 1].account := writes[|writes| - 1].secret]
  }

  function Accounts(writes: seq<Write>): (accounts: set<string>) { set w | w in writes :: w.account }

  /** An account holds the last secret written to it... */
  lemma {:induction false} LastSecretStays(entries: Entries, writes: seq<Write>, k: nat)
    requires k < |writes| && forall j :: k < j < |writes| ==> writes[j].account != writes[k].account
    ensures Previous(Written(entries, writes), writes[k].account) == Some(writes[k].secret)
    decreases |writes|
  {
    if k < |writes| - 1 { LastSecretStays(entries, writes[..|writes| - 1], k); }
  }

  /** ...and what it held before, if none was. */
  lemma {:induction false} UnwrittenStays(entries: Entries, writes: seq<Write>, account: string)
    requires forall w <- writes :: w.account != account
    ensures Previous(Written(entries, writes), account) == Previous(entries, account)
    decreases |writes|
  {
    if writes != [] { UnwrittenStays(entries, writes[..|writes| - 1], account); }
  }

  /** The state of an update that can still be undone. */
  ghost predicate Undoable(original: Entries, entries: Entries, changes: seq<Change>, writes: seq<Write>,
                           canLoad: bool) {
    && entries == Written(original, writes) && |changes| == |writes|
    && (if canLoad then RolledBack(entries, changes) == original else Blind(changes, Accounts(writes)))
  }

  lemma WriteIsUndoable(original: Entries, entries: Entries, changes: seq<Change>, writes: seq<Write>, canLoad: bool,
                        w: Write)
    requires Undoable(original, entries, changes, writes, canLoad)
    ensures var change := Change(w.account, if canLoad then Previous(entries, w.account) else None);
            Undoable(original, entries[w.account := w.secret], changes + [change], writes + [w], canLoad)
  {
    var change := Change(w.account, if canLoad then Previous(entries, w.account) else None);
    if canLoad { WriteRollsBack(entries, changes, w.account, w.secret); }
    assert (writes + [w])[..|writes|] == writes;
    assert Accounts(writes + [w]) == Accounts(writes) + {w.account};
    assert change in changes + [change];
  }

  lemma {:induction false} OthersStay(entries: Entries, writes: seq<Write>)
    ensures Written(entries, writes) - Accounts(writes) == entries - Accounts(writes)
    decreases |writes|
  {
    if writes != [] {
      var n := |writes| - 1;
      OthersStay(entries, writes[..n]);
      var before, less, more := Written(entries, writes[..n]), Accounts(writes[..n]), Accounts(writes);
      assert writes == writes[..n] + [writes[n]] && more == less + {writes[n].account};
      assert Written(entries, writes) - more == (before - less) - {writes[n].account};
      assert entries - more == (entries - less) - {writes[n].account};
    }
  }

  lemma UndoneResult(original: Entries, entries: Entries, changes: seq<Change>, writes: seq<Write>, canLoad: bool)
    requires Undoable(original, entries, changes, writes, canLoad)
    ensures RolledBack(entries, changes) == if canLoad then original else original - Accounts(writes)
  {
    if !canLoad {
      BlindRollbackRemoves(entries, changes, Accounts(writes));
      OthersStay(original, writes);
    }
  }

  /** The credential store's calls, if the configuration can be saved at all; saves and
      the configuration write may fail, without effect. A read fails only where there is
      no entry, and undoing always works. */
  datatype Services = Services(ready: bool, named: bool, canLoad: bool, canSave: bool, canDelete: bool,
    saves: nat -> bool, configSaved: bool)

  class Vault {
    var entries: Entries

    constructor (entries: Entries)
      ensures this.entries == entries
    {
      this.entries := entries;
    }

    /** One secret, and the change that undoes it. */
    method Set(ghost original: Entries, account: string, secret: string, changes: seq<Change>,
               ghost writes: seq<Write>, services: Services)
      returns (changes': seq<Change>, ghost writes': seq<Write>)
      requires Undoable(original, entries, changes, writes, services.canLoad)
      modifies this
      ensures Undoable(original, entries, changes', writes', services.canLoad)
              && writes' == writes + [Write(account, secret)]
    {
      WriteIsUndoable(original, entries, changes, writes, services.canLoad, Write(account, secret));
      changes' := changes + [Change(account, if services.canLoad then Previous(entries, account) else None)];
      writes' := writes + [Write(account, secret)];
      entries := entries[account := secret];
    }

    /** The whole update undone. */
    method Withdraw(ghost original: Entries, changes: seq<Change>, ghost writes: seq<Write>, services: Services)
      requires Undoable(original, entries, changes, writes, services.canLoad)
      requires writes != [] ==> services.canSave
      modifies this
      ensures services.canDelete ==> entries == if services.canLoad then original else original - Accounts(writes)
      ensures writes == [] ==> entries == original
    {
      UndoneResult(original, entries, changes, writes, services.canLoad);
      Rollback(changes, services);
    }

    method Rollback(changes: seq<Change>, services: Services)
      modifies this
      ensures services.canSave && services.canDelete ==> entries == RolledBack(old(entries), changes)
      ensures changes == [] ==> entries == old(entries)
    {
      var index := |changes|;
      assert changes[..index] == changes;
      while index > 0
        invariant index <= |changes| && (changes == [] ==> entries == old(entries))
        invariant services.canSave && services.canDelete ==>
                    RolledBack(entries, changes[..index]) == RolledBack(old(entries), changes)
      {
        var change := changes[index - 1];
        assert changes[..index][..index - 1] == changes[..index - 1];
        if change.previous.Some? && services.canSave {
          entries := entries[change.account := change.previous.value];
        } else if change.previous.None? && services.canDelete {
          entries := entries - {change.account};
        }
        index := index - 1;
      }
    }
  }

  // ---------------------------------------------------------------------------- apply

  function Disabled(backends: seq<Backend>): (after: seq<Backend>) {
    seq(|backends|, i requires 0 <= i < |backends| => backends[i].(enabled := false))
  }

  function Fresh(naming: Naming, c: Candidate): (item: Backend) {
    Backend(naming.base(c), c.kind, if c.kind == "ollama" || c.kind == "openai" then c.url
      else "", c.model, c.image, true, "", 0)
  }

  /** Backends that were there keep their place, their name and their offer. */
  predicate Continues(before: seq<Backend>, after: seq<Backend>) {
    && |before| <= |after|
    && forall i :: 0 <= i < |before| ==>
         after[i].name == before[i].name && after[i].offer == before[i].offer && after[i].version == before[i].version
  }

  /** The backend is enabled, with the candidate's kind, model, image and, where the kind has
      one, address. */
  predicate Shows(b: Backend, c: Candidate) {
    && b.enabled && b.kind == c.kind && b.model == c.model && b.image == c.image
    && b.url == if c.kind == "ollama" || c.kind == "openai" then c.url else ""
  }

  /** Selection c is put at index i: over the first backend that is the same, which keeps
      its name and offer, or at the end under the first free name. All else stays. */
  ghost predicate Puts(naming: Naming, before: seq<Backend>, c: Candidate, after: seq<Backend>, i: nat) {
    && i < |after| && Shows(after[i], c)
    && (forall k :: 0 <= k < i && k < |before| ==> naming.OfBackend(before[k]) != naming.OfCandidate(c))
    && (if i < |before| then
          && naming.OfBackend(before[i]) == naming.OfCandidate(c) && after == before[i := after[i]]
          && after[i].name == before[i].name && after[i].offer == before[i].offer
            && after[i].version == before[i].version
        else
          && i == |before| && after == before + [after[i]]
          && FirstFree(naming.base(c), before, after[i].name) && after[i].offer == "" && after[i].version == 0)
  }

  method Place(naming: Naming, backends: seq<Backend>, c: Candidate) returns (after: seq<Backend>, at: nat)
    ensures Puts(naming, backends, c, after, at)
    ensures Continues(backends, after) && (DistinctNames(backends) ==> DistinctNames(after))
  {
    var item := Fresh(naming, c);
    for i := 0 to |backends|
      invariant forall k :: 0 <= k < i ==> naming.OfBackend(backends[k]) != naming.OfCandidate(c)
    {
      if naming.OfBackend(backends[i]) == naming.OfCandidate(c) {
        item := item.(name := backends[i].name, offer := backends[i].offer, version := backends[i].version);
        return backends[i := item], i;
      }
    }
    var name := UniqueBackendName(item.name, backends);
    item := item.(name := name);
    after, at := backends + [item], |backends|;
    forall i | 0 <= i < |backends| ensures backends[i].name != name {
      if backends[i].name == name { assert Named(backends, name); }
    }
  }

  /** The list before each selection and after the last, and where each was put. */
  datatype Trail = Trail(stages: seq<seq<Backend>>, places: seq<nat>)

  ghost predicate Follows(naming: Naming, current: seq<Backend>, selections: seq<Selection>, t: Trail) {
    && |t.stages| == |t.places| + 1 && |t.places| <= |selections| && t.stages[0] == Disabled(current)
    && forall k :: 0 <= k < |t.places| ==>
      Puts(naming, t.stages[k], selections[k].candidate, t.stages[k + 1], t.places[k])
  }

  /** The secrets of the first n selections, each for the account of its backend's name. */
  ghost function Writes(naming: Naming, machine: string, current: seq<Backend>, selections: seq<Selection>, t: Trail,
                        n: nat): (ws: seq<Write>)
    requires Follows(naming, current, selections, t) && n <= |t.places|
  {
    if n == 0 then [] else
    var before := Writes(naming, machine, current, selections, t, n - 1);
    assert Puts(naming, t.stages[n - 1], selections[n - 1].candidate, t.stages[n], t.places[n - 1]);
    if Blank(selections[n - 1].secret) then before
    else before + [Write(machine + "/" + t.stages[n][t.places[n - 1]].name, selections[n - 1].secret)]
  }

  /** The backends enabled in the end are exactly those selected; the others are as they
      were, switched off. Each shows the last selection that was put in its place. */
  lemma {:induction false} ExactlyTheSelected(naming: Naming, current: seq<Backend>, selections: seq<Selection>,
                                              t: Trail, n: nat)
    requires Follows(naming, current, selections, t) && n <= |t.places|
    ensures Continues(current, t.stages[n])
    ensures forall i :: 0 <= i < |t.stages[n]| ==> (t.stages[n][i].enabled <==> i in t.places[..n])
    ensures forall i :: 0 <= i < |t.stages[n]| && i !in t.places[..n] ==>
              i < |current| && t.stages[n][i] == current[i].(enabled := false)
    ensures forall k :: 0 <= k < n ==> t.places[k] < |t.stages[n]|
    ensures forall k :: 0 <= k < n && (forall j :: k < j < n ==> t.places[j] != t.places[k]) ==>
              Shows(t.stages[n][t.places[k]], selections[k].candidate)
    decreases n
  {
    if n > 0 {
      ExactlyTheSelected(naming, current, selections, t, n - 1);
      assert Puts(naming, t.stages[n - 1], selections[n - 1].candidate, t.stages[n], t.places[n - 1]);
      assert t.places[..n] == t.places[..n - 1] + [t.places[n - 1]];
    }
  }

  lemma {:induction false} SameWrites(naming: Naming, machine: string, current: seq<Backend>,
                                      selections: seq<Selection>, t: Trail, t': Trail, n: nat)
    requires Follows(naming, current, selections, t) && Follows(naming, current, selections, t') && n <= |t.places|
    requires t.stages <= t'.stages && t.places <= t'.places
    ensures Writes(naming, machine, current, selections, t', n) == Writes(naming, machine, current, selections, t, n)
    decreases n
  {
    if n > 0 { SameWrites(naming, machine, current, selections, t, t', n - 1); }
  }

  /** One selection more, and its secret, change nothing of what came before. */
  lemma TrailMore(naming: Naming, machine: string, current: seq<Backend>, selections: seq<Selection>, t: Trail,
                  after: seq<Backend>, at: nat)
    returns (t': Trail)
    requires Follows(naming, current, selections, t) && |t.places| < |selections|
    requires Puts(naming, t.stages[|t.places|], selections[|t.places|].candidate, after, at)
    ensures Follows(naming, current, selections, t') && |t'.places| == |t.places| + 1 && t'.stages[|t'.places|] == after
    ensures Writes(naming, machine, current, selections, t', |t'.places|)
         == Writes(naming, machine, current, selections, t, |t.places|)
            + if Blank(selections[|t.places|].secret) then []
              else [Write(machine + "/" + after[at].name, selections[|t.places|].secret)]
  {
    t' := Trail(t.stages + [after], t.places + [at]);
    forall k | 0 <= k < |t'.places|
      ensures Puts(naming, t'.stages[k], selections[k].candidate, t'.stages[k + 1], t'.places[k])
    {
      if k < |t.places| { assert t'.stages[k + 1] == t.stages[k + 1]; }
    }
    SameWrites(naming, machine, current, selections, t, t', |t.places|);
  }

  /** The secret of selection i can be stored, if it has one. */
  predicate Stores(selections: seq<Selection>, services: Services, i: nat)
    requires i < |selections|
  {
    Blank(selections[i].secret) || (services.named && services.canSave && services.saves(i))
  }

  /** On success the configuration is the list with every selection put in turn, and every
      secret is written. On any error the configuration is not touched; and given the means
      to undo, the credentials are what they were at entry, if old secrets can be read, and
      lack exactly the accounts written to, if they cannot. */
  method Apply(naming: Naming, machine: string, current: seq<Backend>, selections: seq<Selection>, vault: Vault,
               services: Services)
    returns (ok: bool, updated: seq<Backend>, ghost t: Trail)
    modifies vault
    ensures ok <==> services.ready && services.configSaved && forall i :: 0 <= i < |selections| ==>
              Stores(selections, services, i)
    ensures Follows(naming, current, selections, t)
    ensures ok ==> |t.places| == |selections| && updated == t.stages[|selections|]
    ensures ok ==> Continues(current, updated) && (DistinctNames(current) ==> DistinctNames(updated))
    ensures ok ==>
              vault.entries == Written(old(vault.entries), Writes(naming, machine, current, selections, t,
                |selections|))
    ensures !ok ==> updated == current
    ensures !ok && services.canDelete ==>
              vault.entries == if services.canLoad then old(vault.entries)
                               else old(vault.entries) - Accounts(Writes(naming, machine, current, selections, t,
                                 |t.places|))
    ensures (forall s <- selections :: Blank(s.secret)) ==> vault.entries == old(vault.entries)
  {
    t := Trail([Disabled(current)], []);
    if !services.ready { return false, current, t; }
    updated := Disabled(current);
    var changes: seq<Change> := [];
    ghost var writes: seq<Write> := [];
    NothingYet(naming, machine, current, selections, services, vault.entries);
    for i := 0 to |selections|
      invariant Midway(naming, machine, current, selections, services, i, updated, t, old(vault.entries), vault.entries,
                changes, writes)
    {
      if !Stores(selections, services, i) {
        Refuse(naming, machine, current, selections, vault, services, i, updated, t, old(vault.entries), changes,
          writes);
        return false, current, t;
      }
      updated, changes, t, writes :=
        ApplyOne(naming, machine, current, selections, vault, services, i, updated, changes, old(vault.entries), t,
          writes);
    }
    if !services.configSaved {
      Refuse(naming, machine, current, selections, vault, services, |selections|, updated, t, old(vault.entries),
        changes,
             writes);
      return false, current, t;
    }
    return true, updated, t;
  }

  /** The first i selections have been put and their secrets written. */
  ghost predicate Midway(naming: Naming, machine: string, current: seq<Backend>, selections: seq<Selection>,
                         services: Services, i: nat, updated: seq<Backend>, t: Trail, original: Entries,
                         entries: Entries, changes: seq<Change>, writes: seq<Write>)
  {
    && i == |t.places| <= |selections| && Follows(naming, current, selections, t) && updated == t.stages[i]
    && Continues(current, updated) && (DistinctNames(current) ==> DistinctNames(updated))
    && writes == Writes(naming, machine, current, selections, t, i)
    && Undoable(original, entries, changes, writes, services.canLoad)
    && (writes != [] ==> services.canSave && exists s <- selections :: !Blank(s.secret))
    && forall k :: 0 <= k < i ==> Stores(selections, services, k)
  }

  lemma NothingYet(naming: Naming, machine: string, current: seq<Backend>, selections: seq<Selection>,
                   services: Services, entries: Entries)
    ensures var updated := Disabled(current);
            Midway(naming, machine, current, selections, services, 0, updated, Trail([updated], []), entries, entries,
              [], [])
  {
  }

  /** The update is given up after i selections. */
  method Refuse(ghost naming: Naming, ghost machine: string, ghost current: seq<Backend>,
                ghost selections: seq<Selection>,
                vault: Vault, services: Services, ghost i: nat, ghost updated: seq<Backend>, ghost t: Trail,
                ghost original: Entries, changes: seq<Change>, ghost writes: seq<Write>)
    requires Midway(naming, machine, current, selections, services, i, updated, t, original, vault.entries, changes,
             writes)
    modifies vault
    ensures services.canDelete ==> vault.entries == if services.canLoad then original else original - Accounts(writes)
    ensures (forall s <- selections :: Blank(s.secret)) ==> vault.entries == original
  {
    vault.Withdraw(original, changes, writes, services);
  }

  method ApplyOne(naming: Naming, machine: string, current: seq<Backend>, selections: seq<Selection>, vault: Vault,
                  services: Services, i: nat, before: seq<Backend>, done: seq<Change>, ghost original: Entries,
                  ghost t0: Trail, ghost written: seq<Write>)
    returns (updated: seq<Backend>, changes: seq<Change>, ghost t: Trail, ghost writes: seq<Write>)
    requires i < |selections| && Stores(selections, services, i)
    requires Midway(naming, machine, current, selections, services, i, before, t0, original, vault.entries, done,
             written)
    modifies vault
    ensures Midway(naming, machine, current, selections, services, i + 1, updated, t, original, vault.entries, changes,
            writes)
  {
    var at;
    updated, at := Place(naming, before, selections[i].candidate);
    t := TrailMore(naming, machine, current, selections, t0, updated, at);
    changes, writes := done, written;
    if Blank(selections[i].secret) { return; }
    changes, writes := vault.Set(original, machine + "/" + updated[at].name, selections[i].secret, done, written,
      services);
  }
}
