/** When starting again at the remembered block rebuilds the whole projection. */
module Resuming {
  import opened Basics
  import opened Tables
  import opened Projecting
  import opened Ledger
  import opened Protocol
  import opened Safety
  import opened Charging
  import Restoring

  const INDEX_BATCH_SIZE: uint64 := 100

  /** No log lies in blocks a..b, as far as the chain goes. */
  predicate Quiet(chain: seq<Block>, a: nat, b: nat) {
    forall n :: a <= n < b && n < |chain| ==> chain[n].logs == []
  }

  lemma {:induction false} QuietMeansNoLogs(chain: seq<Block>, a: nat, b: nat)
    requires a <= b <= |chain|
    ensures Quiet(chain, a, b) <==> Logs(chain[a..b]) == []
    decreases b
  {
    if a < b {
      QuietMeansNoLogs(chain, a, b - 1);
      assert chain[a..b][..b - 1 - a] == chain[a..b - 1];
    }
  }

  /** The block a fresh or rewound indexer starts from has no log below it. */
  predicate Sound(chain: seq<Block>, startBlock: nat) { Quiet(chain, 0, startBlock) }

  /** Unsigned subtraction wraps. */
  function Sub64(x: uint64, y: uint64): (d: uint64) { (x - y) % TWO_64 }

  function BatchEnd(next: uint64, target: uint64, size: uint64): (end: uint64)
    ensures next <= target && size > 0 ==> next <= end <= target && (end == target || end - next + 1 == size)
  {
    if size == 0 || Sub64(target, next) < Sub64(size, 1) then target else (next + size - 1) % TWO_64
  }

  /** Indexing may go on at block `next`: nothing lies between the cursor and it. */
  predicate Ready(db: Db, chain: seq<Block>, next: nat) {
    match db.cursor
    case None => Quiet(chain, 0, next)
    case Some(c) => c.next <= next && c.next <= |chain| && c.hash <= chain && Quiet(chain, c.next, next)
  }

  lemma ReadyMayIndex(s: State, first: nat, last: nat)
    requires Ready(s.db, s.chain, first) && first <= last < |s.chain|
    ensures MayIndex(s, first, last)
  {
    match s.db.cursor {
      case None =>
        QuietMeansNoLogs(s.chain, 0, first);
        assert s.chain[0..first] == s.chain[..first];
      case Some(c) => QuietMeansNoLogs(s.chain, c.next, first);
    }
  }

  /** One batch from a sound state succeeds and leaves a sound state, ready for the next. */
  lemma BatchStep(world: World, s: State, first: nat, last: nat)
    requires Inv(world, s) && Ready(s.db, s.chain, first) && first <= last < |s.chain|
    ensures IndexRange(s.db, world.feeRecipient, s.chain, first, last).Commit?
    ensures var s' := Indexed(s, world.feeRecipient, first, last);
            && Inv(world, s') && Next(world, s, s', Index(first, last)) && Ready(s'.db, s'.chain, last + 1)
            && s'.db.cursor == Some(Cursor(last + 1, last, s.chain[..last + 1]))
  {
    ReadyMayIndex(s, first, last);
    IndexNeverBlocks(world, s, first, last);
  }

  lemma QuietAddsNothing(chain: seq<Block>, a: nat, b: nat)
    requires a <= b <= |chain| && Quiet(chain, a, b)
    ensures Logs(chain[..b]) == Logs(chain[..a])
  {
    QuietMeansNoLogs(chain, a, b);
    assert chain[..b] == chain[..a] + chain[a..b];
    LogsConcat(chain[..a], chain[a..b]);
  }


  /** Indexed on top of what projects the log before it. */
  lemma {:induction false} IndexedOnTop(db: Db, feeRecipient: Address, front: seq<Log>, logs: seq<Log>)
    requires ProjectAll(feeRecipient, front) == Some(db.chain) && IndexLogs(db, feeRecipient, logs).Commit?
    ensures ProjectAll(feeRecipient, front + logs) == Some(IndexLogs(db, feeRecipient, logs).db.chain)
    decreases |logs|
  {
    if logs == [] {
      assert front + logs == front;
    } else {
      var n := |logs| - 1;
      IndexedOnTop(db, feeRecipient, front, logs[..n]);
      Restoring.EntryProjects(IndexLogs(db, feeRecipient, logs[..n]).db, feeRecipient, logs[n]);
      assert front + logs == (front + logs[..n]) + [logs[n]];
      ProjectAppend(feeRecipient, front + logs[..n], logs[n]);
    }
  }

  /** No entry of a well-formed log comes back later in it. */
  lemma IdsAreDistinct(world: World, logs: seq<Log>, i: nat, j: nat)
    requires WellFormed(world, logs) && i < j < |logs|
    ensures logs[i].id != logs[j].id
  {
    NextEntry(world, logs, j);
    StoredIds(world.feeRecipient, logs[..j], logs[i].id);
    assert logs[..j][i] == logs[i];
  }

  /** Dropping a non-empty front of a well-formed log changes what it projects to. */
  lemma FrontMatters(world: World, logs: seq<Log>, n: nat)
    requires WellFormed(world, logs) && 0 < n <= |logs| && ProjectAll(world.feeRecipient, logs[n..]).Some?
    ensures ProjectAll(world.feeRecipient, logs) != ProjectAll(world.feeRecipient, logs[n..])
  {
    WellFormedProjects(world, logs);
    var id := logs[0].id;
    StoredIds(world.feeRecipient, logs, id);
    StoredIds(world.feeRecipient, logs[n..], id);
    if i :| 0 <= i < |logs[n..]| && logs[n..][i].id == id {
      assert logs[n + i].id == id;
      IdsAreDistinct(world, logs, 0, n + i);
    }
  }

  /** What the blocks from `start` on project to is the fold of the whole canonical log
      exactly when no log lies below `start`. */
  lemma FoldIff(world: World, chain: seq<Block>, start: nat, last: nat, p: Projection)
    requires start <= last < |chain| && WellFormed(world, Logs(chain[..last + 1]))
    requires ProjectAll(world.feeRecipient, Logs(chain[start..last + 1])) == Some(p)
    ensures ProjectAll(world.feeRecipient, Logs(chain[..last + 1])) == Some(p) <==> Sound(chain, start)
  {
    var front, rest := Logs(chain[..start]), Logs(chain[start..last + 1]);
    assert chain[..last + 1] == chain[..start] + chain[start..last + 1];
    LogsConcat(chain[..start], chain[start..last + 1]);
    QuietMeansNoLogs(chain, 0, start);
    assert chain[0..start] == chain[..start];
    if front != [] {
      assert (front + rest)[|front|..] == rest;
      FrontMatters(world, front + rest, |front|);
    } else {
      assert front + rest == rest;
    }
  }

  /** One more batch on top of the blocks from `start` on. */
  lemma BatchOnTop(db: Db, feeRecipient: Address, chain: seq<Block>, start: nat, next: nat, end: nat)
    requires start <= next <= end < |chain| && ProjectAll(feeRecipient, Logs(chain[start..next])) == Some(db.chain)
    requires IndexRange(db, feeRecipient, chain, next, end).Commit?
    ensures ProjectAll(feeRecipient, Logs(chain[start..end + 1]))
         == Some(IndexRange(db, feeRecipient, chain, next, end).db.chain)
  {
    assert chain[start..end + 1] == chain[start..next] + chain[next..end + 1];
    LogsConcat(chain[start..next], chain[next..end + 1]);
    IndexedOnTop(db, feeRecipient, Logs(chain[start..next]), Logs(chain[next..end + 1]));
  }

  /** A fresh or rewound indexer that reads the blocks from `start` on rebuilds the fold of
      the canonical log if and only if no log lies below `start`. A start remembered from a
      fork on which the contract was deployed later loses logs, or fails on an entry that
      needs one of them. */
  lemma ResumeIsFoldIff(world: World, s: State, start: nat, last: nat)
    requires Inv(world, s) && s.db.cursor.None? && start <= last < |s.chain|
    ensures var result := IndexRange(s.db, world.feeRecipient, s.chain, start, last);
            (result.Commit? && ProjectAll(world.feeRecipient, Logs(s.chain[..last + 1])) == Some(result.db.chain))
            <==> Sound(s.chain, start)
  {
    CanonicalFront(world, s, last);
    if Sound(s.chain, start) { BatchStep(world, s, start, last); }
    var result := IndexRange(s.db, world.feeRecipient, s.chain, start, last);
    if result.Commit? {
      assert s.chain[start..start] == [];
      BatchOnTop(s.db, world.feeRecipient, s.chain, start, start, last);
      FoldIff(world, s.chain, start, last, result.db.chain);
    }
  }

  lemma CanonicalFront(world: World, s: State, target: nat)
    requires Inv(world, s) && s.db.cursor.None? && target < |s.chain|
    ensures s.db.chain == EMPTY_PROJECTION && WellFormed(world, Logs(s.chain[..target + 1]))
  {
    assert s.chain == s.chain[..target + 1] + s.chain[target + 1..];
    LogsConcat(s.chain[..target + 1], s.chain[target + 1..]);
    WellFormedPrefix(world, Logs(s.chain), |Logs(s.chain[..target + 1])|);
  }

  /** Such a loss: the contract's first log lies one block before the remembered start. */
  lemma StaleStartLosesLogs(world: World, db: Db, log: Log, seal: nat)
    requires db.chain == EMPTY_PROJECTION && log.event.Deposited?
    ensures var chain := [Block(seal, [log]), Block(seal, [])];
            var result := IndexRange(db, world.feeRecipient, chain, 1, 1);
            result.Commit? && ProjectAll(world.feeRecipient, Logs(chain[..2])) != Some(result.db.chain)
  {
    var chain := [Block(seal, [log]), Block(seal, [])];
    LogsOfOne(Block(seal, [log]));
    LogsOfOne(Block(seal, []));
    assert chain[1..2] == [Block(seal, [])] && chain[..2] == [Block(seal, [log])] + [Block(seal, [])];
    LogsConcat([Block(seal, [log])], [Block(seal, [])]);
    assert Logs(chain[..2]) == [log] && Logs(chain[1..2]) == [];
    OneEntryIsWellFormed(world, log);
    assert chain[0].logs != [] && !Sound(chain, 1);
    assert ProjectAll(world.feeRecipient, []) == Some(db.chain);
    FoldIff(world, chain, 1, 1, db.chain);
  }

  lemma LogsOfOne(block: Block)
    ensures Logs([block]) == block.logs
  {
    assert [block][..0] == [];
  }

  lemma OneEntryIsWellFormed(world: World, log: Log)
    requires log.event.Deposited?
    ensures WellFormed(world, [log])
  {
    assert [log][..0] == [];
  }
}
