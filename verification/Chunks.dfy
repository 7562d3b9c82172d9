/** The order of output chunks: how the provider's daemon numbers them and how the
    relay checks the numbering. */
module Chunks {
  import opened Basics
  import opened Charging
  import opened Texts

  datatype Chunk = Chunk(request: string, sequence: uint64, data: string, done: bool, usage: Usage, error: string)

  const NO_USAGE := Usage(0, 0, 0)
  const BACKEND_FAILED: string := "backend_failed"
  const CANCELLED: string := "cancelled"

  predicate ValidChunk(c: Chunk) {
    && !Blank(c.request) && c.sequence != 0 && (c.data != "" || c.done)
    && (c.error != "" ==> c.done && c.data == "" && c.usage == NO_USAGE)
    && (c.error == "" || c.error == BACKEND_FAILED || c.error == CANCELLED)
  }

  function Next64(n: uint64): (m: uint64) { (n + 1) % TWO_64 }

  // ------------------------------------------------------------------------- the relay

  datatype Tracks = Tracks(last: map<string, uint64>, closed: set<string>)

  const NO_TRACKS := Tracks(map[], {})

  function Last(t: Tracks, r: string): (n: uint64) { if r in t.last then t.last[r] else 0 }

  predicate Accepts(t: Tracks, c: Chunk) {
    ValidChunk(c) && c.request !in t.closed && c.sequence == Next64(Last(t, c.request))
  }

  function Tracked(t: Tracks, c: Chunk): (after: Tracks) {
    Tracks(t.last[c.request := c.sequence], if c.done then t.closed + {c.request} else t.closed)
  }

  /** The tracker after chunks all of which it accepts; None once it refuses one. */
  function Replay(chunks: seq<Chunk>): (t: Option<Tracks>) {
    if chunks == [] then Some(NO_TRACKS) else
    var before, c := Replay(chunks[..|chunks| - 1]), chunks[|chunks| - 1];
    if before.None? || !Accepts(before.value, c) then None else Some(Tracked(before.value, c))
  }

  /** The chunks of one request, in order. */
  function Of(chunks: seq<Chunk>, r: string): (own: seq<Chunk>) {
    if chunks == [] then [] else
    Of(chunks[..|chunks| - 1], r) + (if chunks[|chunks| - 1].request == r then [chunks[|chunks| - 1]] else [])
  }

  /** Numbered 1..n, with none but the last final. */
  ghost predicate InOrder(own: seq<Chunk>) {
    && (forall i :: 0 <= i < |own| ==> own[i].sequence == i + 1)
    && (forall i :: 0 <= i < |own| - 1 ==> !own[i].done)
  }

  /** The tracker's two columns for one request. */
  predicate Summed(own: seq<Chunk>, last: uint64, closed: bool) {
    |own| == last && (closed <==> own != [] && own[|own| - 1].done)
  }

  lemma OneMoreInOrder(own: seq<Chunk>, last: uint64, c: Chunk)
    requires InOrder(own) && Summed(own, last, false) && c.sequence == Next64(last) && c.sequence != 0
    ensures InOrder(own + [c]) && Summed(own + [c], c.sequence, c.done)
  {
  }

  /** What the relay accepts of a request is numbered 1..n, and only the last is final. */
  lemma {:induction false} NumberedInOrder(chunks: seq<Chunk>, r: string)
    requires Replay(chunks).Some?
    ensures InOrder(Of(chunks, r))
            && Summed(Of(chunks, r), Last(Replay(chunks).value, r), r in Replay(chunks).value.closed)
    decreases |chunks|
  {
    if chunks != [] {
      var before, c := chunks[..|chunks| - 1], chunks[|chunks| - 1];
      NumberedInOrder(before, r);
      if c.request == r {
        OneMoreInOrder(Of(before, r), Last(Replay(before).value, r), c);
      } else {
        assert Of(chunks, r) == Of(before, r);
      }
    }
  }

  /** Every chunk accepted names its request and says something: output, or that the job is
      over; an error comes only at the end, without output or usage, and is one of the two. */
  lemma {:induction false} AcceptedAreSound(chunks: seq<Chunk>, i: nat)
    requires Replay(chunks).Some? && i < |chunks|
    ensures var c := chunks[i];
            && !Blank(c.request) && c.sequence > 0 && (c.data != "" || c.done)
            && (c.error == "" || c.error == "backend_failed" || c.error == "cancelled")
            && (c.error != "" ==> c.done && c.data == "" && c.usage == Usage(0, 0, 0))
    decreases |chunks|
  {
    if i < |chunks| - 1 { AcceptedAreSound(chunks[..|chunks| - 1], i); }
  }

  /** Any front part of an accepted sequence is accepted: what a broken link delivers. */
  lemma {:induction false} FrontAccepted(chunks: seq<Chunk>, n: nat)
    requires Replay(chunks).Some? && n <= |chunks|
    ensures Replay(chunks[..n]).Some?
    decreases |chunks|
  {
    if n < |chunks| {
      FrontAccepted(chunks[..|chunks| - 1], n);
      assert chunks[..|chunks| - 1][..n] == chunks[..n];
    } else {
      assert chunks[..n] == chunks;
    }
  }

  // ------------------------------------------------------------------------ lost chunks

  /** A chunk that the daemon has recorded, and whether it got through. */
  datatype Sent = Sent(chunk: Chunk, written: bool)

  function Recorded(sent: seq<Sent>): (chunks: seq<Chunk>) {
    seq(|sent|, i requires 0 <= i < |sent| => sent[i].chunk)
  }

  /** What the relay accepts, in order, of all that gets through to it. */
  function Heard(sent: seq<Sent>): (chunks: seq<Chunk>)
    ensures Replay(chunks).Some?
  {
    if sent == [] then [] else
    var before, last := Heard(sent[..|sent| - 1]), sent[|sent| - 1];
    if !last.written || !Accepts(Replay(before).value, last.chunk) then before else
    assert (before + [last.chunk])[..|before|] == before;
    before + [last.chunk]
  }

  predicate Lossy(sent: seq<Sent>, r: string) {
    exists i :: 0 <= i < |sent| && sent[i].chunk.request == r && !sent[i].written
  }

  /** The chunks of a request before the first of them that was lost. */
  function UpToLoss(sent: seq<Sent>, r: string): (own: seq<Chunk>) {
    if sent == [] then [] else
    UpToLoss(sent[..|sent| - 1], r)
    + (if sent[|sent| - 1].chunk.request == r && !Lossy(sent, r) then [sent[|sent| - 1].chunk] else [])
  }

  lemma RecordedMore(sent: seq<Sent>)
    requires sent != []
    ensures var n := |sent| - 1; Recorded(sent)[..n] == Recorded(sent[..n]) && Recorded(sent)[n] == sent[n].chunk
    ensures var n := |sent| - 1; Lossy(sent, sent[n].chunk.request) <==> Lossy(sent[..n], sent[n].chunk.request)
                                                                         || !sent[n].written
    ensures forall r :: r != sent[|sent| - 1].chunk.request ==> (Lossy(sent, r) <==> Lossy(sent[..|sent| - 1], r))
  {
    var n := |sent| - 1;
    assert Recorded(sent)[..n] == Recorded(sent[..n]);
    forall r | Lossy(sent[..n], r) ensures Lossy(sent, r) {
      var i :| 0 <= i < n && sent[..n][i].chunk.request == r && !sent[..n][i].written;
      assert sent[i] == sent[..n][i];
    }
    forall r | Lossy(sent, r) && (r != sent[n].chunk.request || sent[n].written) ensures Lossy(sent[..n], r) {
      var i :| 0 <= i < |sent| && sent[i].chunk.request == r && !sent[i].written;
      assert i < n && sent[i] == sent[..n][i];
    }
  }

  lemma {:induction false} Losses(sent: seq<Sent>, r: string)
    ensures if Lossy(sent, r) then |UpToLoss(sent, r)| < |Of(Recorded(sent), r)|
            else UpToLoss(sent, r) == Of(Recorded(sent), r)
    decreases |sent|
  {
    if sent != [] {
      RecordedMore(sent);
      Losses(sent[..|sent| - 1], r);
    }
  }

  lemma OfMore(chunks: seq<Chunk>, c: Chunk, r: string)
    ensures Of(chunks + [c], r) == Of(chunks, r) + (if c.request == r then [c] else [])
  {
    assert (chunks + [c])[..|chunks|] == chunks;
  }

  /** A lost chunk stops the rest: whatever is sent after it, the relay accepts of its
      request exactly the chunks before the first loss, and nothing ever again. */
  lemma {:induction false} HeardUpToTheFirstLoss(sent: seq<Sent>, r: string)
    requires Replay(Recorded(sent)).Some?
    ensures Of(Heard(sent), r) == UpToLoss(sent, r)
    decreases |sent|
  {
    if sent != [] {
      var before, last := sent[..|sent| - 1], sent[|sent| - 1];
      RecordedMore(sent);
      HeardUpToTheFirstLoss(before, r);
      OfMore(Heard(before), last.chunk, r);
      if last.chunk.request == r {
        Losses(before, r);
        NextIsRefusedIff(Heard(before), Recorded(before), last.chunk);
      }
    }
  }

  /** The next chunk of a longer account of the request is refused by a shorter one. */
  lemma NextIsRefusedIff(heard: seq<Chunk>, recorded: seq<Chunk>, c: Chunk)
    requires Replay(heard).Some? && Replay(recorded).Some? && Accepts(Replay(recorded).value, c)
    requires Of(heard, c.request) == Of(recorded, c.request) || |Of(heard, c.request)| < |Of(recorded, c.request)|
    ensures Accepts(Replay(heard).value, c) <==> Of(heard, c.request) == Of(recorded, c.request)
  {
    Numbers(heard, c.request);
    Numbers(recorded, c.request);
  }

  lemma Numbers(chunks: seq<Chunk>, r: string)
    requires Replay(chunks).Some?
    ensures Last(Replay(chunks).value, r) == |Of(chunks, r)|
    ensures r in Replay(chunks).value.closed <==> Of(chunks, r) != [] && Of(chunks, r)[|Of(chunks, r)| - 1].done
  {
    NumberedInOrder(chunks, r);
  }

  class ChunkTracker {
    var last: map<string, uint64>
    var closed: set<string>
    ghost var accepted: seq<Chunk>

    ghost predicate Valid()
      reads this
    {
      Replay(accepted) == Some(Tracks(last, closed))
    }

    constructor ()
      ensures Valid() && accepted == []
    {
      last, closed, accepted := map[], {}, [];
    }

    method Accept(c: Chunk) returns (ok: bool)
      requires Valid()
      modifies this
      ensures Valid() && ok == old(Accepts(Tracks(last, closed), c))
      ensures accepted == if ok then old(accepted) + [c] else old(accepted)
      ensures !ok ==> last == old(last) && closed == old(closed)
    {
      if !ValidChunk(c) { return false; }
      if c.request in closed || c.sequence != Next64(if c.request in last then last[c.request] else 0) { return false; }
      assert (accepted + [c])[..|accepted|] == accepted;
      last := last[c.request := c.sequence];
      if c.done { closed := closed + {c.request}; }
      accepted := accepted + [c];
      return true;
    }
  }

  // ------------------------------------------------------------------------ the daemon

  datatype Record = Record(sequence: uint64, terminal: bool, outputSeen: bool)
  datatype Cursor = Cursor(sequence: uint64, done: bool)

  predicate Records(records: map<string, Record>, c: Chunk) {
    && ValidChunk(c) && c.request in records && !records[c.request].terminal
    && c.sequence == Next64(records[c.request].sequence)
  }

  /** A request's record and the relay's track of it agree. */
  predicate InStep(records: map<string, Record>, t: Tracks, r: string) {
    if r in records then
      && Last(t, r) == records[r].sequence && (r in t.closed ==> records[r].terminal)
      && (records[r].outputSeen <==> records[r].sequence > 0)
    else Last(t, r) == 0 && r !in t.closed
  }

  ghost predicate AllInStep(records: map<string, Record>, t: Tracks) { forall r :: InStep(records, t, r) }

  function Saved(records: map<string, Record>, r: string): (cursor: Cursor) {
    if r in records then Cursor(records[r].sequence, records[r].terminal) else Cursor(0, false)
  }

  function Restored(cursor: Cursor): (record: Record) { Record(cursor.sequence, cursor.done, cursor.sequence > 0) }

  class RequestState {
    var requests: map<string, Record>
    ghost var sent: seq<Sent>   // everything recorded for the relay, by this process or before it

    /** Were nothing lost, the relay would accept it all and stand where the records say. */
    ghost predicate Valid()
      reads this
    {
      Replay(Recorded(sent)).Some? && AllInStep(requests, Replay(Recorded(sent)).value)
    }

    constructor ()
      ensures Valid() && requests == map[] && sent == []
    {
      requests, sent := map[], [];
    }

    method Accept(r: string) returns (ok: bool)
      requires Valid()
      modifies this`requests
      ensures Valid() && ok == (r !in old(requests))
      ensures requests == if ok then old(requests)[r := Record(0, false, false)] else old(requests)
    {
      if r in requests { return false; }
      ghost var t := Replay(Recorded(sent)).value;
      assert InStep(requests, t, r);
      OneInStep(requests, t, r, Record(0, false, false), t);
      requests := requests[r := Record(0, false, false)];
      return true;
    }

    /** sendChunk: recorded first, then written, if it was recorded. A write that fails
        leaves the record. */
    method SendChunk(c: Chunk, written: bool) returns (ok: bool)
      requires Valid()
      modifies this
      ensures Valid() && ok == (Records(old(requests), c) && written)
      ensures sent == if Records(old(requests), c) then old(sent) + [Sent(c, written)] else old(sent)
      ensures requests == if Records(old(requests), c)
                          then old(requests)[c.request := Record(c.sequence, c.done, true)] else old(requests)
    {
      if !ValidChunk(c) || c.request !in requests || requests[c.request].terminal { return false; }
      if c.sequence != Next64(requests[c.request].sequence) { return false; }
      AcceptedToo(requests, Replay(Recorded(sent)).value, c);
      assert Recorded(sent + [Sent(c, written)]) == Recorded(sent) + [c];
      assert (Recorded(sent) + [c])[..|sent|] == Recorded(sent);
      requests := requests[c.request := Record(c.sequence, c.done, true)];
      sent := sent + [Sent(c, written)];
      return written;
    }

    method Cancel(r: string) returns (ok: bool)
      requires Valid()
      modifies this`requests
      ensures Valid() && ok == (r in old(requests) && !old(requests)[r].terminal)
      ensures requests == if ok then old(requests)[r := old(requests)[r].(terminal := true)] else old(requests)
    {
      if r !in requests || requests[r].terminal { return false; }
      ghost var t := Replay(Recorded(sent)).value;
      assert InStep(requests, t, r);
      OneInStep(requests, t, r, requests[r].(terminal := true), t);
      requests := requests[r := requests[r].(terminal := true)];
      return true;
    }

    method SavedCursor(r: string) returns (cursor: Cursor)
      ensures cursor == Saved(requests, r)
    {
      if r !in requests { return Cursor(0, false); }
      return Cursor(requests[r].sequence, requests[r].terminal);
    }

    /** A cursor saved while its request was known, put back: nothing has changed. */
    method Restore(r: string, cursor: Cursor)
      modifies this`requests
      ensures requests == old(requests)[r := Restored(cursor)]
      ensures old(Valid()) && r in old(requests) && cursor == Saved(old(requests), r) ==>
                Valid() && requests == old(requests)
    {
      if Replay(Recorded(sent)).Some? && InStep(requests, Replay(Recorded(sent)).value, r) && r in requests {
        RestoreIsIdentity(requests, Replay(Recorded(sent)).value, r);
      }
      requests := requests[r := Restored(cursor)];
    }
  }

  lemma OneInStep(records: map<string, Record>, t: Tracks, r: string, record: Record, t': Tracks)
    requires AllInStep(records, t) && InStep(records[r := record], t', r)
    requires forall other :: other != r ==>
               Last(t', other) == Last(t, other) && (other in t'.closed <==> other in t.closed)
    ensures AllInStep(records[r := record], t')
  {
    var records' := records[r := record];
    forall other ensures InStep(records', t', other) {
      assert InStep(records, t, other);
    }
  }

  /** What the daemon records, the relay accepts, and both move on alike. */
  lemma AcceptedToo(records: map<string, Record>, t: Tracks, c: Chunk)
    requires Records(records, c) && AllInStep(records, t)
    ensures Accepts(t, c) && AllInStep(records[c.request := Record(c.sequence, c.done, true)], Tracked(t, c))
  {
    assert InStep(records, t, c.request);
    OneInStep(records, t, c.request, Record(c.sequence, c.done, true), Tracked(t, c));
  }

  lemma RestoreIsIdentity(records: map<string, Record>, t: Tracks, r: string)
    requires InStep(records, t, r) && r in records
    ensures records[r := Restored(Saved(records, r))] == records
  {
  }

  /** A restored request answers every chunk as the original does exactly when the
      original was known: the cursor of an unknown one restores to an accepted one. */
  lemma RestoredBehavesAlikeIff(records: map<string, Record>, t: Tracks, r: string)
    requires InStep(records, t, r) && !Blank(r)
    ensures (forall c: Chunk :: c.request == r ==>
              (Records(records[r := Restored(Saved(records, r))], c) <==> Records(records, c)))
            <==> r in records
  {
    if r in records {
      RestoreIsIdentity(records, t, r);
    } else {
      var c := Chunk(r, 1, "x", false, NO_USAGE, "");
      assert Records(records[r := Restored(Saved(records, r))], c) && !Records(records, c);
    }
  }

  // --------------------------------------------------------------------------- one job

  function Pieces(r: string, contents: seq<string>): (chunks: seq<Chunk>)
    requires |contents| < TWO_64 - 1
  {
    seq(|contents|, i requires 0 <= i < |contents| => Chunk(r, i + 1, contents[i], false, NO_USAGE, ""))
  }

  function Ending(r: string, n: nat, usage: Option<Usage>): (c: Chunk)
    requires n < TWO_64 - 1
  {
    match usage
    case Some(u) => Chunk(r, n + 1, "", true, u, "")
    case None => Chunk(r, n + 1, "", true, NO_USAGE, BACKEND_FAILED)
  }

  /** The pieces carry the output in order; the ending carries the usage, or the failure. */
  lemma PiecesAndEnding(r: string, contents: seq<string>, usage: Option<Usage>)
    requires |contents| < TWO_64 - 1
    ensures var pieces := Pieces(r, contents);
            && |pieces| == |contents|
            && forall i :: 0 <= i < |pieces| ==>
                 pieces[i].request == r && pieces[i].sequence == i + 1 && pieces[i].data == contents[i]
                   && !pieces[i].done
    ensures var ending := Ending(r, |contents|, usage);
            && ending.request == r && ending.sequence == |contents| + 1 && ending.data == "" && ending.done
            && (if usage.Some? then ending.usage == usage.value && ending.error == ""
                else ending.usage == NO_USAGE && ending.error == "backend_failed")
  {
  }

  /** Piece k goes through: it is not empty, nothing has cancelled the job before it, and
      its write succeeds. */
  predicate Passes(contents: seq<string>, writes: nat -> bool, cancelAt: Option<nat>, k: nat)
    requires k < |contents|
  {
    contents[k] != "" && writes(k + 1) && !CancelledBy(cancelAt, k)
  }

  predicate CancelledBy(cancelAt: Option<nat>, k: nat) { cancelAt.Some? && cancelAt.value <= k }

  /** How many of the first n pieces go through before one does not. */
  function Reach(contents: seq<string>, writes: nat -> bool, cancelAt: Option<nat>, n: nat): (m: nat)
    requires n <= |contents|
    ensures m <= n
  {
    if n == 0 then 0 else
    var m := Reach(contents, writes, cancelAt, n - 1);
    if m == n - 1 && Passes(contents, writes, cancelAt, n - 1) then n else m
  }

  lemma {:induction false} ReachStays(contents: seq<string>, writes: nat -> bool, cancelAt: Option<nat>, i: nat, n: nat)
    requires i <= n <= |contents| && Reach(contents, writes, cancelAt, i) < i
    ensures Reach(contents, writes, cancelAt, n) == Reach(contents, writes, cancelAt, i)
    decreases n
  {
    if i < n { ReachStays(contents, writes, cancelAt, i, n - 1); }
  }

  /** After the first i pieces: `m` of them have gone through, and if that is not all,
      nothing more will. */
  ghost predicate Emitting(records: map<string, Record>, sent: seq<Sent>, r: string, contents: seq<string>, i: nat,
                           m: nat, cancelled: bool)
    requires m <= i <= |contents| < TWO_64 - 1
  {
    && r in records && (records[r].terminal <==> cancelled) && UpToLoss(sent, r) == Pieces(r, contents[..m])
    && (if m == i then records[r].sequence == i && !Lossy(sent, r)
        else records[r].sequence < i || Lossy(sent, r) || cancelled)
  }

  lemma SentMore(sent: seq<Sent>, c: Chunk, written: bool)
    ensures var more := sent + [Sent(c, written)];
            && (Lossy(more, c.request) <==> Lossy(sent, c.request) || !written)
            && UpToLoss(more, c.request) == UpToLoss(sent, c.request) + if Lossy(sent, c.request) || !written then []
              else [c]
  {
    var more := sent + [Sent(c, written)];
    assert more[..|sent|] == sent;
    RecordedMore(more);
  }

  lemma EmittedOne(records: map<string, Record>, sent: seq<Sent>, r: string, contents: seq<string>,
                   writes: nat -> bool, cancelAt: Option<nat>, i: nat)
    requires i < |contents| < TWO_64 - 1 && !Blank(r)
    requires Emitting(records, sent, r, contents, i, Reach(contents, writes, cancelAt, i), CancelledBy(cancelAt, i))
    ensures var c, m := Chunk(r, i + 1, contents[i], false, NO_USAGE, ""), Reach(contents, writes, cancelAt, i + 1);
            if Records(records, c)
            then Emitting(records[r := Record(c.sequence, false, true)], sent + [Sent(c, writes(i + 1))], r, contents,
              i + 1, m,
                          CancelledBy(cancelAt, i))
            else Emitting(records, sent, r, contents, i + 1, m, CancelledBy(cancelAt, i))
  {
    PiecesMore(r, contents, i);
    SentMore(sent, Chunk(r, i + 1, contents[i], false, NO_USAGE, ""), writes(i + 1));
  }

  /** The ending goes through after all the pieces, or not at all. */
  lemma EmittedLast(records: map<string, Record>, sent: seq<Sent>, r: string, contents: seq<string>, i: nat, m: nat,
                    cancelled: bool, last: Chunk, written: bool)
    requires m <= i <= |contents| < TWO_64 - 1 && !Blank(r) && Emitting(records, sent, r, contents, i, m, cancelled)
    requires last.request == r && last.sequence == i + 1 && ValidChunk(last)
    ensures UpToLoss(if Records(records, last) then sent + [Sent(last, written)] else sent, r)
         == Pieces(r, contents[..m]) + if m == i && !cancelled && written then [last] else []
  {
    SentMore(sent, last, written);
  }

  /** The backend's pieces, each numbered before it is sent. */
  method EmitPieces(state: RequestState, r: string, contents: seq<string>, writes: nat -> bool, goesOn: bool,
                    cancelAt: Option<nat>)
    returns (sequence: nat, failed: bool)
    requires state.Valid() && !Blank(r) && |contents| < TWO_64 - 1
    requires Emitting(state.requests, state.sent, r, contents, 0, 0, false)
    modifies state
    ensures state.Valid() && sequence <= |contents| && (!failed ==> sequence == |contents|)
    ensures failed <==> Reach(contents, writes, cancelAt, sequence) < sequence
    ensures Emitting(state.requests, state.sent, r, contents, sequence, Reach(contents, writes, cancelAt, sequence),
                     cancelAt.Some? && cancelAt.value < sequence)
  {
    sequence, failed := 0, false;
    while sequence < |contents| && (!failed || goesOn)
      invariant state.Valid() && sequence <= |contents|
      invariant failed <==> Reach(contents, writes, cancelAt, sequence) < sequence
      invariant Emitting(state.requests, state.sent, r, contents, sequence, Reach(contents, writes, cancelAt, sequence),
                         cancelAt.Some? && cancelAt.value < sequence)
    {
      if cancelAt == Some(sequence) { var _ := state.Cancel(r); }
      var ok := EmitPiece(state, r, contents, writes, cancelAt, sequence);
      sequence := sequence + 1;
      failed := failed || !ok;
    }
  }

  method EmitPiece(state: RequestState, r: string, contents: seq<string>, writes: nat -> bool,
                   ghost cancelAt: Option<nat>, i: nat)
    returns (ok: bool)
    requires state.Valid() && !Blank(r) && i < |contents| < TWO_64 - 1
    requires Emitting(state.requests, state.sent, r, contents, i, Reach(contents, writes, cancelAt, i),
             CancelledBy(cancelAt, i))
    modifies state
    ensures state.Valid()
    ensures Emitting(state.requests, state.sent, r, contents, i + 1, Reach(contents, writes, cancelAt, i + 1),
            CancelledBy(cancelAt, i))
    ensures Reach(contents, writes, cancelAt, i) == i ==> (ok <==> Reach(contents, writes, cancelAt, i + 1) == i + 1)
  {
    EmittedOne(state.requests, state.sent, r, contents, writes, cancelAt, i);
    ok := state.SendChunk(Chunk(r, i + 1, contents[i], false, NO_USAGE, ""), writes(i + 1));
  }

  /** The goroutine of an accepted offer. The backend emits its pieces; `usage` is None
      when it fails in the end. It may go on, or not, after a piece was refused. The
      relay's cancellation may arrive before some piece, or before the ending; the write
      of chunk k may fail.
      The relay hears the pieces up to the first that is empty, cancelled or lost, and it
      hears how the job ended exactly when there is none such and the ending, too, is
      neither cancelled nor lost. */
  method RunJob(state: RequestState, r: string, contents: seq<string>, usage: Option<Usage>, writes: nat -> bool,
                goesOn: bool, cancelAt: Option<nat>)
    requires state.Valid() && !Blank(r) && r in state.requests && state.requests[r] == Record(0, false, false)
    requires |contents| < TWO_64 - 1
    modifies state
    ensures state.Valid()
    ensures var m := Reach(contents, writes, cancelAt, |contents|);
            Of(Heard(state.sent), r)
            == Pieces(r, contents[..m])
               + if m == |contents| && cancelAt.None? && writes(m + 1) then [Ending(r, m, usage)] else []
  {
    NothingYet(state.requests, state.sent, r);
    var sequence, failed := EmitPieces(state, r, contents, writes, goesOn, cancelAt);
    ghost var m := AllThrough(contents, writes, cancelAt, sequence, failed);
    CancelLate(state, r, contents, sequence, m, cancelAt);
    EmitEnding(state, r, contents, sequence, m, cancelAt.Some?, if failed then None else usage, writes(sequence + 1));
    HeardUpToTheFirstLoss(state.sent, r);
  }

  /** A cancellation that arrives after the pieces. */
  method CancelLate(state: RequestState, r: string, ghost contents: seq<string>, i: nat, ghost m: nat,
                    cancelAt: Option<nat>)
    requires state.Valid() && m <= i <= |contents| < TWO_64 - 1
    requires Emitting(state.requests, state.sent, r, contents, i, m, cancelAt.Some? && cancelAt.value < i)
    modifies state
    ensures state.Valid() && Emitting(state.requests, state.sent, r, contents, i, m, cancelAt.Some?)
  {
    if cancelAt.Some? && i <= cancelAt.value { var _ := state.Cancel(r); }
  }

  /** What went through when the pieces are over. */
  lemma AllThrough(contents: seq<string>, writes: nat -> bool, cancelAt: Option<nat>, i: nat, failed: bool)
                   returns (m: nat)
    requires i <= |contents| && (failed <==> Reach(contents, writes, cancelAt, i) < i) && (!failed ==> i == |contents|)
    ensures m == Reach(contents, writes, cancelAt, i) == Reach(contents, writes, cancelAt, |contents|)
    ensures m == i <==> m == |contents|
    ensures m == i ==> !failed
  {
    m := Reach(contents, writes, cancelAt, i);
    if failed { ReachStays(contents, writes, cancelAt, i, |contents|); }
  }

  method EmitEnding(state: RequestState, r: string, ghost contents: seq<string>, i: nat, ghost m: nat,
                    ghost cancelled: bool, usage: Option<Usage>, written: bool)
    requires state.Valid() && !Blank(r) && m <= i <= |contents| < TWO_64 - 1
    requires Emitting(state.requests, state.sent, r, contents, i, m, cancelled)
    modifies state
    ensures state.Valid()
    ensures UpToLoss(state.sent, r)
         == Pieces(r, contents[..m]) + if m == i && !cancelled && written then [Ending(r, i, usage)] else []
  {
    var last := Chunk(r, i + 1, "", true, NO_USAGE, BACKEND_FAILED);
    if usage.Some? { last := Chunk(r, i + 1, "", true, usage.value, ""); }
    EmittedLast(state.requests, state.sent, r, contents, i, m, cancelled, last, written);
    var _ := state.SendChunk(last, written);
  }

  /** Nothing has been recorded of a request just accepted. */
  lemma NothingYet(records: map<string, Record>, sent: seq<Sent>, r: string)
    requires Replay(Recorded(sent)).Some? && AllInStep(records, Replay(Recorded(sent)).value)
    requires r in records && records[r].sequence == 0
    ensures UpToLoss(sent, r) == [] && !Lossy(sent, r)
  {
    assert InStep(records, Replay(Recorded(sent)).value, r);
    NumberedInOrder(Recorded(sent), r);
    Losses(sent, r);
  }

  lemma PiecesMore(r: string, contents: seq<string>, i: nat)
    requires i < |contents| < TWO_64 - 1
    ensures contents[..i + 1] == contents[..i] + [contents[i]]
    ensures Pieces(r, contents[..i + 1]) == Pieces(r, contents[..i]) + [Chunk(r, i + 1, contents[i], false, NO_USAGE,
            "")]
  {
  }
}
