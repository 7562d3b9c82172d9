/** The translation of an OpenAI event stream into an Anthropic one, byte by byte as
    it is written. Framing follows sections 9.2.5 and 9.2.6 of the WHATWG HTML Standard,
    except that of several data lines in a frame only the last is kept. */
module Anthropic {
  import opened Basics
  import opened Texts

  datatype Choice = Choice(content: string, finished: bool)
  /** What a data line decodes to. */
  datatype Chunk = Chunk(failed: bool, choices: seq<Choice>, outputTokens: nat)
  type Decoder = string -> Option<Chunk>

  datatype Event =
    | MessageStart | ContentBlockStart | TextDelta(text: string) | ContentBlockStop
    | MessageDelta(outputTokens: nat) | MessageStop | Failure

  const PRELUDE: seq<Event> := [MessageStart, ContentBlockStart]
  const DATA: string := "data: "
  const DONE: string := "[DONE]"

  // -------------------------------------------------------------------------- frames

  /** The payload of a frame: its last data line. */
  function LastData(lines: seq<string>): (data: string) {
    if lines == [] then "" else
    var line := lines[|lines| - 1];
    if HasPrefix(line, DATA) then line[|DATA|..] else LastData(lines[..|lines| - 1])
  }

  function DataOf(frame: string): (data: string) { LastData(Split(frame, '\n')) }

  // ------------------------------------------------------------------------ one frame

  function ChunkEvents(chunk: Chunk): (events: seq<Event>) {
    if chunk.failed then [Failure] else
    if chunk.choices == [] then [] else
    (if chunk.choices[0].content != "" then [TextDelta(chunk.choices[0].content)] else [])
    + (if chunk.choices[0].finished then [ContentBlockStop, MessageDelta(chunk.outputTokens)] else [])
  }

  function FrameEvents(decode: Decoder, stopped: bool, frame: string): (events: seq<Event>) {
    var data := DataOf(frame);
    if data == "" then [] else
    if data == DONE then (if stopped then [] else [MessageStop]) else
    if decode(data).None? then [] else ChunkEvents(decode(data).value)
  }

  predicate Stops(decode: Decoder, frame: string) {
    var data := DataOf(frame);
    data == DONE || (data != "" && decode(data).Some? && decode(data).value.failed)
  }

  // ------------------------------------------------------------------ the whole stream

  /** What a frame writes, and whether the stream counts as stopped after it. */
  datatype Effect = Effect(events: seq<Event>, stopped: bool)
  type Reader = (bool, string) -> Effect

  function ReaderOf(decode: Decoder): (read: Reader) {
    (stopped, frame) => Effect(FrameEvents(decode, stopped, frame), stopped || Stops(decode, frame))
  }

  datatype Progress = Progress(events: seq<Event>, stopped: bool, rest: string)

  /** All complete frames of a text at once. */
  function Translate(read: Reader, stopped: bool, text: string): (p: Progress)
    decreases |text|
  {
    if !Broken(text) then Progress([], stopped, text) else
    var i := FirstBreak(text);
    var frame := read(stopped, text[..i]);
    var p := Translate(read, frame.stopped, text[i + 2..]);
    p.(events := frame.events + p.events)
  }

  /** What is left over has no complete frame. */
  lemma {:induction false} RestIsOpen(read: Reader, stopped: bool, text: string)
    ensures !Broken(Translate(read, stopped, text).rest)
    decreases |text|
  {
    if Broken(text) {
      var i := FirstBreak(text);
      var frame, later := read(stopped, text[..i]), text[i + 2..];
      RestIsOpen(read, frame.stopped, later);
      assert Translate(read, stopped, text).rest == Translate(read, frame.stopped, later).rest;
    }
  }

  function Then(first: Progress, second: Progress): (p: Progress) {
    Progress(first.events + second.events, second.stopped, second.rest)
  }

  lemma ThenAfterFrame(events: seq<Event>, first: Progress, second: Progress)
    ensures Then(first.(events := events + first.events), second)
         == (var p := Then(first, second); p.(events := events + p.events))
  {
    assert (events + first.events) + second.events == events + (first.events + second.events);
  }

  /** The first frame, then the rest. */
  function FrameFirst(read: Reader, stopped: bool, frame: string, rest: string): (p: Progress) {
    var effect := read(stopped, frame);
    var p := Translate(read, effect.stopped, rest);
    p.(events := effect.events + p.events)
  }

  lemma Unfolded(read: Reader, stopped: bool, text: string)
    requires Broken(text)
    ensures Translate(read, stopped, text) == FrameFirst(read, stopped, text[..FirstBreak(text)],
            text[FirstBreak(text) + 2..])
  {
  }

  lemma FirstFrame(read: Reader, stopped: bool, a: string, b: string)
    requires Broken(a)
    ensures Translate(read, stopped, a + b) == FrameFirst(read, stopped, a[..FirstBreak(a)], a[FirstBreak(a) + 2..] + b)
  {
    FirstBreakStays(a, b);
    Tail(a, b, FirstBreak(a));
    Unfolded(read, stopped, a + b);
  }

  /** Translating a text in two pieces is translating it whole. */
  lemma {:induction false} InPieces(read: Reader, stopped: bool, a: string, b: string)
    ensures var first := Translate(read, stopped, a);
            Translate(read, stopped, a + b) == Then(first, Translate(read, first.stopped, first.rest + b))
    decreases |a|
  {
    if Broken(a) {
      var i := FirstBreak(a);
      var frame := read(stopped, a[..i]);
      FirstFrame(read, stopped, a, b);
      InPieces(read, frame.stopped, a[i + 2..], b);
      var first := Translate(read, frame.stopped, a[i + 2..]);
      ThenAfterFrame(frame.events, first, Translate(read, first.stopped, first.rest + b));
    } else {
      var whole := Translate(read, stopped, a + b);
      assert [] + whole.events == whole.events;
    }
  }

  /** A writer's state carries all that matters of the bytes before. */
  lemma Continued(read: Reader, written: string, payload: string, prelude: seq<Event>)
    ensures var p := Translate(read, false, written);
            var q, whole := Translate(read, p.stopped, p.rest + payload), Translate(read, false, written + payload);
            && whole.stopped == q.stopped && whole.rest == q.rest
            && (prelude + p.events) + q.events == prelude + whole.events
  {
    InPieces(read, false, written, payload);
    var p := Translate(read, false, written);
    Regroup(prelude, p.events, Translate(read, p.stopped, p.rest + payload).events);
  }

  // ----------------------------------------------------------------------- the writer

  class ResponseWriter {
    const decode: Decoder
    var buffer: string
    var status: nat
    var started: bool
    var stopped: bool
    var events: seq<Event>   // written to the client, as events
    var body: string         // passed through to the client, on an error status
    ghost var written: string

    /** The events written so far are the translation of the bytes written so far. */
    ghost predicate Valid()
      reads this
    {
      && (started <==> 0 < status < 400)
      && (!started ==> events == [] && buffer == "" && !stopped)
      && (status == 0 ==> written == "")
      && (if started then
            var p := Translate(ReaderOf(decode), false, written);
            events == PRELUDE + p.events && stopped == p.stopped && buffer == p.rest && body == ""
          else body == written)
    }

    constructor (decode: Decoder)
      ensures Valid() && this.decode == decode && status == 0 && written == ""
    {
      this.decode := decode;
      buffer, status, started, stopped, events, body, written := "", 0, false, false, [], "", "";
    }

    method WriteHeader(status: nat)
      requires Valid() && 100 <= status
      modifies this
      ensures Valid() && written == old(written)
      ensures this.status == if old(this.status) == 0 then status else old(this.status)
      ensures events == old(events) + if old(this.status) == 0 && status < 400 then [MessageStart, ContentBlockStart]
              else []
    {
      if this.status != 0 { return; }
      this.status := status;
      if status >= 400 { return; }
      started := true;
      events := events + [MessageStart];
      events := events + [ContentBlockStart];
    }

    method Write(payload: string)
      requires Valid()
      modifies this
      ensures Valid() && written == old(written) + payload
      ensures status == if old(status) == 0 then 200 else old(status)
    {
      if status == 0 { WriteHeader(200); }
      if status >= 400 {
        body, written := body + payload, written + payload;
        return;
      }
      Append(payload);
    }

    method Append(payload: string)
      requires Valid() && started
      modifies this`buffer, this`stopped, this`events, this`written
      ensures Valid() && written == old(written) + payload
    {
      Continued(ReaderOf(decode), written, payload, PRELUDE);
      buffer, written := buffer + payload, written + payload;
      Process();
    }

    method Flush()
      requires Valid()
      modifies this
      ensures Valid() && written == old(written) && status == old(status) && events == old(events)
    {
      RestIsOpen(ReaderOf(decode), false, written);
      Process();
    }

    /** Take every complete frame out of the buffer. */
    method Process()
      modifies this`buffer, this`stopped, this`events
      ensures var p := Translate(ReaderOf(decode), old(stopped), old(buffer));
              buffer == p.rest && stopped == p.stopped && events == old(events) + p.events
    {
      ghost var read, whole := ReaderOf(decode), Translate(ReaderOf(decode), stopped, buffer);
      ghost var written := events;
      assert written + [] == written;
      while Broken(buffer)
        invariant var q := Translate(read, stopped, buffer);
                  whole.rest == q.rest && whole.stopped == q.stopped && written + whole.events == events + q.events
        decreases |buffer|
      {
        ProcessFrame();
      }
    }

    /** The first complete frame leaves the buffer. */
    method ProcessFrame()
      requires Broken(buffer)
      modifies this`buffer, this`stopped, this`events
      ensures |buffer| < old(|buffer|)
      ensures var read := ReaderOf(decode);
              var p, q := Translate(read, old(stopped), old(buffer)), Translate(read, stopped, buffer);
              p.rest == q.rest && p.stopped == q.stopped && old(events) + p.events == events + q.events
    {
      var i := FirstBreak(buffer);
      var frame := buffer[..i];
      ghost var effect := ReaderOf(decode)(stopped, frame);
      ghost var before, q := events, Translate(ReaderOf(decode), effect.stopped, buffer[i + 2..]);
      Regroup(before, effect.events, q.events);
      buffer := buffer[i + 2..];
      OnFrame(frame);
    }

    /** One complete frame. */
    method OnFrame(frame: string)
      modifies this`stopped, this`events
      ensures var effect := ReaderOf(decode)(old(stopped), frame);
              events == old(events) + effect.events && stopped == effect.stopped
    {
      var data := FrameData(frame);
      if data == "" { return; }
      if data == DONE {
        if !stopped {
          events := events + [MessageStop];
          stopped := true;
        }
        return;
      }
      var chunk := decode(data);
      if chunk.None? { return; }
      if chunk.value.failed {
        events, stopped := events + [Failure], true;
        return;
      }
      if chunk.value.choices == [] { return; }
      var choice := chunk.value.choices[0];
      if choice.content != "" { events := events + [TextDelta(choice.content)]; }
      if choice.finished { events := events + [ContentBlockStop] + [MessageDelta(chunk.value.outputTokens)]; }
    }

    method FrameData(frame: string) returns (data: string)
      ensures data == DataOf(frame)
    {
      var lines := Split(frame, '\n');
      data := "";
      for k := 0 to |lines|
        invariant data == LastData(lines[..k])
      {
        assert lines[..k + 1][..k] == lines[..k];
        if HasPrefix(lines[k], DATA) { data := lines[k][|DATA|..]; }
      }
      assert lines[..|lines|] == lines;
    }
  }

  // ------------------------------------------------------------------ what is promised

  /** However the bytes are cut into writes, two writers given the same bytes have
      written the same events. */
  lemma OnlyTheBytesMatter(v: ResponseWriter, w: ResponseWriter)
    requires v.Valid() && w.Valid() && v.decode == w.decode && v.written == w.written && v.started && w.started
    ensures v.events == w.events && v.stopped == w.stopped && v.buffer == w.buffer
  {
  }

  /** The complete frames of a text. */
  function Frames(text: string): (frames: seq<string>)
    decreases |text|
  {
    if !Broken(text) then [] else
    var i := FirstBreak(text);
    [text[..i]] + Frames(text[i + 2..])
  }

  /** The text a frame carries: the first choice's content. */
  function Content(decode: Decoder, frame: string): (s: string) {
    var data := DataOf(frame);
    if data == "" || data == DONE || decode(data).None? then "" else
    var chunk := decode(data).value;
    if chunk.failed || chunk.choices == [] then "" else chunk.choices[0].content
  }

  function Contents(decode: Decoder, frames: seq<string>): (s: string) {
    if frames == [] then "" else Content(decode, frames[0]) + Contents(decode, frames[1..])
  }

  function TextOf(events: seq<Event>): (s: string) {
    if events == [] then "" else (if events[0].TextDelta? then events[0].text else "") + TextOf(events[1..])
  }

  lemma {:induction false} TextJoins(a: seq<Event>, b: seq<Event>)
    ensures TextOf(a + b) == TextOf(a) + TextOf(b)
    decreases |a|
  {
    if a == [] {
      assert a + b == b;
    } else {
      TextJoins(a[1..], b);
      assert (a + b)[1..] == a[1..] + b;
    }
  }

  lemma FrameText(decode: Decoder, stopped: bool, frame: string)
    ensures TextOf(FrameEvents(decode, stopped, frame)) == Content(decode, frame)
  {
    var data := DataOf(frame);
    if data != "" && data != DONE && decode(data).Some? { ChunkText(decode(data).value); }
  }

  lemma ChunkText(chunk: Chunk)
    ensures TextOf(ChunkEvents(chunk)) == if chunk.failed || chunk.choices == [] then "" else chunk.choices[0].content
  {
    if chunk.failed {
      assert [Failure][1..] == [];
    } else if chunk.choices != [] {
      var choice := chunk.choices[0];
      var text := if choice.content != "" then [TextDelta(choice.content)] else [];
      var end := if choice.finished then [ContentBlockStop, MessageDelta(chunk.outputTokens)] else [];
      assert ChunkEvents(chunk) == text + end;
      TextJoins(text, end);
      DeltaText(choice.content);
      EndText(chunk.outputTokens);
      assert choice.content + "" == choice.content;
    }
  }

  lemma DeltaText(content: string)
    ensures TextOf([TextDelta(content)]) == content && TextOf([]) == ""
  {
    var events := [TextDelta(content)];
    assert events[1..] == [] && events[0].text + "" == content;
  }

  lemma EndText(tokens: nat)
    ensures TextOf([ContentBlockStop, MessageDelta(tokens)]) == ""
  {
    var events, last := [ContentBlockStop, MessageDelta(tokens)], [MessageDelta(tokens)];
    assert events[1..] == last && last[1..] == [];
    assert TextOf(last) == "" + TextOf([]) && TextOf(events) == "" + TextOf(last);
  }

  lemma FirstEvents(decode: Decoder, stopped: bool, text: string)
    requires Broken(text)
    ensures var i := FirstBreak(text);
            Translate(ReaderOf(decode), stopped, text).events
              == FrameEvents(decode, stopped, text[..i])
                 + Translate(ReaderOf(decode), stopped || Stops(decode, text[..i]), text[i + 2..]).events
  {
  }

  /** The text deltas, put together, are the contents of the frames, put together. */
  lemma {:induction false} NoTextLost(decode: Decoder, stopped: bool, text: string)
    ensures TextOf(Translate(ReaderOf(decode), stopped, text).events) == Contents(decode, Frames(text))
    decreases |text|
  {
    if Broken(text) {
      var i := FirstBreak(text);
      var frame, rest, next := text[..i], text[i + 2..], stopped || Stops(decode, text[..i]);
      NoTextLost(decode, next, rest);
      FirstEvents(decode, stopped, text);
      TextJoins(FrameEvents(decode, stopped, frame), Translate(ReaderOf(decode), next, rest).events);
      FrameText(decode, stopped, frame);
      assert Frames(text) == [frame] + Frames(rest) && Frames(text)[1..] == Frames(rest);
    }
  }

  predicate Final(e: Event) { e.MessageStop? || e.Failure? }

  /** No message_stop comes after a message_stop or an error. */
  ghost predicate StopsOnce(events: seq<Event>) {
    forall i, j :: 0 <= i < j < |events| && Final(events[i]) ==> !events[j].MessageStop?
  }

  ghost predicate NoStop(events: seq<Event>) { forall e <- events :: !e.MessageStop? }

  lemma FrameStops(decode: Decoder, stopped: bool, frame: string)
    ensures var events := FrameEvents(decode, stopped, frame);
            && StopsOnce(events) && (stopped ==> NoStop(events))
            && (!Stops(decode, frame) ==> forall e <- events :: !Final(e))
  {
  }

  lemma {:induction false} StopsAtMostOnce(decode: Decoder, stopped: bool, text: string)
    ensures var events := Translate(ReaderOf(decode), stopped, text).events;
            StopsOnce(events) && (stopped ==> NoStop(events))
    decreases |text|
  {
    if Broken(text) {
      var i := FirstBreak(text);
      var frame := text[..i];
      var next := stopped || Stops(decode, frame);
      FrameStops(decode, stopped, frame);
      StopsAtMostOnce(decode, next, text[i + 2..]);
      var head, tail := FrameEvents(decode, stopped, frame), Translate(ReaderOf(decode), next, text[i + 2..]).events;
      assert Translate(ReaderOf(decode), stopped, text).events == head + tail;
      StopsJoin(head, tail, stopped, next);
    }
  }

  lemma StopsJoin(head: seq<Event>, tail: seq<Event>, stopped: bool, next: bool)
    requires StopsOnce(head) && StopsOnce(tail) && (next ==> NoStop(tail)) && (stopped ==> NoStop(head) && next)
    requires !next ==> forall e <- head :: !Final(e)
    ensures StopsOnce(head + tail) && (stopped ==> NoStop(head + tail))
  {
  }

  /** So a client sees one message_stop at most, and none once it has seen an error. */
  lemma OneStopNoneAfterError(w: ResponseWriter, i: nat, j: nat)
    requires w.Valid() && i < j < |w.events| && (w.events[i].MessageStop? || w.events[i].Failure?)
    ensures !w.events[j].MessageStop?
  {
    StopsAtMostOnce(w.decode, false, w.written);
    var events := Translate(ReaderOf(w.decode), false, w.written).events;
    assert w.events == PRELUDE + events;
    assert events[i - 2] == w.events[i] && events[j - 2] == w.events[j];
  }

  /** All the text a client gets is the text of the frames written so far. */
  lemma ClientText(w: ResponseWriter)
    requires w.Valid() && w.started
    ensures TextOf(w.events) == Contents(w.decode, Frames(w.written))
  {
    var events := Translate(ReaderOf(w.decode), false, w.written).events;
    TextJoins(PRELUDE, events);
    assert PRELUDE[1..] == [ContentBlockStart] && [ContentBlockStart][1..] == [];
    NoTextLost(w.decode, false, w.written);
  }

  // ------------------------------------------------------------------ frame by frame

  /** The payload of a frame is its last line that begins with "data: ", without that. */
  lemma {:induction false} DataIsLastLine(lines: seq<string>)
    ensures if exists line <- lines :: HasPrefix(line, "data: ")
            then exists k :: 0 <= k < |lines| && lines[k] == "data: " + LastData(lines)
                             && forall j :: k < j < |lines| ==> !HasPrefix(lines[j], "data: ")
            else LastData(lines) == ""
    decreases |lines|
  {
    if lines != [] {
      var n := |lines| - 1;
      if HasPrefix(lines[n], DATA) {
        assert lines[n] == "data: " + LastData(lines);
      } else {
        DataIsLastLine(lines[..n]);
        assert lines == lines[..n] + [lines[n]];
      }
    }
  }

  /** The events of frames one after another. */
  function Answers(decode: Decoder, stopped: bool, frames: seq<string>): (events: seq<Event>)
    decreases |frames|
  {
    if frames == [] then [] else
    FrameEvents(decode, stopped, frames[0]) + Answers(decode, stopped || Stops(decode, frames[0]), frames[1..])
  }

  lemma {:induction false} TranslatesFrames(decode: Decoder, stopped: bool, text: string)
    ensures Translate(ReaderOf(decode), stopped, text).events == Answers(decode, stopped, Frames(text))
    decreases |text|
  {
    if Broken(text) {
      var i := FirstBreak(text);
      var frame, rest := text[..i], text[i + 2..];
      TranslatesFrames(decode, stopped || Stops(decode, frame), rest);
      FirstEvents(decode, stopped, text);
      assert Frames(text) == [frame] + Frames(rest) && Frames(text)[1..] == Frames(rest);
    }
  }

  /** Some frame before the n-th ended the stream. */
  predicate StoppedBefore(decode: Decoder, frames: seq<string>, n: nat)
    requires n <= |frames|
  {
    exists k :: 0 <= k < n && Stops(decode, frames[k])
  }

  lemma {:induction false} AnswersAt(decode: Decoder, stopped: bool, frames: seq<string>, n: nat)
      returns (before: seq<Event>, after: seq<Event>)
    requires n < |frames|
    ensures Answers(decode, stopped, frames)
         == before + FrameEvents(decode, stopped || StoppedBefore(decode, frames, n), frames[n]) + after
    decreases n
  {
    var first, rest, next := FrameEvents(decode, stopped, frames[0]), frames[1..], stopped || Stops(decode, frames[0]);
    if n == 0 {
      before, after := [], Answers(decode, next, rest);
      assert before + first == first;
    } else {
      var head;
      head, after := AnswersAt(decode, next, rest, n - 1);
      before := first + head;
      StoppedLater(decode, frames, n);
      Regroup(first, head, FrameEvents(decode, next || StoppedBefore(decode, rest, n - 1), frames[n]));
      Regroup(first, head + FrameEvents(decode, next || StoppedBefore(decode, rest, n - 1), frames[n]), after);
    }
  }

  lemma StoppedLater(decode: Decoder, frames: seq<string>, n: nat)
    requires 0 < n < |frames|
    ensures StoppedBefore(decode, frames, n) <==> Stops(decode, frames[0]) || StoppedBefore(decode, frames[1..], n - 1)
  {
    if k :| 0 <= k < n && Stops(decode, frames[k]) && k > 0 { assert frames[1..][k - 1] == frames[k]; }
    if k :| 0 <= k < n - 1 && Stops(decode, frames[1..][k]) { assert frames[k + 1] == frames[1..][k]; }
  }

  /** What the client has seen of the n-th frame: of the first end of the stream, unless an
      error came before, a message_stop; of an error, an error; of a finishing choice, after
      its text, the end of the block and then the usage; of one that goes on, its text. */
  lemma FrameIsAnswered(w: ResponseWriter, n: nat) returns (before: seq<Event>, answer: seq<Event>, after: seq<Event>)
    requires w.Valid() && w.started && n < |Frames(w.written)|
    ensures w.events == before + answer + after
    ensures var frames := Frames(w.written);
            var data := DataOf(frames[n]);
            && (data == "[DONE]" ==>
                  answer == if exists k :: 0 <= k < n && Stops(w.decode, frames[k]) then [] else [MessageStop])
            && (data == "" || (data != "[DONE]" && w.decode(data).None?) ==> answer == [])
            && (data != "" && data != "[DONE]" && w.decode(data).Some? ==>
                  var chunk := w.decode(data).value;
                  if chunk.failed then answer == [Failure]
                  else if chunk.choices == [] then answer == []
                  else
                    var text := if chunk.choices[0].content == "" then [] else [TextDelta(chunk.choices[0].content)];
                    answer == if chunk.choices[0].finished
                              then text + [ContentBlockStop, MessageDelta(chunk.outputTokens)] else text)
  {
    var frames := Frames(w.written);
    TranslatesFrames(w.decode, false, w.written);
    var head, tail := AnswersAt(w.decode, false, frames, n);
    answer := FrameEvents(w.decode, StoppedBefore(w.decode, frames, n), frames[n]);
    before, after := PRELUDE + head, tail;
    Regroup(PRELUDE, head, answer);
    Regroup(PRELUDE, head + answer, tail);
  }
}
