/** Server-sent events, decoded incrementally from network chunks. */
module Sse {
  import opened Chars
  import opened Options
  import opened Utf8
  import opened Seqs

  datatype SseEvent = SseEvent(event: Option<string>, data: string)

  /** The event being collected. */
  datatype Pending = Pending(event: Option<string>, data: seq<string>)

  const NOTHING := Pending(None, [])

  // ---------------------------------------------------------------------------
  // Lines
  // ---------------------------------------------------------------------------

  function JoinLines(parts: seq<string>): string {
    if parts == [] then "" else if |parts| == 1 then parts[0] else parts[0] + "\n" + JoinLines(parts[1..])
  }

  function Flush(p: Pending): (Pending, seq<SseEvent>) {
    if p.data == [] && p.event.None? then (p, [])
    else
      var data := JoinLines(p.data);
      (NOTHING, if data != "" || p.event.Some? then [SseEvent(p.event, data)] else [])
  }

  function IndexOf(s: string, c: char): (i: nat)
    ensures i <= |s| && (i < |s| ==> s[i] == c) && forall j :: 0 <= j < i ==> s[j] != c
  {
    if s == "" || s[0] == c then 0 else 1 + IndexOf(s[1..], c)
  }

  /** The field name and value of a line that is neither empty nor a comment. */
  function SplitField(line: string): (string, string) {
    var i := IndexOf(line, ':');
    if i == |line| then (line, "")
    else if i + 1 < |line| && line[i + 1] == ' ' then (line[..i], line[i + 2..])
    else (line[..i], line[i + 1..])
  }

  function Line(p: Pending, line: string): (Pending, seq<SseEvent>) {
    if line == "" then Flush(p)
    else if line[0] == ':' then (p, [])
    else
      var (field, value) := SplitField(line);
      if field == "event" then (p.(event := Some(value)), [])
      else if field == "data" then (p.(data := p.data + [value]), [])
      else (p, [])
  }

  function StripCarriageReturn(line: string): string {
    if line != "" && line[|line| - 1] == '\r' then line[..|line| - 1] else line
  }

  /** Reads all complete lines of the buffer: what is left, and the events they ended. */
  function Drain(buffer: string, p: Pending): (string, Pending, seq<SseEvent>)
    decreases |buffer|
  {
    var i := IndexOf(buffer, '\n');
    if i == |buffer| then (buffer, p, [])
    else
      var (p1, now) := Line(p, StripCarriageReturn(buffer[..i]));
      var (rest, p2, later) := Drain(buffer[i + 1..], p1);
      (rest, p2, now + later)
  }

  lemma IndexOfPrefix(a: string, b: string, c: char)
    requires IndexOf(a, c) < |a|
    ensures IndexOf(a + b, c) == IndexOf(a, c)
  {
    var i, j := IndexOf(a, c), IndexOf(a + b, c);
    assert (a + b)[i] == a[i];
    assert j < |a + b|;
    if j < i {
      assert (a + b)[j] == a[j];
    }
  }

  /** The first line of a buffer read, the rest drained afterwards. */
  lemma DrainStep(buffer: string, p: Pending)
    requires IndexOf(buffer, '\n') < |buffer|
    ensures var i := IndexOf(buffer, '\n');
      var (p1, now) := Line(p, StripCarriageReturn(buffer[..i]));
      var (rest, p2, later) := Drain(buffer[i + 1..], p1);
      Drain(buffer, p) == (rest, p2, now + later)
  {
  }

  lemma DrainNothing(buffer: string, p: Pending)
    requires IndexOf(buffer, '\n') >= |buffer|
    ensures Drain(buffer, p) == (buffer, p, [])
  {
  }

  /** Draining `a` and then the rest with `b` behind it is draining both at once. */
  ghost predicate DrainsApart(a: string, b: string, p: Pending) {
    var (rest, p1, now) := Drain(a, p);
    var (left, p2, later) := Drain(rest + b, p1);
    Drain(a + b, p) == (left, p2, now + later)
  }

  lemma DrainOneMore(a: string, b: string, p: Pending)
    requires IndexOf(a, '\n') < |a|
    requires var i := IndexOf(a, '\n');
      DrainsApart(a[i + 1..], b, Line(p, StripCarriageReturn(a[..i])).0)
    ensures DrainsApart(a, b, p)
  {
    hide Drain, Line, StripCarriageReturn, IndexOf;
    var i := IndexOf(a, '\n');
    IndexOfPrefix(a, b, '\n');
    DrainStep(a, p);
    DrainStep(a + b, p);
    var (p1, now) := Line(p, StripCarriageReturn(a[..i]));
    assert (a + b)[..i] == a[..i] && (a + b)[i + 1..] == a[i + 1..] + b;
    var (rest, p2, mid) := Drain(a[i + 1..], p1);
    var (left, p3, later) := Drain(rest + b, p2);
    ConcatAssociates(now, mid, later);
  }

  /** Lines that are already complete can be read before more text arrives. */
  lemma {:induction false} DrainConcat(a: string, b: string, p: Pending)
    ensures DrainsApart(a, b, p)
    decreases |a|
  {
    hide Drain, Line, StripCarriageReturn, IndexOf;
    var i := IndexOf(a, '\n');
    if i < |a| {
      DrainConcat(a[i + 1..], b, Line(p, StripCarriageReturn(a[..i])).0);
      DrainOneMore(a, b, p);
    } else {
      DrainNothing(a, p);
      ConcatNothing(Drain(a + b, p).2);
    }
  }

  // ---------------------------------------------------------------------------
  // The parser as a state machine
  // ---------------------------------------------------------------------------

  datatype State = State(incomplete: seq<byte>, buffer: string, pending: Pending)

  const START := State([], "", NOTHING)

  /** A chunk of bytes. */
  function Feed(s: State, chunk: seq<byte>): (State, seq<SseEvent>) {
    if chunk == [] then (s, [])
    else
      var (text, tail) := Decode(s.incomplete + chunk);
      var (rest, p, events) := Drain(s.buffer + text, s.pending);
      (State(tail, rest, p), events)
  }

  /** The end of the stream. */
  function EndOfStream(s: State): (State, seq<SseEvent>) {
    var buffer := if s.incomplete != [] then s.buffer + [REPLACEMENT] else s.buffer;
    var (p1, now) := if buffer != "" then Line(s.pending, StripCarriageReturn(buffer)) else (s.pending, []);
    var (p2, later) := Flush(p1);
    (State([], "", p2), now + later)
  }

  /** Chunk independence: two chunks or their concatenation, same events and same state. */
  lemma ChunkIndependence(s: State, a: seq<byte>, b: seq<byte>)
    ensures var (s1, first) := Feed(s, a);
      var (s2, second) := Feed(s1, b);
      Feed(s, a + b) == (s2, first + second)
  {
    if a == [] {
      assert a + b == b;
      assert [] + Feed(s, b).1 == Feed(s, b).1;
    } else if b == [] {
      assert a + b == a;
      assert Feed(s, a).1 + [] == Feed(s, a).1;
    } else {
      TwoChunks(s, a, b);
    }
  }

  lemma TwoChunks(s: State, a: seq<byte>, b: seq<byte>)
    requires a != [] && b != []
    ensures var (s1, first) := Feed(s, a);
      var (s2, second) := Feed(s1, b);
      Feed(s, a + b) == (s2, first + second)
  {
    hide Drain, Decode;
    var (text, tail) := Decode(s.incomplete + a);
    var more := Decode(tail + b).0;
    assert s.incomplete + (a + b) == (s.incomplete + a) + b;
    DecodeConcat(s.incomplete + a, b);
    assert s.buffer + (text + more) == (s.buffer + text) + more;
    DrainConcat(s.buffer + text, more, s.pending);
  }

  function FeedChunks(s: State, chunks: seq<seq<byte>>): (State, seq<SseEvent>)
    decreases |chunks|
  {
    if chunks == [] then (s, [])
    else
      var (s1, now) := Feed(s, chunks[0]);
      var (s2, later) := FeedChunks(s1, chunks[1..]);
      (s2, now + later)
  }

  function Flatten(chunks: seq<seq<byte>>): seq<byte> {
    if chunks == [] then [] else chunks[0] + Flatten(chunks[1..])
  }

  lemma {:induction false} AnyChunking(s: State, chunks: seq<seq<byte>>)
    ensures FeedChunks(s, chunks) == Feed(s, Flatten(chunks))
    decreases |chunks|
  {
    if chunks != [] {
      AnyChunking(Feed(s, chunks[0]).0, chunks[1..]);
      ChunkIndependence(s, chunks[0], Flatten(chunks[1..]));
    }
  }

  // ---------------------------------------------------------------------------
  // One pass over the whole stream
  // ---------------------------------------------------------------------------

  /** The whole text of a stream, a truncated last sequence replaced. */
  function WholeText(bytes: seq<byte>): string {
    var (text, tail) := Decode(bytes);
    if tail == [] then text else text + [REPLACEMENT]
  }

  /** The lines of a text: ended by a line feed, except a last one that is not empty. */
  function SplitLines(text: string): seq<string>
    decreases |text|
  {
    var i := IndexOf(text, '\n');
    if i == |text| then (if text == "" then [] else [StripCarriageReturn(text)])
    else [StripCarriageReturn(text[..i])] + SplitLines(text[i + 1..])
  }

  function Lines(p: Pending, lines: seq<string>): (Pending, seq<SseEvent>)
    decreases |lines|
  {
    if lines == [] then (p, [])
    else
      var (p1, now) := Line(p, lines[0]);
      var (p2, later) := Lines(p1, lines[1..]);
      (p2, now + later)
  }

  /** All events of a finished stream, read in one go. */
  function WholeStream(bytes: seq<byte>): seq<SseEvent> {
    var (p, events) := Lines(NOTHING, SplitLines(WholeText(bytes)));
    events + Flush(p).1
  }

  lemma SplitStep(text: string)
    requires IndexOf(text, '\n') < |text|
    ensures var i := IndexOf(text, '\n');
      && SplitLines(text) != []
      && SplitLines(text)[0] == StripCarriageReturn(text[..i])
      && SplitLines(text)[1..] == SplitLines(text[i + 1..])
  {
    hide IndexOf, StripCarriageReturn;
    var i := IndexOf(text, '\n');
    var line, rest := StripCarriageReturn(text[..i]), SplitLines(text[i + 1..]);
    assert SplitLines(text) == [line] + rest;
    HeadAndTail(line, rest);
  }

  lemma HeadAndTail(line: string, rest: seq<string>)
    ensures ([line] + rest)[0] == line && ([line] + rest)[1..] == rest
  {
  }

  /** Draining and then treating the rest as a last line reads the lines of the text. */
  lemma {:induction false} DrainThenLast(text: string, p: Pending)
    ensures var (rest, p1, now) := Drain(text, p);
      var (p2, later) := if rest != "" then Line(p1, StripCarriageReturn(rest)) else (p1, []);
      Lines(p, SplitLines(text)) == (p2, now + later)
    decreases |text|
  {
    var i := IndexOf(text, '\n');
    if i < |text| {
      hide Drain, Line, StripCarriageReturn, IndexOf, SplitLines;
      var line := StripCarriageReturn(text[..i]);
      var (p1, now) := Line(p, line);
      DrainStep(text, p);
      SplitStep(text);
      DrainThenLast(text[i + 1..], p1);
      var (rest, p2, mid) := Drain(text[i + 1..], p1);
      var (p3, later) := if rest != "" then Line(p2, StripCarriageReturn(rest)) else (p2, []);
      ConcatAssociates(now, mid, later);
    } else if text != "" {
      var (p1, now) := Line(p, StripCarriageReturn(text));
      assert SplitLines(text) == [StripCarriageReturn(text)];
      assert [StripCarriageReturn(text)][1..] == [];
      ConcatNothing(now);
    } else {
      ConcatNothing<SseEvent>([]);
    }
  }

  lemma {:induction false} DrainLeavesNoNewline(buffer: string, p: Pending)
    ensures IndexOf(Drain(buffer, p).0, '\n') == |Drain(buffer, p).0|
    decreases |buffer|
  {
    var i := IndexOf(buffer, '\n');
    if i < |buffer| {
      DrainLeavesNoNewline(buffer[i + 1..], Line(p, StripCarriageReturn(buffer[..i])).0);
    }
  }

  lemma NoNewlineAppend(a: string, c: char)
    requires IndexOf(a, '\n') == |a| && c != '\n'
    ensures IndexOf(a + [c], '\n') == |a| + 1
  {
    forall j | 0 <= j < |a|
      ensures (a + [c])[j] != '\n'
    {
      assert (a + [c])[j] == a[j];
    }
  }

  /** Any chunking of a stream, then the end of the stream, gives the events of one pass. */
  lemma StreamIsOnePass(chunks: seq<seq<byte>>)
    ensures var (s, events) := FeedChunks(START, chunks);
      events + EndOfStream(s).1 == WholeStream(Flatten(chunks))
  {
    hide Drain, Decode, Lines, SplitLines, Line;
    AnyChunking(START, chunks);
    var bytes := Flatten(chunks);
    if bytes == [] {
      EmptyStream();
    } else {
      FinishAfterFeed(bytes);
    }
  }

  lemma EmptyStream()
    ensures Decode([]) == ("", []) && EndOfStream(START).1 == [] == WholeStream([])
  {
    assert SplitLines("") == [];
  }

  lemma FinishAfterFeed(bytes: seq<byte>)
    requires bytes != []
    ensures var (s, events) := Feed(START, bytes);
      events + EndOfStream(s).1 == WholeStream(bytes)
  {
    hide Drain, Decode, Lines, SplitLines, Line, Flush, IndexOf, StripCarriageReturn;
    var (text, tail) := Decode(bytes);
    assert START.incomplete + bytes == bytes && START.buffer + text == text;
    var (rest, p, events) := Drain(text, NOTHING);
    if tail == [] {
      FinishRead(text, NOTHING);
      DrainThenLast(text, NOTHING);
      var (p1, later) := if rest != "" then Line(p, StripCarriageReturn(rest)) else (p, []);
      assert events + (later + Flush(p1).1) == events + later + Flush(p1).1;
    } else {
      FinishReplaced(text, NOTHING);
      DrainThenLast(text + [REPLACEMENT], NOTHING);
      var (p1, later) := Line(p, StripCarriageReturn(rest + [REPLACEMENT]));
      assert events + (later + Flush(p1).1) == events + later + Flush(p1).1;
    }
  }

  lemma FinishRead(text: string, p: Pending)
    ensures var (rest, p1, events) := Drain(text, p);
      EndOfStream(State([], rest, p1)).1 ==
        (var (p2, later) := if rest != "" then Line(p1, StripCarriageReturn(rest)) else (p1, []);
         later + Flush(p2).1)
  {
  }

  /** A replacement character for a truncated sequence cannot end a line. */
  lemma FinishReplaced(text: string, p: Pending)
    ensures var (rest, p1, events) := Drain(text, p);
      Drain(text + [REPLACEMENT], p) == (rest + [REPLACEMENT], p1, events)
  {
    var (rest, p1, events) := Drain(text, p);
    DrainConcat(text, [REPLACEMENT], p);
    DrainLeavesNoNewline(text, p);
    NoNewlineAppend(rest, REPLACEMENT);
    assert events + [] == events;
  }

  // ---------------------------------------------------------------------------
  // The parser object
  // ---------------------------------------------------------------------------

  class SseParser {
    var incompleteUtf8: seq<byte>
    var buffer: string
    var currentEvent: Option<string>
    var currentData: seq<string>

    ghost function Collected(): Pending
      reads this
    {
      Pending(currentEvent, currentData)
    }

    ghost function Current(): State
      reads this
    {
      State(incompleteUtf8, buffer, Collected())
    }

    constructor ()
      ensures Current() == START
    {
      incompleteUtf8, buffer, currentEvent, currentData := [], "", None, [];
    }

    /** Decodes what can be decoded and keeps a truncated sequence for the next chunk. */
    method FeedBytes(bytes: seq<byte>) returns (events: seq<SseEvent>)
      modifies this
      ensures (Current(), events) == Feed(old(Current()), bytes)
    {
      if bytes == [] {
        return [];
      }
      incompleteUtf8 := incompleteUtf8 + bytes;
      MoveDecodable();
      events := DrainLines();
    }

    /** Moves everything that is decided into the text buffer. */
    method MoveDecodable()
      modifies this`incompleteUtf8, this`buffer
      ensures buffer == old(buffer) + Decode(old(incompleteUtf8)).0
      ensures incompleteUtf8 == Decode(old(incompleteUtf8)).1
    {
      hide ReadSequence, FromUtf8, Decode;
      ghost var whole := buffer + Decode(incompleteUtf8).0;
      while true
        invariant buffer + Decode(incompleteUtf8).0 == whole
        invariant Decode(incompleteUtf8).1 == Decode(old(incompleteUtf8)).1
        decreases |incompleteUtf8|
      {
        var v := FromUtf8(incompleteUtf8);
        ValidationStep(incompleteUtf8);
        ghost var before := buffer;
        buffer := buffer + v.text;
        match v.ending
        case Complete =>
          incompleteUtf8 := [];
          break;
        case ErrorLength(n) =>
          buffer := buffer + [REPLACEMENT];
          incompleteUtf8 := incompleteUtf8[v.validUpTo + n..];
          ConcatAssociates(before, v.text + [REPLACEMENT], Decode(incompleteUtf8).0);
          ConcatAssociates(before, v.text, [REPLACEMENT]);
        case UnexpectedEnd =>
          incompleteUtf8 := incompleteUtf8[v.validUpTo..];
          break;
      }
    }

    /** Text that is already decoded. */
    method FeedText(chunk: string) returns (events: seq<SseEvent>)
      modifies this
      ensures incompleteUtf8 == old(incompleteUtf8)
      ensures (buffer, Collected(), events) == Drain(old(buffer) + chunk, old(Collected()))
    {
      buffer := buffer + chunk;
      events := DrainLines();
    }

    method DrainLines() returns (events: seq<SseEvent>)
      modifies this`buffer, this`currentEvent, this`currentData
      ensures (buffer, Collected(), events) == Drain(old(buffer), old(Collected()))
    {
      events := [];
      var newline := IndexOf(buffer, '\n');
      ConcatNothing(Drain(buffer, Collected()).2);
      while newline < |buffer|
        invariant newline == IndexOf(buffer, '\n')
        invariant var (rest, p, later) := Drain(buffer, Collected());
          Drain(old(buffer), old(Collected())) == (rest, p, events + later)
        decreases |buffer|
      {
        var line := StripCarriageReturn(buffer[..newline]);
        ghost var done := events;
        ghost var (p, now) := Line(Collected(), line);
        ghost var (rest, p2, later) := Drain(buffer[newline + 1..], p);
        DrainStep(buffer, Collected());
        ConcatAssociates(done, now, later);
        buffer := buffer[newline + 1..];
        var ended := ProcessLine(line);
        events := events + ended;
        newline := IndexOf(buffer, '\n');
      }
      assert events + [] == events;
    }

    method Finish() returns (events: seq<SseEvent>)
      modifies this
      ensures (Current(), events) == EndOfStream(old(Current()))
    {
      if incompleteUtf8 != [] {
        buffer := buffer + [REPLACEMENT];
        incompleteUtf8 := [];
      }
      events := [];
      if buffer != "" {
        var line := StripCarriageReturn(buffer);
        buffer := "";
        events := ProcessLine(line);
      }
      var last := FlushEvent();
      events := events + last;
    }

    method ProcessLine(line: string) returns (events: seq<SseEvent>)
      modifies this`currentEvent, this`currentData
      ensures (Collected(), events) == Line(old(Collected()), line)
    {
      events := [];
      if line == "" {
        events := FlushEvent();
        return;
      }
      if line[0] == ':' {
        return;
      }
      var (field, value) := SplitField(line);
      if field == "event" {
        currentEvent := Some(value);
      } else if field == "data" {
        currentData := currentData + [value];
      }
    }

    method FlushEvent() returns (events: seq<SseEvent>)
      modifies this`currentEvent, this`currentData
      ensures (Collected(), events) == Flush(old(Collected()))
    {
      if currentData == [] && currentEvent.None? {
        return [];
      }
      var data := JoinLines(currentData);
      var event := currentEvent;
      currentData, currentEvent := [], None;
      events := if data != "" || event.Some? then [SseEvent(event, data)] else [];
    }
  }
}
