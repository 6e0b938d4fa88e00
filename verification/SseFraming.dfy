/**
 Incremental framing of a server-sent event stream (web/lib/retrieval-client.ts) and the stream the
 retrieval service writes (services/retrieval_api/app.py). Line ends are LF and CRLF, the forms of
 sections 9.2.5 and 9.2.6 of the WHATWG HTML Standard that the client recognises.
 */
module SseFraming {

  // ---- Framing the whole text at once --------------------------------------------------------

  // A frame ends at a line feed that is followed by an empty line.
  predicate Terminates(s: string, i: nat)
    requires i < |s|
  {
    s[i] == '\n' && i + 1 < |s| && (s[i + 1] == '\n' || (s[i + 1] == '\r' && i + 2 < |s| && s[i + 2] == '\n'))
  }

  function NextStart(s: string, i: nat): (r: nat)
    requires i < |s| && Terminates(s, i)
    ensures i + 2 <= r <= |s|
  {
    if s[i + 1] == '\r' then i + 3 else i + 2
  }

  function FrameEnd(s: string, i: nat): nat
    requires i < |s|
  {
    if i > 0 && s[i - 1] == '\r' then i - 1 else i
  }

  // The first frame end at or after `from`, or the length of the text.
  function FirstTerminator(s: string, from: nat): (r: nat)
    requires from <= |s|
    ensures from <= r <= |s|
    ensures forall i :: from <= i < r ==> !Terminates(s, i)
    ensures r < |s| ==> Terminates(s, r)
    decreases |s| - from
  {
    if from == |s| || Terminates(s, from) then from else FirstTerminator(s, from + 1)
  }

  // The complete frames of a text, and what is left after the last of them.
  function Frames(s: string): (seq<string>, string)
    decreases |s|
  {
    var i := FirstTerminator(s, 0);
    if i == |s| then ([], s)
    else
      var (frames, rest) := Frames(s[NextStart(s, i)..]);
      ([s[..FrameEnd(s, i)]] + frames, rest)
  }

  ghost predicate NoTerminatorBelow(s: string, n: int) {
    forall i :: 0 <= i < n && i < |s| ==> !Terminates(s, i)
  }

  lemma FirstIsUnique(s: string, i: nat)
    requires i <= |s| && NoTerminatorBelow(s, i) && (i < |s| ==> Terminates(s, i))
    ensures FirstTerminator(s, 0) == i
  {
  }

  // A terminator complete within a prefix is the first terminator of every extension.
  lemma TerminatorStable(s: string, t: string)
    requires FirstTerminator(s, 0) < |s|
    ensures FirstTerminator(s + t, 0) == FirstTerminator(s, 0)
  {
    var i := FirstTerminator(s, 0);
    forall j | 0 <= j <= i ensures Terminates(s + t, j) == Terminates(s, j) {
      assert forall k :: 0 <= k < |s| ==> (s + t)[k] == s[k];
    }
    FirstIsUnique(s + t, i);
  }

  // The first frame of a text is the first frame of its extensions.
  lemma FirstFrame(s: string, t: string)
    requires FirstTerminator(s, 0) < |s|
    ensures var i := FirstTerminator(s, 0);
      var next := NextStart(s, i);
      FirstTerminator(s + t, 0) == i && NextStart(s + t, i) == next && FrameEnd(s + t, i) == FrameEnd(s, i)
      && (s + t)[next..] == s[next..] + t && (s + t)[..FrameEnd(s, i)] == s[..FrameEnd(s, i)]
  {
    TerminatorStable(s, t);
    assert forall k :: 0 <= k < |s| ==> (s + t)[k] == s[k];
  }

  lemma FramesUnfold(s: string)
    requires FirstTerminator(s, 0) < |s|
    ensures var i := FirstTerminator(s, 0);
      var (middle, rest) := Frames(s[NextStart(s, i)..]);
      Frames(s) == ([s[..FrameEnd(s, i)]] + middle, rest)
  {
  }

  lemma FramesOpen(s: string, t: string)
    requires FirstTerminator(s, 0) == |s|
    ensures var (second, last) := Frames(s + t);
      Frames(s) == ([], s) && [] + second == second
  {
  }

  // Framing in two pieces, the rest of the first carried over, is framing the whole.
  lemma {:induction false} FramesSplit(s: string, t: string)
    ensures var (first, rest) := Frames(s);
      var (second, last) := Frames(rest + t);
      Frames(s + t) == (first + second, last)
    decreases |s|
  {
    var i := FirstTerminator(s, 0);
    if i == |s| {
      FramesOpen(s, t);
    } else {
      FirstFrame(s, t);
      FramesUnfold(s);
      FramesUnfold(s + t);
      var next := NextStart(s, i);
      FramesSplit(s[next..], t);
      var (middle, rest) := Frames(s[next..]);
      var (second, last) := Frames(rest + t);
      Reassociate([s[..FrameEnd(s, i)]], middle, second);
    }
  }

  lemma Reassociate(a: seq<string>, b: seq<string>, c: seq<string>)
    ensures a + (b + c) == (a + b) + c
  {
  }

  lemma {:induction false} RestIsOpen(s: string)
    ensures Frames(Frames(s).1) == ([], Frames(s).1)
    ensures FirstTerminator(Frames(s).1, 0) == |Frames(s).1|
    decreases |s|
  {
    var i := FirstTerminator(s, 0);
    if i < |s| {
      RestIsOpen(s[NextStart(s, i)..]);
    }
  }

  function Joined(chunks: seq<string>): string {
    if chunks == [] then "" else Joined(chunks[..|chunks| - 1]) + chunks[|chunks| - 1]
  }

  // ---- What a frame carries ------------------------------------------------------------------

  predicate IsScriptSpace(c: char) {
    || c == ' ' || '\t' <= c <= '\r' || c == '\U{A0}' || c == '\U{1680}' || '\U{2000}' <= c <= '\U{200A}'
    || c in {'\U{2028}', '\U{2029}', '\U{202F}', '\U{205F}', '\U{3000}', '\U{FEFF}'}
  }

  predicate IsBlank(s: string) {
    forall i :: 0 <= i < |s| ==> IsScriptSpace(s[i])
  }

  function IndexOfNewline(s: string): (r: nat)
    ensures r <= |s|
    ensures forall i :: 0 <= i < r ==> s[i] != '\n'
    ensures r < |s| ==> s[r] == '\n'
  {
    if s == "" || s[0] == '\n' then 0 else 1 + IndexOfNewline(s[1..])
  }

  function Lines(s: string): seq<string> {
    var i := IndexOfNewline(s);
    if i == |s| then [s]
    else [if i > 0 && s[i - 1] == '\r' then s[..i - 1] else s[..i]] + Lines(s[i + 1..])
  }

  predicate StartsWith(s: string, prefix: string) {
    prefix <= s
  }

  function FieldValue(line: string): string
    requires StartsWith(line, "data:")
  {
    var value := line[5..];
    if value != "" && value[0] == ' ' then value[1..] else value
  }

  function DataLines(lines: seq<string>): seq<string> {
    if lines == [] then []
    else (if StartsWith(lines[0], "data:") then [FieldValue(lines[0])] else []) + DataLines(lines[1..])
  }

  function JoinLines(lines: seq<string>): string {
    if lines == [] then "" else if |lines| == 1 then lines[0] else lines[0] + "\n" + JoinLines(lines[1..])
  }

  function DataOf(frame: string): string {
    JoinLines(DataLines(Lines(frame)))
  }

  // An event carries the text handed to JSON.parse.
  datatype AgentFrame = Event(data: string) | Comment(value: string)

  predicate HasCommentLine(lines: seq<string>) {
    exists i :: 0 <= i < |lines| && StartsWith(lines[i], ":")
  }

  function AgentFrames(frame: string): seq<AgentFrame> {
    if !IsBlank(DataOf(frame)) then [Event(DataOf(frame))]
    else if HasCommentLine(Lines(frame)) then [Comment(frame)]
    else []
  }

  function AllAgentFrames(frames: seq<string>): seq<AgentFrame> {
    if frames == [] then [] else AllAgentFrames(frames[..|frames| - 1]) + AgentFrames(frames[|frames| - 1])
  }

  lemma Associative<T>(a: seq<T>, b: seq<T>, c: seq<T>)
    ensures a + b + c == a + (b + c)
  {
  }

  lemma {:induction false} AgentFramesAppend(a: seq<string>, b: seq<string>)
    ensures AllAgentFrames(a + b) == AllAgentFrames(a) + AllAgentFrames(b)
    decreases |b|
  {
    if b == [] {
      assert a + b == a;
    } else {
      var front, last := b[..|b| - 1], b[|b| - 1];
      AgentFramesAppend(a, front);
      assert (a + b)[..|a + b| - 1] == a + front && (a + b)[|a + b| - 1] == last;
      Associative(AllAgentFrames(a), AllAgentFrames(front), AgentFrames(last));
    }
  }

  // ---- The client's incremental reader -------------------------------------------------------

  class FrameReader {
    var buffer: string
    var scanFrom: int

    // Nothing below the resume index can be a frame end, now or after more text arrives.
    ghost predicate Valid()
      reads this
    {
      && 0 <= scanFrom && (scanFrom == 0 || scanFrom + 2 <= |buffer|)
      && NoTerminatorBelow(buffer, scanFrom)
    }

    constructor ()
      ensures Valid() && buffer == "" && scanFrom == 0
    {
      buffer, scanFrom := "", 0;
    }

    method Append(chunk: string)
      requires Valid()
      modifies this
      ensures Valid() && buffer == old(buffer) + chunk && scanFrom == old(scanFrom)
    {
      assert forall i :: 0 <= i < scanFrom ==> Terminates(buffer + chunk, i) == Terminates(buffer, i);
      buffer := buffer + chunk;
    }

    // Takes the complete frames out of the buffer, resuming the scan where the last one stopped.
    method TakeCompleteFrames() returns (frames: seq<string>)
      requires Valid()
      modifies this
      ensures Valid()
      ensures (frames, buffer) == Frames(old(buffer))
      ensures scanFrom == if |buffer| < 2 then 0 else |buffer| - 2
    {
      frames := [];
      assert [] + Frames(buffer).0 == Frames(buffer).0;
      var from := if scanFrom > 0 then scanFrom else 0;
      while true
        invariant 0 <= from <= |buffer| && NoTerminatorBelow(buffer, from)
        invariant (frames + Frames(buffer).0, Frames(buffer).1) == Frames(old(buffer))
        decreases |buffer|
      {
        var index := from;
        while index < |buffer| && !Terminates(buffer, index)
          invariant from <= index <= |buffer| && NoTerminatorBelow(buffer, index)
        {
          index := index + 1;
        }
        FirstIsUnique(buffer, index);
        if index == |buffer| {
          scanFrom := if |buffer| < 2 then 0 else |buffer| - 2;
          assert frames + [] == frames;
          return;
        }
        var frame := buffer[..FrameEnd(buffer, index)];
        ghost var whole := Frames(buffer);
        var rest := buffer[NextStart(buffer, index)..];
        assert whole.0 == [frame] + Frames(rest).0;
        assert frames + whole.0 == (frames + [frame]) + Frames(rest).0;
        frames := frames + [frame];
        buffer := rest;
        from := 0;
      }
    }

    // One arriving chunk, turned into events and comments.
    method Receive(chunk: string) returns (out: seq<AgentFrame>)
      requires Valid()
      modifies this
      ensures Valid()
      ensures out == AllAgentFrames(Frames(old(buffer) + chunk).0)
      ensures buffer == Frames(old(buffer) + chunk).1
    {
      Append(chunk);
      var parts := TakeCompleteFrames();
      out := [];
      for i := 0 to |parts|
        invariant out == AllAgentFrames(parts[..i])
      {
        assert parts[..i + 1][..i] == parts[..i];
        out := out + AgentFrames(parts[i]);
      }
      assert parts[..|parts|] == parts;
    }

    // The end of the stream: unfinished text that is not blank is closed and framed.
    method Finish() returns (out: seq<AgentFrame>)
      requires Valid()
      modifies this
      ensures Valid()
      ensures out == if IsBlank(old(buffer)) then [] else AllAgentFrames(Frames(old(buffer) + "\n\n").0)
    {
      if forall i :: 0 <= i < |buffer| ==> IsScriptSpace(buffer[i]) {
        return [];
      }
      out := Receive("\n\n");
    }
  }

  // What a reader that is fed the whole text at once and then closed delivers.
  function Delivered(text: string): seq<AgentFrame> {
    var (frames, rest) := Frames(text);
    AllAgentFrames(frames) + if IsBlank(rest) then [] else AllAgentFrames(Frames(rest + "\n\n").0)
  }

  // However the text is cut into chunks, the reader delivers what framing the whole text delivers.
  method ReadStream(chunks: seq<string>) returns (out: seq<AgentFrame>)
    ensures out == Delivered(Joined(chunks))
  {
    var reader := new FrameReader();
    out := [];
    for i := 0 to |chunks|
      invariant reader.Valid() && fresh(reader)
      invariant out == AllAgentFrames(Frames(Joined(chunks[..i])).0)
      invariant reader.buffer == Frames(Joined(chunks[..i])).1
    {
      ghost var text := Joined(chunks[..i]);
      FramesSplit(text, chunks[i]);
      AgentFramesAppend(Frames(text).0, Frames(Frames(text).1 + chunks[i]).0);
      assert chunks[..i + 1][..i] == chunks[..i];
      var more := reader.Receive(chunks[i]);
      out := out + more;
    }
    assert chunks[..|chunks|] == chunks;
    var last := reader.Finish();
    out := out + last;
  }

  // ---- The server's stream ---------------------------------------------------------------------

  datatype Message = Data(payload: string) | KeepAlive

  const KEEP_ALIVE := ": keep-alive"

  function Body(message: Message): string {
    match message
    case Data(payload) => "data: " + payload
    case KeepAlive => KEEP_ALIVE
  }

  function Printed(messages: seq<Message>): string {
    if messages == [] then "" else Body(messages[0]) + "\n\n" + Printed(messages[1..])
  }

  function Bodies(messages: seq<Message>): seq<string> {
    if messages == [] then [] else [Body(messages[0])] + Bodies(messages[1..])
  }

  function Meaning(message: Message): AgentFrame {
    match message
    case Data(payload) => Event(payload)
    case KeepAlive => Comment(KEEP_ALIVE)
  }

  function Expected(messages: seq<Message>): seq<AgentFrame> {
    if messages == [] then [] else [Meaning(messages[0])] + Expected(messages[1..])
  }

  // One line of text, as JSON encoding produces it.
  predicate OneLine(payload: string) {
    '\n' !in payload && (payload != "" ==> payload[|payload| - 1] != '\r') && !IsBlank(payload)
  }

  ghost predicate Sendable(messages: seq<Message>) {
    forall i :: 0 <= i < |messages| && messages[i].Data? ==> OneLine(messages[i].payload)
  }

  lemma BodyEndsCleanly(message: Message)
    requires message.Data? ==> OneLine(message.payload)
    ensures '\n' !in Body(message) && Body(message)[|Body(message)| - 1] != '\r'
  {
  }

  lemma {:induction false} PrintedFrames(messages: seq<Message>)
    requires Sendable(messages)
    ensures Frames(Printed(messages)) == (Bodies(messages), "")
  {
    if messages != [] {
      var body, tail := Body(messages[0]), Printed(messages[1..]);
      var text := body + "\n\n" + tail;
      BodyEndsCleanly(messages[0]);
      assert forall i :: 0 <= i < |body| ==> text[i] == body[i] && body[i] in body;
      assert text[|body|] == '\n' && text[|body| + 1] == '\n';
      FirstIsUnique(text, |body|);
      assert text[|body| + 2..] == tail && text[..|body|] == body;
      PrintedFrames(messages[1..]);
    }
  }

  lemma LineOfBody(body: string)
    requires '\n' !in body
    ensures Lines(body) == [body]
  {
    assert IndexOfNewline(body) == |body|;
  }

  lemma DataLineCarries(line: string)
    requires '\n' !in line && StartsWith(line, "data:")
    ensures DataOf(line) == FieldValue(line)
  {
    LineOfBody(line);
    assert Lines(line)[1..] == [];
    assert DataLines(Lines(line)) == [FieldValue(line)] + DataLines([]);
  }

  lemma CommentLineCarries(line: string)
    requires '\n' !in line && line != "" && line[0] == ':'
    ensures AgentFrames(line) == [Comment(line)]
  {
    LineOfBody(line);
    assert Lines(line)[1..] == [] && !StartsWith(line, "data:");
    assert DataLines(Lines(line)) == [] + DataLines([]);
    assert line[..1] == ":" && StartsWith(Lines(line)[0], ":");
    assert HasCommentLine(Lines(line));
  }

  lemma BodyCarries(message: Message)
    requires message.Data? ==> OneLine(message.payload)
    ensures AgentFrames(Body(message)) == [Meaning(message)]
  {
    var body := Body(message);
    BodyEndsCleanly(message);
    if message.Data? {
      assert body[..5] == "data:";
      assert body[5..] == " " + message.payload && body[5..][1..] == message.payload;
      DataLineCarries(body);
    } else {
      CommentLineCarries(body);
    }
  }

  lemma AgentFramesPrepend(frame: string, frames: seq<string>)
    ensures AllAgentFrames([frame] + frames) == AgentFrames(frame) + AllAgentFrames(frames)
  {
    AgentFramesAppend([frame], frames);
    OneFrame(frame);
  }

  lemma OneFrame(frame: string)
    ensures AllAgentFrames([frame]) == AgentFrames(frame)
  {
    assert [frame][..0] == [];
    assert AllAgentFrames([]) == [];
  }

  lemma {:induction false} BodiesCarry(messages: seq<Message>)
    requires Sendable(messages)
    ensures AllAgentFrames(Bodies(messages)) == Expected(messages)
  {
    if messages != [] {
      BodyCarries(messages[0]);
      BodiesCarry(messages[1..]);
      AgentFramesPrepend(Body(messages[0]), Bodies(messages[1..]));
    }
  }

  // Every sequence of one-line payloads and keep-alive comments is recovered exactly and completely.
  lemma StreamRoundTrip(messages: seq<Message>)
    requires Sendable(messages)
    ensures Delivered(Printed(messages)) == Expected(messages)
  {
    PrintedFrames(messages);
    BodiesCarry(messages);
  }

  // The whole path: printed by the server, cut anywhere, read by the client.
  method Transport(messages: seq<Message>, chunks: seq<string>) returns (out: seq<AgentFrame>)
    requires Sendable(messages) && Joined(chunks) == Printed(messages)
    ensures out == Expected(messages)
  {
    out := ReadStream(chunks);
    StreamRoundTrip(messages);
  }
}
