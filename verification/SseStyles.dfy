/**
 Event streams as any server may write them (sections 9.2.5 and 9.2.6 of the WHATWG HTML Standard): blocks
 of several fields, with or without the optional space, and with LF or CRLF line ends. The client's
 framing (web/lib/retrieval-client.ts) recovers each block's data.
 */
module SseStyles {

  import opened SseFraming

  // A line of a block: data, after the colon or after one space; a comment; or a field that is not read.
  datatype Field = DataField(value: string, spaced: bool) | CommentField(text: string) | OtherField(line: string)

  datatype Block = Block(fields: seq<Field>, crlf: bool)

  function FieldLine(f: Field): string {
    match f
    case DataField(value, spaced) => (if spaced then "data: " else "data:") + value
    case CommentField(text) => ":" + text
    case OtherField(line) => line
  }

  function FieldLines(fields: seq<Field>): seq<string> {
    if fields == [] then [] else [FieldLine(fields[0])] + FieldLines(fields[1..])
  }

  function Eol(crlf: bool): string {
    if crlf then "\r\n" else "\n"
  }

  // The lines with line ends between them.
  function BlockText(lines: seq<string>, crlf: bool): string {
    if lines == [] then "" else if |lines| == 1 then lines[0] else lines[0] + Eol(crlf) + BlockText(lines[1..], crlf)
  }

  function TextOf(block: Block): string {
    BlockText(FieldLines(block.fields), block.crlf)
  }

  // Each block is followed by the end of its last line and an empty line.
  function Written(blocks: seq<Block>): string {
    if blocks == [] then "" else TextOf(blocks[0]) + (Eol(blocks[0].crlf) + Eol(blocks[0].crlf) + Written(blocks[1..]))
  }

  // A line that can be told from the next.
  predicate Clean(line: string) {
    line != "" && '\n' !in line && line[|line| - 1] != '\r'
  }

  predicate Writable(f: Field) {
    && Clean(FieldLine(f))
    && match f
       case DataField(value, spaced) => spaced || value == "" || value[0] != ' '
       case CommentField(_) => true
       case OtherField(line) => !("data:" <= line) && !(":" <= line)
  }

  // ---- What a block means --------------------------------------------------------------------

  function Values(fields: seq<Field>): seq<string> {
    if fields == [] then []
    else (if fields[0].DataField? then [fields[0].value] else []) + Values(fields[1..])
  }

  // Data that is not blank is an event; a block without any is a comment if it has one.
  function BlockMeaning(block: Block): seq<AgentFrame> {
    var data := BlockText(Values(block.fields), false);
    if !IsBlank(data) then [Event(data)]
    else if exists i :: 0 <= i < |block.fields| && block.fields[i].CommentField? then [Comment(TextOf(block))]
    else []
  }

  function Meanings(blocks: seq<Block>): seq<AgentFrame> {
    if blocks == [] then [] else BlockMeaning(blocks[0]) + Meanings(blocks[1..])
  }

  // ---- Framing -----------------------------------------------------------------------------

  ghost predicate AllClean(lines: seq<string>) {
    forall i :: 0 <= i < |lines| ==> Clean(lines[i])
  }

  // Where the line feed of the last line end stands.
  function Feed(text: string, crlf: bool): nat {
    |text| + if crlf then 1 else 0
  }

  lemma LineIsOpen(line: string, crlf: bool, next: string)
    requires Clean(line) && next != "" && next[0] != '\n' && (next[0] == '\r' ==> |next| > 1 && next[1] != '\n')
    ensures NoTerminatorBelow(line + Eol(crlf) + next, |line + Eol(crlf)|)
  {
    var s := line + Eol(crlf) + next;
    assert forall i :: 0 <= i < |line| ==> s[i] == line[i] && line[i] in line;
    assert forall i :: 0 <= i < |next| ==> s[|line + Eol(crlf)| + i] == next[i];
  }

  lemma Shifted(head: string, tail: string, n: int)
    requires NoTerminatorBelow(head + tail, |head|) && NoTerminatorBelow(tail, n)
    ensures NoTerminatorBelow(head + tail, |head| + n)
    ensures forall i :: 0 <= i < |tail| ==> Terminates(head + tail, |head| + i) == Terminates(tail, i)
  {
    var s := head + tail;
    assert forall i :: 0 <= i < |tail| ==> s[|head| + i] == tail[i];
    forall i | |head| <= i < |head| + n && i < |s| ensures !Terminates(s, i) {
      assert Terminates(s, i) == Terminates(tail, i - |head|);
    }
  }

  lemma LastLineEnds(line: string, crlf: bool, rest: string)
    requires Clean(line)
    ensures var s := line + (Eol(crlf) + Eol(crlf) + rest);
      Feed(line, crlf) < |s| && NoTerminatorBelow(s, Feed(line, crlf)) && Terminates(s, Feed(line, crlf))
  {
    var s := line + (Eol(crlf) + Eol(crlf) + rest);
    assert forall i :: 0 <= i < |line| ==> s[i] == line[i] && line[i] in line;
    assert s[|line|] == Eol(crlf)[0];
    if crlf {
      assert s[|line| + 1] == '\n' && s[|line| + 2] == '\r' && s[|line| + 3] == '\n';
    } else {
      assert s[|line| + 1] == '\n';
    }
  }

  lemma TextStarts(lines: seq<string>, crlf: bool, tail: string)
    requires AllClean(lines) && lines != []
    ensures var s := BlockText(lines, crlf) + tail; s != "" && s[0] != '\n' && (s[0] == '\r' ==> |s| > 1 && s[1] != '\n')
  {
    var s := BlockText(lines, crlf) + tail;
    assert Clean(lines[0]);
    assert s[..|lines[0]|] == lines[0];
    assert s[0] == lines[0][0] && lines[0][0] in lines[0];
    if s[0] == '\r' { assert s[1] == lines[0][1] && lines[0][1] in lines[0]; }
  }

  // A block ends where its last line does, and not before.
  lemma {:induction false} BlockEnds(lines: seq<string>, crlf: bool, rest: string)
    requires AllClean(lines) && lines != []
    ensures var text := BlockText(lines, crlf);
      var s := text + (Eol(crlf) + Eol(crlf) + rest);
      Feed(text, crlf) < |s| && NoTerminatorBelow(s, Feed(text, crlf)) && Terminates(s, Feed(text, crlf))
    decreases |lines|
  {
    var tail := Eol(crlf) + Eol(crlf) + rest;
    assert Clean(lines[0]);
    if |lines| == 1 {
      LastLineEnds(lines[0], crlf, rest);
    } else {
      var inner := BlockText(lines[1..], crlf);
      BlockEnds(lines[1..], crlf, rest);
      TextStarts(lines[1..], crlf, tail);
      LineIsOpen(lines[0], crlf, inner + tail);
      Shifted(lines[0] + Eol(crlf), inner + tail, Feed(inner, crlf));
      assert BlockText(lines, crlf) + tail == lines[0] + Eol(crlf) + (inner + tail);
    }
  }

  lemma {:induction false} TextEndsClean(lines: seq<string>, crlf: bool)
    requires AllClean(lines) && lines != []
    ensures var text := BlockText(lines, crlf); text != "" && text[|text| - 1] != '\r'
  {
    assert Clean(lines[0]);
    if |lines| > 1 { TextEndsClean(lines[1..], crlf); }
  }

  lemma FirstBlock(lines: seq<string>, crlf: bool, rest: string)
    requires AllClean(lines) && lines != []
    ensures var text := BlockText(lines, crlf);
      var s := text + (Eol(crlf) + Eol(crlf) + rest);
      Frames(s) == ([text] + Frames(rest).0, Frames(rest).1)
  {
    var text := BlockText(lines, crlf);
    var s := text + (Eol(crlf) + Eol(crlf) + rest);
    BlockEnds(lines, crlf, rest);
    TextEndsClean(lines, crlf);
    FirstIsUnique(s, Feed(text, crlf));
    FrameCut(text, crlf, rest);
    FramesUnfold(s);
  }

  lemma FrameCut(text: string, crlf: bool, rest: string)
    requires text != "" && text[|text| - 1] != '\r'
    ensures var s := text + (Eol(crlf) + Eol(crlf) + rest);
      var i := Feed(text, crlf);
      i < |s| && Terminates(s, i) && s[NextStart(s, i)..] == rest && s[..FrameEnd(s, i)] == text
  {
    var s := text + (Eol(crlf) + Eol(crlf) + rest);
    assert s[..|text|] == text;
    if crlf {
      assert s[|text|] == '\r' && s[|text| + 1] == '\n' && s[|text| + 2] == '\r' && s[|text| + 3] == '\n';
      assert s[|text| + 4..] == rest;
    } else {
      assert s[|text|] == '\n' && s[|text| + 1] == '\n' && s[|text| - 1] == text[|text| - 1];
      assert s[|text| + 2..] == rest;
    }
  }

  // ---- Lines ---------------------------------------------------------------------------------

  lemma NewlineAt(s: string, i: nat)
    requires i <= |s| && (forall j :: 0 <= j < i ==> s[j] != '\n') && (i < |s| ==> s[i] == '\n')
    ensures IndexOfNewline(s) == i
  {
  }

  lemma {:induction false} LinesOfText(lines: seq<string>, crlf: bool)
    requires AllClean(lines) && lines != []
    ensures Lines(BlockText(lines, crlf)) == lines
    decreases |lines|
  {
    if |lines| == 1 {
      OnlyLine(lines, crlf);
    } else {
      LinesOfText(lines[1..], crlf);
      LineBefore(lines, crlf, BlockText(lines[1..], crlf));
    }
  }

  lemma OnlyLine(lines: seq<string>, crlf: bool)
    requires AllClean(lines) && |lines| == 1
    ensures Lines(BlockText(lines, crlf)) == lines
  {
    assert Clean(lines[0]);
    LineOfBody(lines[0]);
  }

  lemma LineBefore(lines: seq<string>, crlf: bool, rest: string)
    requires AllClean(lines) && |lines| > 1 && rest == BlockText(lines[1..], crlf) && Lines(rest) == lines[1..]
    ensures Lines(BlockText(lines, crlf)) == lines
  {
    assert Clean(lines[0]);
    assert BlockText(lines, crlf) == lines[0] + Eol(crlf) + rest;
    LineCut(lines[0], crlf, rest);
    assert [lines[0]] + lines[1..] == lines;
  }

  lemma LineCut(line: string, crlf: bool, rest: string)
    requires Clean(line)
    ensures Lines(line + Eol(crlf) + rest) == [line] + Lines(rest)
  {
    if crlf { LineCutCrlf(line, rest); } else { LineCutLf(line, rest); }
  }

  // The lines of a text with a line feed: the first, without the carriage return before it, and the rest.
  lemma LinesSplit(s: string, i: nat)
    requires i < |s| && s[i] == '\n' && forall j :: 0 <= j < i ==> s[j] != '\n'
    ensures Lines(s) == [if i > 0 && s[i - 1] == '\r' then s[..i - 1] else s[..i]] + Lines(s[i + 1..])
  {
    NewlineAt(s, i);
  }

  lemma LineCutLf(line: string, rest: string)
    requires Clean(line)
    ensures Lines(line + "\n" + rest) == [line] + Lines(rest)
  {
    var s := line + "\n" + rest;
    assert forall j :: 0 <= j < |line| ==> s[j] == line[j] && line[j] in line;
    assert s[|line| + 1..] == rest && s[..|line|] == line && s[|line| - 1] == line[|line| - 1];
    LinesSplit(s, |line|);
  }

  lemma LineCutCrlf(line: string, rest: string)
    requires Clean(line)
    ensures Lines(line + "\r\n" + rest) == [line] + Lines(rest)
  {
    var s := line + "\r\n" + rest;
    assert forall j :: 0 <= j < |line| ==> s[j] == line[j] && line[j] in line;
    assert s[|line|] == '\r' && s[|line| + 1] == '\n';
    assert s[|line| + 2..] == rest && s[..|line|] == line;
    LinesSplit(s, |line| + 1);
  }

  // ---- Fields --------------------------------------------------------------------------------

  lemma FieldRead(f: Field)
    requires Writable(f)
    ensures StartsWith(FieldLine(f), "data:") <==> f.DataField?
    ensures f.DataField? ==> FieldValue(FieldLine(f)) == f.value
    ensures StartsWith(FieldLine(f), ":") <==> f.CommentField?
  {
    var line := FieldLine(f);
    if f.DataField? {
      assert line[..5] == "data:";
      assert line[5..] == (if f.spaced then " " else "") + f.value;
      assert f.spaced ==> line[5..][0] == ' ' && line[5..][1..] == f.value;
      assert line[0] == 'd';
    } else if f.CommentField? {
      assert line[..1] == ":" && line[0] == ':' && "data:"[0] == 'd';
    }
  }

  ghost predicate AllWritable(fields: seq<Field>) {
    forall i :: 0 <= i < |fields| ==> Writable(fields[i])
  }

  lemma {:induction false} FieldsRead(fields: seq<Field>)
    requires AllWritable(fields)
    ensures AllClean(FieldLines(fields)) && |FieldLines(fields)| == |fields| && DataLines(FieldLines(fields)) == Values(fields)
    ensures HasCommentLine(FieldLines(fields)) <==> exists i :: 0 <= i < |fields| && fields[i].CommentField?
  {
    if fields != [] {
      var lines := FieldLines(fields);
      FieldRead(fields[0]);
      FieldsRead(fields[1..]);
      assert lines[1..] == FieldLines(fields[1..]);
      CommentsSplit(lines);
      if i :| 0 <= i < |fields| && fields[i].CommentField? { assert i > 0 ==> fields[1..][i - 1].CommentField?; }
      if i :| 0 <= i < |fields[1..]| && fields[1..][i].CommentField? { assert fields[i + 1].CommentField?; }
    }
  }

  lemma CommentsSplit(lines: seq<string>)
    requires lines != []
    ensures HasCommentLine(lines) <==> StartsWith(lines[0], ":") || HasCommentLine(lines[1..])
  {
    if i :| 0 <= i < |lines| && StartsWith(lines[i], ":") { assert i > 0 ==> StartsWith(lines[1..][i - 1], ":"); }
    if i :| 0 <= i < |lines[1..]| && StartsWith(lines[1..][i], ":") { assert StartsWith(lines[i + 1], ":"); }
  }

  lemma {:induction false} LinesJoin(lines: seq<string>)
    ensures JoinLines(lines) == BlockText(lines, false)
  {
    if |lines| > 1 { LinesJoin(lines[1..]); }
  }

  lemma BlockRead(block: Block)
    requires AllWritable(block.fields) && block.fields != []
    ensures AgentFrames(TextOf(block)) == BlockMeaning(block)
  {
    FieldsRead(block.fields);
    LinesOfText(FieldLines(block.fields), block.crlf);
    LinesJoin(Values(block.fields));
    FrameMeans(TextOf(block), FieldLines(block.fields), BlockText(Values(block.fields), false));
  }

  lemma FrameMeans(frame: string, lines: seq<string>, data: string)
    requires Lines(frame) == lines && JoinLines(DataLines(lines)) == data
    ensures AgentFrames(frame) == if !IsBlank(data) then [Event(data)] else if HasCommentLine(lines) then [Comment(frame)] else []
  {
  }

  ghost predicate AllSendable(blocks: seq<Block>) {
    forall i :: 0 <= i < |blocks| ==> blocks[i].fields != [] && AllWritable(blocks[i].fields)
  }

  lemma {:induction false} WrittenFrames(blocks: seq<Block>)
    requires AllSendable(blocks)
    ensures Frames(Written(blocks)).1 == "" && AllAgentFrames(Frames(Written(blocks)).0) == Meanings(blocks)
    decreases |blocks|
  {
    if blocks != [] {
      var lines := FieldLines(blocks[0].fields);
      FieldsRead(blocks[0].fields);
      FirstBlock(lines, blocks[0].crlf, Written(blocks[1..]));
      WrittenFrames(blocks[1..]);
      BlockRead(blocks[0]);
      AgentFramesPrepend(TextOf(blocks[0]), Frames(Written(blocks[1..])).0);
    }
  }

  // However a stream is written, of whatever fields and with whatever line ends, block by block, its data
  // is delivered block by block, the lines of one block joined by line feeds.
  lemma StyledRoundTrip(blocks: seq<Block>)
    requires AllSendable(blocks)
    ensures Delivered(Written(blocks)) == Meanings(blocks)
  {
    WrittenFrames(blocks);
    assert IsBlank("");
  }
}
