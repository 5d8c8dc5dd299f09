/**
 The splitter of server-sent events in the demo console, and the read loop that feeds it.

 Text is a sequence of characters; decoding the bytes of a chunk is not part of this model.
 */
module SseSplitter {
  import opened Text

  datatype Event = Event(id: string, kind: string, data: string)

  /** What a call leaves: the events emitted, and the text that no boundary has ended yet. */
  datatype Outcome = Outcome(events: seq<Event>, rest: string)

  const FALLBACK := "message"

  // --- One event -------------------------------------------------------------------------

  function WithoutCr(s: string): string {
    if s == "" then "" else (if s[0] == '\r' then "" else [s[0]]) + WithoutCr(s[1..])
  }

  /** The characters that String.prototype.trim removes. */
  predicate IsJsSpace(c: char) {
    || c in {'\t', '\n', '\U{B}', '\U{C}', '\r', ' ', '\U{A0}', '\U{1680}', '\U{2028}', '\U{2029}', '\U{202F}'}
    || '\U{2000}' <= c <= '\U{200A}'
    || c in {'\U{205F}', '\U{3000}', '\U{FEFF}'}
  }

  predicate IsBlank(s: string) {
    forall i :: 0 <= i < |s| ==> IsJsSpace(s[i])
  }

  datatype Draft = Draft(id: string, kind: string, dataLines: seq<string>)

  /** What one line adds to the event that is being built. */
  function WithLine(draft: Draft, line: string): Draft {
    if line == "" || line[0] == ':' then draft
    else
      var separator := IndexOf(line, ':', 0);
      var field := line[..separator];
      var raw := if separator == |line| then "" else line[separator + 1..];
      var value := if raw != "" && raw[0] == ' ' then raw[1..] else raw;
      if field == "id" then draft.(id := value)
      else if field == "event" then draft.(kind := value)
      else if field == "data" then draft.(dataLines := draft.dataLines + [value])
      else draft
  }

  function WithLines(draft: Draft, lines: seq<string>): Draft {
    if lines == [] then draft else WithLine(WithLines(draft, lines[..|lines| - 1]), lines[|lines| - 1])
  }

  /** The events of the text before one boundary: none if it is blank, else one. */
  function EventsOf(chunk: string): seq<Event> {
    var raw := WithoutCr(chunk);
    if IsBlank(raw) then []
    else
      var draft := WithLines(Draft("", FALLBACK, []), SplitBy(raw, '\n'));
      [Event(draft.id, draft.kind, Join(draft.dataLines, '\n'))]
  }

  // --- The whole text --------------------------------------------------------------------

  /** buffer.replace(/\r\n/g, "\n") */
  function Normalize(s: string): (t: string)
    ensures |t| <= |s|
  {
    if |s| >= 2 && s[0] == '\r' && s[1] == '\n' then "\n" + Normalize(s[2..])
    else if s == "" then ""
    else [s[0]] + Normalize(s[1..])
  }

  predicate BoundaryAt(s: string, i: nat) {
    i + 1 < |s| && s[i] == '\n' && s[i + 1] == '\n'
  }

  /** The index of the first boundary; the length of the text if there is none. */
  function FirstBoundary(s: string, from: nat): (i: nat)
    requires from <= |s|
    ensures from <= i <= |s| && (i < |s| ==> BoundaryAt(s, i)) && forall k :: from <= k < i ==> !BoundaryAt(s, k)
    decreases |s| - from
  {
    if from == |s| || BoundaryAt(s, from) then from else FirstBoundary(s, from + 1)
  }

  /** The texts before each boundary, and what is after the last. */
  datatype Pieces = Pieces(blocks: seq<string>, rest: string)

  function Split(s: string): (p: Pieces)
    ensures |p.rest| <= |s|
    decreases |s|
  {
    var i := FirstBoundary(s, 0);
    if i == |s| then Pieces([], s)
    else
      var later := Split(s[i + 2..]);
      Pieces([s[..i]] + later.blocks, later.rest)
  }

  function EventsOfAll(blocks: seq<string>): seq<Event> {
    if blocks == [] then [] else EventsOfAll(blocks[..|blocks| - 1]) + EventsOf(blocks[|blocks| - 1])
  }

  function OutcomeOf(p: Pieces): Outcome {
    Outcome(EventsOfAll(p.blocks), p.rest)
  }

  function Consume(s: string): Outcome {
    OutcomeOf(Split(s))
  }

  /** The blocks that the read loop has found so far, and its buffer. */
  function ReadPieces(chunks: seq<string>): Pieces {
    if chunks == [] then Pieces([], "")
    else
      var before := ReadPieces(chunks[..|chunks| - 1]);
      var now := Split(Normalize(before.rest + chunks[|chunks| - 1]));
      Pieces(before.blocks + now.blocks, now.rest)
  }

  function ReadChunks(chunks: seq<string>): Outcome {
    OutcomeOf(ReadPieces(chunks))
  }

  function Concat(chunks: seq<string>): string {
    if chunks == [] then "" else Concat(chunks[..|chunks| - 1]) + chunks[|chunks| - 1]
  }

  // --- The loops -------------------------------------------------------------------------

  /** The loop over the lines of one chunk. */
  method BuildEvent(rawChunk: string) returns (event: Event)
    ensures var draft := WithLines(Draft("", FALLBACK, []), SplitBy(rawChunk, '\n'));
            event == Event(draft.id, draft.kind, Join(draft.dataLines, '\n'))
  {
    var id, kind, dataLines := "", FALLBACK, [];
    var lines := SplitBy(rawChunk, '\n');
    for k := 0 to |lines|
      invariant Draft(id, kind, dataLines) == WithLines(Draft("", FALLBACK, []), lines[..k])
    {
      assert lines[..k + 1][..k] == lines[..k];
      var line := lines[k];
      if line != "" && line[0] != ':' {
        var separator := IndexOf(line, ':', 0);
        var field := line[..separator];
        var value := if separator == |line| then "" else line[separator + 1..];
        if value != "" && value[0] == ' ' {
          value := value[1..];
        }
        if field == "id" {
          id := value;
        }
        if field == "event" {
          kind := value;
        }
        if field == "data" {
          dataLines := dataLines + [value];
        }
      }
    }
    assert lines[..|lines|] == lines;
    return Event(id, kind, Join(dataLines, '\n'));
  }

  /** What one turn of the loop does to the blocks found and to the text left. */
  lemma OneTurn(text: string, blocks: seq<string>, buffer: string, i: nat)
    requires i == FirstBoundary(buffer, 0) < |buffer|
    requires Split(text) == Pieces(blocks + Split(buffer).blocks, Split(buffer).rest)
    ensures var later := Split(buffer[i + 2..]);
            Split(text) == Pieces(blocks + [buffer[..i]] + later.blocks, later.rest)
    ensures EventsOfAll(blocks + [buffer[..i]]) == EventsOfAll(blocks) + EventsOf(buffer[..i])
  {
    var block, later := buffer[..i], Split(buffer[i + 2..]);
    assert blocks + ([block] + later.blocks) == blocks + [block] + later.blocks;
    assert (blocks + [block])[..|blocks|] == blocks;
  }

  method ConsumeSseBuffer(text: string) returns (events: seq<Event>, buffer: string)
    ensures Outcome(events, buffer) == Consume(text)
  {
    events, buffer := [], text;
    ghost var blocks: seq<string> := [];
    var boundaryIndex := FirstBoundary(buffer, 0);
    while boundaryIndex != |buffer|
      invariant boundaryIndex == FirstBoundary(buffer, 0)
      invariant Split(text) == Pieces(blocks + Split(buffer).blocks, Split(buffer).rest)
      invariant events == EventsOfAll(blocks)
      decreases |buffer|
    {
      OneTurn(text, blocks, buffer, boundaryIndex);
      var emitted := EmitEvent(buffer[..boundaryIndex]);
      events := events + emitted;
      blocks := blocks + [buffer[..boundaryIndex]];
      buffer := buffer[boundaryIndex + 2..];
      boundaryIndex := FirstBoundary(buffer, 0);
    }
    assert blocks + [] == blocks;
  }

  /** The body of the loop: what is before one boundary. */
  method EmitEvent(chunk: string) returns (emitted: seq<Event>)
    ensures emitted == EventsOf(chunk)
  {
    var rawChunk := WithoutCr(chunk);
    if IsBlank(rawChunk) {
      return [];
    }
    var event := BuildEvent(rawChunk);
    return [event];
  }

  lemma {:induction false} EventsOfMore(a: seq<string>, b: seq<string>)
    ensures EventsOfAll(a + b) == EventsOfAll(a) + EventsOfAll(b)
  {
    if b == [] {
      assert a + b == a;
    } else {
      assert (a + b)[..|a + b| - 1] == a + b[..|b| - 1];
      EventsOfMore(a, b[..|b| - 1]);
    }
  }

  /** The read loop of connectEvents over the decoded chunks. */
  method ReadLoop(chunks: seq<string>) returns (events: seq<Event>, buffer: string)
    ensures Outcome(events, buffer) == ReadChunks(chunks)
  {
    events, buffer := [], "";
    for k := 0 to |chunks|
      invariant Outcome(events, buffer) == ReadChunks(chunks[..k])
    {
      assert chunks[..k + 1][..k] == chunks[..k];
      EventsOfMore(ReadPieces(chunks[..k]).blocks, Split(Normalize(buffer + chunks[k])).blocks);
      buffer := buffer + chunks[k];
      buffer := Normalize(buffer);
      var emitted;
      emitted, buffer := ConsumeSseBuffer(buffer);
      events := events + emitted;
    }
    assert chunks[..|chunks|] == chunks;
  }
}
