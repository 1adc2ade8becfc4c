/** The server-sent-event reader of `chatStream` in src/provider.ts. */
module EventStream {
  import opened Wrappers
  import opened TextLines
  import opened ToolAssembly

  /** A JSON chunk of the stream; absent texts are empty. */
  datatype Chunk = Chunk(delta: Option<ChunkDelta>, finishReason: string, usage: Option<(int, int)>)

  datatype ChunkDelta = ChunkDelta(reasoningContent: string, reasoning: string, content: string, toolCalls: seq<Delta>)

  /** What follows `data: ` on a line: the end marker, text that is not JSON, or a chunk. */
  datatype Payload = Done | Malformed | Json(chunk: Chunk)

  /** Trimming and JSON parsing are outside the model. */
  type Parser = string -> Payload

  /** The reply so far, and the texts passed to `onDelta` and `onThinkingDelta`. */
  datatype Reply = Reply(text: string, thinking: string, deltas: seq<string>, thinkingDeltas: seq<string>,
                         tools: Tools, finishReason: string, usage: Option<(int, int)>)

  const NO_REPLY := Reply([], [], [], [], NO_TOOLS, [], None)

  predicate IsData(line: string) {
    |line| >= 6 && line[..6] == "data: "
  }

  function FeedMany(t: Tools, ds: seq<Delta>, callback: bool): Tools {
    if ds == [] then t else Feed(FeedMany(t, ds[..|ds| - 1], callback), ds[|ds| - 1], callback)
  }

  function Think(r: Reply, text: string): Reply {
    if text == [] then r else r.(thinking := r.thinking + text, thinkingDeltas := r.thinkingDeltas + [text])
  }

  function Say(r: Reply, text: string): Reply {
    if text == [] then r else r.(text := r.text + text, deltas := r.deltas + [text])
  }

  /** A chunk without a delta is passed over, whatever else it holds. */
  function AfterChunk(r: Reply, c: Chunk, callback: bool): Reply {
    if c.delta.None? then r
    else
      var d := c.delta.value;
      var r1 := Say(Think(r, if d.reasoningContent != [] then d.reasoningContent else d.reasoning), d.content);
      r1.(tools := FeedMany(r1.tools, d.toolCalls, callback),
          finishReason := if c.finishReason != [] then c.finishReason else r1.finishReason,
          usage := if c.usage.Some? then c.usage else r1.usage)
  }

  function AfterLine(parse: Parser, r: Reply, line: string, callback: bool): Reply {
    if !IsData(line) then r
    else
      match parse(line[6..])
      case Json(chunk) => AfterChunk(r, chunk, callback)
      case _ => r
  }

  function AfterLines(parse: Parser, r: Reply, lines: seq<string>, callback: bool): Reply {
    if lines == [] then r
    else AfterLine(parse, AfterLines(parse, r, lines[..|lines| - 1], callback), lines[|lines| - 1], callback)
  }

  /** The reply to a stream with these ended lines. */
  function ReplyTo(parse: Parser, lines: seq<string>, callback: bool): Reply {
    var r := AfterLines(parse, NO_REPLY, lines, callback);
    if callback then r.(tools := Emit(r.tools, 0)) else r
  }

  // ---- The loops ----

  /** The loop over `toolCallBuffers` that calls `onToolUse`. */
  method EmitRemaining(t: Tools) returns (r: Tools)
    ensures r == Emit(t, 0)
  {
    r := t;
    for i := 0 to |t.parts|
      invariant r.parts == t.parts && Emit(r, i) == Emit(t, 0)
    {
      var part := r.parts[i];
      if part.index !in r.finalized {
        r := Tools(r.parts, r.finalized + {part.index}, r.emitted + [part]);
      }
    }
  }

  /** The body of the loop over `delta.tool_calls`. */
  method FeedToolDelta(t: Tools, d: Delta, callback: bool) returns (r: Tools)
    ensures r == Feed(t, d, callback)
  {
    r := t;
    var p := Position(t.parts, d.index);
    if d.id != [] && p == |t.parts| && callback {
      r := EmitRemaining(r);
    }
    if p == |t.parts| {
      r := r.(parts := r.parts + [Part(d.index, d.id, [], [])]);
    }
    var part := r.parts[p];
    if d.id != [] {
      part := part.(id := d.id);
    }
    part := part.(name := part.name + d.name, args := part.args + d.args);
    r := r.(parts := r.parts[p := part]);
  }

  /** The loop over `delta.tool_calls`. */
  method FeedToolDeltas(t: Tools, ds: seq<Delta>, callback: bool) returns (r: Tools)
    ensures r == FeedMany(t, ds, callback)
  {
    hide Feed;
    r := t;
    for i := 0 to |ds|
      invariant r == FeedMany(t, ds[..i], callback)
    {
      r := FeedToolDelta(r, ds[i], callback);
      assert ds[..i + 1][..i] == ds[..i];
    }
    assert ds[..|ds|] == ds;
  }

  /** The body of the loop over the lines. */
  method ReadLine(parse: Parser, line: string, callback: bool, reply: Reply) returns (r: Reply)
    ensures r == AfterLine(parse, reply, line, callback)
  {
    hide FeedMany;
    r := reply;
    if !IsData(line) { return; }
    var payload := parse(line[6..]);
    if !payload.Json? || payload.chunk.delta.None? { return; }
    var delta := payload.chunk.delta.value;
    if delta.reasoningContent != [] {
      r := r.(thinking := r.thinking + delta.reasoningContent,
              thinkingDeltas := r.thinkingDeltas + [delta.reasoningContent]);
    } else if delta.reasoning != [] {
      r := r.(thinking := r.thinking + delta.reasoning, thinkingDeltas := r.thinkingDeltas + [delta.reasoning]);
    }
    if delta.content != [] {
      r := r.(text := r.text + delta.content, deltas := r.deltas + [delta.content]);
    }
    var tools := FeedToolDeltas(r.tools, delta.toolCalls, callback);
    r := r.(tools := tools);
    if payload.chunk.finishReason != [] {
      r := r.(finishReason := payload.chunk.finishReason);
    }
    if payload.chunk.usage.Some? {
      r := r.(usage := payload.chunk.usage);
    }
  }

  /** The read loop of `chatStream`. However the text of the stream is cut into chunks, the reply is
      the one to the newline-terminated lines of the whole text; what follows the last newline is never
      read. */
  method ChatStream(parse: Parser, chunks: seq<string>, callback: bool) returns (reply: Reply, toolCalls: seq<Part>)
    ensures reply == ReplyTo(parse, Ended(Concat(chunks)), callback)
    ensures toolCalls == reply.tools.parts
  {
    reply := NO_REPLY;
    var buffer: string := [];
    for i := 0 to |chunks|
      invariant buffer == Residue(Concat(chunks[..i]))
      invariant reply == AfterLines(parse, NO_REPLY, Ended(Concat(chunks[..i])), callback)
    {
      ghost var text := Concat(chunks[..i]);
      ghost var before := Ended(text);
      assert chunks[..i + 1][..i] == chunks[..i];
      ChunkStep(text, chunks[i]);
      buffer := buffer + chunks[i];
      var pieces := Split(buffer);
      var lines := pieces[..|pieces| - 1];
      buffer := pieces[|pieces| - 1];
      reply := ReadLines(parse, before, lines, callback, reply);
    }
    assert chunks[..|chunks|] == chunks;
    if callback {
      var tools := EmitRemaining(reply.tools);
      reply := reply.(tools := tools);
    }
    toolCalls := [];
    for i := 0 to |reply.tools.parts|
      invariant toolCalls == reply.tools.parts[..i]
    {
      toolCalls := toolCalls + [reply.tools.parts[i]];
    }
  }

  method ReadLines(parse: Parser, ghost before: seq<string>, lines: seq<string>, callback: bool, reply: Reply)
      returns (r: Reply)
    requires reply == AfterLines(parse, NO_REPLY, before, callback)
    ensures r == AfterLines(parse, NO_REPLY, before + lines, callback)
  {
    r := reply;
    assert before + lines[..0] == before;
    for i := 0 to |lines|
      invariant r == AfterLines(parse, NO_REPLY, before + lines[..i], callback)
    {
      r := ReadLine(parse, lines[i], callback, r);
      assert (before + lines[..i + 1])[..|before| + i] == before + lines[..i];
    }
    assert lines[..|lines|] == lines;
  }

  // ---- What a reply consists of ----

  /** Line by line: the lines ended so far and the text kept back, after each chunk is read. */
  function ReadChunks(chunks: seq<string>): (seq<string>, string) {
    if chunks == [] then ([], [])
    else
      var before := ReadChunks(chunks[..|chunks| - 1]);
      var buffer := before.1 + chunks[|chunks| - 1];
      (before.0 + Ended(buffer), Residue(buffer))
  }

  /** However a text is cut into chunks, the lines read are its newline-terminated lines. */
  lemma {:induction false} AnyChunking(chunks: seq<string>)
    ensures ReadChunks(chunks) == (Ended(Concat(chunks)), Residue(Concat(chunks)))
  {
    if chunks != [] {
      var k := |chunks| - 1;
      AnyChunking(chunks[..k]);
      ChunkStep(Concat(chunks[..k]), chunks[k]);
    }
  }

  /** The tool-call deltas of a line. */
  function DeltasOf(parse: Parser, line: string): seq<Delta> {
    if !IsData(line) then []
    else
      var payload := parse(line[6..]);
      if payload.Json? && payload.chunk.delta.Some? then payload.chunk.delta.value.toolCalls else []
  }

  function AllDeltas(parse: Parser, lines: seq<string>): seq<Delta> {
    if lines == [] then []
    else AllDeltas(parse, lines[..|lines| - 1]) + DeltasOf(parse, lines[|lines| - 1])
  }

  lemma {:induction false} FeedManyAfter(ds: seq<Delta>, more: seq<Delta>, callback: bool)
    ensures FeedMany(FeedAll(ds, callback), more, callback) == FeedAll(ds + more, callback)
  {
    hide Feed;
    if more == [] {
      assert ds + more == ds;
    } else {
      var k := |more| - 1;
      FeedManyAfter(ds, more[..k], callback);
      assert (ds + more)[..|ds| + k] == ds + more[..k];
    }
  }

  lemma ToolsOfLine(parse: Parser, r: Reply, line: string, callback: bool)
    ensures AfterLine(parse, r, line, callback).tools == FeedMany(r.tools, DeltasOf(parse, line), callback)
  {
    hide Feed;
  }

  lemma {:induction false} ToolsOfLines(parse: Parser, lines: seq<string>, callback: bool)
    ensures AfterLines(parse, NO_REPLY, lines, callback).tools == FeedAll(AllDeltas(parse, lines), callback)
  {
    if lines != [] {
      var k := |lines| - 1;
      ToolsOfLines(parse, lines[..k], callback);
      ToolsOfLine(parse, AfterLines(parse, NO_REPLY, lines[..k], callback), lines[k], callback);
      FeedManyAfter(AllDeltas(parse, lines[..k]), DeltasOf(parse, lines[k]), callback);
      hide AfterLine, FeedAll, FeedMany, DeltasOf;
    }
  }

  /** The tool calls of a reply are what the deltas of its lines spell, one call for each index in order
      of first appearance; and the callback was called once for each of them, in that order. */
  lemma ReplyHasSpelledCalls(parse: Parser, lines: seq<string>)
    ensures var tools := ReplyTo(parse, lines, true).tools;
            && PartsSpell(tools.parts, AllDeltas(parse, lines))
            && |tools.emitted| == |tools.parts|
            && forall j :: 0 <= j < |tools.parts| ==> tools.emitted[j].index == tools.parts[j].index
    ensures var tools := ReplyTo(parse, lines, false).tools;
            PartsSpell(tools.parts, AllDeltas(parse, lines)) && tools.emitted == []
  {
    var ds := AllDeltas(parse, lines);
    ToolsOfLines(parse, lines, true);
    ToolsOfLines(parse, lines, false);
    AssemblyIsSpelling(ds, true);
    AssemblyIsSpelling(ds, false);
    CallbackOncePerIndex(ds);
    NoCallbackNoCalls(ds);
    hide FeedAll, Opened, ClosedAfter, AfterLines;
  }

  lemma ConcatMore(texts: seq<string>, text: string)
    ensures Concat(texts + [text]) == Concat(texts) + text
  {
    assert (texts + [text])[..|texts|] == texts;
  }

  lemma SpeechAddsUp(r: Reply, c: Chunk, callback: bool)
    requires r.text == Concat(r.deltas) && r.thinking == Concat(r.thinkingDeltas)
    ensures var r' := AfterChunk(r, c, callback);
            r'.text == Concat(r'.deltas) && r'.thinking == Concat(r'.thinkingDeltas)
  {
    if c.delta.Some? {
      var d := c.delta.value;
      ConcatMore(r.deltas, d.content);
      ConcatMore(r.thinkingDeltas, d.reasoningContent);
      ConcatMore(r.thinkingDeltas, d.reasoning);
      hide Concat, FeedMany;
    }
  }

  /** The text and the thinking of a reply are exactly what was streamed to the callbacks. */
  lemma {:induction false} StreamedTextAddsUp(parse: Parser, lines: seq<string>, callback: bool)
    ensures var r := AfterLines(parse, NO_REPLY, lines, callback);
            r.text == Concat(r.deltas) && r.thinking == Concat(r.thinkingDeltas)
  {
    if lines != [] {
      var k := |lines| - 1;
      StreamedTextAddsUp(parse, lines[..k], callback);
      var r := AfterLines(parse, NO_REPLY, lines[..k], callback);
      if IsData(lines[k]) && parse(lines[k][6..]).Json? {
        SpeechAddsUp(r, parse(lines[k][6..]).chunk, callback);
      }
      hide AfterChunk, Concat;
    }
  }

  // ---- What the lines say, apart from how they are read ----

  /** The chunk of a line, if the line has one and the chunk has a delta. */
  function ChunkOf(parse: Parser, line: string): (c: Option<Chunk>)
    ensures c.Some? ==> c.value.delta.Some?
  {
    if |line| < 6 || line[..6] != "data: " then None
    else
      match parse(line[6..])
      case Json(chunk) => if chunk.delta == None then None else Some(chunk)
      case Done => None
      case Malformed => None
  }

  /** The non-empty pieces of content, in order. */
  function ContentsOf(parse: Parser, lines: seq<string>): seq<string> {
    if lines == [] then []
    else
      var before, c := ContentsOf(parse, lines[..|lines| - 1]), ChunkOf(parse, lines[|lines| - 1]);
      if c.None? || c.value.delta.value.content == "" then before else before + [c.value.delta.value.content]
  }

  /** The non-empty pieces of thinking, in order: of each chunk `reasoning_content` or, when that is
      empty, `reasoning`. */
  function ThinkingOf(parse: Parser, lines: seq<string>): seq<string> {
    if lines == [] then []
    else
      var before, c := ThinkingOf(parse, lines[..|lines| - 1]), ChunkOf(parse, lines[|lines| - 1]);
      if c.None? then before
      else if c.value.delta.value.reasoningContent != "" then before + [c.value.delta.value.reasoningContent]
      else if c.value.delta.value.reasoning != "" then before + [c.value.delta.value.reasoning]
      else before
  }

  /** The last finish reason given. */
  function LastFinishReason(parse: Parser, lines: seq<string>): string {
    if lines == [] then ""
    else
      var c := ChunkOf(parse, lines[|lines| - 1]);
      if c.Some? && c.value.finishReason != "" then c.value.finishReason
      else LastFinishReason(parse, lines[..|lines| - 1])
  }

  /** The last usage given. */
  function LastUsage(parse: Parser, lines: seq<string>): Option<(int, int)> {
    if lines == [] then None
    else
      var c := ChunkOf(parse, lines[|lines| - 1]);
      if c.Some? && c.value.usage.Some? then c.value.usage else LastUsage(parse, lines[..|lines| - 1])
  }

  lemma LineHasChunk(parse: Parser, r: Reply, line: string, callback: bool)
    ensures var c := ChunkOf(parse, line);
            AfterLine(parse, r, line, callback) == if c.Some? then AfterChunk(r, c.value, callback) else r
  {
    hide FeedMany, Think, Say;
  }

  lemma {:induction false} LinesAreRead(parse: Parser, lines: seq<string>, callback: bool)
    ensures var r := AfterLines(parse, NO_REPLY, lines, callback);
            && r.deltas == ContentsOf(parse, lines) && r.thinkingDeltas == ThinkingOf(parse, lines)
            && r.finishReason == LastFinishReason(parse, lines) && r.usage == LastUsage(parse, lines)
  {
    if lines != [] {
      var k := |lines| - 1;
      LinesAreRead(parse, lines[..k], callback);
      LineHasChunk(parse, AfterLines(parse, NO_REPLY, lines[..k], callback), lines[k], callback);
      hide AfterLine, FeedMany, ChunkOf;
    }
  }

  /** What a reply to the lines consists of: its text is the pieces of content one behind the other, its
      thinking the pieces of thinking, both handed to the callbacks piece by piece; finish reason and
      usage are the last ones given. */
  lemma ReplyIsRead(parse: Parser, lines: seq<string>, callback: bool)
    ensures var r := ReplyTo(parse, lines, callback);
            && r.deltas == ContentsOf(parse, lines) && r.text == Concat(ContentsOf(parse, lines))
            && r.thinkingDeltas == ThinkingOf(parse, lines) && r.thinking == Concat(ThinkingOf(parse, lines))
            && r.finishReason == LastFinishReason(parse, lines) && r.usage == LastUsage(parse, lines)
  {
    LinesAreRead(parse, lines, callback);
    StreamedTextAddsUp(parse, lines, callback);
    hide AfterLines, Emit, ContentsOf, ThinkingOf, LastFinishReason, LastUsage;
  }
}
