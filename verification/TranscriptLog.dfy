/** The task transcript of src/task/disk.ts, one serialised turn a line, and its replay into a session
    by `resumeTask` of src/loop/dual.ts. */
module TranscriptLog {
  import opened Wrappers
  import opened TextLines
  import H = History
  import Sessions

  datatype Turn =
    | UserTurn(content: string)
    | AssistantTurn(content: string, toolCalls: seq<H.ToolCall>)
    | ToolTurn(toolCallId: string, name: string, content: string)
    | StatusTurn(status: string, reason: string)

  /** `JSON.stringify` and `JSON.parse` on turns. */
  datatype Codec = Codec(write: Turn -> string, read: string -> Turn)

  /** Stringified JSON is never empty, has no raw newline and parses to what it was made from. */
  ghost predicate Faithful(codec: Codec) {
    forall t: Turn :: codec.write(t) != [] && NewlineFree(codec.write(t)) && codec.read(codec.write(t)) == t
  }

  class TurnFile {
    const codec: Codec
    /** Nothing while the file does not exist. */
    var text: Option<string>
    /** The turns appended so far. */
    ghost var turns: seq<Turn>

    ghost predicate Valid()
      reads this
    {
      Faithful(codec) && text == Log(codec, turns)
    }

    constructor (codec: Codec)
      ensures text == None && turns == [] && this.codec == codec
      ensures Faithful(codec) ==> Valid()
    {
      this.codec, text, turns := codec, None, [];
    }

    method AppendTurn(turn: Turn)
      modifies this
      ensures text == Some(TextOf(old(text)) + codec.write(turn) + ['\n'])
      ensures turns == old(turns) + [turn] && (old(Valid()) ==> Valid())
    {
      text, turns := Some(TextOf(text) + codec.write(turn) + ['\n']), turns + [turn];
      assert turns[..|turns| - 1] == old(turns);
    }

    /** Split at newlines, drop empty lines, parse the rest: the turns appended so far. */
    method ReadTranscript() returns (r: seq<Turn>)
      ensures r == Turns(codec, text)
      ensures Valid() ==> r == turns
    {
      hide Split, Log, Faithful;
      if Valid() { ReadsWhatWasAppended(codec, turns); }
      if text == None { return []; }
      var lines := Split(text.value);
      r := [];
      for i := 0 to |lines|
        invariant r == Parsed(codec, lines[..i])
      {
        assert lines[..i + 1][..i] == lines[..i];
        if lines[i] != [] {
          r := r + [codec.read(lines[i])];
        }
      }
      assert lines[..|lines|] == lines;
    }
  }

  function TextOf(text: Option<string>): string {
    if text.Some? then text.value else []
  }

  function Parsed(codec: Codec, lines: seq<string>): seq<Turn> {
    if lines == [] then []
    else
      var k := |lines| - 1;
      Parsed(codec, lines[..k]) + if lines[k] != [] then [codec.read(lines[k])] else []
  }

  function Turns(codec: Codec, text: Option<string>): seq<Turn> {
    if text.None? then [] else Parsed(codec, Split(text.value))
  }

  /** A file to which these turns have been appended. */
  function Log(codec: Codec, turns: seq<Turn>): Option<string> {
    if turns == [] then None
    else
      var k := |turns| - 1;
      Some(TextOf(Log(codec, turns[..k])) + codec.write(turns[k]) + ['\n'])
  }

  lemma {:induction false} ParsedConcat(codec: Codec, a: seq<string>, b: seq<string>)
    ensures Parsed(codec, a + b) == Parsed(codec, a) + Parsed(codec, b)
  {
    if b == [] {
      assert a + b == a;
      assert Parsed(codec, a) + [] == Parsed(codec, a);
    } else {
      var k := |b| - 1;
      ParsedConcat(codec, a, b[..k]);
      assert (a + b)[..|a| + k] == a + b[..k];
    }
  }

  lemma LineSplits(line: string)
    requires NewlineFree(line)
    ensures Split(line + ['\n']) == [line, []]
  {
    SplitPrefix(line, ['\n']);
    assert Split(['\n']) == [[], []] by {
      PushIsSplit('\n', []);
      assert ['\n'] + [] == ['\n'];
    }
    assert line + [] == line;
  }

  /** A log ends in a newline, so another turn comes on a line of its own. */
  lemma AppendedLine(codec: Codec, text: string, turn: Turn)
    requires Faithful(codec) && Residue(text) == []
    ensures var text' := text + codec.write(turn) + ['\n'];
            && Parsed(codec, Split(text')) == Parsed(codec, Split(text)) + [turn]
            && Residue(text') == []
  {
    var line := codec.write(turn);
    assert text + line + ['\n'] == text + (line + ['\n']);
    SplitMore(text, line + ['\n']);
    assert [] + (line + ['\n']) == line + ['\n'];
    LineSplits(line);
    assert Split(text) == Ended(text) + [[]];
    ParsedConcat(codec, Ended(text), [[]]);
    ParsedConcat(codec, Ended(text), [line, []]);
    TwoLines(codec, line);
  }

  lemma TwoLines(codec: Codec, line: string)
    requires line != []
    ensures Parsed(codec, [line, []]) == [codec.read(line)] && Parsed(codec, [[]]) == []
  {
    assert [line, []][..1] == [line] && [line][..0] == [];
    assert Parsed(codec, [line]) == [codec.read(line)];
  }

  lemma TurnsOf(codec: Codec, text: Option<string>)
    ensures Turns(codec, text) == Parsed(codec, Split(TextOf(text)))
    ensures text == None ==> Turns(codec, text) == [] && Residue(TextOf(text)) == []
  {
    if text == None {
      var line: string := [];
      assert Split([]) == [line] && [line][..0] == [];
    }
  }

  lemma LogOfNothing(codec: Codec)
    ensures Log(codec, []) == None
  {
  }

  lemma LogStep(codec: Codec, turns: seq<Turn>)
    requires turns != []
    ensures var k := |turns| - 1;
            && Log(codec, turns).Some?
            && TextOf(Log(codec, turns)) == TextOf(Log(codec, turns[..k])) + codec.write(turns[k]) + ['\n']
  {
  }

  /** Reading a transcript returns exactly the turns that were appended, in order. */
  lemma {:induction false} ReadsWhatWasAppended(codec: Codec, turns: seq<Turn>)
    requires Faithful(codec)
    ensures Turns(codec, Log(codec, turns)) == turns
    ensures Residue(TextOf(Log(codec, turns))) == []
  {
    hide *;
    if turns == [] {
      TurnsOf(codec, None);
      LogOfNothing(codec);
    } else {
      var k := |turns| - 1;
      var before := Log(codec, turns[..k]);
      ReadsWhatWasAppended(codec, turns[..k]);
      TurnsOf(codec, before);
      AppendedLine(codec, TextOf(before), turns[k]);
      LogStep(codec, turns);
      TurnsOf(codec, Log(codec, turns));
      assert turns == turns[..k] + [turns[k]];
    }
  }

  // ---- Replay ----

  /** The session message of a turn; status turns have none. */
  function MessageOf(turn: Turn): Option<H.Message> {
    match turn
    case UserTurn(content) => Some(H.Text(H.User, content))
    case AssistantTurn(content, calls) => Some(H.Message(H.Assistant, Some(content), "", calls))
    case ToolTurn(id, _, content) => Some(H.ToolResult(id, content))
    case StatusTurn(_, _) => None
  }

  function Projection(turns: seq<Turn>): seq<H.Message> {
    if turns == [] then []
    else
      var k := |turns| - 1;
      var m := MessageOf(turns[k]);
      Projection(turns[..k]) + if m.Some? then [m.value] else []
  }

  /** The turn is the record of the message: its kind is the role, and the texts, the id and the calls are
      those of the message. The tool name is not part of any message. */
  ghost predicate IsRecordOf(turn: Turn, m: H.Message) {
    match turn
    case UserTurn(content) =>
      m.role == H.User && m.content == Some(content) && m.toolCallId == "" && m.toolCalls == []
    case AssistantTurn(content, calls) =>
      m.role == H.Assistant && m.content == Some(content) && m.toolCallId == "" && m.toolCalls == calls
    case ToolTurn(id, _, content) =>
      m.role == H.Tool && m.content == Some(content) && m.toolCallId == id && m.toolCalls == []
    case StatusTurn(_, _) => false
  }

  /** The turns are records of the messages, one each and in order, with status turns anywhere between. */
  ghost predicate Record(turns: seq<Turn>, messages: seq<H.Message>) {
    if turns == [] then messages == []
    else
      var k := |turns| - 1;
      if turns[k].StatusTurn? then Record(turns[..k], messages)
      else
        && messages != []
        && IsRecordOf(turns[k], messages[|messages| - 1])
        && Record(turns[..k], messages[..|messages| - 1])
  }

  /** Replaying turns gives the messages they record, and only these. */
  lemma {:induction false} ReplayIff(turns: seq<Turn>, messages: seq<H.Message>)
    ensures Projection(turns) == messages <==> Record(turns, messages)
  {
    if turns != [] {
      var k := |turns| - 1;
      var m := MessageOf(turns[k]);
      if m.None? {
        ReplayIff(turns[..k], messages);
        assert Projection(turns) == Projection(turns[..k]) + [];
      } else if messages != [] {
        var n := |messages| - 1;
        ReplayIff(turns[..k], messages[..n]);
        assert messages == messages[..n] + [messages[n]];
        assert Projection(turns)[..|Projection(turns)| - 1] == Projection(turns[..k]);
        RecordDecides(turns[k], messages[n]);
      }
    }
  }

  lemma RecordDecides(turn: Turn, m: H.Message)
    ensures MessageOf(turn) == Some(m) <==> IsRecordOf(turn, m)
  {
  }

  /** `resumeTask` empties the session and adds a message for each turn that has one. */
  method Replay(session: Sessions.Session, turns: seq<Turn>)
    requires session.Valid()
    modifies session
    ensures session.Valid() && session.transcript == Projection(turns)
    ensures fresh(set m | m in session.messages)
  {
    session.messages := [];
    session.transcript := [];
    for i := 0 to |turns|
      invariant session.Valid() && session.transcript == Projection(turns[..i])
      invariant fresh(set m | m in session.messages)
    {
      assert turns[..i + 1][..i] == turns[..i];
      var m := MessageOf(turns[i]);
      if m.Some? {
        var message := new Sessions.MessageObject(m.value);
        session.AddMessage(message);
      }
    }
    assert turns[..|turns|] == turns;
  }

  /** The messages of a projection are those of the turns that have one, in the order of the turns. */
  ghost predicate InOrder(turns: seq<Turn>, at: seq<nat>, messages: seq<H.Message>) {
    && |at| == |messages|
    && (forall i, j :: 0 <= i < j < |at| ==> at[i] < at[j])
    && (forall i :: 0 <= i < |at| ==> at[i] < |turns| && MessageOf(turns[at[i]]) == Some(messages[i]))
    && (forall k :: 0 <= k < |turns| && MessageOf(turns[k]).Some? ==> k in at)
  }

  lemma OneMoreTurn(turns: seq<Turn>, at: seq<nat>, messages: seq<H.Message>, turn: Turn)
    requires InOrder(turns, at, messages)
    ensures MessageOf(turn).None? ==> InOrder(turns + [turn], at, messages)
    ensures MessageOf(turn).Some? ==> InOrder(turns + [turn], at + [|turns|], messages + [MessageOf(turn).value])
  {
    hide MessageOf;
    var more, at' := turns + [turn], at + [|turns|];
    forall k | 0 <= k < |turns| && MessageOf(more[k]).Some?
      ensures k in at && k in at'
    {
      assert more[k] == turns[k];
    }
    assert at'[|at|] == |turns|;
  }

  lemma {:induction false} ProjectionInOrder(turns: seq<Turn>) returns (at: seq<nat>)
    ensures InOrder(turns, at, Projection(turns))
  {
    at := [];
    if turns != [] {
      var k := |turns| - 1;
      at := ProjectionInOrder(turns[..k]);
      OneMoreTurn(turns[..k], at, Projection(turns[..k]), turns[k]);
      assert turns == turns[..k] + [turns[k]];
      hide InOrder, MessageOf;
      if MessageOf(turns[k]).Some? {
        at := at + [k];
      }
    }
  }

  /** What was appended turn by turn is what a resumed task finds in its session. */
  method RebuildSession(file: TurnFile, session: Sessions.Session)
    requires session.Valid()
    modifies session
    ensures session.Valid() && fresh(set m | m in session.messages)
    ensures file.Valid() ==> Record(file.turns, session.transcript)
  {
    var turns := file.ReadTranscript();
    Replay(session, turns);
    ReplayIff(turns, session.transcript);
  }
}
