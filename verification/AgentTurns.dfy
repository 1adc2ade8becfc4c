/** What the turns of a run leave behind: the messages they record, the requests they send, and when and
    how a run ends, each told from what the environment did. */
module AgentTurns {
  import opened Wrappers
  import opened History
  import opened Sessions
  import opened Strings
  import opened AgentRun
  import Abort
  import Compaction
  import Microcompact
  import SessionRepair
  import Truncation

  // ---- What a turn records ----

  /** An output is shown as it is or, when it is too long, by its first 90,000 and its last 50,000
      characters. */
  ghost predicate ShowsOutput(shown: string, text: string, maxChars: nat) {
    if |text| <= maxChars then shown == text
    else
      var first, last := if |text| < 90_000 then |text| else 90_000, if |text| < 50_000 then |text| else 50_000;
      && |shown| >= first + last
      && shown[..first] == text[..first]
      && shown[|shown| - last..] == text[|text| - last..]
      && shown[first..|shown| - last] == "\n\n[... " + IntToString(|text| - 140_000) + " chars omitted ...]\n\n"
  }

  lemma OutputIsShown(text: string, maxChars: nat)
    ensures ShowsOutput(CompactToolResult(text, maxChars), text, maxChars)
  {
    if |text| > maxChars {
      var first, last := if |text| < 90_000 then |text| else 90_000, if |text| < 50_000 then |text| else 50_000;
      var note := "\n\n[... " + IntToString(|text| - 140_000) + " chars omitted ...]\n\n";
      hide IntToString;
      assert text[..|text|] == text && text[0..] == text;
      Between(text[..first], note, text[|text| - last..]);
      NoteParts(text[..first], IntToString(|text| - 140_000), text[|text| - last..]);
      hide *;
    }
  }

  lemma Between(head: string, note: string, tail: string)
    ensures var s := head + note + tail;
            s[..|head|] == head && s[|s| - |tail|..] == tail && s[|head|..|s| - |tail|] == note
  {
  }

  lemma NoteParts(head: string, number: string, tail: string)
    ensures head + "\n\n[... " + number + " chars omitted ...]\n\n" + tail
         == head + ("\n\n[... " + number + " chars omitted ...]\n\n") + tail
  {
  }

  ghost predicate IsReply(m: Message, text: string, calls: seq<ToolCall>) {
    && m.role == Assistant && m.toolCallId == "" && m.toolCalls == calls
    && m.content == (if text == "" then None else Some(text))
  }

  ghost predicate IsOutput(m: Message, call: ToolCall, output: Output, maxChars: nat) {
    && m.role == Tool && m.toolCallId == call.id && m.toolCalls == [] && m.content.Some?
    && ShowsOutput(m.content.value, output.text, maxChars)
  }

  /** At position `at` there is the assistant message, and right after it, for each call, the message with
      its own output. */
  ghost predicate RecordsRound(ms: seq<Message>, at: int, cfg: Config, r: Outcome)
    requires r.Reply? && |r.outputs| == |r.calls|
  {
    && 0 <= at && at + 1 + |r.calls| <= |ms|
    && IsReply(ms[at], r.text, r.calls)
    && forall k :: 0 <= k < |r.calls| ==>
         IsOutput(ms[at + 1 + k], r.calls[k], r.outputs[k], cfg.maxToolResultChars)
  }

  lemma RoundIsRecorded(before: seq<Message>, cfg: Config, turn: Turn)
    requires turn.Valid() && turn.CallsTools()
    ensures var ms := before + ReplyMessages(cfg, turn, 0);
            |ms| == |before| + 1 + |turn.outcome.calls| && RecordsRound(ms, |before|, cfg, turn.outcome)
  {
    hide CompactToolResult, ShowsOutput;
    var r := turn.outcome;
    var ms, results := before + ReplyMessages(cfg, turn, 0), Results(cfg, r.calls, r.outputs);
    forall k | 0 <= k < |r.calls|
      ensures IsOutput(ms[|before| + 1 + k], r.calls[k], r.outputs[k], cfg.maxToolResultChars)
    {
      OutputIsShown(r.outputs[k].text, cfg.maxToolResultChars);
      assert ms[|before| + 1 + k] == results[k];
    }
  }

  /** From position `at` on there is what came of the outcome of a turn, after `recoveries` replies that
      were continued, and nothing else. */
  ghost predicate RecordsOutcome(cfg: Config, turn: Turn, ms: seq<Message>, at: nat, recoveries: nat)
    requires turn.Valid() && at <= |ms|
  {
    match turn.outcome
    case Reply(text, calls, _, cutShort) =>
      if calls != [] then |ms| == at + 1 + |calls| && RecordsRound(ms, at, cfg, turn.outcome)
      else
        && |ms| == at + (if cutShort && recoveries < 3 then 2 else 1)
        && IsReply(ms[at], text, [])
        && (|ms| == at + 2 ==> ms[at + 1] == Message(User, Some(cfg.words.continueRequest), "", []))
    case ToolsThrew(text, calls, _) => |ms| == at + 1 && IsReply(ms[at], text, calls)
    case PromptTooLong(_, _) => |ms| == at
    case Failed(_) => |ms| == at
  }

  /** What a turn of a run appends to the transcript that was `before`: the queued messages, then what
      came of its outcome. */
  ghost predicate Records(cfg: Config, turn: Turn, before: seq<Message>, after: seq<Message>, recoveries: nat)
    requires turn.Valid()
  {
    var at := |before| + |turn.queued|;
    && before <= after && at <= |after|
    && (forall i :: 0 <= i < |turn.queued| ==>
          after[|before| + i] == Message(User, Some(turn.queued[i]), "", []))
    && RecordsOutcome(cfg, turn, after, at, recoveries)
  }

  lemma OutcomeLogRecords(cfg: Config, turn: Turn, before: seq<Message>, recoveries: nat)
    requires turn.Valid()
    ensures RecordsOutcome(cfg, turn, before + OutcomeLog(cfg, turn, recoveries), |before|, recoveries)
  {
    hide RecordsRound, Results, IntToString;
    if turn.CallsTools() {
      RoundIsRecorded(before, cfg, turn);
      assert OutcomeLog(cfg, turn, recoveries) == ReplyMessages(cfg, turn, 0);
    }
  }

  lemma TurnLogRecords(cfg: Config, turn: Turn, before: seq<Message>, recoveries: nat)
    requires turn.Valid() && !turn.aborted
    ensures Records(cfg, turn, before, before + TurnLog(cfg, turn, recoveries), recoveries)
  {
    hide RecordsOutcome, OutcomeLog;
    var queued := before + QueuedMessages(turn.queued);
    OutcomeLogRecords(cfg, turn, queued, recoveries);
    assert before + TurnLog(cfg, turn, recoveries) == queued + OutcomeLog(cfg, turn, recoveries);
    assert forall i :: 0 <= i < |turn.queued| ==> queued[|before| + i] == Text(User, turn.queued[i]);
  }

  /** A turn in which the run is not aborted records what it did in the transcript, and when the run goes
      on after a reply, the same messages stand in the context behind what was sent. */
  lemma TurnIsRecorded(cfg: Config, turn: Turn, p: Progress, marker: string)
    requires cfg.Valid() && turn.Valid() && p.context != [] && !turn.aborted
    ensures var q := Turned(cfg, turn, p, marker);
            var sent := Sent(cfg, p.turns, turn, p.context);
            && Records(cfg, turn, p.transcript, q.transcript, p.tally.recoveries)
            && q.requests == p.requests + [sent]
            && (q.stopped.None? && turn.outcome.Reply? ==>
                  q.context == sent + q.transcript[|p.transcript| + |turn.queued|..])
  {
    TurnLogRecords(cfg, turn, p.transcript, p.tally.recoveries);
    LogParts(cfg, turn, p.transcript, p.tally.recoveries);
    hide Records, TurnLog, Sent, SummaryAfterTurn, GoesOn, Counted, Stop;
  }

  /** A turn that finds the run aborted sends nothing and adds only the results that the context lacks. */
  lemma AbortIsRecorded(cfg: Config, turn: Turn, p: Progress, marker: string)
    requires cfg.Valid() && turn.Valid() && p.context != [] && turn.aborted
    ensures var q := Turned(cfg, turn, p, marker);
            && q.transcript == p.transcript + Abort.Synthesized(p.context, marker)
            && q.requests == p.requests && q.summary == p.summary && q.stopped != None
  {
    hide Abort.Synthesized, Stop;
  }

  lemma LogParts(cfg: Config, turn: Turn, before: seq<Message>, recoveries: nat)
    requires turn.Valid() && !turn.aborted
    ensures |before + TurnLog(cfg, turn, recoveries)| >= |before| + |turn.queued|
    ensures (before + TurnLog(cfg, turn, recoveries))[|before| + |turn.queued|..] == OutcomeLog(cfg, turn, recoveries)
  {
    hide OutcomeLog;
  }

  /** Nothing that was recorded is ever taken back. */
  lemma {:induction false} TranscriptGrows(cfg: Config, start: Progress, env: seq<Turn>, k: nat, n: nat, marker: string)
    requires cfg.Valid() && start.context != [] && k <= n <= |env| && forall t :: t in env ==> t.Valid()
    ensures After(cfg, start, env, k, marker).transcript <= After(cfg, start, env, n, marker).transcript
  {
    hide PassLog, Sent, SummaryAfterTurn, GoesOn, Counted, Stop, AgentRun.Next;
    if k < n {
      TranscriptGrows(cfg, start, env, k, n - 1, marker);
    }
  }

  lemma RoundStays(before: seq<Message>, after: seq<Message>, at: int, cfg: Config, r: Outcome)
    requires r.Reply? && |r.outputs| == |r.calls| && before <= after && RecordsRound(before, at, cfg, r)
    ensures RecordsRound(after, at, cfg, r)
  {
    hide IsOutput, IsReply;
    assert after[at] == before[at];
    forall k | 0 <= k < |r.calls|
      ensures IsOutput(after[at + 1 + k], r.calls[k], r.outputs[k], cfg.maxToolResultChars)
    {
      assert IsOutput(before[at + 1 + k], r.calls[k], r.outputs[k], cfg.maxToolResultChars);
    }
  }

  lemma AfterStep(cfg: Config, start: Progress, env: seq<Turn>, k: nat, marker: string)
    requires cfg.Valid() && start.context != [] && k < |env| && forall t :: t in env ==> t.Valid()
    requires After(cfg, start, env, k, marker).stopped.None?
    ensures env[k].Valid()
    ensures After(cfg, start, env, k + 1, marker) == Turned(cfg, env[k], After(cfg, start, env, k, marker), marker)
  {
    hide Turned;
    assert env[k] in env;
  }

  /** In the transcript of a run every round of tool calls is found where it happened: the assistant
      message and right behind it, for each call, the message that answers it with its own output. */
  lemma EveryRoundIsRecorded(cfg: Config, start: Progress, env: seq<Turn>, k: nat, n: nat, marker: string)
    requires cfg.Valid() && start.context != [] && k < n <= |env| && forall t :: t in env ==> t.Valid()
    requires After(cfg, start, env, k, marker).stopped.None? && !env[k].aborted && env[k].CallsTools()
    ensures var at := |After(cfg, start, env, k, marker).transcript| + |env[k].queued|;
            env[k].Valid() && RecordsRound(After(cfg, start, env, n, marker).transcript, at, cfg, env[k].outcome)
  {
    hide Turned, RecordsRound, After;
    var p := After(cfg, start, env, k, marker);
    AfterStep(cfg, start, env, k, marker);
    TurnIsRecorded(cfg, env[k], p, marker);
    TranscriptGrows(cfg, start, env, k + 1, n, marker);
    RoundStays(Turned(cfg, env[k], p, marker).transcript, After(cfg, start, env, n, marker).transcript,
               |p.transcript| + |env[k].queued|, cfg, env[k].outcome);
  }

  // ---- When and how a run ends ----

  /** What a run does after its turns `env`, the last of which was `turn`: None when it goes on. */
  ghost function Verdict(cfg: Config, before: seq<Turn>, turn: Turn): Option<Ending>
    requires cfg.Valid() && turn.Valid() && forall t :: t in before ==> t.Valid()
  {
    var env := before + [turn];
    if turn.aborted then Some(Answered(cfg.words.abortedByUser))
    else
      match turn.outcome
      case Failed(error) => Some(Answered(cfg.words.errorPrefix + error))
      case ToolsThrew(_, _, error) => Some(Threw(error))
      case PromptTooLong(error, summary) =>
        if summary != None && Overflows(before) == 0 then None else Some(Answered(cfg.words.errorPrefix + error))
      case Reply(text, calls, _, cutShort) =>
        if calls == [] then (if cutShort && PlainReplies(before) < 3 then None else Some(Answered(text)))
        else if TrailingTrue(Rounds(env)) >= cfg.doomLoopThreshold then Some(Answered(cfg.words.repeatedFailures))
        else if EndsInRepetition(Signatures(env), cfg.repetitionThreshold) then Some(Answered(cfg.words.repeatedCalls))
        else None
  }

  ghost predicate EndsInRepetition(sigs: seq<string>, n: nat) {
    |sigs| >= n && forall i, j :: |sigs| - n <= i < j < |sigs| ==> sigs[i] == sigs[j]
  }

  lemma RepetitiveIff(sigs: seq<string>, n: nat)
    requires n >= 1
    ensures Repetitive(sigs, n) <==> EndsInRepetition(sigs, n)
  {
    if EndsInRepetition(sigs, n) {
      forall k | |sigs| - n <= k < |sigs| ensures sigs[k] == sigs[|sigs| - n] {
        if k > |sigs| - n { assert sigs[|sigs| - n] == sigs[k]; }
      }
    }
  }

  lemma VerdictStep(cfg: Config, tally: Tally, before: seq<Turn>, turn: Turn)
    requires cfg.Valid() && turn.Valid() && forall t :: t in before ==> t.Valid()
    requires InBounds(cfg, tally, before)
    ensures GoesOn(cfg, tally, turn) <==> Verdict(cfg, before, turn) == None
    ensures !GoesOn(cfg, tally, turn) ==> Verdict(cfg, before, turn) == Some(Stop(cfg, tally, turn))
  {
    AppendTurn(before, turn);
    RepetitiveIff(Signatures(before + [turn]), cfg.repetitionThreshold);
    hide Rounds, Signatures, PlainReplies, Overflows, TrailingTrue, SignaturesOf, AllFailed, Repetitive,
      EndsInRepetition;
    if turn.CallsTools() {
      AppendRound(Rounds(before), AllFailed(turn.outcome.outputs));
    }
  }

  /** A run goes on after a turn, or ends, exactly as what its turns brought about says. */
  lemma RunEndsIff(cfg: Config, start: Progress, env: seq<Turn>, k: nat, marker: string)
    requires cfg.Valid() && start.context != [] && k < |env| && forall t :: t in env ==> t.Valid()
    requires start.turns == 0 && start.tally == NOTHING && start.requests == []
    requires After(cfg, start, env, k, marker).stopped.None?
    ensures After(cfg, start, env, k + 1, marker).stopped == Verdict(cfg, env[..k], env[k])
  {
    RunIsBounded(cfg, start, env, k, marker);
    var p := After(cfg, start, env, k, marker);
    hide InBounds, Verdict, GoesOn, Stop, PassLog, Sent, SummaryAfterTurn, Counted, AgentRun.Next;
    VerdictStep(cfg, p.tally, env[..k], env[k]);
  }

  /** Signatures tell two calls of one tool apart by the first 80 characters of their arguments. */
  lemma SignatureIff(name: string, a: string, b: string)
    ensures Signature(name, a) == Signature(name, b) <==>
            a == b || (|a| >= 80 && |b| >= 80 && a[..80] == b[..80])
  {
    var x, y := if |a| <= 80 then a else a[..80], if |b| <= 80 then b else b[..80];
    assert Signature(name, a)[|name| + 1..] == x && Signature(name, b)[|name| + 1..] == y;
    assert |a| == 80 ==> a[..80] == a;
    assert |b| == 80 ==> b[..80] == b;
  }

  // ---- What is sent ----

  /** The history that is left when old results have been cleared and, if it was still too large, the
      oldest turns cut away and the results left without their calls converted. */
  ghost predicate IsPrepared(cfg: Config, context: seq<Message>, r: seq<Message>)
    requires context != []
  {
    var cleared := Microcompact.Compacted(context, 5);
    exists truncated :: Truncation.IsTruncation(cleared, cfg.maxContextChars, truncated)
      && r == if |truncated| < |cleared| then Compaction.RepairResults(truncated) else cleared
  }

  /** `b` is `a` with the text a hook gave for the first message. */
  ghost predicate WithPrompt(a: seq<Message>, b: seq<Message>, text: string) {
    && |b| == |a| > 0 && b[1..] == a[1..]
    && b[0].role == a[0].role && b[0].content == Some(text)
    && b[0].toolCallId == a[0].toolCallId && b[0].toolCalls == a[0].toolCalls
  }

  /** The request a turn sends: the prepared context, in the first turn with the system prompt the hook
      gives. */
  lemma SentIs(cfg: Config, k: nat, turn: Turn, context: seq<Message>) returns (prepared: seq<Message>)
    requires context != []
    ensures IsPrepared(cfg, context, prepared)
    ensures k > 0 || turn.hook == None ==> Sent(cfg, k, turn, context) == prepared
    ensures k == 0 && turn.hook != None
            && prepared != [] && prepared[0].role == System && prepared[0].content != None ==>
              WithPrompt(prepared, Sent(cfg, k, turn, context), turn.hook.value)
  {
    var cleared := Microcompact.Compacted(context, 5);
    prepared := Prepared(cfg, context);
    Truncation.TruncatedIsTruncation(cleared, cfg.maxContextChars);
    hide Truncation.Truncated, Truncation.IsTruncation, Microcompact.Compacted, Compaction.RepairResults;
    assert IsPrepared(cfg, context, prepared);
  }

  /** After a prompt that was too long: the system message, the summary in two messages, and the newer
      half of what was sent, repaired. */
  lemma HalvedIs(cfg: Config, turn: Turn, p: Progress, marker: string)
    requires cfg.Valid() && turn.Valid() && p.context != [] && !turn.aborted
    requires turn.outcome.PromptTooLong? && Turned(cfg, turn, p, marker).stopped == None
    ensures turn.outcome.summary != None && |Sent(cfg, p.turns, turn, p.context)| > 0
    ensures var sent, next := Sent(cfg, p.turns, turn, p.context), Turned(cfg, turn, p, marker).context;
            && |next| >= 3 && next[0] == sent[0]
            && next[1] == Message(User, Some(cfg.words.summaryHeading + turn.outcome.summary.value), "", [])
            && next[2] == Message(Assistant, Some(cfg.words.summaryReply), "", [])
            && next[3..] == Compaction.RepairResults(sent[1 + (|sent| - 1) / 2..])
            && Turned(cfg, turn, p, marker).summary == turn.outcome.summary
  {
    hide Sent, Prepared, Compaction.RepairResults, SummaryAfterPreparing, PassLog, Counted;
    SentIsNotEmpty(cfg, p.turns, turn, p.context);
  }

  lemma SentIsNotEmpty(cfg: Config, k: nat, turn: Turn, context: seq<Message>)
    requires context != []
    ensures |Sent(cfg, k, turn, context)| > 0
  {
    hide Truncation.Total, Truncation.CutFrom;
  }

  /** A run begins with the user message behind the transcript, and a context built from that. */
  lemma BegunIs(cfg: Config, system: string, input: string, transcript: seq<Message>, summary: Option<string>)
    ensures var p := Begun(cfg, system, input, transcript, summary);
            && p.transcript == transcript + [Message(User, Some(input), "", [])]
            && p.context == Request(cfg.words, system, summary, p.transcript)
            && p.summary == summary && p.requests == [] && p.stopped == None && p.turns == 0
  {
  }

  /** The session summary is set by a turn that compacts a prompt that was too long, or by the first
      turn that drops more than two messages for which a summary could be made. */
  lemma SummaryIs(cfg: Config, turn: Turn, p: Progress, marker: string)
    requires cfg.Valid() && turn.Valid() && p.context != []
    ensures var cleared := Microcompact.Compacted(p.context, 5);
            var dropped := |cleared| - |Truncation.Truncated(cleared, cfg.maxContextChars)|;
            Turned(cfg, turn, p, marker).summary ==
            if turn.aborted then p.summary
            else if turn.outcome.PromptTooLong? && turn.outcome.summary != None && p.tally.compactions == 0
            then turn.outcome.summary
            else if dropped > 2 && (p.summary == None || p.summary == Some("")) && turn.droppedSummary != None
            then turn.droppedSummary
            else p.summary
  {
    hide Truncation.Truncated, Microcompact.Compacted, PassLog, Sent, AgentRun.Next, Counted, Stop;
  }

  /** A run that has stopped returns the text, or throws the error, that it stopped with. */
  lemma StoppedResult(cfg: Config, p: Progress)
    requires p.stopped != None
    ensures Some(Result(cfg, p)) == p.stopped
  {
  }

  /** The result of a run that used up its turns is the text of its last reply, if that has any. */
  lemma UnstoppedResult(cfg: Config, start: Progress, env: seq<Turn>, n: nat, marker: string)
    requires cfg.Valid() && start.context != [] && n <= |env| && forall t :: t in env ==> t.Valid()
    requires start.tally == NOTHING && After(cfg, start, env, n, marker).stopped == None
    ensures var text := LastText(env[..n]);
            Result(cfg, After(cfg, start, env, n, marker))
            == Answered(if text == "" then cfg.words.maxIterations else text)
  {
    LastTextIs(cfg, start, env, n, marker);
    hide After, LastText;
  }

  /** The text of the last reply. */
  function LastText(env: seq<Turn>): string {
    if env == [] then ""
    else if env[|env| - 1].outcome.Reply? then env[|env| - 1].outcome.text
    else LastText(env[..|env| - 1])
  }

  lemma {:induction false} LastTextIs(cfg: Config, start: Progress, env: seq<Turn>, n: nat, marker: string)
    requires cfg.Valid() && start.context != [] && n <= |env| && forall t :: t in env ==> t.Valid()
    requires start.tally == NOTHING && After(cfg, start, env, n, marker).stopped == None
    ensures After(cfg, start, env, n, marker).tally.lastText == LastText(env[..n])
  {
    hide PassLog, Sent, SummaryAfterTurn, Stop, AgentRun.Next, SignaturesOf, AllFailed, Repetitive;
    if n > 0 {
      LastTextIs(cfg, start, env, n - 1, marker);
      assert env[..n][..n - 1] == env[..n - 1];
    }
  }
}
