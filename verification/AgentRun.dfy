/** The agent loop of src/agent.ts as a function of what its environment does in each turn: which
    requests it sends, what it appends to the session, when it stops. */
module AgentRun {
  import opened Wrappers
  import opened History
  import opened Sessions
  import opened Strings
  import opened Wordings
  import Abort
  import Compaction
  import Microcompact
  import SessionRepair
  import Truncation

  const MAX_OUTPUT_RECOVERY := 3
  const KEEP_RESULTS := 5

  datatype Config = Config(
    words: Wording,
    maxIterations: nat,
    maxContextChars: int,
    maxToolResultChars: nat,
    doomLoopThreshold: nat,
    repetitionThreshold: nat)
  {
    predicate Valid() {
      doomLoopThreshold >= 1 && repetitionThreshold >= 1
    }
  }

  /** What a tool call leads to. `arguments` are its arguments after the round, as JSON: a before-tool
      hook may have rewritten them since the assistant message was made. */
  datatype Output = Output(text: string, error: bool, arguments: string)

  /** What one request to the model leads to. `outputs` are the results of the tool calls in call
      order; when executing the calls throws, which nothing catches, there are none. `summary` is what
      compaction answers, None when it fails. */
  datatype Outcome =
    | Reply(text: string, calls: seq<ToolCall>, outputs: seq<Output>, cutShort: bool)
    | ToolsThrew(text: string, calls: seq<ToolCall>, error: string)
    | PromptTooLong(error: string, summary: Option<string>)
    | Failed(error: string)

  /** One pass through the loop: whether it finds the run aborted, the user messages drained from the
      queue at its start, the system prompt the hook returns, the summary of dropped turns. */
  datatype Turn = Turn(
    aborted: bool,
    queued: seq<string>,
    hook: Option<string>,
    droppedSummary: Option<string>,
    outcome: Outcome)
  {
    predicate CallsTools() {
      outcome.Reply? && outcome.calls != []
    }

    predicate Valid() {
      && (outcome.Reply? ==> |outcome.outputs| == |outcome.calls|)
      && (outcome.ToolsThrew? ==> outcome.calls != [])
    }

    function NewIds(): set<string> {
      if outcome.Reply? || outcome.ToolsThrew? then set c | c in outcome.calls :: c.id else {}
    }
  }

  // ---- Messages a turn creates ----

  function AssistantMessage(text: string, calls: seq<ToolCall>): Message {
    Message(Assistant, if text == "" then None else Some(text), "", calls)
  }

  function ContinueMessage(cfg: Config): Message {
    Text(User, cfg.words.continueRequest)
  }

  function CompactToolResult(output: string, maxChars: nat): string {
    if |output| <= maxChars then output
    else
      var head := if |output| <= 90_000 then output else output[..90_000];
      var tail := if |output| <= 50_000 then output else output[|output| - 50_000..];
      head + "\n\n[... " + IntToString(|output| - 140_000) + " chars omitted ...]\n\n" + tail
  }

  function Results(cfg: Config, calls: seq<ToolCall>, outputs: seq<Output>): (r: seq<Message>)
    requires |calls| == |outputs|
    ensures |r| == |calls|
    ensures forall m :: m in r ==> m.role == Tool
  {
    seq(|calls|, k requires 0 <= k < |calls| && |calls| == |outputs| =>
      ToolResult(calls[k].id, CompactToolResult(outputs[k].text, cfg.maxToolResultChars)))
  }

  /** What a reply adds to the conversation, after `recoveries` earlier replies that were cut short. */
  function ReplyMessages(cfg: Config, turn: Turn, recoveries: nat): seq<Message>
    requires turn.Valid() && turn.outcome.Reply?
  {
    var r := turn.outcome;
    [AssistantMessage(r.text, r.calls)]
    + if r.calls != [] then Results(cfg, r.calls, r.outputs)
      else if r.cutShort && recoveries < MAX_OUTPUT_RECOVERY then [ContinueMessage(cfg)]
      else []
  }

  function QueuedMessages(queued: seq<string>): seq<Message> {
    seq(|queued|, k requires 0 <= k < |queued| => Text(User, queued[k]))
  }

  function OutcomeLog(cfg: Config, turn: Turn, recoveries: nat): seq<Message>
    requires turn.Valid()
  {
    match turn.outcome
    case Reply(_, _, _, _) => ReplyMessages(cfg, turn, recoveries)
    case ToolsThrew(text, calls, _) => [AssistantMessage(text, calls)]
    case _ => []
  }

  /** What a turn appends to the session transcript. */
  function TurnLog(cfg: Config, turn: Turn, recoveries: nat): seq<Message>
    requires turn.Valid()
  {
    if turn.aborted then [] else QueuedMessages(turn.queued) + OutcomeLog(cfg, turn, recoveries)
  }

  // ---- Counters ----

  predicate AllFailed(outputs: seq<Output>) {
    outputs != [] && forall o :: o in outputs ==> o.error
  }

  function Signature(name: string, arguments: string): string {
    name + ":" + if |arguments| <= 80 then arguments else arguments[..80]
  }

  /** Signatures are taken after the round, so of the arguments the tools were given. */
  function SignaturesOf(calls: seq<ToolCall>, outputs: seq<Output>): seq<string>
    requires |calls| == |outputs|
  {
    seq(|calls|, k requires 0 <= k < |calls| && |calls| == |outputs| =>
      Signature(calls[k].name, outputs[k].arguments))
  }

  /** The last `n` entries exist and are all the same. */
  predicate Repetitive(sigs: seq<string>, n: nat)
    requires n >= 1
  {
    |sigs| >= n && forall k :: |sigs| - n <= k < |sigs| ==> sigs[k] == sigs[|sigs| - n]
  }

  /** What the loop counts, and the text of the last reply. */
  datatype Tally = Tally(
    errors: nat,
    signatures: seq<string>,
    recoveries: nat,
    compactions: nat,
    lastText: string)

  const NOTHING := Tally(0, [], 0, 0, "")

  function Counted(tally: Tally, turn: Turn): Tally
    requires turn.Valid()
  {
    match turn.outcome
    case Reply(text, calls, outputs, _) =>
      if calls == [] then tally.(recoveries := tally.recoveries + 1, lastText := text)
      else tally.(errors := if AllFailed(outputs) then tally.errors + 1 else 0,
                  signatures := tally.signatures + SignaturesOf(calls, outputs),
                  lastText := text)
    case PromptTooLong(_, _) => tally.(compactions := tally.compactions + 1)
    case ToolsThrew(_, _, _) => tally
    case Failed(_) => tally
  }

  /** Does the loop go on after `turn`, when it had counted `tally` before? */
  predicate GoesOn(cfg: Config, tally: Tally, turn: Turn)
    requires cfg.Valid() && turn.Valid()
  {
    && !turn.aborted
    && match turn.outcome
       case Reply(_, calls, _, cutShort) =>
         if calls == [] then cutShort && tally.recoveries < MAX_OUTPUT_RECOVERY
         else
           && Counted(tally, turn).errors < cfg.doomLoopThreshold
           && !Repetitive(Counted(tally, turn).signatures, cfg.repetitionThreshold)
       case PromptTooLong(_, summary) => summary.Some? && tally.compactions == 0
       case ToolsThrew(_, _, _) => false
       case Failed(_) => false
  }

  /** How a run ends: with the text of its result, or with an error thrown. */
  datatype Ending = Answered(text: string) | Threw(error: string)

  /** How a run ends that stops at `turn`. */
  function Stop(cfg: Config, tally: Tally, turn: Turn): Ending
    requires turn.Valid()
  {
    if turn.aborted then Answered(cfg.words.abortedByUser)
    else match turn.outcome
      case ToolsThrew(_, _, error) => Threw(error)
      case Failed(error) => Answered(cfg.words.errorPrefix + error)
      case PromptTooLong(error, _) => Answered(cfg.words.errorPrefix + error)
      case Reply(text, calls, _, _) =>
        if calls == [] then Answered(text)
        else if Counted(tally, turn).errors >= cfg.doomLoopThreshold then Answered(cfg.words.repeatedFailures)
        else Answered(cfg.words.repeatedCalls)
  }

  // ---- The context array ----

  function Prepared(cfg: Config, context: seq<Message>): seq<Message>
    requires context != []
  {
    var cleared := Microcompact.Compacted(context, KEEP_RESULTS);
    var truncated := Truncation.Truncated(cleared, cfg.maxContextChars);
    Cut(cleared, truncated)
  }

  /** Truncation that removed something is followed by a repair. */
  function Cut(cleared: seq<Message>, truncated: seq<Message>): seq<Message> {
    if |truncated| < |cleared| then Compaction.RepairResults(truncated) else cleared
  }

  /** The before-prompt hook rewrites the first system message in the first turn. */
  function Hooked(turn: Turn, k: nat, context: seq<Message>): seq<Message> {
    if k == 0 && turn.hook.Some? && context != [] && context[0].role == System && context[0].content.Some?
    then [context[0].(content := turn.hook)] + context[1..]
    else context
  }

  /** Reactive compaction: the older half becomes a summary. */
  function Halved(cfg: Config, request: seq<Message>, summary: string): seq<Message>
    requires request != []
  {
    [request[0]] + SummaryPair(cfg.words, summary) + Compaction.RepairResults(request[1 + (|request| - 1) / 2..])
  }

  function Next(cfg: Config, turn: Turn, request: seq<Message>, recoveries: nat): seq<Message>
    requires turn.Valid() && request != []
  {
    match turn.outcome
    case Reply(_, _, _, _) => request + ReplyMessages(cfg, turn, recoveries)
    case PromptTooLong(_, summary) => if summary.Some? then Halved(cfg, request, summary.value) else request
    case ToolsThrew(_, _, _) => request
    case Failed(_) => request
  }

  function NewSummary(dropped: int, turn: Turn, summary: Option<string>): Option<string> {
    var none := summary.None? || summary.value == "";
    if dropped > 2 && none && turn.droppedSummary.Some? then turn.droppedSummary else summary
  }

  /** The session summary after the context is prepared: the first truncation that drops more than
      two messages sets it. */
  function SummaryAfterPreparing(cfg: Config, turn: Turn, context: seq<Message>, summary: Option<string>)
      : Option<string>
    requires context != []
  {
    var cleared := Microcompact.Compacted(context, KEEP_RESULTS);
    NewSummary(|cleared| - |Truncation.Truncated(cleared, cfg.maxContextChars)|, turn, summary)
  }

  function SummaryAfterTurn(cfg: Config, tally: Tally, turn: Turn, context: seq<Message>, summary: Option<string>)
      : Option<string>
    requires context != []
  {
    if turn.outcome.PromptTooLong? && turn.outcome.summary.Some? && tally.compactions == 0
    then turn.outcome.summary
    else SummaryAfterPreparing(cfg, turn, context, summary)
  }

  // ---- A run, turn by turn ----

  /** How far a run has come: how many turns it took and whether and how it stopped; its
      counters; the context array; the session transcript and summary; the requests sent. */
  datatype Progress = Progress(
    turns: nat,
    stopped: Option<Ending>,
    tally: Tally,
    context: seq<Message>,
    transcript: seq<Message>,
    summary: Option<string>,
    requests: seq<seq<Message>>)

  function Begun(cfg: Config, system: string, input: string, transcript: seq<Message>, summary: Option<string>)
      : Progress
  {
    var extended := transcript + [Text(User, input)];
    Progress(0, None, NOTHING, Request(cfg.words, system, summary, extended), extended, summary, [])
  }

  /** What a turn adds to the transcript: on abort, the results the context lacks. */
  function PassLog(cfg: Config, tally: Tally, turn: Turn, context: seq<Message>, marker: string): seq<Message>
    requires turn.Valid()
  {
    if turn.aborted then Abort.Synthesized(context, marker) else TurnLog(cfg, turn, tally.recoveries)
  }

  /** The request a turn sends, `k` turns into the run. */
  function Sent(cfg: Config, k: nat, turn: Turn, context: seq<Message>): seq<Message>
    requires context != []
  {
    Hooked(turn, k, Prepared(cfg, context))
  }

  /** One turn of a run that has not stopped. The context no longer matters once it stops. */
  function Turned(cfg: Config, turn: Turn, p: Progress, marker: string): (r: Progress)
    requires cfg.Valid() && turn.Valid() && p.context != []
    ensures r.context != [] && r.turns == p.turns + 1
    ensures r.stopped.None? <==> GoesOn(cfg, p.tally, turn)
    ensures r.tally == if turn.aborted then p.tally else Counted(p.tally, turn)
    ensures |r.requests| == |p.requests| + if turn.aborted then 0 else 1
  {
    var goesOn := GoesOn(cfg, p.tally, turn);
    var transcript := p.transcript + PassLog(cfg, p.tally, turn, p.context, marker);
    var stopped := if goesOn then None else Some(Stop(cfg, p.tally, turn));
    if turn.aborted then p.(turns := p.turns + 1, stopped := stopped, transcript := transcript)
    else
      var sent := Sent(cfg, p.turns, turn, p.context);
      Progress(p.turns + 1, stopped, Counted(p.tally, turn),
               if goesOn then Next(cfg, turn, sent, p.tally.recoveries) else p.context,
               transcript,
               SummaryAfterTurn(cfg, p.tally, turn, p.context, p.summary),
               p.requests + [sent])
  }

  /** The run after at most `n` turns. */
  function After(cfg: Config, start: Progress, env: seq<Turn>, n: nat, marker: string): (r: Progress)
    requires cfg.Valid() && start.context != [] && n <= |env| && forall t :: t in env ==> t.Valid()
    ensures r.context != []
  {
    if n == 0 then start
    else
      var p := After(cfg, start, env, n - 1, marker);
      if p.stopped.Some? then p else Turned(cfg, env[n - 1], p, marker)
  }

  function Result(cfg: Config, p: Progress): Ending {
    if p.stopped.Some? then p.stopped.value
    else if p.tally.lastText != "" then Answered(p.tally.lastText)
    else Answered(cfg.words.maxIterations)
  }

  // ---- What the counters mean ----

  /** One entry for each round of tool calls: did every call fail? */
  function Rounds(env: seq<Turn>): seq<bool> {
    if env == [] then []
    else
      var turn := env[|env| - 1];
      Rounds(env[..|env| - 1]) + if turn.CallsTools() then [forall o :: o in turn.outcome.outputs ==> o.error] else []
  }

  function TrailingTrue(rounds: seq<bool>): nat {
    if rounds == [] || !rounds[|rounds| - 1] then 0 else 1 + TrailingTrue(rounds[..|rounds| - 1])
  }

  function Signatures(env: seq<Turn>): seq<string>
    requires forall t :: t in env ==> t.Valid()
  {
    if env == [] then []
    else
      var turn := env[|env| - 1];
      assert turn.Valid();
      Signatures(env[..|env| - 1])
      + if turn.CallsTools() then
          var r := turn.outcome;
          seq(|r.calls|, k requires 0 <= k < |r.calls| && |r.calls| == |r.outputs| =>
            Signature(r.calls[k].name, r.outputs[k].arguments))
        else []
  }

  function PlainReplies(env: seq<Turn>): nat {
    if env == [] then 0
    else
      var turn := env[|env| - 1];
      PlainReplies(env[..|env| - 1]) + if turn.outcome.Reply? && turn.outcome.calls == [] then 1 else 0
  }

  function Overflows(env: seq<Turn>): nat {
    if env == [] then 0
    else Overflows(env[..|env| - 1]) + if env[|env| - 1].outcome.PromptTooLong? then 1 else 0
  }

  lemma AppendTurn(before: seq<Turn>, turn: Turn)
    requires turn.Valid() && forall t :: t in before ==> t.Valid()
    ensures var now := before + [turn];
      && Rounds(now) == Rounds(before)
         + (if turn.CallsTools() then [AllFailed(turn.outcome.outputs)] else [])
      && Signatures(now) == Signatures(before)
         + (if turn.CallsTools() then SignaturesOf(turn.outcome.calls, turn.outcome.outputs) else [])
      && PlainReplies(now) == PlainReplies(before) + (if turn.outcome.Reply? && turn.outcome.calls == [] then 1 else 0)
      && Overflows(now) == Overflows(before) + (if turn.outcome.PromptTooLong? then 1 else 0)
  {
    assert (before + [turn])[..|before|] == before;
  }

  lemma AppendRound(rounds: seq<bool>, failed: bool)
    ensures TrailingTrue(rounds + [failed]) == if failed then TrailingTrue(rounds) + 1 else 0
  {
    assert (rounds + [failed])[..|rounds|] == rounds;
  }

  /** `consecutiveErrors` is the number of trailing rounds in which every call failed and below the doom
      threshold; the signatures of all calls so far do not end in a repetition; at most three replies
      were continued and at most one prompt was compacted. */
  ghost predicate InBounds(cfg: Config, tally: Tally, env: seq<Turn>)
    requires cfg.Valid() && forall t :: t in env ==> t.Valid()
  {
    && tally.errors == TrailingTrue(Rounds(env)) < cfg.doomLoopThreshold
    && tally.signatures == Signatures(env) && !Repetitive(Signatures(env), cfg.repetitionThreshold)
    && tally.recoveries == PlainReplies(env) <= MAX_OUTPUT_RECOVERY
    && tally.compactions == Overflows(env) <= 1
  }

  lemma CountedIsInBounds(cfg: Config, tally: Tally, before: seq<Turn>, turn: Turn)
    requires cfg.Valid() && turn.Valid() && forall t :: t in before ==> t.Valid()
    requires InBounds(cfg, tally, before) && GoesOn(cfg, tally, turn)
    ensures InBounds(cfg, Counted(tally, turn), before + [turn])
  {
    AppendTurn(before, turn);
    hide Rounds, Signatures, PlainReplies, Overflows, TrailingTrue, SignaturesOf, AllFailed, Repetitive;
    if turn.CallsTools() {
      AppendRound(Rounds(before), AllFailed(turn.outcome.outputs));
    } else {
      assert Rounds(before) + [] == Rounds(before) && Signatures(before) + [] == Signatures(before);
    }
  }

  /** At every head of the loop the counters are in bounds, and there was one request for each turn. */
  ghost predicate Bounded(cfg: Config, p: Progress, env: seq<Turn>)
    requires cfg.Valid() && forall t :: t in env ==> t.Valid()
  {
    && |p.requests| <= p.turns <= |env|
    && (p.stopped.None? ==> |p.requests| == p.turns == |env| && InBounds(cfg, p.tally, env))
  }

  lemma StartIsBounded(cfg: Config, start: Progress)
    requires cfg.Valid() && start.turns == 0 && start.tally == NOTHING && start.requests == []
    ensures Bounded(cfg, start, [])
  {
  }

  lemma TurnedIsBounded(cfg: Config, turn: Turn, p: Progress, before: seq<Turn>, marker: string)
    requires cfg.Valid() && turn.Valid() && p.context != [] && forall t :: t in before ==> t.Valid()
    requires Bounded(cfg, p, before)
    ensures Bounded(cfg, if p.stopped.Some? then p else Turned(cfg, turn, p, marker), before + [turn])
  {
    hide Turned, InBounds, Counted, Repetitive;
    if p.stopped.None? && GoesOn(cfg, p.tally, turn) {
      CountedIsInBounds(cfg, p.tally, before, turn);
    }
  }

  lemma {:induction false} RunIsBounded(cfg: Config, start: Progress, env: seq<Turn>, k: nat, marker: string)
    requires cfg.Valid() && start.context != [] && k <= |env| && forall t :: t in env ==> t.Valid()
    requires start.turns == 0 && start.tally == NOTHING && start.requests == []
    ensures Bounded(cfg, After(cfg, start, env, k, marker), env[..k])
  {
    hide Turned, Bounded;
    if k == 0 {
      StartIsBounded(cfg, start);
    } else {
      RunIsBounded(cfg, start, env, k - 1, marker);
      assert env[..k] == env[..k - 1] + [env[k - 1]];
      TurnedIsBounded(cfg, env[k - 1], After(cfg, start, env, k - 1, marker), env[..k - 1], marker);
    }
  }

  // ---- Every request is well-formed ----

  /** Call ids are never empty and never used twice. */
  ghost predicate FreshIds(env: seq<Turn>, used: set<string>) {
    env == [] || (
      var turn := env[0];
      "" !in turn.NewIds() && turn.NewIds() !! used && FreshIds(env[1..], used + turn.NewIds()))
  }

  function UsedIds(env: seq<Turn>, used: set<string>): set<string> {
    if env == [] then used else UsedIds(env[..|env| - 1], used) + env[|env| - 1].NewIds()
  }

  lemma {:induction false} FreshAt(env: seq<Turn>, used: set<string>, k: nat)
    requires FreshIds(env, used) && k < |env|
    ensures "" !in env[k].NewIds() && env[k].NewIds() !! UsedIds(env[..k], used)
    ensures UsedIds(env[..k + 1], used) == UsedIds(env[..k], used) + env[k].NewIds()
  {
    FreshPrefix(env, used, k);
    assert env[..k + 1][..k] == env[..k];
  }

  lemma {:induction false} FreshPrefix(env: seq<Turn>, used: set<string>, k: nat)
    requires FreshIds(env, used) && k <= |env|
    ensures FreshIds(env[k..], UsedIds(env[..k], used))
  {
    if k > 0 {
      FreshPrefix(env, used, k - 1);
      assert env[k - 1..][1..] == env[k..];
      assert env[..k][..k - 1] == env[..k - 1];
    }
  }

  /** What every context of a run satisfies. */
  ghost predicate GoodContext(context: seq<Message>, used: set<string>) {
    && Formed(context) && UniqueIds(context) && KnownIds(context) <= used
    && |context| >= 2 && context[0].role == System
  }

  lemma SystemPrefix(context: seq<Message>)
    requires context != [] && context[0].role == System
    ensures var prefix := [context[0]];
      && Formed(prefix) && OpenIds(prefix, {}) == {} && KnownIds(prefix) == {}
    ensures context == [context[0]] + context[1..]
  {
    PlainMessages([context[0]], {});
  }

  lemma PreparedIsGood(cfg: Config, context: seq<Message>, used: set<string>)
    requires GoodContext(context, used)
    ensures GoodContext(Prepared(cfg, context), used)
  {
    var cleared := Microcompact.Compacted(context, KEEP_RESULTS);
    var truncated := Truncation.Truncated(cleared, cfg.maxContextChars);
    Microcompact.CompactedIsFormed(context, KEEP_RESULTS);
    Microcompact.CompactedKeepsShape(context, KEEP_RESULTS);
    assert GoodContext(cleared, used);
    if |truncated| < |cleared| {
      TruncatedIsGood(cfg, cleared, used);
    }
  }

  lemma TruncatedIsGood(cfg: Config, cleared: seq<Message>, used: set<string>)
    requires GoodContext(cleared, used)
    requires |Truncation.Truncated(cleared, cfg.maxContextChars)| < |cleared|
    ensures GoodContext(Compaction.RepairResults(Truncation.Truncated(cleared, cfg.maxContextChars)), used)
  {
    var truncated := Truncation.Truncated(cleared, cfg.maxContextChars);
    Truncation.TruncatedIsTruncation(cleared, cfg.maxContextChars);
    Truncation.DroppedIsOneBlock(cleared, cfg.maxContextChars, truncated);
    var d := |cleared| - |truncated| + 1;
    assert truncated == [cleared[0]] + cleared[d..];
    SystemPrefix(cleared);
    Compaction.RepairedTailIsFormed([cleared[0]], cleared, d);
    RepairKeepsSystem(cleared[0], cleared[d..]);
  }

  lemma RepairKeepsSystem(system: Message, tail: seq<Message>)
    requires system.role == System
    ensures Compaction.RepairResults([system] + tail) == [system] + Compaction.RepairResults(tail)
  {
    KnownIdsConcat([system], tail);
    Compaction.ConvertConcat([system], tail, KnownIds(tail));
    PlainMessages([system], {});
  }

  lemma HookedIsGood(turn: Turn, k: nat, context: seq<Message>, used: set<string>)
    requires GoodContext(context, used)
    ensures GoodContext(Hooked(turn, k, context), used)
  {
    var hooked := Hooked(turn, k, context);
    Microcompact.ShapeDecides(context, hooked, {});
  }

  lemma HalvedIsGood(cfg: Config, request: seq<Message>, summary: string, used: set<string>)
    requires GoodContext(request, used)
    ensures GoodContext(Halved(cfg, request, summary), used)
  {
    var prefix := [request[0]] + SummaryPair(cfg.words, summary);
    PlainMessages(prefix, {});
    Compaction.RepairedTailIsFormed(prefix, request, 1 + (|request| - 1) / 2);
  }

  lemma ResultIds(cfg: Config, calls: seq<ToolCall>, outputs: seq<Output>)
    requires |calls| == |outputs|
    ensures RunIds(Results(cfg, calls, outputs)) == set c | c in calls :: c.id
  {
    var results := Results(cfg, calls, outputs);
    ToolRun(results, {});
    forall id ensures id in RunIds(results) <==> exists c :: c in calls && c.id == id {
      if m :| m in results && m.toolCallId == id {
        var k :| 0 <= k < |results| && results[k] == m;
        assert calls[k].id == id;
      }
      if c :| c in calls && c.id == id {
        var k :| 0 <= k < |calls| && calls[k] == c;
        assert results[k].toolCallId == id;
      }
    }
  }

  lemma PlainReplyIsGood(context: seq<Message>, plain: seq<Message>, used: set<string>)
    requires GoodContext(context, used)
    requires forall m :: m in plain ==> m.role != Tool && CallIds(m) == {}
    ensures GoodContext(context + plain, used)
  {
    PlainMessages(plain, OpenIds(context, {}));
    OwnedConcat(context, plain, {});
    AnsweredConcat(context, plain);
    KnownIdsConcat(context, plain);
    UniqueIdsConcat(context, plain);
  }

  lemma ToolRoundIsGood(cfg: Config, context: seq<Message>, turn: Turn, used: set<string>)
    requires GoodContext(context, used)
    requires turn.Valid() && turn.CallsTools() && "" !in turn.NewIds() && turn.NewIds() !! used
    ensures GoodContext(context + ReplyMessages(cfg, turn, 0), used + turn.NewIds())
  {
    var r := turn.outcome;
    var call, results := AssistantMessage(r.text, r.calls), Results(cfg, r.calls, r.outputs);
    ResultIds(cfg, r.calls, r.outputs);
    FormedExchange(context, call, results);
    SessionRepair.ToolsKnowNothing(results);
    var exchange := [call] + results;
    assert exchange[1..] == results;
    KnownIdsConcat(context, exchange);
    UniqueIdsConcat(context, exchange);
  }

  lemma NextIsGood(cfg: Config, turn: Turn, request: seq<Message>, recoveries: nat, used: set<string>)
    requires GoodContext(request, used)
    requires turn.Valid() && "" !in turn.NewIds() && turn.NewIds() !! used
    ensures GoodContext(Next(cfg, turn, request, recoveries), used + turn.NewIds())
  {
    match turn.outcome
    case Reply(text, calls, _, _) =>
      if calls == [] {
        PlainReplyIsGood(request, ReplyMessages(cfg, turn, recoveries), used);
      } else {
        ToolRoundIsGood(cfg, request, turn, used);
      }
    case PromptTooLong(_, summary) =>
      if summary.Some? { HalvedIsGood(cfg, request, summary.value, used); }
    case ToolsThrew(_, _, _) => GoodContextMore(request, used, turn.NewIds());
    case Failed(_) =>
  }

  /** What every transcript of a run satisfies; calls may still lack results. */
  ghost predicate GoodTranscript(transcript: seq<Message>, used: set<string>) {
    Owned(transcript, {}) && UniqueIds(transcript) && KnownIds(transcript) <= used
  }

  ghost predicate GoodProgress(p: Progress, used: set<string>) {
    && GoodContext(p.context, used)
    && GoodTranscript(p.transcript, used)
    && forall r :: r in p.requests ==> Formed(r)
  }

  lemma GoodContextMore(context: seq<Message>, used: set<string>, more: set<string>)
    requires GoodContext(context, used)
    ensures GoodContext(context, used + more)
  {}

  lemma GoodProgressMore(p: Progress, used: set<string>, more: set<string>)
    requires GoodProgress(p, used)
    ensures GoodProgress(p, used + more)
  {
    GoodContextMore(p.context, used, more);
    hide Owned, UniqueIds, GoodContext, Formed;
  }

  lemma TurnedIsGood(cfg: Config, turn: Turn, p: Progress, used: set<string>, marker: string)
    requires cfg.Valid() && turn.Valid() && "" !in turn.NewIds() && turn.NewIds() !! used
    requires GoodProgress(p, used)
    ensures GoodProgress(Turned(cfg, turn, p, marker), used + turn.NewIds())
  {
    PassLogIsGood(cfg, p.tally, turn, p, used, marker);
    GoodContextMore(p.context, used, turn.NewIds());
    if !turn.aborted {
      PreparedIsGood(cfg, p.context, used);
      HookedIsGood(turn, p.turns, Prepared(cfg, p.context), used);
      NextIsGood(cfg, turn, Sent(cfg, p.turns, turn, p.context), p.tally.recoveries, used);
    }
  }

  /** Context and transcript stay good, and every request sent so far was well-formed. */
  lemma {:induction false} AfterIsGood(cfg: Config, start: Progress, env: seq<Turn>, used: set<string>, n: nat,
                                       marker: string)
    requires cfg.Valid() && n <= |env| && forall t :: t in env ==> t.Valid()
    requires GoodProgress(start, used) && FreshIds(env, used)
    ensures GoodProgress(After(cfg, start, env, n, marker), UsedIds(env[..n], used))
  {
    assert start.context != [];
    hide Turned, GoodContext, GoodTranscript, FreshIds;
    if n > 0 {
      var p, seen := After(cfg, start, env, n - 1, marker), UsedIds(env[..n - 1], used);
      AfterIsGood(cfg, start, env, used, n - 1, marker);
      FreshAt(env, used, n - 1);
      if p.stopped.None? {
        TurnedIsGood(cfg, env[n - 1], p, seen, marker);
      } else {
        GoodProgressMore(p, seen, env[n - 1].NewIds());
      }
    }
  }

  // ---- The transcript ----

  lemma TurnLogIsGood(cfg: Config, turn: Turn, recoveries: nat)
    requires turn.Valid() && "" !in turn.NewIds() && !turn.aborted
    ensures var log := TurnLog(cfg, turn, recoveries);
      && (forall open :: Owned(log, open)) && UniqueIds(log) && KnownIds(log) == turn.NewIds()
  {
    var queued, outcome := QueuedMessages(turn.queued), OutcomeLog(cfg, turn, recoveries);
    OutcomeLogIsGood(cfg, turn, recoveries);
    KnownIdsConcat(queued, outcome);
    UniqueIdsConcat(queued, outcome);
    PlainMessages(queued, {});
    forall open ensures Owned(queued + outcome, open) {
      PlainMessages(queued, open);
      OwnedConcat(queued, outcome, open);
    }
  }

  lemma OutcomeLogIsGood(cfg: Config, turn: Turn, recoveries: nat)
    requires turn.Valid() && "" !in turn.NewIds()
    ensures var log := OutcomeLog(cfg, turn, recoveries);
      && (forall open :: Owned(log, open)) && UniqueIds(log) && KnownIds(log) == turn.NewIds()
  {
    var log := OutcomeLog(cfg, turn, recoveries);
    if turn.CallsTools() {
      var r := turn.outcome;
      var results := Results(cfg, r.calls, r.outputs);
      assert log[1..] == results;
      ResultIds(cfg, r.calls, r.outputs);
      ToolRun(results, turn.NewIds());
      SessionRepair.ToolsKnowNothing(results);
    } else if turn.outcome.ToolsThrew? {
      assert log[1..] == [];
    } else {
      forall open ensures Owned(log, open) { PlainMessages(log, open); }
      PlainMessages(log, {});
    }
  }

  lemma PassLogIsGood(cfg: Config, tally: Tally, turn: Turn, p: Progress, used: set<string>, marker: string)
    requires turn.Valid() && "" !in turn.NewIds() && turn.NewIds() !! used
    requires GoodContext(p.context, used) && GoodTranscript(p.transcript, used)
    ensures turn.aborted ==> PassLog(cfg, tally, turn, p.context, marker) == []
    ensures GoodTranscript(p.transcript + PassLog(cfg, tally, turn, p.context, marker), used + turn.NewIds())
  {
    var log := PassLog(cfg, tally, turn, p.context, marker);
    if turn.aborted {
      Compaction.NoEmptyId(p.context);
      Abort.AnsweredNeedsNothing(p.context, marker);
      assert p.transcript + log == p.transcript;
    } else {
      TurnLogIsGood(cfg, turn, tally.recoveries);
      OwnedConcat(p.transcript, log, {});
      KnownIdsConcat(p.transcript, log);
      UniqueIdsConcat(p.transcript, log);
    }
  }

  /** The theorem for a run on a session: from a transcript without stray results and with unique
      non-empty ids, whatever the model, the tools and the hooks do, every request is well-formed, and
      the transcript keeps those two properties for the next run. */
  lemma RunIsWellFormed(cfg: Config, system: string, input: string, transcript: seq<Message>, summary: Option<string>,
                        env: seq<Turn>, marker: string)
    requires cfg.Valid() && forall t :: t in env ==> t.Valid()
    requires NoStrayResults(transcript) && UniqueIds(transcript) && FreshIds(env, KnownIds(transcript))
    ensures var p := After(cfg, Begun(cfg, system, input, transcript, summary), env, |env|, marker);
      && (forall r :: r in p.requests ==> WellFormed(r))
      && NoStrayResults(p.transcript) && UniqueIds(p.transcript)
  {
    var start, used := Begun(cfg, system, input, transcript, summary), KnownIds(transcript);
    WellFormedByRecursion(transcript);
    BegunIsGood(cfg, system, input, transcript, summary);
    AfterIsGood(cfg, start, env, used, |env|, marker);
    var p := After(cfg, start, env, |env|, marker);
    WellFormedByRecursion(p.transcript);
    forall r | r in p.requests ensures WellFormed(r) { WellFormedByRecursion(r); }
  }

  /** An abort finds nothing left to answer. */
  lemma AbortAddsNothing(cfg: Config, system: string, input: string, transcript: seq<Message>, summary: Option<string>,
                         env: seq<Turn>, k: nat, marker: string)
    requires cfg.Valid() && k <= |env| && forall t :: t in env ==> t.Valid()
    requires NoStrayResults(transcript) && UniqueIds(transcript) && FreshIds(env, KnownIds(transcript))
    ensures var p := After(cfg, Begun(cfg, system, input, transcript, summary), env, k, marker);
      Abort.Synthesized(p.context, marker) == []
  {
    WellFormedByRecursion(transcript);
    BegunIsGood(cfg, system, input, transcript, summary);
    var start := Begun(cfg, system, input, transcript, summary);
    AfterIsGood(cfg, start, env, KnownIds(transcript), k, marker);
    var p := After(cfg, start, env, k, marker);
    Compaction.NoEmptyId(p.context);
    Abort.AnsweredNeedsNothing(p.context, marker);
  }

  lemma BegunIsGood(cfg: Config, system: string, input: string, transcript: seq<Message>, summary: Option<string>)
    requires Owned(transcript, {}) && UniqueIds(transcript)
    ensures GoodProgress(Begun(cfg, system, input, transcript, summary), KnownIds(transcript))
  {
    var user := [Text(User, input)];
    PlainMessages(user, OpenIds(transcript, {}));
    OwnedConcat(transcript, user, {});
    KnownIdsConcat(transcript, user);
    UniqueIdsConcat(transcript, user);
    RequestIsFormed(cfg.words, system, summary, transcript + user);
    SessionRepair.RepairLength(transcript + user, cfg.words.interrupted);
  }
}
