/** The loop of `PrismerAgent.processMessage` in src/agent.ts on the heap: the context array and the
    session transcript share message objects, the array is cleared, truncated and rebuilt in place. */
module AgentLoop {
  import opened Wrappers
  import opened History
  import opened Sessions
  import opened AgentRun
  import Abort
  import Compaction
  import Microcompact
  import SessionRepair
  import Truncation

  class LoopState {
    var messages: seq<MessageObject>
    var iteration: nat
    var consecutiveErrors: nat
    var recentToolSigs: seq<string>
    var lastText: string
    var hasAttemptedReactiveCompact: bool
    var outputRecoveryCount: nat
    /** The values of `messages`. */
    ghost var context: seq<Message>

    ghost predicate Valid()
      reads this, messages
    {
      Show(messages, context)
    }

    constructor (messages: seq<MessageObject>, ghost context: seq<Message>)
      requires Show(messages, context)
      ensures Valid() && this.messages == messages && this.context == context
      ensures iteration == 0 && consecutiveErrors == 0 && recentToolSigs == []
      ensures lastText == "" && !hasAttemptedReactiveCompact && outputRecoveryCount == 0
    {
      this.messages, iteration, consecutiveErrors, recentToolSigs := messages, 0, 0, [];
      lastText, hasAttemptedReactiveCompact, outputRecoveryCount := "", false, 0;
      this.context := context;
    }

    /** What the counters say. `hasAttemptedReactiveCompact` is all the loop keeps of the compactions. */
    ghost predicate Counts(tally: Tally)
      reads this
    {
      && consecutiveErrors == tally.errors
      && recentToolSigs == tally.signatures
      && outputRecoveryCount == tally.recoveries
      && (hasAttemptedReactiveCompact <==> tally.compactions > 0)
      && lastText == tally.lastText
    }

    /** The loop has stopped with this text, or with the error thrown. */
    ghost predicate Ends(threw: Option<string>, ending: Ending)
      reads this
    {
      match ending
      case Answered(text) => threw == None && lastText == text
      case Threw(error) => threw == Some(error)
    }
  }

  /** The context starts with its own system message, which occurs nowhere else in it. */
  ghost predicate Leads(system: MessageObject, messages: seq<MessageObject>) {
    && |messages| >= 2 && messages[0] == system && system.role == System
    && forall k :: 0 < k < |messages| ==> messages[k] != system
  }

  /** What every part of a pass may rely on and keeps. */
  ghost predicate Ready(state: LoopState, session: Session, system: MessageObject)
    reads state, session, state.messages, session.messages
  {
    state.Valid() && session.Valid() && Leads(system, state.messages) && system !in session.messages
  }

  // ---- Microcompaction ----

  /** The positions below `n` of tool results that may be cleared. */
  ghost function ClearableBelow(ms: seq<Message>, n: nat): seq<nat>
    requires n <= |ms|
  {
    if n == 0 then []
    else ClearableBelow(ms, n - 1) + if Microcompact.Clearable(ms[n - 1]) then [n - 1] else []
  }

  lemma {:induction false} ClearableCounts(ms: seq<Message>, n: nat)
    requires n <= |ms|
    ensures |ClearableBelow(ms, n)| + Microcompact.CountClearable(ms[n..]) == Microcompact.CountClearable(ms)
    ensures forall k :: 0 <= k < |ClearableBelow(ms, n)| ==>
      var i := ClearableBelow(ms, n)[k]; i < n && Microcompact.Clearable(ms[i]) && |ClearableBelow(ms, i)| == k
  {
    if n > 0 {
      ClearableCounts(ms, n - 1);
      assert ms[n - 1..][1..] == ms[n..];
    } else {
      assert ms[0..] == ms;
    }
  }

  method CollectClearable(messages: seq<MessageObject>, ghost ms: seq<Message>) returns (toolIndices: seq<nat>)
    requires Show(messages, ms)
    ensures toolIndices == ClearableBelow(ms, |ms|)
  {
    toolIndices := [];
    for i := 0 to |messages|
      invariant toolIndices == ClearableBelow(ms, i)
    {
      var m := messages[i];
      if m.role == Tool && m.content.Some? && m.content.value != "" && m.content.value != Microcompact.CLEARED {
        toolIndices := toolIndices + [i];
      }
    }
  }

  /** Message `k` once the first `t` clearable messages are cleared. */
  ghost function FirstCleared(ms: seq<Message>, t: int, k: nat): Message
    requires k < |ms|
  {
    if Microcompact.Clearable(ms[k]) && |ClearableBelow(ms, k)| < t then Microcompact.Clear(ms[k]) else ms[k]
  }

  method ClearOldResults(messages: seq<MessageObject>, keepRecent: nat, ghost ms: seq<Message>)
    returns (r: seq<MessageObject>)
    requires Show(messages, ms)
    ensures Show(r, Microcompact.Compacted(ms, keepRecent)) && |r| == |messages|
    ensures forall k :: 0 <= k < |r| ==> r[k] == messages[k] || (fresh(r[k]) && messages[k].role == Tool)
  {
    var toolIndices := CollectClearable(messages, ms);
    AllCleared(ms, keepRecent);
    ClearableCounts(ms, |ms|);
    if |toolIndices| <= keepRecent {
      Microcompact.FewStay(ms, keepRecent);
      return messages;
    }
    r := ClearSlots(messages, toolIndices, |toolIndices| - keepRecent, ms);
  }

  method ClearSlots(messages: seq<MessageObject>, toolIndices: seq<nat>, count: nat, ghost ms: seq<Message>)
    returns (r: seq<MessageObject>)
    requires Show(messages, ms) && toolIndices == ClearableBelow(ms, |ms|) && count <= |toolIndices|
    ensures |r| == |messages|
    ensures forall k :: 0 <= k < |r| ==> r[k] == messages[k] || (fresh(r[k]) && messages[k].role == Tool)
    ensures forall k :: 0 <= k < |r| ==> r[k].View() == FirstCleared(ms, count, k)
  {
    ClearableCounts(ms, |ms|);
    r := messages;
    for t := 0 to count
      invariant Show(messages, ms) && |r| == |messages|
      invariant forall k :: 0 <= k < |r| ==> r[k] == messages[k] || (fresh(r[k]) && messages[k].role == Tool)
      invariant forall k :: 0 <= k < |r| ==> r[k].View() == FirstCleared(ms, t, k)
    {
      var idx := toolIndices[t];
      SamePosition(ms, idx);
      var cleared := new MessageObject(r[idx].View().(content := Some(Microcompact.CLEARED)));
      r := r[idx := cleared];
    }
  }

  /** Clearing all but the last `keep` clearable messages is the compaction. */
  lemma AllCleared(ms: seq<Message>, keep: nat)
    ensures forall k :: 0 <= k < |ms| ==>
      Microcompact.Compacted(ms, keep)[k] == FirstCleared(ms, |ClearableBelow(ms, |ms|)| - keep, k)
  {
    ClearableCounts(ms, |ms|);
    forall k | 0 <= k < |ms|
      ensures Microcompact.Compacted(ms, keep)[k] == FirstCleared(ms, |ClearableBelow(ms, |ms|)| - keep, k)
    {
      Microcompact.CompactedAt(ms, keep, k);
      ClearableCounts(ms, k + 1);
    }
  }

  lemma {:induction false} Monotone(ms: seq<Message>, i: nat, j: nat)
    requires i < j <= |ms|
    ensures |ClearableBelow(ms, i)| <= |ClearableBelow(ms, j)|
    ensures Microcompact.Clearable(ms[i]) ==> |ClearableBelow(ms, i)| < |ClearableBelow(ms, j)|
  {
    if i + 1 < j { Monotone(ms, i, j - 1); }
  }

  lemma SamePosition(ms: seq<Message>, i: nat)
    requires i < |ms| && Microcompact.Clearable(ms[i])
    ensures forall k :: 0 <= k < |ms| && Microcompact.Clearable(ms[k]) && k != i ==>
      |ClearableBelow(ms, k)| != |ClearableBelow(ms, i)|
  {
    forall k | 0 <= k < |ms| && Microcompact.Clearable(ms[k]) && k != i
      ensures |ClearableBelow(ms, k)| != |ClearableBelow(ms, i)|
    {
      if k < i { Monotone(ms, k, i); } else { Monotone(ms, i, k); }
    }
  }

  // ---- Truncation and repair ----

  method TotalCost(messages: seq<MessageObject>, ghost ms: seq<Message>) returns (total: nat)
    requires Show(messages, ms)
    ensures total == Truncation.Total(ms)
  {
    total := 0;
    for i := 0 to |messages|
      invariant total + Truncation.Total(ms[i..]) == Truncation.Total(ms)
    {
      assert ms[i..][1..] == ms[i + 1..];
      total := total + Truncation.ContentLength(messages[i].content) + 50;
    }
  }

  /** Walks down from position `first` while the next older message still fits. */
  method FitMiddle(messages: seq<MessageObject>, first: nat, maxChars: int, ghost ms: seq<Message>) returns (i: nat)
    requires Show(messages, ms) && 1 <= first <= |messages|
    ensures 1 <= i <= first && i == Truncation.CutFrom(ms, maxChars, first)
  {
    var currentSize := TotalCost([messages[0]] + messages[first..], Truncation.Keep(ms, first));
    i := first;
    while i > 1
      invariant 1 <= i <= first
      invariant currentSize == Truncation.Total(Truncation.Keep(ms, i))
      invariant Truncation.CutFrom(ms, maxChars, first) == Truncation.CutFrom(ms, maxChars, i)
    {
      var size := Truncation.ContentLength(messages[i - 1].content) + 50;
      Truncation.KeepCost(ms, i - 1, i);
      if currentSize + size > maxChars { break; }
      currentSize := currentSize + size;
      i := i - 1;
    }
  }

  method TruncateOldestTurns(messages: seq<MessageObject>, maxChars: int, ghost ms: seq<Message>)
    returns (r: seq<MessageObject>)
    requires Show(messages, ms) && messages != []
    ensures Show(r, Truncation.Truncated(ms, maxChars))
    ensures forall system :: Leads(system, messages) ==> Leads(system, r)
  {
    hide Truncation.Truncated, Truncation.Total, Truncation.CutFrom, Truncation.Keep, Leads;
    Truncation.TruncatedCases(ms, maxChars);
    var total := TotalCost(messages, ms);
    if total <= maxChars { return messages; }
    var recentCount := if 6 < |messages| - 1 then 6 else |messages| - 1;
    if recentCount == 0 {
      LeadsNone(messages);
      return messages + messages;
    }
    var i := FitMiddle(messages, |messages| - recentCount, maxChars, ms);
    KeptShows(messages, ms, i);
    r := [messages[0]] + messages[i..];
  }

  lemma LeadsNone(messages: seq<MessageObject>)
    requires |messages| < 2
    ensures forall system :: !Leads(system, messages)
  {
  }

  /** The system message and everything from position `i` on. */
  lemma KeptShows(messages: seq<MessageObject>, ms: seq<Message>, i: nat)
    requires Show(messages, ms) && 1 <= i < |messages|
    ensures Show([messages[0]] + messages[i..], Truncation.Keep(ms, i))
    ensures forall system :: Leads(system, messages) ==> Leads(system, [messages[0]] + messages[i..])
  {
    var r := [messages[0]] + messages[i..];
    assert forall k :: 0 < k < |r| ==> r[k] == messages[i + k - 1];
  }

  method CollectKnownIds(messages: seq<MessageObject>, ghost ms: seq<Message>) returns (known: set<string>)
    requires Show(messages, ms)
    ensures known == KnownIds(ms)
  {
    known := {};
    for i := 0 to |messages|
      invariant known + KnownIds(ms[i..]) == KnownIds(ms)
    {
      assert ms[i..][1..] == ms[i + 1..];
      if messages[i].role == Assistant {
        known := known + set c | c in messages[i].toolCalls :: c.id;
      }
    }
  }

  /** Orphaned results become fresh user messages; every other object is kept as it is. */
  method RepairOrphanedToolResults(messages: seq<MessageObject>, ghost ms: seq<Message>) returns (r: seq<MessageObject>)
    requires Show(messages, ms)
    ensures Show(r, Compaction.RepairResults(ms)) && |r| == |messages|
    ensures forall k :: 0 <= k < |r| ==> r[k] == messages[k] || (fresh(r[k]) && messages[k].role == Tool)
  {
    hide KnownIds, Compaction.ConvertAll, Compaction.Preview;
    var known := CollectKnownIds(messages, ms);
    r := [];
    for i := 0 to |messages|
      invariant |r| == i && Show(messages, ms)
      invariant forall k :: 0 <= k < i ==> r[k] == messages[k] || (fresh(r[k]) && messages[k].role == Tool)
      invariant forall k :: 0 <= k < i ==> r[k].View() == Compaction.Convert(ms[k], known)
    {
      var m := messages[i];
      if m.role == Tool && m.toolCallId != "" && m.toolCallId !in known {
        var converted := new MessageObject(Text(User, Compaction.Preview(m.content)));
        r := r + [converted];
      } else {
        r := r + [m];
      }
    }
  }

  // ---- Before the request ----

  /** Summarizes dropped messages when there are more than two and no summary yet. */
  method SummarizeDropped(session: Session, dropped: nat, turn: Turn)
    modifies session`compactionSummary
    ensures session.compactionSummary == NewSummary(dropped, turn, old(session.compactionSummary))
  {
    if dropped > 2 && (session.compactionSummary.None? || session.compactionSummary.value == "") {
      if turn.droppedSummary.Some? { session.compactionSummary := turn.droppedSummary; }
    }
  }

  /** The array is emptied and refilled with the repaired messages. */
  method Refill(state: LoopState, truncated: seq<MessageObject>, ghost values: seq<Message>,
                ghost system: MessageObject)
    requires Show(truncated, values) && Leads(system, truncated)
    modifies state`messages, state`context
    ensures state.Valid() && Leads(system, state.messages)
    ensures state.context == Compaction.RepairResults(values)
  {
    var repaired := RepairOrphanedToolResults(truncated, values);
    state.messages := [];
    state.messages := state.messages + repaired;
    assert state.messages == repaired;
    state.context := Compaction.RepairResults(values);
  }

  method Truncate(cfg: Config, state: LoopState, session: Session, turn: Turn, ghost system: MessageObject)
    requires Ready(state, session, system)
    modifies state`messages, state`context, session`compactionSummary
    ensures Ready(state, session, system)
    ensures state.context == Cut(old(state.context), Truncation.Truncated(old(state.context), cfg.maxContextChars))
    ensures session.compactionSummary ==
      NewSummary(|old(state.context)| - |Truncation.Truncated(old(state.context), cfg.maxContextChars)|,
                 turn, old(session.compactionSummary))
  {
    ghost var values := Truncation.Truncated(state.context, cfg.maxContextChars);
    TruncatedLength(state.context, cfg.maxContextChars);
    var beforeCount := |state.messages|;
    var truncated := TruncateOldestTurns(state.messages, cfg.maxContextChars, state.context);
    if |truncated| < beforeCount {
      SummarizeDropped(session, |state.messages[1..beforeCount - |truncated| + 1]|, turn);
      Refill(state, truncated, values, system);
    }
  }

  lemma TruncatedLength(ms: seq<Message>, maxChars: int)
    requires |ms| >= 2
    ensures |Truncation.Truncated(ms, maxChars)| <= |ms|
  {
    Truncation.TruncatedIsTruncation(ms, maxChars);
    Truncation.DroppedIsOneBlock(ms, maxChars, Truncation.Truncated(ms, maxChars));
  }

  /** Microcompaction, truncation with its optional summary, repair: what runs before every request. */
  method PrepareContext(cfg: Config, state: LoopState, session: Session, turn: Turn, ghost system: MessageObject)
    requires Ready(state, session, system)
    modifies state`messages, state`context, session`compactionSummary
    ensures Ready(state, session, system)
    ensures state.context == Prepared(cfg, old(state.context))
    ensures session.compactionSummary ==
      SummaryAfterPreparing(cfg, turn, old(state.context), old(session.compactionSummary))
  {
    var cleared := ClearOldResults(state.messages, KEEP_RESULTS, state.context);
    state.messages, state.context := cleared, Microcompact.Compacted(state.context, KEEP_RESULTS);
    Truncate(cfg, state, session, turn, system);
  }

  /** The hook overwrites the content of the system message object itself. */
  method RunPromptHook(state: LoopState, session: Session, turn: Turn, system: MessageObject)
    requires Ready(state, session, system) && state.iteration >= 1
    modifies system`content, state`context
    ensures Ready(state, session, system)
    ensures state.context == Hooked(turn, state.iteration - 1, old(state.context))
  {
    if state.iteration == 1 && state.messages[0].content.Some? && turn.hook.Some? {
      state.messages[0].content := turn.hook;
      state.context := [state.context[0].(content := turn.hook)] + state.context[1..];
    }
  }

  // ---- After the request ----

  method Push(state: LoopState, session: Session, m: Message, ghost system: MessageObject)
    requires Ready(state, session, system)
    modifies state`messages, state`context, session`messages, session`transcript
    ensures Ready(state, session, system) && old(session.messages) <= session.messages
    ensures state.context == old(state.context) + [m]
    ensures session.transcript == old(session.transcript) + [m]
  {
    var obj := new MessageObject(m);
    state.messages, state.context := state.messages + [obj], state.context + [m];
    session.AddMessage(obj);
  }

  method PushResults(cfg: Config, state: LoopState, session: Session, turn: Turn, ghost system: MessageObject)
    requires turn.Valid() && turn.outcome.Reply? && Ready(state, session, system)
    modifies state`messages, state`context, session`messages, session`transcript
    ensures Ready(state, session, system) && old(session.messages) <= session.messages
    ensures state.context == old(state.context) + Results(cfg, turn.outcome.calls, turn.outcome.outputs)
    ensures session.transcript == old(session.transcript) + Results(cfg, turn.outcome.calls, turn.outcome.outputs)
  {
    hide CompactToolResult, Ready;
    var calls, outputs := turn.outcome.calls, turn.outcome.outputs;
    ghost var results := Results(cfg, calls, outputs);
    for k := 0 to |calls|
      invariant Ready(state, session, system) && old(session.messages) <= session.messages
      invariant state.context == old(state.context) + results[..k]
      invariant session.transcript == old(session.transcript) + results[..k]
    {
      Push(state, session, ToolResult(calls[k].id, CompactToolResult(outputs[k].text, cfg.maxToolResultChars)), system);
      assert results[..k + 1] == results[..k] + [results[k]];
    }
  }

  method CountErrors(outputs: seq<Output>) returns (errors: nat)
    ensures errors == |outputs| <==> forall o :: o in outputs ==> o.error
  {
    errors := 0;
    for k := 0 to |outputs|
      invariant errors <= k
      invariant errors == k <==> forall i :: 0 <= i < k ==> outputs[i].error
    {
      if outputs[k].error { errors := errors + 1; }
    }
    assert forall k :: 0 <= k < |outputs| ==> outputs[k] in outputs;
  }

  method PushSignatures(state: LoopState, calls: seq<ToolCall>, outputs: seq<Output>)
    requires |calls| == |outputs|
    modifies state`recentToolSigs
    ensures state.recentToolSigs == old(state.recentToolSigs) + SignaturesOf(calls, outputs)
  {
    for k := 0 to |calls|
      invariant state.recentToolSigs == old(state.recentToolSigs) + SignaturesOf(calls, outputs)[..k]
    {
      state.recentToolSigs := state.recentToolSigs + [Signature(calls[k].name, outputs[k].arguments)];
    }
  }

  /** Counts the failures of a round and records its signatures. */
  method RecordRound(state: LoopState, turn: Turn, ghost tally: Tally)
    requires turn.Valid() && turn.CallsTools()
    requires state.consecutiveErrors == tally.errors && state.recentToolSigs == tally.signatures
    modifies state`consecutiveErrors, state`recentToolSigs
    ensures state.consecutiveErrors == Counted(tally, turn).errors
    ensures state.recentToolSigs == Counted(tally, turn).signatures
  {
    var outputs := turn.outcome.outputs;
    PushSignatures(state, turn.outcome.calls, outputs);
    var errorsThisRound := CountErrors(outputs);
    if errorsThisRound == |outputs| && |outputs| > 0 {
      state.consecutiveErrors := state.consecutiveErrors + 1;
    } else {
      state.consecutiveErrors := 0;
    }
  }

  method LastAllEqual(sigs: seq<string>, n: nat) returns (b: bool)
    requires n >= 1
    ensures b <==> Repetitive(sigs, n)
  {
    if |sigs| < n { return false; }
    var lastN := sigs[|sigs| - n..];
    for k := 0 to n
      invariant forall i :: 0 <= i < k ==> lastN[i] == lastN[0]
    {
      if lastN[k] != lastN[0] {
        assert sigs[|sigs| - n + k] != sigs[|sigs| - n];
        return false;
      }
    }
    assert forall k :: |sigs| - n <= k < |sigs| ==> sigs[k] == lastN[k - (|sigs| - n)];
    return true;
  }

  method FinishToolRound(cfg: Config, state: LoopState, turn: Turn, ghost tally: Tally) returns (goOn: bool)
    requires cfg.Valid() && turn.Valid() && turn.CallsTools() && !turn.aborted
    requires state.consecutiveErrors == Counted(tally, turn).errors
    requires state.recentToolSigs == Counted(tally, turn).signatures
    modifies state`lastText
    ensures goOn <==> GoesOn(cfg, tally, turn)
    ensures if goOn then state.lastText == old(state.lastText) else Answered(state.lastText) == Stop(cfg, tally, turn)
  {
    if state.consecutiveErrors >= cfg.doomLoopThreshold {
      state.lastText := cfg.words.repeatedFailures;
      return false;
    }
    var same := LastAllEqual(state.recentToolSigs, cfg.repetitionThreshold);
    if same {
      state.lastText := cfg.words.repeatedCalls;
      return false;
    }
    return true;
  }

  method HandleToolCalls(cfg: Config, state: LoopState, session: Session, turn: Turn,
                         ghost tally: Tally, ghost system: MessageObject) returns (goOn: bool)
    requires cfg.Valid() && turn.Valid() && turn.CallsTools() && !turn.aborted && Ready(state, session, system)
    requires state.consecutiveErrors == tally.errors && state.recentToolSigs == tally.signatures
    modifies state`messages, state`context, state`consecutiveErrors, state`recentToolSigs, state`lastText,
      session`messages, session`transcript
    ensures Ready(state, session, system) && old(session.messages) <= session.messages
    ensures state.context == old(state.context) + Results(cfg, turn.outcome.calls, turn.outcome.outputs)
    ensures session.transcript == old(session.transcript) + Results(cfg, turn.outcome.calls, turn.outcome.outputs)
    ensures goOn <==> GoesOn(cfg, tally, turn)
    ensures state.consecutiveErrors == Counted(tally, turn).errors
    ensures state.recentToolSigs == Counted(tally, turn).signatures
    ensures if goOn then state.lastText == old(state.lastText) else Answered(state.lastText) == Stop(cfg, tally, turn)
  {
    PushResults(cfg, state, session, turn, system);
    RecordRound(state, turn, tally);
    goOn := FinishToolRound(cfg, state, turn, tally);
  }

  /** A reply without tool calls: continue one that was cut short, at most three times. */
  method HandlePlainReply(cfg: Config, state: LoopState, session: Session, turn: Turn,
                          ghost tally: Tally, ghost system: MessageObject) returns (goOn: bool)
    requires cfg.Valid() && turn.Valid() && turn.outcome.Reply? && turn.outcome.calls == [] && !turn.aborted
    requires Ready(state, session, system) && state.outputRecoveryCount == tally.recoveries
    modifies state`messages, state`context, state`outputRecoveryCount, session`messages, session`transcript
    ensures Ready(state, session, system) && old(session.messages) <= session.messages
    ensures goOn <==> GoesOn(cfg, tally, turn)
    ensures var added := if goOn then [ContinueMessage(cfg)] else [];
      state.context == old(state.context) + added && session.transcript == old(session.transcript) + added
    ensures goOn ==> state.outputRecoveryCount == tally.recoveries + 1
  {
    goOn := turn.outcome.cutShort && state.outputRecoveryCount < MAX_OUTPUT_RECOVERY;
    if goOn {
      Push(state, session, ContinueMessage(cfg), system);
      state.outputRecoveryCount := state.outputRecoveryCount + 1;
    }
  }

  lemma Regroup(a: seq<Message>, b: seq<Message>, c: seq<Message>)
    ensures a + b + c == a + (b + c)
  {}

  method HandleReply(cfg: Config, state: LoopState, session: Session, turn: Turn,
                     ghost tally: Tally, ghost system: MessageObject) returns (goOn: bool)
    requires cfg.Valid() && turn.Valid() && turn.outcome.Reply? && !turn.aborted
    requires Ready(state, session, system) && state.Counts(tally)
    modifies state`messages, state`context, state`consecutiveErrors, state`recentToolSigs, state`lastText,
      state`outputRecoveryCount, session`messages, session`transcript
    ensures Ready(state, session, system) && old(session.messages) <= session.messages
    ensures state.context == old(state.context) + ReplyMessages(cfg, turn, tally.recoveries)
    ensures session.transcript == old(session.transcript) + ReplyMessages(cfg, turn, tally.recoveries)
    ensures goOn <==> GoesOn(cfg, tally, turn)
    ensures if goOn then state.Counts(Counted(tally, turn)) else Answered(state.lastText) == Stop(cfg, tally, turn)
  {
    var assistant := AssistantMessage(turn.outcome.text, turn.outcome.calls);
    state.lastText := turn.outcome.text;
    Push(state, session, assistant, system);
    ghost var added;
    if turn.outcome.calls == [] {
      goOn := HandlePlainReply(cfg, state, session, turn, tally, system);
      added := if goOn then [ContinueMessage(cfg)] else [];
    } else {
      goOn := HandleToolCalls(cfg, state, session, turn, tally, system);
      added := Results(cfg, turn.outcome.calls, turn.outcome.outputs);
    }
    Regroup(old(state.context), [assistant], added);
    Regroup(old(session.transcript), [assistant], added);
  }

  // ---- Abort and reactive compaction ----

  method LastAssistant(messages: seq<MessageObject>, ghost ms: seq<Message>) returns (i: int)
    requires Show(messages, ms)
    ensures i == Abort.LastCalling(ms)
  {
    i := |messages| - 1;
    while i >= 0
      invariant -1 <= i < |messages|
      invariant forall k :: i < k < |messages| ==> !(ms[k].role == Assistant && ms[k].toolCalls != [])
    {
      if messages[i].role == Assistant && |messages[i].toolCalls| > 0 { break; }
      i := i - 1;
    }
  }

  method CollectSatisfied(messages: seq<MessageObject>, ghost ms: seq<Message>) returns (satisfied: set<string>)
    requires Show(messages, ms)
    ensures satisfied == Abort.ToolIds(ms)
  {
    satisfied := {};
    for i := 0 to |messages|
      invariant satisfied + Abort.ToolIds(ms[i..]) == Abort.ToolIds(ms)
    {
      assert ms[i..][1..] == ms[i + 1..];
      var m := messages[i];
      if m.role == Tool && m.toolCallId != "" { satisfied := satisfied + {m.toolCallId}; }
    }
  }

  /** Both the context and the session get the synthesized results. */
  method SynthesizeAbortedToolResults(state: LoopState, session: Session, marker: string, ghost system: MessageObject)
    requires Ready(state, session, system)
    modifies state`messages, state`context, session`messages, session`transcript
    ensures Ready(state, session, system) && old(session.messages) <= session.messages
    ensures state.context == old(state.context) + Abort.Synthesized(old(state.context), marker)
    ensures session.transcript == old(session.transcript) + Abort.Synthesized(old(state.context), marker)
  {
    var last := LastAssistant(state.messages, state.context);
    if last < 0 { return; }
    var calls := state.messages[last].toolCalls;
    var satisfied := CollectSatisfied(state.messages[last + 1..], state.context[last + 1..]);
    PushAborted(state, session, calls, satisfied, marker, system);
  }

  method PushAborted(state: LoopState, session: Session, calls: seq<ToolCall>, satisfied: set<string>, marker: string,
                     ghost system: MessageObject)
    requires Ready(state, session, system)
    modifies state`messages, state`context, session`messages, session`transcript
    ensures Ready(state, session, system) && old(session.messages) <= session.messages
    ensures state.context == old(state.context) + Abort.AbortedResults(calls, satisfied, marker)
    ensures session.transcript == old(session.transcript) + Abort.AbortedResults(calls, satisfied, marker)
  {
    hide Ready;
    ghost var all := Abort.AbortedResults(calls, satisfied, marker);
    ghost var done := [];
    for k := 0 to |calls|
      invariant Ready(state, session, system) && old(session.messages) <= session.messages
      invariant done + Abort.AbortedResults(calls[k..], satisfied, marker) == all
      invariant state.context == old(state.context) + done
      invariant session.transcript == old(session.transcript) + done
    {
      AbortedStep(calls, k, satisfied, marker, done);
      if calls[k].id !in satisfied {
        Push(state, session, ToolResult(calls[k].id, marker), system);
        done := done + [ToolResult(calls[k].id, marker)];
      }
    }
  }

  lemma AbortedStep(calls: seq<ToolCall>, k: nat, satisfied: set<string>, marker: string, done: seq<Message>)
    requires k < |calls|
    ensures done + Abort.AbortedResults(calls[k..], satisfied, marker) ==
      (if calls[k].id in satisfied then done else done + [ToolResult(calls[k].id, marker)])
      + Abort.AbortedResults(calls[k + 1..], satisfied, marker)
  {
    assert calls[k..][1..] == calls[k + 1..];
  }

  /** The older half of the context becomes a summary, the newer half is repaired. */
  method CompactReactively(cfg: Config, state: LoopState, session: Session, summary: string, system: MessageObject)
    requires Ready(state, session, system)
    modifies state`messages, state`context, state`hasAttemptedReactiveCompact, session`compactionSummary
    ensures Ready(state, session, system) && state.hasAttemptedReactiveCompact
    ensures session.compactionSummary == Some(summary)
    ensures state.context == Halved(cfg, old(state.context), summary)
  {
    hide Compaction.RepairResults, SummaryPair;
    var half := 1 + (|state.messages| - 1) / 2;
    session.compactionSummary := Some(summary);
    var toKeep := state.messages[half..];
    ghost var values := state.context[half..];
    assert forall k :: 0 <= k < |toKeep| ==> toKeep[k] == state.messages[half + k];
    state.messages, state.context := [system], [state.context[0]];
    Rebuild(cfg, state, summary, toKeep, values, system);
    state.hasAttemptedReactiveCompact := true;
  }

  lemma SystemLeads(system: MessageObject, rest: seq<MessageObject>)
    requires system.role == System && rest != [] && system !in rest
    ensures Leads(system, [system] + rest)
  {
  }

  method Rebuild(cfg: Config, state: LoopState, summary: string, toKeep: seq<MessageObject>, ghost values: seq<Message>,
                 ghost system: MessageObject)
    requires state.Valid() && state.messages == [system] && system.role == System
    requires Show(toKeep, values) && system !in toKeep
    modifies state`messages, state`context
    ensures state.Valid() && Leads(system, state.messages)
    ensures state.context == old(state.context) + SummaryPair(cfg.words, summary) + Compaction.RepairResults(values)
  {
    hide Compaction.RepairResults, SummaryPair, Show, Leads;
    var pair := NewPair(cfg.words, summary);
    var repaired := RepairOrphanedToolResults(toKeep, values);
    assert system !in pair && system !in repaired;
    ShowConcat(state.messages, state.context, pair, SummaryPair(cfg.words, summary));
    ShowConcat(state.messages + pair, state.context + SummaryPair(cfg.words, summary),
               repaired, Compaction.RepairResults(values));
    SystemLeads(system, pair + repaired);
    assert state.messages + pair + repaired == [system] + (pair + repaired);
    state.messages := state.messages + pair + repaired;
    state.context := state.context + SummaryPair(cfg.words, summary) + Compaction.RepairResults(values);
  }

  method DrainQueue(session: Session, queued: seq<string>, ghost system: MessageObject)
    requires session.Valid() && system !in session.messages
    modifies session`messages, session`transcript
    ensures session.Valid() && system !in session.messages && old(session.messages) <= session.messages
    ensures session.transcript == old(session.transcript) + QueuedMessages(queued)
  {
    for k := 0 to |queued|
      invariant session.Valid() && system !in session.messages && old(session.messages) <= session.messages
      invariant session.transcript == old(session.transcript) + QueuedMessages(queued)[..k]
    {
      var m := new MessageObject(Text(User, queued[k]));
      session.AddMessage(m);
      assert QueuedMessages(queued)[..k + 1] == QueuedMessages(queued)[..k] + [Text(User, queued[k])];
    }
  }

  // ---- The loop ----

  method HandleTooLong(cfg: Config, state: LoopState, session: Session, error: string, summary: Option<string>,
                       system: MessageObject) returns (goOn: bool)
    requires Ready(state, session, system)
    modifies state`messages, state`context, state`lastText, state`hasAttemptedReactiveCompact, session`compactionSummary
    ensures Ready(state, session, system)
    ensures goOn <==> !old(state.hasAttemptedReactiveCompact) && summary.Some?
    ensures goOn ==>
      state.context == Halved(cfg, old(state.context), summary.value) && state.hasAttemptedReactiveCompact
    ensures state.lastText == if goOn then old(state.lastText) else cfg.words.errorPrefix + error
    ensures session.compactionSummary == if goOn then summary else old(session.compactionSummary)
  {
    goOn := !state.hasAttemptedReactiveCompact && summary.Some?;
    if goOn {
      CompactReactively(cfg, state, session, summary.value, system);
    } else {
      state.lastText := cfg.words.errorPrefix + error;
    }
  }

  /** What follows the request: the reply, the reactive compaction, or the end. `threw`
      is the error that a round of tool calls throws and nothing in the loop catches. */
  method HandleOutcome(cfg: Config, state: LoopState, session: Session, turn: Turn,
                       ghost tally: Tally, system: MessageObject) returns (goOn: bool, threw: Option<string>)
    requires cfg.Valid() && turn.Valid() && !turn.aborted
    requires Ready(state, session, system) && state.Counts(tally)
    modifies state`messages, state`context, state`consecutiveErrors, state`recentToolSigs, state`lastText,
      state`outputRecoveryCount, state`hasAttemptedReactiveCompact, session
    ensures Ready(state, session, system) && old(session.messages) <= session.messages
    ensures goOn <==> GoesOn(cfg, tally, turn)
    ensures if goOn then threw == None && state.Counts(Counted(tally, turn))
            else state.Ends(threw, Stop(cfg, tally, turn))
    ensures goOn ==> state.context == Next(cfg, turn, old(state.context), tally.recoveries)
    ensures session.transcript == old(session.transcript) + OutcomeLog(cfg, turn, tally.recoveries)
    ensures session.compactionSummary ==
      if turn.outcome.PromptTooLong? && turn.outcome.summary.Some? && tally.compactions == 0
      then turn.outcome.summary else old(session.compactionSummary)
  {
    threw := None;
    match turn.outcome
    case Reply(_, _, _, _) =>
      goOn := HandleReply(cfg, state, session, turn, tally, system);
    case PromptTooLong(error, summary) =>
      goOn := HandleTooLong(cfg, state, session, error, summary, system);
    case ToolsThrew(text, calls, error) =>
      state.lastText := text;
      Push(state, session, AssistantMessage(text, calls), system);
      goOn, threw := false, Some(error);
    case Failed(error) =>
      state.lastText := cfg.words.errorPrefix + error;
      goOn := false;
  }

  method MakeRequest(cfg: Config, state: LoopState, session: Session, turn: Turn, system: MessageObject)
    returns (request: seq<Message>)
    requires Ready(state, session, system) && state.iteration >= 1
    modifies state`messages, state`context, session`compactionSummary, system`content
    ensures Ready(state, session, system)
    ensures request == state.context == Sent(cfg, state.iteration - 1, turn, old(state.context))
    ensures session.compactionSummary ==
      SummaryAfterPreparing(cfg, turn, old(state.context), old(session.compactionSummary))
  {
    PrepareContext(cfg, state, session, turn, system);
    RunPromptHook(state, session, turn, system);
    request := Snapshot(state.messages, state.context);
  }

  /** What the provider is handed. */
  method Snapshot(messages: seq<MessageObject>, ghost ms: seq<Message>) returns (r: seq<Message>)
    requires Show(messages, ms)
    ensures r == ms
  {
    r := [];
    for i := 0 to |messages|
      invariant r == ms[..i]
    {
      r := r + [messages[i].View()];
    }
  }

  lemma AbortStops(cfg: Config, tally: Tally, turn: Turn)
    requires cfg.Valid() && turn.Valid() && turn.aborted
    ensures !GoesOn(cfg, tally, turn) && Stop(cfg, tally, turn) == Answered(cfg.words.abortedByUser)
  {
  }

  /** One pass. `request` is what the model is sent, None when the pass finds the run aborted. */
  method Pass(cfg: Config, state: LoopState, session: Session, turn: Turn, marker: string,
              ghost tally: Tally, system: MessageObject)
    returns (goOn: bool, request: Option<seq<Message>>, threw: Option<string>)
    requires cfg.Valid() && turn.Valid() && state.iteration >= 1
    requires Ready(state, session, system) && state.Counts(tally)
    modifies state`messages, state`context, state`consecutiveErrors, state`recentToolSigs, state`lastText,
      state`outputRecoveryCount, state`hasAttemptedReactiveCompact, session, system`content
    ensures Ready(state, session, system) && old(session.messages) <= session.messages
    ensures goOn <==> GoesOn(cfg, tally, turn)
    ensures if goOn then threw == None && state.Counts(Counted(tally, turn))
            else state.Ends(threw, Stop(cfg, tally, turn))
    ensures session.transcript == old(session.transcript) + PassLog(cfg, tally, turn, old(state.context), marker)
    ensures request == if turn.aborted then None else Some(Sent(cfg, state.iteration - 1, turn, old(state.context)))
    ensures session.compactionSummary ==
      if turn.aborted then old(session.compactionSummary)
      else SummaryAfterTurn(cfg, tally, turn, old(state.context), old(session.compactionSummary))
    ensures goOn ==> state.context == Next(cfg, turn, request.value, tally.recoveries)
  {
    hide GoesOn, Counted, Stop, Next, Sent, OutcomeLog, QueuedMessages, SummaryAfterPreparing, Leads;
    if turn.aborted {
      AbortStops(cfg, tally, turn);
      SynthesizeAbortedToolResults(state, session, marker, system);
      state.lastText := cfg.words.abortedByUser;
      return false, None, None;
    }
    DrainQueue(session, turn.queued, system);
    var sent := MakeRequest(cfg, state, session, turn, system);
    request := Some(sent);
    goOn, threw := HandleOutcome(cfg, state, session, turn, tally, system);
    Regroup(old(session.transcript), QueuedMessages(turn.queued), OutcomeLog(cfg, turn, tally.recoveries));
  }

  /** The heap shows how far the run has come. */
  ghost predicate Between(state: LoopState, session: Session, p: Progress, threw: Option<string>)
    reads state, session
  {
    && state.iteration == p.turns
    && session.transcript == p.transcript && session.compactionSummary == p.summary
    && match p.stopped
       case None => threw == None && state.Counts(p.tally) && state.context == p.context
       case Some(ending) => state.Ends(threw, ending)
  }

  method Step(cfg: Config, state: LoopState, session: Session, turn: Turn, system: MessageObject,
              marker: string, ghost p: Progress)
    returns (goOn: bool, request: Option<seq<Message>>, threw: Option<string>, ghost q: Progress)
    requires cfg.Valid() && turn.Valid() && p.context != [] && p.stopped.None?
    requires Between(state, session, p, None) && Ready(state, session, system)
    modifies state, session, system`content
    ensures Ready(state, session, system) && old(session.messages) <= session.messages
    ensures q == Turned(cfg, turn, p, marker) && goOn == q.stopped.None?
    ensures q.requests == if request.Some? then p.requests + [request.value] else p.requests
    ensures Between(state, session, q, threw)
  {
    q := Turned(cfg, turn, p, marker);
    state.iteration := state.iteration + 1;
    goOn, request, threw := Pass(cfg, state, session, turn, marker, p.tally, system);
  }

  method Loop(cfg: Config, state: LoopState, session: Session, env: seq<Turn>, system: MessageObject,
              marker: string, ghost start: Progress)
    returns (goOn: bool, requests: seq<seq<Message>>, threw: Option<string>)
    requires cfg.Valid() && |env| == cfg.maxIterations && forall t :: t in env ==> t.Valid()
    requires start.turns == 0 && start.stopped.None? && start.context != [] && start.requests == []
    requires Between(state, session, start, None) && Ready(state, session, system)
    modifies state, session, system`content
    ensures old(session.messages) <= session.messages && session.Valid()
    ensures state.iteration <= cfg.maxIterations && (goOn ==> state.iteration == cfg.maxIterations)
    ensures var p := After(cfg, start, env, state.iteration, marker);
      requests == p.requests && Between(state, session, p, threw) && goOn == p.stopped.None?
  {
    ghost var p := start;
    requests, goOn, threw := [], true, None;
    hide Turned, Leads;
    while goOn && state.iteration < cfg.maxIterations
      invariant state.iteration <= cfg.maxIterations
      invariant p == After(cfg, start, env, state.iteration, marker) && requests == p.requests
      invariant goOn == p.stopped.None? && Between(state, session, p, threw)
      invariant Ready(state, session, system) && old(session.messages) <= session.messages
      decreases cfg.maxIterations - state.iteration
    {
      var request;
      goOn, request, threw, p := Step(cfg, state, session, env[state.iteration], system, marker, p);
      if request.Some? { requests := requests + [request.value]; }
    }
  }

  /** The user message joins the session, then the context is built from it. */
  method Begin(cfg: Config, systemPrompt: string, input: string, session: Session)
    returns (state: LoopState, system: MessageObject)
    requires session.Valid()
    modifies session`messages, session`transcript
    ensures fresh(state) && fresh(system) && Ready(state, session, system)
    ensures old(session.messages) <= session.messages
    ensures session.transcript == old(session.transcript) + [Text(User, input)]
    ensures state.context == Request(cfg.words, systemPrompt, session.compactionSummary, session.transcript)
    ensures state.iteration == 0 && state.Counts(NOTHING)
  {
    var user := new MessageObject(Text(User, input));
    session.AddMessage(user);
    var messages := session.BuildMessages(cfg.words, systemPrompt);
    ghost var context := Request(cfg.words, systemPrompt, session.compactionSummary, session.transcript);
    SessionRepair.RepairLength(session.transcript, cfg.words.interrupted);
    assert context[0] == Text(System, systemPrompt);
    system := messages[0];
    state := new LoopState(messages, context);
  }

  method End(cfg: Config, state: LoopState, goOn: bool) returns (text: string)
    requires state.iteration <= cfg.maxIterations && (goOn ==> state.iteration == cfg.maxIterations)
    modifies state`iteration
    ensures text == if goOn && state.lastText == "" then cfg.words.maxIterations else state.lastText
  {
    if goOn { state.iteration := state.iteration + 1; }
    var exhausted := state.iteration > cfg.maxIterations && state.lastText == "";
    text := if exhausted then cfg.words.maxIterations else state.lastText;
  }

  /** A run on a session. `requests` lists what the model was sent. Every message object the session
      held before keeps its place and, as only the session and fresh objects change, its content. */
  method ProcessMessage(cfg: Config, systemPrompt: string, input: string, session: Session,
                        env: seq<Turn>, marker: string)
    returns (ending: Ending, turns: nat, requests: seq<seq<Message>>)
    requires session.Valid()
    requires cfg.Valid() && |env| == cfg.maxIterations && forall t :: t in env ==> t.Valid()
    modifies session
    ensures session.Valid() && old(session.messages) <= session.messages && turns <= cfg.maxIterations
    ensures var start := Begun(cfg, systemPrompt, input, old(session.transcript), old(session.compactionSummary));
      var p := After(cfg, start, env, turns, marker);
      && turns == p.turns && (p.stopped.Some? || turns == cfg.maxIterations)
      && ending == Result(cfg, p) && requests == p.requests
      && session.transcript == p.transcript && session.compactionSummary == p.summary
  {
    var state, system := Begin(cfg, systemPrompt, input, session);
    ghost var start := Begun(cfg, systemPrompt, input, old(session.transcript), old(session.compactionSummary));
    var goOn, threw;
    goOn, requests, threw := Loop(cfg, state, session, env, system, marker, start);
    turns := state.iteration;
    if threw.Some? { return Threw(threw.value), turns, requests; }
    var text := End(cfg, state, goOn);
    ending := Answered(text);
  }
}
