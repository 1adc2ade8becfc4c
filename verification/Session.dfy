/** Message objects and the `Session` of src/session.ts. A context array and the session transcript
    share message objects, so they are modelled on the heap. */
module Sessions {
  import opened Wrappers
  import opened History
  import opened SessionRepair
  import opened Wordings

  class MessageObject {
    const role: Role
    var content: Option<string>
    const toolCallId: string
    const toolCalls: seq<ToolCall>

    constructor (m: Message)
      ensures View() == m
    {
      role, content, toolCallId, toolCalls := m.role, m.content, m.toolCallId, m.toolCalls;
    }

    function View(): Message
      reads this
    {
      Message(role, content, toolCallId, toolCalls)
    }
  }

  /** The objects hold these values. */
  ghost predicate Show(objs: seq<MessageObject>, values: seq<Message>)
    reads objs
  {
    |objs| == |values| && forall k :: 0 <= k < |objs| ==> objs[k].View() == values[k]
  }

  lemma ShowConcat(a: seq<MessageObject>, av: seq<Message>, b: seq<MessageObject>, bv: seq<Message>)
    requires Show(a, av) && Show(b, bv)
    ensures Show(a + b, av + bv)
  {
  }

  /** The summary of earlier turns as the two messages that carry it. */
  function SummaryMessages(w: Wording, summary: Option<string>): seq<Message> {
    if summary.Some? && summary.value != "" then SummaryPair(w, summary.value) else []
  }

  function SummaryPair(w: Wording, summary: string): (pair: seq<Message>)
    ensures |pair| == 2
  {
    [Text(User, w.summaryHeading + summary), Text(Assistant, w.summaryReply)]
  }

  /** The request `buildMessages` makes of a transcript. */
  function Request(w: Wording, system: string, summary: Option<string>, transcript: seq<Message>): seq<Message> {
    [Text(System, system)] + SummaryMessages(w, summary) + RepairCalls(transcript, w.interrupted)
  }

  class Session {
    var messages: seq<MessageObject>
    var compactionSummary: Option<string>
    /** The values of `messages`. */
    ghost var transcript: seq<Message>

    ghost predicate Valid()
      reads this, messages
    {
      Show(messages, transcript)
    }

    constructor ()
      ensures Valid() && transcript == [] && compactionSummary == None
    {
      messages, compactionSummary, transcript := [], None, [];
    }

    method AddMessage(msg: MessageObject)
      requires Valid()
      modifies this`messages, this`transcript
      ensures Valid() && messages == old(messages) + [msg]
      ensures transcript == old(transcript) + [msg.View()]
    {
      messages := messages + [msg];
      transcript := transcript + [msg.View()];
    }

    /** A fresh array: a fresh system message, then objects of the transcript and fresh ones. */
    method BuildMessages(w: Wording, systemPrompt: string) returns (msgs: seq<MessageObject>)
      requires Valid()
      ensures Show(msgs, Request(w, systemPrompt, compactionSummary, transcript))
      ensures fresh(msgs[0]) && forall k :: 0 < k < |msgs| ==> msgs[k] != msgs[0]
      ensures forall k :: 0 <= k < |msgs| ==> msgs[k] in messages || fresh(msgs[k])
    {
      hide SummaryMessages, RepairCalls, Text;
      var system := new MessageObject(Text(System, systemPrompt));
      var middle := PushSummary(w, compactionSummary);
      var history := RepairOrphanedToolCalls(messages, transcript, w.interrupted);
      msgs := [system] + middle + history;
    }
  }

  method NewPair(w: Wording, summary: string) returns (msgs: seq<MessageObject>)
    ensures |msgs| == 2
    ensures Show(msgs, SummaryPair(w, summary))
    ensures forall k :: 0 <= k < |msgs| ==> fresh(msgs[k])
  {
    var user := new MessageObject(SummaryPair(w, summary)[0]);
    var assistant := new MessageObject(SummaryPair(w, summary)[1]);
    msgs := [user, assistant];
  }

  method PushSummary(w: Wording, summary: Option<string>) returns (msgs: seq<MessageObject>)
    ensures Show(msgs, SummaryMessages(w, summary))
    ensures forall k :: 0 <= k < |msgs| ==> fresh(msgs[k])
  {
    msgs := [];
    if summary.Some? && summary.value != "" { msgs := NewPair(w, summary.value); }
  }

  method RepairOrphanedToolCalls(messages: seq<MessageObject>, ghost ms: seq<Message>, text: string)
    returns (result: seq<MessageObject>)
    requires Show(messages, ms)
    ensures Show(result, RepairCalls(ms, text))
    ensures forall k :: 0 <= k < |result| ==> result[k] in messages || fresh(result[k])
  {
    hide RepairCalls, Missing, Synthetic;
    RepairStart(ms, text);
    if |messages| == 0 {
      RepairEnd([], ms, text);
      return messages;
    }
    result := [];
    ghost var values := [];
    for i := 0 to |messages|
      invariant Show(messages, ms) && Show(result, values)
      invariant forall k :: 0 <= k < |result| ==> result[k] in messages || fresh(result[k])
      invariant values + RepairCalls(ms[i..], text) == RepairCalls(ms, text)
    {
      var msg := messages[i];
      result := result + [msg];
      ghost var added := Synthetic(Missing(ms[i], ms[i + 1..]), text);
      RepairStep(values, ms, i, text);
      values := values + [ms[i]];
      if msg.role == Assistant && |msg.toolCalls| > 0 {
        var expected := OpenCalls(messages, i, ms);
        result := PushSynthetic(result, values, expected, text);
      }
      values := values + added;
    }
    RepairEnd(values, ms, text);
  }

  lemma RepairStart(ms: seq<Message>, text: string)
    ensures [] + RepairCalls(ms[0..], text) == RepairCalls(ms, text)
  {
    assert ms[0..] == ms;
  }

  lemma RepairEnd(values: seq<Message>, ms: seq<Message>, text: string)
    ensures values + RepairCalls(ms[|ms|..], text) == values
  {
  }

  lemma RepairStep(values: seq<Message>, ms: seq<Message>, i: nat, text: string)
    requires i < |ms|
    ensures var added, tail := Synthetic(Missing(ms[i], ms[i + 1..]), text), RepairCalls(ms[i + 1..], text);
      && values + RepairCalls(ms[i..], text) == values + [ms[i]] + added + tail
      && (ms[i].role != Assistant || ms[i].toolCalls == [] ==> added == [])
  {
    var added, tail := Synthetic(Missing(ms[i], ms[i + 1..]), text), RepairCalls(ms[i + 1..], text);
    assert ms[i..][1..] == ms[i + 1..];
    NothingMissing(ms[i], ms[i + 1..]);
    Regroup(values, ms[i], added, tail);
  }

  lemma Regroup(values: seq<Message>, m: Message, added: seq<Message>, tail: seq<Message>)
    ensures values + ([m] + (added + tail)) == values + [m] + added + tail
  {}

  method CollectIds(calls: seq<ToolCall>) returns (ids: seq<string>)
    ensures ids == Distinct(Ids(calls))
  {
    ids := [];
    for k := 0 to |calls|
      invariant ids == Distinct(Ids(calls)[..k])
    {
      assert Ids(calls)[..k + 1][..k] == Ids(calls)[..k];
      if calls[k].id !in ids { ids := ids + [calls[k].id]; }
    }
    assert Ids(calls)[..|calls|] == Ids(calls);
  }

  /** The ids of the calls of message `i` that the tool messages after it leave open. */
  method OpenCalls(messages: seq<MessageObject>, i: nat, ghost ms: seq<Message>) returns (expected: seq<string>)
    requires Show(messages, ms) && i < |messages| && messages[i].role == Assistant
    ensures expected == Missing(ms[i], ms[i + 1..])
  {
    expected := CollectIds(messages[i].toolCalls);
    ghost var missing := Missing(ms[i], ms[i + 1..]);
    var j := i + 1;
    while j < |messages| && messages[j].role == Tool
      invariant i < j <= |messages|
      invariant Unanswered(expected, ms[j..]) == missing
    {
      assert ms[j..][1..] == ms[j + 1..] && ms[j..][0] == ms[j];
      if messages[j].toolCallId != "" { expected := Remove(expected, messages[j].toolCallId); }
      j := j + 1;
    }
    assert j < |messages| ==> ms[j..][0] == ms[j];
  }

  method PushSynthetic(messages: seq<MessageObject>, ghost ms: seq<Message>, ids: seq<string>, text: string)
    returns (result: seq<MessageObject>)
    requires Show(messages, ms)
    ensures Show(result, ms + Synthetic(ids, text))
    ensures forall k :: 0 <= k < |result| ==> result[k] in messages || fresh(result[k])
  {
    result := messages;
    for k := 0 to |ids|
      invariant Show(result, ms + Synthetic(ids[..k], text))
      invariant forall j :: 0 <= j < |result| ==> result[j] in messages || fresh(result[j])
    {
      var patch := new MessageObject(ToolResult(ids[k], text));
      result := result + [patch];
      assert ms + Synthetic(ids[..k + 1], text) == ms + Synthetic(ids[..k], text) + [ToolResult(ids[k], text)];
    }
    assert ids[..|ids|] == ids;
  }

  /** The messages of a request: the system prompt, the summary in two messages if there is one that is
      not empty, and the repaired transcript. */
  lemma RequestIs(w: Wording, system: string, summary: Option<string>, transcript: seq<Message>)
    ensures var r, repaired := Request(w, system, summary, transcript), RepairCalls(transcript, w.interrupted);
            && r != [] && r[0] == Message(System, Some(system), "", [])
            && (summary == None || summary == Some("") ==> r[1..] == repaired)
            && (summary != None && summary != Some("") ==>
                  && |r| >= 3
                  && r[1] == Message(User, Some(w.summaryHeading + summary.value), "", [])
                  && r[2] == Message(Assistant, Some(w.summaryReply), "", [])
                  && r[3..] == repaired)
  {
    hide RepairCalls;
  }

  /** What a run needs of its transcript to start from a well-formed request. */
  lemma RequestIsWellFormed(w: Wording, system: string, summary: Option<string>, transcript: seq<Message>)
    ensures WellFormed(Request(w, system, summary, transcript)) <==> NoStrayResults(transcript)
  {
    RequestIsFormed(w, system, summary, transcript);
    WellFormedByRecursion(transcript);
    WellFormedByRecursion(Request(w, system, summary, transcript));
  }

  lemma RequestIsFormed(w: Wording, system: string, summary: Option<string>, transcript: seq<Message>)
    ensures Formed(Request(w, system, summary, transcript)) <==> Owned(transcript, {})
    ensures UniqueIds(Request(w, system, summary, transcript)) <==> UniqueIds(transcript)
    ensures KnownIds(Request(w, system, summary, transcript)) == KnownIds(transcript)
  {
    var prefix, rest := [Text(System, system)] + SummaryMessages(w, summary), RepairCalls(transcript, w.interrupted);
    PlainPrefix(w, system, summary);
    OwnedConcat(prefix, rest, {});
    RepairOwned(transcript, {}, w.interrupted);
    RepairAnswers(transcript, w.interrupted);
    RepairKeepsKnownIds(transcript, w.interrupted);
    KnownIdsConcat(prefix, rest);
    UniqueIdsConcat(prefix, rest);
    if Owned(rest, {}) {
      FormedConcat(prefix, rest);
    }
  }

  lemma PlainPrefix(w: Wording, system: string, summary: Option<string>)
    ensures var prefix := [Text(System, system)] + SummaryMessages(w, summary);
      && Formed(prefix) && OpenIds(prefix, {}) == {}
      && KnownIds(prefix) == {} && UniqueIds(prefix)
  {
    PlainMessages([Text(System, system)] + SummaryMessages(w, summary), {});
  }

  /** Messages that neither call tools nor answer calls. */
  lemma {:induction false} PlainMessages(ms: seq<Message>, open: set<string>)
    requires forall m :: m in ms ==> m.role != Tool && CallIds(m) == {}
    ensures Owned(ms, open) && Answered(ms) && UniqueIds(ms) && KnownIds(ms) == {}
    ensures ms != [] ==> OpenIds(ms, open) == {}
  {
    if ms != [] {
      PlainMessages(ms[1..], {});
    }
  }
}
