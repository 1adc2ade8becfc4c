/** What `synthesizeAbortedToolResults` of src/agent.ts adds to an aborted conversation. */
module Abort {
  import opened Wrappers
  import opened History
  import opened Sublists

  /** The last assistant message that calls tools, or -1. */
  function LastCalling(ms: seq<Message>): (i: int)
    ensures -1 <= i < |ms|
    ensures 0 <= i ==> ms[i].role == Assistant && ms[i].toolCalls != []
    ensures forall k :: i < k < |ms| ==> !(ms[k].role == Assistant && ms[k].toolCalls != [])
  {
    if ms == [] then -1
    else
      var last := ms[|ms| - 1];
      if last.role == Assistant && last.toolCalls != [] then |ms| - 1 else LastCalling(ms[..|ms| - 1])
  }

  /** The non-empty ids tool messages of `ms` answer. */
  function ToolIds(ms: seq<Message>): set<string> {
    if ms == [] then {}
    else (if ms[0].role == Tool && ms[0].toolCallId != "" then {ms[0].toolCallId} else {}) + ToolIds(ms[1..])
  }

  function AbortedResults(calls: seq<ToolCall>, satisfied: set<string>, marker: string): (r: seq<Message>)
    ensures forall m :: m in r ==> m.role == Tool && m.toolCallId !in satisfied
  {
    if calls == [] then []
    else
      (if calls[0].id in satisfied then [] else [ToolResult(calls[0].id, marker)])
      + AbortedResults(calls[1..], satisfied, marker)
  }

  function Synthesized(ms: seq<Message>, marker: string): seq<Message> {
    var i := LastCalling(ms);
    if i < 0 then [] else AbortedResults(ms[i].toolCalls, ToolIds(ms[i + 1..]), marker)
  }

  lemma {:induction false} AbortedIds(calls: seq<ToolCall>, satisfied: set<string>, marker: string)
    ensures RunIds(AbortedResults(calls, satisfied, marker)) == (set c | c in calls :: c.id) - satisfied
  {
    if calls != [] {
      var rest := AbortedResults(calls[1..], satisfied, marker);
      AbortedIds(calls[1..], satisfied, marker);
      assert (set c | c in calls :: c.id) == {calls[0].id} + (set c | c in calls[1..] :: c.id);
      if calls[0].id !in satisfied {
        assert AbortedResults(calls, satisfied, marker)[1..] == rest;
      } else {
        assert AbortedResults(calls, satisfied, marker) == rest;
      }
    }
  }

  lemma {:induction false} SatisfiedNeedNothing(calls: seq<ToolCall>, satisfied: set<string>, marker: string)
    requires forall c :: c in calls ==> c.id in satisfied
    ensures AbortedResults(calls, satisfied, marker) == []
  {
    if calls != [] {
      SatisfiedNeedNothing(calls[1..], satisfied, marker);
    }
  }

  /** The ids that count as answered: the non-empty ones of tool messages. */
  lemma {:induction false} ToolIdsIff(ms: seq<Message>, id: string)
    ensures id in ToolIds(ms) <==> id != "" && exists k :: 0 <= k < |ms| && ms[k].role == Tool && ms[k].toolCallId == id
  {
    if ms != [] {
      ToolIdsIff(ms[1..], id);
      assert forall k :: 1 <= k < |ms| ==> ms[k] == ms[1..][k - 1];
    }
  }

  /** One result for each call that is still open, in the order of the calls, with the marker in it. */
  lemma {:induction false} AbortedPick(calls: seq<ToolCall>, satisfied: set<string>, marker: string)
      returns (open: seq<ToolCall>, at: seq<nat>)
    ensures InOrder(open, calls, at)
    ensures forall k :: 0 <= k < |calls| ==> (k in at <==> calls[k].id !in satisfied)
    ensures |AbortedResults(calls, satisfied, marker)| == |open|
    ensures forall i :: 0 <= i < |open| ==>
              AbortedResults(calls, satisfied, marker)[i] == Message(Tool, Some(marker), open[i].id, [])
  {
    open, at := [], [];
    if calls != [] {
      var k := |calls| - 1;
      var c, before := calls[k], AbortedResults(calls[..k], satisfied, marker);
      open, at := AbortedPick(calls[..k], satisfied, marker);
      AbortedConcat(calls[..k], [c], satisfied, marker);
      assert calls == calls[..k] + [c] && AbortedResults([c][1..], satisfied, marker) == [];
      if c.id in satisfied {
        Skip(open, calls[..k], at, c);
        assert AbortedResults([c], satisfied, marker) == [] && before + [] == before;
      } else {
        Take(open, calls[..k], at, c);
        assert AbortedResults([c], satisfied, marker) == [ToolResult(c.id, marker)];
        open, at := open + [c], at + [k];
      }
    }
  }

  lemma {:induction false} AbortedConcat(a: seq<ToolCall>, b: seq<ToolCall>, satisfied: set<string>, marker: string)
    ensures AbortedResults(a + b, satisfied, marker)
         == AbortedResults(a, satisfied, marker) + AbortedResults(b, satisfied, marker)
  {
    if a == [] {
      assert a + b == b;
    } else {
      assert (a + b)[1..] == a[1..] + b;
      AbortedConcat(a[1..], b, satisfied, marker);
    }
  }

  /** When the last message with calls is at position `i`, the calls that lack a result get one, and no
      others do. */
  lemma SynthesizedIs(ms: seq<Message>, marker: string) returns (open: seq<ToolCall>, at: seq<nat>)
    ensures LastCalling(ms) < 0 ==> Synthesized(ms, marker) == [] && open == [] && at == []
    ensures LastCalling(ms) >= 0 ==> InOrder(open, ms[LastCalling(ms)].toolCalls, at)
    ensures LastCalling(ms) >= 0 ==>
              var calls := ms[LastCalling(ms)].toolCalls;
              forall k :: 0 <= k < |calls| ==> (k in at <==> !AnsweredLater(ms, LastCalling(ms), calls[k].id))
    ensures |Synthesized(ms, marker)| == |open|
    ensures forall i :: 0 <= i < |open| ==> Synthesized(ms, marker)[i] == Message(Tool, Some(marker), open[i].id, [])
  {
    var i := LastCalling(ms);
    open, at := [], [];
    if i >= 0 {
      var calls := ms[i].toolCalls;
      open, at := AbortedPick(calls, ToolIds(ms[i + 1..]), marker);
      hide ToolIds, AbortedResults, LastCalling, InOrder;
      forall k | 0 <= k < |calls|
        ensures calls[k].id in ToolIds(ms[i + 1..]) <==> AnsweredLater(ms, i, calls[k].id)
      {
        LaterIff(ms, i, calls[k].id);
      }
    }
  }

  ghost predicate AnsweredLater(ms: seq<Message>, i: int, id: string) {
    id != "" && exists k :: 0 <= i < k < |ms| && ms[k].role == Tool && ms[k].toolCallId == id
  }

  lemma LaterIff(ms: seq<Message>, i: nat, id: string)
    requires i < |ms|
    ensures id in ToolIds(ms[i + 1..]) <==> AnsweredLater(ms, i, id)
  {
    ToolIdsIff(ms[i + 1..], id);
    hide ToolIds;
    assert forall k :: i < k < |ms| ==> ms[k] == ms[i + 1..][k - i - 1];
  }

  /** Nothing is synthesized when every call is answered, as it is at each head of the agent loop. */
  lemma AnsweredNeedsNothing(ms: seq<Message>, marker: string)
    requires Answered(ms) && "" !in KnownIds(ms)
    ensures Synthesized(ms, marker) == []
  {
    hide Answered, KnownIds, LastCalling, ToolIds;
    var i := LastCalling(ms);
    if i >= 0 {
      AnsweredAfter(ms, i);
      SatisfiedNeedNothing(ms[i].toolCalls, ToolIds(ms[i + 1..]), marker);
    }
  }

  lemma {:induction false} AnsweredAfter(ms: seq<Message>, i: nat)
    requires Answered(ms) && "" !in KnownIds(ms) && i < |ms|
    ensures CallIds(ms[i]) <= ToolIds(ms[i + 1..])
  {
    if i == 0 {
      RunIdsAreToolIds(ms[1..]);
    } else {
      AnsweredAfter(ms[1..], i - 1);
      assert ms[1..][i..] == ms[i + 1..];
    }
  }

  lemma {:induction false} RunIdsAreToolIds(ms: seq<Message>)
    ensures RunIds(ms) <= ToolIds(ms) + {""}
  {
    if ms != [] && ms[0].role == Tool {
      RunIdsAreToolIds(ms[1..]);
    }
  }

  lemma LastCallingIs(ms: seq<Message>, before: seq<Message>, call: Message, run: seq<Message>)
    requires ms == before + ([call] + run) && call.role == Assistant && call.toolCalls != []
    requires forall m :: m in run ==> m.role == Tool
    ensures LastCalling(ms) == |before| && ms[|before|] == call && ms[|before| + 1..] == run
  {
    assert ms[|before|] == call && ms[|before| + 1..] == run;
    assert forall k :: |before| < k < |ms| ==> ms[k] == run[k - |before| - 1];
  }

  lemma {:induction false} ToolIdsOfRun(run: seq<Message>)
    requires forall m :: m in run ==> m.role == Tool && m.toolCallId != ""
    ensures ToolIds(run) == RunIds(run)
  {
    if run != [] {
      ToolIdsOfRun(run[1..]);
    }
  }

  lemma CompletedRun(call: Message, run: seq<Message>, marker: string)
    requires call.role == Assistant
    requires forall m :: m in run ==> m.role == Tool && m.toolCallId in CallIds(call)
    ensures var added := AbortedResults(call.toolCalls, RunIds(run), marker);
      && (forall m :: m in run + added ==> m.role == Tool)
      && RunIds(run + added) == CallIds(call)
  {
    AbortedIds(call.toolCalls, RunIds(run), marker);
    ToolRun(run, CallIds(call));
    RunIdsConcat(run, AbortedResults(call.toolCalls, RunIds(run), marker));
  }

  /** When an abort leaves a call with only some of its results, the synthesized ones complete the
      exchange. */
  lemma SynthesizedCompletes(ms: seq<Message>, before: seq<Message>, call: Message, run: seq<Message>, marker: string)
    requires ms == before + ([call] + run)
    requires WellFormed(before) && call.role == Assistant && call.toolCalls != [] && "" !in CallIds(call)
    requires forall m :: m in run ==> m.role == Tool && m.toolCallId in CallIds(call)
    ensures WellFormed(ms + Synthesized(ms, marker))
  {
    LastCallingIs(ms, before, call, run);
    ToolIdsOfRun(run);
    WellFormedByRecursion(before);
    FormedCompletes(ms, before, call, run, marker);
    WellFormedByRecursion(ms + Synthesized(ms, marker));
  }

  lemma Regroup(a: seq<Message>, b: seq<Message>, c: seq<Message>, d: seq<Message>)
    ensures a + (b + c) + d == a + (b + (c + d))
  {}

  lemma FormedCompletes(ms: seq<Message>, before: seq<Message>, call: Message, run: seq<Message>, marker: string)
    requires ms == before + ([call] + run) && Formed(before) && call.role == Assistant
    requires forall m :: m in run ==> m.role == Tool && m.toolCallId in CallIds(call)
    ensures Formed(ms + AbortedResults(call.toolCalls, RunIds(run), marker))
  {
    var added := AbortedResults(call.toolCalls, RunIds(run), marker);
    CompletedRun(call, run, marker);
    FormedExchange(before, call, run + added);
    Regroup(before, [call], run, added);
  }
}
