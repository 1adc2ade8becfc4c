/** `repairOrphanedToolResults` of src/compaction.ts: turn tool results whose call was cut away into
    user messages. */
module Compaction {
  import opened Wrappers
  import opened History

  const PREVIEW := 500

  function Preview(content: Option<string>): string {
    var text := if content.Some? then content.value else "";
    "[Previous tool result: "
    + (if |text| > PREVIEW then text[..PREVIEW] + "..." else text)
    + "]"
  }

  predicate Orphan(m: Message, known: set<string>) {
    m.role == Tool && m.toolCallId != "" && m.toolCallId !in known
  }

  function Convert(m: Message, known: set<string>): Message {
    if Orphan(m, known) then Text(User, Preview(m.content)) else m
  }

  function ConvertAll(ms: seq<Message>, known: set<string>): (r: seq<Message>)
    ensures |r| == |ms|
    ensures forall k :: 0 <= k < |ms| ==> r[k] == Convert(ms[k], known)
  {
    if ms == [] then [] else [Convert(ms[0], known)] + ConvertAll(ms[1..], known)
  }

  function RepairResults(ms: seq<Message>): seq<Message> {
    ConvertAll(ms, KnownIds(ms))
  }

  /** Some message has a call with this id. */
  ghost predicate Asked(ms: seq<Message>, id: string) {
    exists k, c :: 0 <= k < |ms| && ms[k].role == Assistant && c in ms[k].toolCalls && c.id == id
  }

  lemma {:induction false} KnownIff(ms: seq<Message>, id: string)
    ensures id in KnownIds(ms) <==> Asked(ms, id)
  {
    if ms != [] {
      KnownIff(ms[1..], id);
      assert forall k :: 0 < k < |ms| ==> ms[k] == ms[1..][k - 1];
    }
  }

  /** What becomes of every message: a result for a call that is not there becomes a user message with at
      most 500 characters of it, and everything else stays. */
  lemma RepairedAt(ms: seq<Message>, k: nat)
    requires k < |ms|
    ensures |RepairResults(ms)| == |ms|
    ensures var m, r := ms[k], RepairResults(ms)[k];
            if m.role == Tool && m.toolCallId != "" && !Asked(ms, m.toolCallId) then
              var text := if m.content.Some? then m.content.value else "";
              && r.role == User && r.toolCallId == "" && r.toolCalls == []
              && (|text| <= 500 ==> r.content == Some("[Previous tool result: " + text + "]"))
              && (|text| > 500 ==> r.content == Some("[Previous tool result: " + text[..500] + "..." + "]"))
            else r == m
  {
    KnownIff(ms, ms[k].toolCallId);
    hide KnownIds;
    var text := if ms[k].content.Some? then ms[k].content.value else "";
    if |text| > 500 {
      assert "[Previous tool result: " + (text[..500] + "...") + "]"
          == "[Previous tool result: " + text[..500] + "..." + "]";
    }
  }

  lemma {:induction false} ConvertConcat(a: seq<Message>, b: seq<Message>, known: set<string>)
    ensures ConvertAll(a + b, known) == ConvertAll(a, known) + ConvertAll(b, known)
  {
    assert forall k :: 0 <= k < |a| ==> (a + b)[k] == a[k];
    assert forall k :: 0 <= k < |b| ==> (a + b)[|a| + k] == b[k];
  }

  /** Tool results that answer a known call stay. */
  lemma {:induction false} ConvertKeepsOwned(ms: seq<Message>, open: set<string>, known: set<string>)
    requires Owned(ms, open) && open + KnownIds(ms) <= known
    ensures ConvertAll(ms, known) == ms
  {
    if ms != [] {
      ConvertKeepsOwned(ms[1..], if ms[0].role == Tool then open else CallIds(ms[0]), known);
    }
  }

  lemma {:induction false} ConvertKeepsKnownIds(ms: seq<Message>, known: set<string>)
    ensures KnownIds(ConvertAll(ms, known)) == KnownIds(ms)
    ensures UniqueIds(ms) ==> UniqueIds(ConvertAll(ms, known))
  {
    if ms != [] {
      ConvertKeepsKnownIds(ms[1..], known);
      assert ConvertAll(ms, known)[1..] == ConvertAll(ms[1..], known);
    }
  }

  lemma {:induction false} RunSplit(ms: seq<Message>, open: set<string>)
    ensures KnownIds(ms) == KnownIds(ms[RunLength(ms)..])
    ensures Answered(ms) <==> Answered(ms[RunLength(ms)..])
    ensures Owned(ms, open) ==>
      Owned(ms[RunLength(ms)..], {}) && forall k :: 0 <= k < RunLength(ms) ==> ms[k].toolCallId in open
  {
    if ms != [] && ms[0].role == Tool {
      RunSplit(ms[1..], open);
      assert ms[1..][RunLength(ms[1..])..] == ms[RunLength(ms)..];
      assert forall k :: 0 < k < RunLength(ms) ==> ms[k] == ms[1..][k - 1];
    }
  }

  predicate AllOrphans(run: seq<Message>, known: set<string>) {
    forall k :: 0 <= k < |run| ==> Orphan(run[k], known)
  }

  /** When nothing is open, a former tool run is acceptable only if none of it is a tool message any more. */
  lemma {:induction false} OwnedConvertedRun(run: seq<Message>, known: set<string>)
    requires forall m :: m in run ==> m.role == Tool
    ensures Owned(ConvertAll(run, known), {}) <==> AllOrphans(run, known)
    ensures OpenIds(ConvertAll(run, known), {}) == {}
    ensures Answered(ConvertAll(run, known))
  {
    if run != [] {
      OwnedConvertedRun(run[1..], known);
      assert ConvertAll(run, known)[1..] == ConvertAll(run[1..], known);
      assert forall k :: 0 < k < |run| ==> run[k] == run[1..][k - 1];
      assert AllOrphans(run, known) <==> Orphan(run[0], known) && AllOrphans(run[1..], known) by {
        if Orphan(run[0], known) && AllOrphans(run[1..], known) {
          forall k | 0 <= k < |run| ensures Orphan(run[k], known) {
            if k > 0 { assert run[k] == run[1..][k - 1]; }
          }
        }
      }
    }
  }

  /** The same by recursion: `rest` starts a new exchange, `run` lost its call. */
  lemma RepairedTailByRecursion(prefix: seq<Message>, run: seq<Message>, rest: seq<Message>, known: set<string>)
    requires Formed(prefix) && OpenIds(prefix, {}) == {}
    requires forall m :: m in run ==> m.role == Tool
    requires Formed(rest) && (rest == [] || rest[0].role != Tool)
    ensures Formed(prefix + (ConvertAll(run, known) + rest)) <==> AllOrphans(run, known)
  {
    var converted := ConvertAll(run, known);
    OwnedConvertedRun(run, known);
    OwnedConcat(prefix, converted + rest, {});
    OwnedConcat(converted, rest, {});
    if AllOrphans(run, known) {
      AnsweredConcat(converted, rest);
      AnsweredConcat(prefix, converted + rest);
    }
  }

  /** Cutting `d` messages off the front leaves the calls of the last cut exchange open. */
  lemma CutHistory(ms: seq<Message>, d: nat)
    requires Formed(ms) && d <= |ms|
    ensures Owned(ms[d..], OpenIds(ms[..d], {})) && Answered(ms[d..])
  {
    assert ms == ms[..d] + ms[d..];
    OwnedConcat(ms[..d], ms[d..], {});
    AnsweredSuffix(ms, d);
  }

  /** A tail is the tool run whose call was cut off, then whole exchanges. */
  lemma TailShape(tail: seq<Message>, open: set<string>)
    requires Owned(tail, open) && Answered(tail)
    ensures Formed(tail[RunLength(tail)..])
    ensures RepairResults(tail) ==
            ConvertAll(tail[..RunLength(tail)], KnownIds(tail)) + tail[RunLength(tail)..]
  {
    RunSplit(tail, open);
    ConvertTail(tail[..RunLength(tail)], tail[RunLength(tail)..], KnownIds(tail));
    assert tail == tail[..RunLength(tail)] + tail[RunLength(tail)..];
  }

  lemma ConvertTail(run: seq<Message>, rest: seq<Message>, known: set<string>)
    requires Owned(rest, {}) && KnownIds(rest) == known
    ensures ConvertAll(run + rest, known) == ConvertAll(run, known) + rest
  {
    ConvertConcat(run, rest, known);
    ConvertKeepsOwned(rest, {}, known);
  }

  lemma FormedTailIff(prefix: seq<Message>, ms: seq<Message>, d: nat)
    requires Formed(ms) && d <= |ms|
    requires Formed(prefix) && OpenIds(prefix, {}) == {}
    ensures Formed(prefix + RepairResults(ms[d..])) <==>
            AllOrphans(ms[d..][..RunLength(ms[d..])], KnownIds(ms[d..]))
  {
    var tail := ms[d..];
    CutHistory(ms, d);
    TailShape(tail, OpenIds(ms[..d], {}));
    RepairedTailByRecursion(prefix, tail[..RunLength(tail)], tail[RunLength(tail)..], KnownIds(tail));
  }

  /** A prefix that asks for nothing, followed by the repaired tail of a well-formed history, is
      well-formed exactly when the tool results left without their call carry a non-empty id that no
      kept call reuses. */
  lemma RepairedTailIff(prefix: seq<Message>, ms: seq<Message>, d: nat)
    requires WellFormed(ms) && d <= |ms|
    requires WellFormed(prefix) && OpenIds(prefix, {}) == {}
    ensures WellFormed(prefix + RepairResults(ms[d..])) <==>
            AllOrphans(ms[d..][..RunLength(ms[d..])], KnownIds(ms[d..]))
  {
    WellFormedByRecursion(prefix);
    WellFormedByRecursion(ms);
    FormedTailIff(prefix, ms, d);
    WellFormedByRecursion(prefix + RepairResults(ms[d..]));
  }

  lemma {:induction false} AnsweredSuffix(ms: seq<Message>, d: nat)
    requires d <= |ms| && Answered(ms)
    ensures Answered(ms[d..])
  {
    if d > 0 {
      AnsweredSuffix(ms[1..], d - 1);
      assert ms[1..][d - 1..] == ms[d..];
    }
  }

  /** With unique non-empty ids a cut leaves only orphans the repair recognises. */
  lemma UniqueIdsLeaveOrphans(ms: seq<Message>, d: nat)
    requires Formed(ms) && UniqueIds(ms) && d <= |ms|
    ensures AllOrphans(ms[d..][..RunLength(ms[d..])], KnownIds(ms[d..]))
    ensures UniqueIds(ms[d..]) && KnownIds(ms[d..]) <= KnownIds(ms)
  {
    var head, tail := ms[..d], ms[d..];
    assert ms == head + tail;
    KnownIdsConcat(head, tail);
    UniqueIdsConcat(head, tail);
    CutHistory(ms, d);
    OpenIdsKnown(head, {});
    NoEmptyId(ms);
    RunSplit(tail, OpenIds(head, {}));
  }

  /** Unique non-empty ids rule that failure out: cutting any number of messages off the front of a
      well-formed history and repairing the rest keeps the format. */
  lemma RepairedTailIsFormed(prefix: seq<Message>, ms: seq<Message>, d: nat)
    requires Formed(ms) && UniqueIds(ms) && d <= |ms|
    requires Formed(prefix) && OpenIds(prefix, {}) == {} && KnownIds(prefix) == {}
    ensures Formed(prefix + RepairResults(ms[d..]))
    ensures UniqueIds(prefix + RepairResults(ms[d..]))
    ensures KnownIds(prefix + RepairResults(ms[d..])) <= KnownIds(ms)
  {
    var tail := ms[d..];
    UniqueIdsLeaveOrphans(ms, d);
    FormedTailIff(prefix, ms, d);
    ConvertKeepsKnownIds(tail, KnownIds(tail));
    NothingKnown(prefix);
    KnownIdsConcat(prefix, RepairResults(tail));
    UniqueIdsConcat(prefix, RepairResults(tail));
  }

  lemma {:induction false} NoEmptyId(ms: seq<Message>)
    requires UniqueIds(ms)
    ensures "" !in KnownIds(ms)
  {
    if ms != [] {
      NoEmptyId(ms[1..]);
    }
  }

  lemma {:induction false} NothingKnown(ms: seq<Message>)
    requires KnownIds(ms) == {}
    ensures UniqueIds(ms)
  {
    if ms != [] {
      NothingKnown(ms[1..]);
    }
  }

  /** A reused id defeats the repair: the cut-off result of the first call looks answered by the second. */
  lemma ReusedIdBreaksRepair(call: Message, result: Message)
    requires call == Message(Assistant, None, "", [ToolCall("a", "bash", "{}")])
    requires result == ToolResult("a", "output")
    ensures WellFormed([call, result, call, result])
    ensures !WellFormed([Text(System, "s")] + RepairResults([call, result, call, result][1..]))
  {
    var ms, system := [call, result, call, result], [Text(System, "s")];
    var tail := ms[1..];
    assert call.toolCalls[0].id == "a" && CallIds(call) == {"a"};
    assert [result][1..] == [] && tail[1..] == [call, result] && [call, result][1..] == [result];
    assert RunIds([result]) == {"a"};
    assert KnownIds([result]) == CallIds(result) + KnownIds([]);
    assert KnownIds([call, result]) == CallIds(call) + KnownIds([result]);
    assert Owned([result], {"a"}) && Answered([result]) && KnownIds([result]) == {};
    assert Owned([call, result], {"a"}) && Answered([call, result]) && KnownIds([call, result]) == {"a"};
    assert KnownIds(tail) == CallIds(result) + KnownIds([call, result]);
    assert RunIds(tail) == {"a"} && KnownIds(tail) == {"a"} && Owned(tail, {"a"}) && Answered(tail);
    WellFormedByRecursion(ms);
    WellFormedByRecursion(system);
    RepairedTailIff(system, ms, 1);
    assert tail[..RunLength(tail)][0] == result;
  }
}
