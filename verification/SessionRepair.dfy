/** `repairOrphanedToolCalls` of src/session.ts: answer the calls an interrupted run left open. */
module SessionRepair {
  import opened Wrappers
  import opened History

  function Ids(calls: seq<ToolCall>): seq<string> {
    seq(|calls|, i requires 0 <= i < |calls| => calls[i].id)
  }

  /** The elements in order of first appearance, as a JavaScript Set keeps them. */
  function Distinct(ids: seq<string>): (r: seq<string>)
    ensures forall id :: id in r <==> id in ids
  {
    if ids == [] then []
    else
      var init := Distinct(ids[..|ids| - 1]);
      assert ids == ids[..|ids| - 1] + [ids[|ids| - 1]];
      if ids[|ids| - 1] in init then init else init + [ids[|ids| - 1]]
  }

  function Remove(ids: seq<string>, id: string): (r: seq<string>)
    ensures forall x :: x in r <==> x in ids && x != id
  {
    if ids == [] then []
    else if ids[0] == id then Remove(ids[1..], id)
    else [ids[0]] + Remove(ids[1..], id)
  }

  /** `ids` without those the tool run at the head of `rest` answers; an empty id answers nothing. */
  function Unanswered(ids: seq<string>, rest: seq<Message>): (r: seq<string>)
    ensures forall x :: x in r <==> x in ids && (x == "" || x !in RunIds(rest))
    decreases rest
  {
    if rest == [] || rest[0].role != Tool then ids
    else
      var id := rest[0].toolCallId;
      Unanswered(if id != "" then Remove(ids, id) else ids, rest[1..])
  }

  /** The call ids of `m` that get a synthetic result, when `rest` follows it. */
  function Missing(m: Message, rest: seq<Message>): seq<string> {
    if m.role == Assistant then Unanswered(Distinct(Ids(m.toolCalls)), rest) else []
  }

  function Synthetic(ids: seq<string>, text: string): (r: seq<Message>)
    ensures |r| == |ids|
    ensures forall m :: m in r ==> m.role == Tool
  {
    seq(|ids|, i requires 0 <= i < |ids| => ToolResult(ids[i], text))
  }

  function RepairCalls(ms: seq<Message>, text: string): seq<Message> {
    if ms == [] then []
    else [ms[0]] + (Synthetic(Missing(ms[0], ms[1..]), text) + RepairCalls(ms[1..], text))
  }

  lemma {:induction false} NothingUnanswered(rest: seq<Message>)
    ensures Unanswered([], rest) == []
  {
    if rest != [] && rest[0].role == Tool {
      NothingUnanswered(rest[1..]);
    }
  }

  lemma NothingMissing(m: Message, rest: seq<Message>)
    ensures m.role != Assistant || m.toolCalls == [] ==> Missing(m, rest) == []
  {
    NothingUnanswered(rest);
    assert Distinct(Ids([])) == [];
  }

  lemma MissingIds(m: Message, rest: seq<Message>)
    ensures forall id :: id in Missing(m, rest) <==> id in CallIds(m) && (id == "" || id !in RunIds(rest))
  {
    if m.role == Assistant {
      forall id ensures id in Ids(m.toolCalls) <==> id in CallIds(m) {
        if id in CallIds(m) {
          var c :| c in m.toolCalls && c.id == id;
          var k :| 0 <= k < |m.toolCalls| && m.toolCalls[k] == c;
          assert Ids(m.toolCalls)[k] == id;
        }
      }
    }
  }

  lemma {:induction false} RunIdsOfSynthetic(ids: seq<string>, rest: seq<Message>, text: string)
    ensures RunIds(Synthetic(ids, text) + rest) == (set id | id in ids) + RunIds(rest)
  {
    if ids == [] {
      assert Synthetic(ids, text) + rest == rest;
    } else {
      var all := Synthetic(ids, text) + rest;
      assert all[1..] == Synthetic(ids[1..], text) + rest;
      RunIdsOfSynthetic(ids[1..], rest, text);
      assert (set id | id in ids) == {ids[0]} + (set id | id in ids[1..]);
    }
  }

  /** A leading tool run is copied as it is. */
  lemma {:induction false} RepairKeepsRun(ms: seq<Message>, text: string)
    ensures RunIds(RepairCalls(ms, text)) == RunIds(ms)
  {
    if ms != [] && ms[0].role == Tool {
      NothingMissing(ms[0], ms[1..]);
      assert RepairCalls(ms, text)[1..] == RepairCalls(ms[1..], text);
      RepairKeepsRun(ms[1..], text);
    }
  }

  /** After the repair every call is answered, whatever the input. */
  lemma {:induction false} RepairAnswers(ms: seq<Message>, text: string)
    ensures Answered(RepairCalls(ms, text))
  {
    if ms != [] {
      var m, rest := ms[0], ms[1..];
      var added, tail := Synthetic(Missing(m, rest), text), RepairCalls(rest, text);
      RepairAnswers(rest, text);
      AnsweredAfterTools(added, tail);
      RunIdsOfSynthetic(Missing(m, rest), tail, text);
      RepairKeepsRun(rest, text);
      MissingIds(m, rest);
      assert RepairCalls(ms, text)[1..] == added + tail;
    }
  }

  lemma {:induction false} SyntheticOwned(ids: seq<string>, rest: seq<Message>, open: set<string>, text: string)
    requires forall id :: id in ids ==> id in open
    ensures Owned(Synthetic(ids, text) + rest, open) <==> Owned(rest, open)
  {
    if ids == [] {
      assert Synthetic(ids, text) + rest == rest;
    } else {
      assert (Synthetic(ids, text) + rest)[1..] == Synthetic(ids[1..], text) + rest;
      SyntheticOwned(ids[1..], rest, open, text);
    }
  }

  /** The repair neither adds nor removes a stray tool result. */
  lemma {:induction false} RepairOwned(ms: seq<Message>, open: set<string>, text: string)
    ensures Owned(RepairCalls(ms, text), open) <==> Owned(ms, open)
  {
    if ms != [] {
      var m, rest := ms[0], ms[1..];
      var added, tail := Synthetic(Missing(m, rest), text), RepairCalls(rest, text);
      assert RepairCalls(ms, text)[1..] == added + tail;
      MissingIds(m, rest);
      if m.role == Tool {
        NothingMissing(m, rest);
        assert added + tail == tail;
        RepairOwned(rest, open, text);
      } else {
        SyntheticOwned(Missing(m, rest), tail, CallIds(m), text);
        RepairOwned(rest, CallIds(m), text);
      }
    }
  }

  /** The repaired history is well-formed exactly when the input holds no stray tool result. */
  lemma RepairIsWellFormed(ms: seq<Message>, text: string)
    ensures EveryCallAnswered(RepairCalls(ms, text))
    ensures WellFormed(RepairCalls(ms, text)) <==> NoStrayResults(ms)
  {
    RepairAnswers(ms, text);
    RepairOwned(ms, {}, text);
    WellFormedByRecursion(ms);
    WellFormedByRecursion(RepairCalls(ms, text));
  }

  lemma {:induction false} RepairKeepsKnownIds(ms: seq<Message>, text: string)
    ensures KnownIds(RepairCalls(ms, text)) == KnownIds(ms)
    ensures UniqueIds(RepairCalls(ms, text)) <==> UniqueIds(ms)
  {
    if ms != [] {
      var added, tail := Synthetic(Missing(ms[0], ms[1..]), text), RepairCalls(ms[1..], text);
      RepairKeepsKnownIds(ms[1..], text);
      ToolsKnowNothing(added);
      KnownIdsConcat(added, tail);
      UniqueIdsConcat(added, tail);
      assert RepairCalls(ms, text)[0] == ms[0] && RepairCalls(ms, text)[1..] == added + tail;
    }
  }

  lemma {:induction false} ToolsKnowNothing(tools: seq<Message>)
    requires forall m :: m in tools ==> m.role == Tool
    ensures KnownIds(tools) == {} && UniqueIds(tools)
  {
    if tools != [] {
      ToolsKnowNothing(tools[1..]);
    }
  }

  // ---- Only insertions, and only of unanswered calls ----

  /** Where `id` first occurs in `ids`, or the length. */
  function First(ids: seq<string>, id: string): (i: nat)
    ensures i <= |ids| && (i < |ids| <==> id in ids) && (i < |ids| ==> ids[i] == id)
    ensures forall k :: 0 <= k < i ==> ids[k] != id
  {
    if ids == [] || ids[0] == id then 0 else 1 + First(ids[1..], id)
  }

  /** Elements of `all` without repetition, in order of first appearance. */
  ghost predicate InOrderOf(ids: seq<string>, all: seq<string>) {
    && (forall i :: 0 <= i < |ids| ==> ids[i] in all)
    && (forall i, j :: 0 <= i < j < |ids| ==> First(all, ids[i]) < First(all, ids[j]))
  }

  lemma FirstOfMore(ids: seq<string>, more: string, id: string)
    ensures id in ids ==> First(ids + [more], id) == First(ids, id)
    ensures id !in ids && id == more ==> First(ids + [more], id) == |ids|
  {
    var all := ids + [more];
    if id in ids { assert all[First(ids, id)] == id; }
    assert forall k :: 0 <= k < |ids| ==> all[k] == ids[k];
  }

  lemma StillInOrder(ids: seq<string>, all: seq<string>, more: string)
    requires InOrderOf(ids, all)
    ensures InOrderOf(ids, all + [more])
    ensures forall i :: 0 <= i < |ids| ==> First(all + [more], ids[i]) < |all|
  {
    hide First;
    forall i | 0 <= i < |ids|
      ensures ids[i] in all + [more] && First(all + [more], ids[i]) == First(all, ids[i]) < |all|
    {
      FirstOfMore(all, more, ids[i]);
    }
  }

  lemma OneMoreInOrder(ids: seq<string>, all: seq<string>, more: string)
    requires InOrderOf(ids, all)
    ensures InOrderOf(if more in all then ids else ids + [more], all + [more])
  {
    StillInOrder(ids, all, more);
    FirstOfMore(all, more, more);
    hide First;
    if more !in all {
      var r := ids + [more];
      forall i, j | 0 <= i < j < |r|
        ensures First(all + [more], r[i]) < First(all + [more], r[j])
      {
        assert r[i] == ids[i];
        if j < |ids| { assert r[j] == ids[j]; }
      }
    }
  }

  lemma {:induction false} DistinctInOrder(ids: seq<string>)
    ensures InOrderOf(Distinct(ids), ids)
  {
    if ids != [] {
      var init := ids[..|ids| - 1];
      DistinctInOrder(init);
      assert ids == init + [ids[|ids| - 1]];
      OneMoreInOrder(Distinct(init), init, ids[|ids| - 1]);
    }
  }

  lemma TailInOrder(ids: seq<string>, all: seq<string>)
    requires ids != [] && InOrderOf(ids, all)
    ensures InOrderOf(ids[1..], all) && ids[0] in all
    ensures forall id :: id in ids[1..] ==> First(all, ids[0]) < First(all, id)
    ensures forall id :: id in ids[1..] <==> id in ids && id != ids[0]
  {
    hide First;
    assert ids == [ids[0]] + ids[1..];
    forall id | id in ids[1..]
      ensures First(all, ids[0]) < First(all, id)
    {
      var k :| 0 <= k < |ids[1..]| && ids[1..][k] == id;
      assert ids[k + 1] == id;
    }
  }

  lemma ConsInOrder(id: string, ids: seq<string>, all: seq<string>)
    requires id in all && InOrderOf(ids, all)
    requires forall x :: x in ids ==> First(all, id) < First(all, x)
    ensures InOrderOf([id] + ids, all)
  {
    hide First;
  }

  lemma {:induction false} RemoveInOrder(ids: seq<string>, id: string, all: seq<string>)
    requires InOrderOf(ids, all)
    ensures InOrderOf(Remove(ids, id), all)
  {
    if ids != [] {
      TailInOrder(ids, all);
      hide First, InOrderOf;
      RemoveInOrder(ids[1..], id, all);
      if ids[0] != id { ConsInOrder(ids[0], Remove(ids[1..], id), all); }
    }
  }

  lemma {:induction false} UnansweredInOrder(ids: seq<string>, rest: seq<Message>, all: seq<string>)
    requires InOrderOf(ids, all)
    ensures InOrderOf(Unanswered(ids, rest), all)
    decreases rest
  {
    if rest != [] && rest[0].role == Tool {
      var id := rest[0].toolCallId;
      RemoveInOrder(ids, id, all);
      UnansweredInOrder(if id != "" then Remove(ids, id) else ids, rest[1..], all);
    }
  }

  /** A call of `m` that the tool messages right after it leave open; an empty id is never answered. */
  ghost predicate LeftOpen(m: Message, rest: seq<Message>, id: string) {
    id in CallIds(m) && (id == "" || id !in RunIds(rest))
  }

  /** One id for each call of `m` that is left open, in the order of the calls. */
  ghost predicate OnePerOpenCall(ids: seq<string>, m: Message, rest: seq<Message>) {
    InOrderOf(ids, Ids(m.toolCalls)) && forall id :: id in ids <==> LeftOpen(m, rest, id)
  }

  lemma MissingIsOnePerOpenCall(m: Message, rest: seq<Message>)
    ensures OnePerOpenCall(Missing(m, rest), m, rest)
  {
    MissingIds(m, rest);
    if m.role == Assistant {
      DistinctInOrder(Ids(m.toolCalls));
      UnansweredInOrder(Distinct(Ids(m.toolCalls)), rest, Ids(m.toolCalls));
    }
  }

  lemma EmptyOrFirst(ids: seq<string>)
    ensures ids == [] || ids[0] in ids
  {}

  /** The elements of a sequence settle which of its sublists in order has them. */
  lemma {:induction false} InOrderIsUnique(a: seq<string>, b: seq<string>, all: seq<string>)
    requires InOrderOf(a, all) && InOrderOf(b, all)
    requires forall id :: id in a <==> id in b
    ensures a == b
  {
    EmptyOrFirst(a);
    EmptyOrFirst(b);
    if a != [] && b != [] {
      TailInOrder(a, all);
      TailInOrder(b, all);
      hide First, InOrderOf;
      InOrderIsUnique(a[1..], b[1..], all);
    }
  }

  /** The repaired history with a mark on every inserted message. */
  function Marked(ms: seq<Message>, text: string): seq<(Message, bool)> {
    if ms == [] then []
    else [(ms[0], false)] + (MarkedResults(Missing(ms[0], ms[1..]), text) + Marked(ms[1..], text))
  }

  function MarkedResults(ids: seq<string>, text: string): (r: seq<(Message, bool)>)
    ensures |r| == |ids|
  {
    seq(|ids|, i requires 0 <= i < |ids| => (ToolResult(ids[i], text), true))
  }

  function Messages(marked: seq<(Message, bool)>): seq<Message> {
    seq(|marked|, i requires 0 <= i < |marked| => marked[i].0)
  }

  lemma MessagesConcat(a: seq<(Message, bool)>, b: seq<(Message, bool)>)
    ensures Messages(a + b) == Messages(a) + Messages(b)
  {}

  function Unmarked(marked: seq<(Message, bool)>): seq<Message> {
    if marked == [] then []
    else (if marked[0].1 then [] else [marked[0].0]) + Unmarked(marked[1..])
  }

  /** The ids the marked messages at the head of `marked` answer. */
  function InsertedIds(marked: seq<(Message, bool)>): (ids: seq<string>)
    ensures |ids| <= |marked|
  {
    if marked == [] || !marked[0].1 then [] else [marked[0].0.toolCallId] + InsertedIds(marked[1..])
  }

  /** The marked messages directly behind an unmarked message are synthetic results, one for each call
      of it that is left open by the unmarked messages that follow, in the order of the calls. */
  ghost predicate WellMarked(marked: seq<(Message, bool)>, text: string)
    decreases |marked|
  {
    marked == [] ||
    var ids := InsertedIds(marked[1..]);
    var rest := marked[1 + |ids|..];
    && !marked[0].1
    && marked[1..1 + |ids|] == MarkedResults(ids, text)
    && OnePerOpenCall(ids, marked[0].0, Unmarked(rest))
    && WellMarked(rest, text)
  }

  lemma {:induction false} BlockAtHead(ids: seq<string>, tail: seq<(Message, bool)>, text: string)
    requires tail != [] ==> !tail[0].1
    ensures InsertedIds(MarkedResults(ids, text) + tail) == ids
    ensures Unmarked(MarkedResults(ids, text) + tail) == Unmarked(tail)
  {
    if ids == [] {
      assert MarkedResults(ids, text) + tail == tail;
    } else {
      assert (MarkedResults(ids, text) + tail)[1..] == MarkedResults(ids[1..], text) + tail;
      BlockAtHead(ids[1..], tail, text);
    }
  }

  lemma BlockMessages(m: Message, ids: seq<string>, tail: seq<(Message, bool)>, text: string)
    ensures Messages([(m, false)] + (MarkedResults(ids, text) + tail)) == [m] + (Synthetic(ids, text) + Messages(tail))
  {
    assert Messages(MarkedResults(ids, text)) == Synthetic(ids, text);
    MessagesConcat(MarkedResults(ids, text), tail);
    MessagesConcat([(m, false)], MarkedResults(ids, text) + tail);
    assert Messages([(m, false)]) == [m];
  }

  /** A message, its block and the rest, taken together and apart. */
  lemma WellMarkedStep(m: Message, ids: seq<string>, tail: seq<(Message, bool)>, text: string)
    requires WellMarked(tail, text) && OnePerOpenCall(ids, m, Unmarked(tail))
    ensures var marked := [(m, false)] + (MarkedResults(ids, text) + tail);
            WellMarked(marked, text) && Unmarked(marked) == [m] + Unmarked(tail)
  {
    hide OnePerOpenCall;
    var block := MarkedResults(ids, text);
    var marked := [(m, false)] + (block + tail);
    BlockAtHead(ids, tail, text);
    hide InsertedIds, MarkedResults;
    assert marked[1..] == block + tail;
    assert marked[1..1 + |ids|] == block && marked[1 + |ids|..] == tail;
  }

  lemma Apart<T>(s: seq<T>, n: nat)
    requires 1 + n <= |s|
    ensures s[1..] == s[1..1 + n] + s[1 + n..] && s == [s[0]] + s[1..]
  {
  }

  lemma WellMarkedApart(marked: seq<(Message, bool)>, text: string)
    returns (ids: seq<string>, tail: seq<(Message, bool)>)
    requires WellMarked(marked, text) && marked != []
    ensures |tail| < |marked| && marked == [(marked[0].0, false)] + (MarkedResults(ids, text) + tail)
    ensures WellMarked(tail, text) && OnePerOpenCall(ids, marked[0].0, Unmarked(tail))
    ensures Unmarked(marked) == [marked[0].0] + Unmarked(tail)
  {
    hide OnePerOpenCall, InsertedIds, MarkedResults;
    ids := InsertedIds(marked[1..]);
    tail := marked[1 + |ids|..];
    UnmarkedTail(tail, text);
    BlockAtHead(ids, tail, text);
    Apart(marked, |ids|);
  }

  lemma UnmarkedTail(tail: seq<(Message, bool)>, text: string)
    requires WellMarked(tail, text)
    ensures tail != [] ==> !tail[0].1
  {
  }

  /** The output is the input with messages inserted, in the same order: directly behind every message
      one synthetic result for each of its calls that the tool messages after it leave open, in the
      order of the calls. No answered call gets one. */
  lemma {:induction false} RepairOnlyInserts(ms: seq<Message>, text: string)
    ensures Unmarked(Marked(ms, text)) == ms
    ensures Messages(Marked(ms, text)) == RepairCalls(ms, text)
    ensures WellMarked(Marked(ms, text), text)
  {
    if ms != [] {
      hide OnePerOpenCall, Missing, MarkedResults, Messages, WellMarked;
      var m, rest, tail := ms[0], ms[1..], Marked(ms[1..], text);
      RepairOnlyInserts(rest, text);
      MissingIsOnePerOpenCall(m, rest);
      WellMarkedStep(m, Missing(m, rest), tail, text);
      BlockMessages(m, Missing(m, rest), tail, text);
    }
  }

  /** Nothing else is the input with such insertions. */
  lemma {:induction false} RepairIsUnique(marked: seq<(Message, bool)>, text: string)
    requires WellMarked(marked, text)
    ensures Messages(marked) == RepairCalls(Unmarked(marked), text)
    decreases |marked|
  {
    if marked != [] {
      hide WellMarked, Messages, Unmarked, MarkedResults, Missing;
      var ids, tail := WellMarkedApart(marked, text);
      var m, rest := marked[0].0, Unmarked(tail);
      RepairIsUnique(tail, text);
      MissingIsOnePerOpenCall(m, rest);
      InOrderIsUnique(ids, Missing(m, rest), Ids(m.toolCalls));
      BlockMessages(m, ids, tail, text);
    }
  }

  /** A history whose calls are all answered, none with an empty id, is left as it is. */
  lemma {:induction false} RepairSkipsAnswered(ms: seq<Message>, text: string)
    requires Answered(ms) && "" !in KnownIds(ms)
    ensures RepairCalls(ms, text) == ms
  {
    if ms != [] {
      MissingIds(ms[0], ms[1..]);
      EmptyOrFirst(Missing(ms[0], ms[1..]));
      RepairSkipsAnswered(ms[1..], text);
    }
  }

  lemma {:induction false} RepairLength(ms: seq<Message>, text: string)
    ensures |RepairCalls(ms, text)| >= |ms|
    ensures "" in KnownIds(ms) ==> |RepairCalls(ms, text)| > |ms|
  {
    if ms != [] {
      RepairLength(ms[1..], text);
      MissingIds(ms[0], ms[1..]);
      if "" in CallIds(ms[0]) {
        assert "" in Missing(ms[0], ms[1..]);
      }
    }
  }

  /** Repairing twice changes nothing more, except that a call with an empty id is never seen as
      answered and gains one more synthetic result each time. */
  lemma RepairIdempotentIff(ms: seq<Message>, text: string)
    ensures RepairCalls(RepairCalls(ms, text), text) == RepairCalls(ms, text) <==> "" !in KnownIds(ms)
  {
    RepairAnswers(ms, text);
    RepairKeepsKnownIds(ms, text);
    if "" in KnownIds(ms) {
      RepairLength(RepairCalls(ms, text), text);
    } else {
      RepairSkipsAnswered(RepairCalls(ms, text), text);
    }
  }

  lemma EmptyIdIsMissing(call: ToolCall, rest: seq<Message>)
    requires call.id == ""
    ensures Missing(Message(Assistant, None, "", [call]), rest) == [""]
  {
    hide Missing, RunIds;
    var m := Message(Assistant, None, "", [call]);
    assert Ids([call]) == [""];
    assert OnePerOpenCall([""], m, rest);
    MissingIsOnePerOpenCall(m, rest);
    InOrderIsUnique(Missing(m, rest), [""], [""]);
  }

  lemma RepairOne(m: Message, rest: seq<Message>, text: string)
    ensures RepairCalls([m] + rest, text) == [m] + (Synthetic(Missing(m, rest), text) + RepairCalls(rest, text))
  {
    hide Missing, Synthetic;
    assert ([m] + rest)[1..] == rest;
  }

  /** A history whose one call has an empty id gains a result with every repair. */
  lemma EmptyIdIsNeverAnswered(call: ToolCall, text: string)
    requires call.id == ""
    ensures var ms, result := [Message(Assistant, None, "", [call])], ToolResult("", text);
            && RepairCalls(ms, text) == ms + [result]
            && RepairCalls(ms + [result], text) == ms + [result, result]
  {
    hide RepairCalls, Missing;
    var m, result := Message(Assistant, None, "", [call]), ToolResult("", text);
    assert Synthetic([""], text) == [result] && Synthetic([], text) == [];
    EmptyIdIsMissing(call, []);
    RepairOne(m, [], text);
    assert RepairCalls([], text) == [] && [m] + [] == [m] by { RepairNothing(text); }
    NothingMissing(result, []);
    RepairOne(result, [], text);
    EmptyIdIsMissing(call, [result]);
    RepairOne(m, [result], text);
    assert [result] + [] == [result] && [m] + ([result] + [result]) == [m] + [result, result];
  }

  lemma RepairNothing(text: string)
    ensures RepairCalls([], text) == []
  {
  }
}
