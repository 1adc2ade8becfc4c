/** What becomes of a session transcript when something else writes to it between the calls of a tool
    round and their results: another run on the same session, or a `resumeTask` that rebuilds it. */
module SharedSession {
  import opened History
  import opened AgentRun
  import opened Sessions

  /** Adding tool messages keeps a transcript without stray results exactly when each of them answers a
      call of the last message that is not a tool message. */
  lemma ResultsFit(transcript: seq<Message>, results: seq<Message>)
    requires forall m :: m in results ==> m.role == Tool
    ensures NoStrayResults(transcript + results) <==>
            NoStrayResults(transcript) && RunIds(results) <= OpenIds(transcript, {})
  {
    WellFormedByRecursion(transcript);
    WellFormedByRecursion(transcript + results);
    OwnedConcat(transcript, results, {});
    ToolRun(results, OpenIds(transcript, {}));
  }

  lemma {:induction false} OpenIdsConcat(a: seq<Message>, b: seq<Message>, open: set<string>)
    ensures OpenIds(a + b, open) == OpenIds(b, OpenIds(a, open))
  {
    if a == [] {
      assert a + b == b;
    } else {
      assert (a + b)[1..] == a[1..] + b;
      OpenIdsConcat(a[1..], b, if a[0].role == Tool then open else CallIds(a[0]));
    }
  }

  lemma {:induction false} AllTools(ms: seq<Message>, open: set<string>)
    ensures (forall m :: m in ms ==> m.role == Tool && m.toolCallId in open) ==>
              Owned(ms, open) && OpenIds(ms, open) == open
    ensures (exists m :: m in ms && m.role != Tool) ==> OpenIds(ms, open) <= KnownIds(ms)
    ensures Owned(ms, open) && (forall m :: m in ms ==> m.role == Tool) ==>
              forall m :: m in ms ==> m.toolCallId in open
  {
    if ms != [] {
      var rest := ms[1..];
      assert ms == [ms[0]] + rest;
      AllTools(rest, if ms[0].role == Tool then open else CallIds(ms[0]));
      OpenIdsKnown(rest, CallIds(ms[0]));
    }
  }

  /** Messages that come between the calls of a round and their results, with call ids of their own,
      leave a stray result, unless they are themselves results for the same calls. */
  lemma InterleavedRoundIff(cfg: Config, transcript: seq<Message>, turn: Turn, between: seq<Message>)
    requires turn.Valid() && turn.CallsTools()
    requires NoStrayResults(transcript) && KnownIds(between) !! turn.NewIds()
    ensures var call := [AssistantMessage(turn.outcome.text, turn.outcome.calls)];
            var results := Results(cfg, turn.outcome.calls, turn.outcome.outputs);
            NoStrayResults(transcript + call + between + results)
            <==> forall m :: m in between ==> m.role == Tool && m.toolCallId in turn.NewIds()
  {
    var r, ids := turn.outcome, turn.NewIds();
    var call, results := [AssistantMessage(r.text, r.calls)], Results(cfg, r.calls, r.outputs);
    var before := transcript + call;
    ResultIds(cfg, r.calls, r.outputs);
    assert r.calls[0].id in ids;
    ResultsFit(before + between, results);
    WellFormedByRecursion(transcript);
    WellFormedByRecursion(before + between);
    OwnedConcat(transcript, call, {});
    OpenIdsConcat(transcript, call, {});
    OwnedConcat(before, between, {});
    OpenIdsConcat(before, between, {});
    AllTools(between, ids);
  }

  /** A transcript that is rebuilt in the middle of a round must end in the round's calls. */
  lemma RebuiltRoundIff(cfg: Config, rebuilt: seq<Message>, turn: Turn)
    requires turn.Valid() && turn.CallsTools()
    ensures NoStrayResults(rebuilt + Results(cfg, turn.outcome.calls, turn.outcome.outputs))
            <==> NoStrayResults(rebuilt) && turn.NewIds() <= OpenIds(rebuilt, {})
  {
    ResultIds(cfg, turn.outcome.calls, turn.outcome.outputs);
    ResultsFit(rebuilt, Results(cfg, turn.outcome.calls, turn.outcome.outputs));
  }

  /** A user message that another run adds in the middle of a round leaves its results stray. */
  lemma UserMessageInRound(cfg: Config, turn: Turn)
    requires turn.Valid() && turn.CallsTools()
    ensures var call := AssistantMessage(turn.outcome.text, turn.outcome.calls);
            var results := Results(cfg, turn.outcome.calls, turn.outcome.outputs);
            !NoStrayResults([] + [call] + [Text(User, "x")] + results)
  {
    var between := [Text(User, "x")];
    PlainMessages(between, {});
    assert between[0] in between;
    InterleavedRoundIff(cfg, [], turn, between);
  }
}
