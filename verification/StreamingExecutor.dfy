/** `StreamingToolExecutor` of src/streaming-executor.ts, the object with its tracked tools. */
module StreamingExecutor {
  import opened Wrappers
  import opened Serializability
  import S = ToolScheduling

  class TrackedTool {
    const call: Call
    const isConcurrencySafe: bool
    var status: Status
    var result: Option<Result>

    constructor (call: Call, isConcurrencySafe: bool)
      ensures this.call == call && this.isConcurrencySafe == isConcurrencySafe
      ensures status == Queued && result == None
    {
      this.call := call;
      this.isConcurrencySafe := isConcurrencySafe;
      status := Queued;
      result := None;
    }
  }

  /** What the tools hold, as values. */
  ghost predicate Shows(tools: seq<TrackedTool>, entries: seq<Entry>, outcomes: seq<Option<Result>>)
    reads tools
    ensures Shows(tools, entries, outcomes) ==> |tools| == |entries| == |outcomes|
  {
    && |tools| == |entries| == |outcomes|
    && (forall i, j :: 0 <= i < j < |tools| ==> tools[i] != tools[j])
    && forall i :: 0 <= i < |tools| ==>
         && entries[i] == Entry(tools[i].call, tools[i].isConcurrencySafe, tools[i].status)
         && outcomes[i] == tools[i].result
         && (outcomes[i].Some? <==> entries[i].Finished())
  }

  lemma ShownAt(tools: seq<TrackedTool>, entries: seq<Entry>, outcomes: seq<Option<Result>>, i: nat)
    requires Shows(tools, entries, outcomes) && i < |tools|
    ensures entries[i] == Entry(tools[i].call, tools[i].isConcurrencySafe, tools[i].status)
    ensures outcomes[i] == tools[i].result
    ensures outcomes[i].Some? <==> entries[i].Finished()
  {
  }

  class StreamingToolExecutor {
    var tools: seq<TrackedTool>
    ghost var entries: seq<Entry>
    ghost var outcomes: seq<Option<Result>>

    ghost predicate Valid()
      reads this, tools
      ensures Valid() ==> |tools| == |entries| == |outcomes|
    {
      Shows(tools, entries, outcomes) && S.Disciplined(entries)
    }

    constructor ()
      ensures Valid() && tools == [] && entries == [] && outcomes == []
    {
      tools := [];
      entries := [];
      outcomes := [];
    }

    /** Whether tool `i` can begin now. */
    method CanExecute(i: nat) returns (can: bool)
      requires Shows(tools, entries, outcomes) && i < |tools|
      ensures can == S.CanExecute(entries, i)
    {
      var executing, allSafe := 0, true;
      for k := 0 to |tools|
        invariant executing == 0 <==> forall j :: 0 <= j < k ==> entries[j].status != Executing
        invariant allSafe <==> forall j :: 0 <= j < k && entries[j].status == Executing ==> entries[j].safe
        invariant executing >= 0
      {
        if tools[k].status == Executing {
          executing := executing + 1;
          allSafe := allSafe && tools[k].isConcurrencySafe;
        }
      }
      can := executing == 0 || (tools[i].isConcurrencySafe && allSafe);
    }

    /** Start every queued tool that can begin; a queued unsafe tool that cannot blocks the rest. */
    method ProcessQueue()
      requires Shows(tools, entries, outcomes)
      modifies this`entries, tools
      ensures Shows(tools, entries, outcomes) && entries == S.Pass(old(entries), 0)
    {
      var i := 0;
      while i < |tools|
        invariant 0 <= i <= |tools| && Shows(tools, entries, outcomes)
        invariant S.Pass(entries, i) == S.Pass(old(entries), 0)
      {
        var tool := tools[i];
        if tool.status == Queued {
          var can := CanExecute(i);
          if can {
            tool.status := Executing;
            entries := SetStatus(entries, i, Executing);
          } else if !tool.isConcurrencySafe {
            return;
          }
        }
        i := i + 1;
      }
    }

    method AddTool(call: Call, isConcurrencySafe: bool)
      requires Valid()
      modifies this, tools
      ensures Valid()
      ensures entries == S.Pass(old(entries) + [Entry(call, isConcurrencySafe, Queued)], 0)
      ensures |tools| == |old(tools)| + 1 && tools[..|old(tools)|] == old(tools)
      ensures fresh(tools[|old(tools)|])
      ensures outcomes == old(outcomes) + [None]
    {
      S.AddedIsDisciplined(entries, call, isConcurrencySafe);
      hide S.Pass, S.Disciplined;
      var tool := new TrackedTool(call, isConcurrencySafe);
      tools := tools + [tool];
      entries := entries + [Entry(call, isConcurrencySafe, Queued)];
      outcomes := outcomes + [None];
      ProcessQueue();
    }

    /** The execution of tool `i` resolves with `result`. */
    method Resolved(i: nat, result: Result)
      requires Valid() && i < |entries| && entries[i].status == Executing
      modifies this`entries, this`outcomes, tools
      ensures Valid()
      ensures entries == S.Pass(SetStatus(old(entries), i, Completed), 0)
      ensures outcomes == old(outcomes)[i := Some(result)]
    {
      S.ResolvedIsDisciplined(entries, i);
      hide S.Pass, S.Disciplined;
      tools[i].result := Some(result);
      tools[i].status := Completed;
      entries := SetStatus(entries, i, Completed);
      outcomes := outcomes[i := Some(result)];
      ProcessQueue();
    }

    method Yield(i: nat) returns (result: Result)
      requires Shows(tools, entries, outcomes) && i < |entries| && entries[i].status == Completed
      modifies this`entries, tools[i]
      ensures Shows(tools, entries, outcomes) && entries == SetStatus(old(entries), i, Yielded)
      ensures outcomes[i] == Some(result)
    {
      tools[i].status := Yielded;
      entries := SetStatus(entries, i, Yielded);
      result := tools[i].result.value;
    }

    /** The results that are ready at the front of the queue. */
    method GetCompletedResults() returns (results: seq<Result>)
      requires Valid()
      modifies this`entries, tools
      ensures Valid() && entries == S.Poll(old(entries), 0).0
      ensures Picks(outcomes, S.Poll(old(entries), 0).1, results)
    {
      hide Shows, S.Disciplined, S.Poll, S.YieldedCount, S.FinishedUpTo, S.Range, Picks, Polling;
      ghost var n := S.PollMeans(entries);
      ghost var all := S.Poll(entries, 0);
      PollingStarts(entries, outcomes);
      results := [];
      var i := 0;
      while i < |tools|
        invariant 0 <= i <= |tools| && Shows(tools, entries, outcomes)
        invariant Polling(all, entries, outcomes, i, results)
      {
        ShownAt(tools, entries, outcomes, i);
        if tools[i].status == Completed {
          PollingGoesOn(all, entries, outcomes, i, results);
          var result := Yield(i);
          results := results + [result];
        } else if tools[i].status != Yielded {
          break;
        } else {
          PollingGoesOn(all, entries, outcomes, i, results);
        }
        i := i + 1;
      }
      PollingStops(all, entries, outcomes, i, results);
    }

    method HasPendingTools() returns (pending: bool)
      requires Valid()
      ensures pending <==> S.YieldedCount(entries) < |entries|
    {
      S.YieldedCountIs(entries);
      ghost var y := S.YieldedCount(entries);
      assert y < |entries| ==> entries[y].status != Yielded;
      pending := false;
      for i := 0 to |tools|
        invariant pending <==> exists k :: 0 <= k < i && entries[k].status != Yielded
      {
        pending := pending || tools[i].status != Yielded;
      }
    }

    /** Time passes until at least one running execution, if there is any, has resolved: which ones
        resolve, and in which order, is open. `answers[i]` is what execution `i` resolves with. */
    method AwaitSome(answers: seq<Result>)
      requires Valid() && |answers| == |entries|
      modifies this`entries, this`outcomes, tools
      ensures Valid() && Later(old(entries), old(outcomes), entries, outcomes, answers)
      ensures S.YieldedCount(entries) == S.YieldedCount(old(entries))
      ensures Unfinished(entries) <= Unfinished(old(entries))
      ensures (exists i :: 0 <= i < |old(entries)| && old(entries)[i].status == Executing) ==>
                Unfinished(entries) < Unfinished(old(entries))
    {
      var more := true;
      LaterIsReflexive(entries, outcomes, answers);
      while more && exists i :: 0 <= i < |tools| && tools[i].status == Executing
        invariant Valid() && Later(old(entries), old(outcomes), entries, outcomes, answers)
        invariant S.YieldedCount(entries) == S.YieldedCount(old(entries))
        invariant more ==> entries == old(entries) || Unfinished(entries) < Unfinished(old(entries))
        invariant !more ==> Unfinished(entries) < Unfinished(old(entries))
        decreases more, Unfinished(entries)
      {
        var i :| 0 <= i < |tools| && tools[i].status == Executing;
        ghost var before, outcomesBefore := entries, outcomes;
        S.ResolvedIsDisciplined(before, i);
        Resolved(i, answers[i]);
        ResolvedIsLater(before, outcomesBefore, i, answers);
        LaterIsTransitive(old(entries), old(outcomes), before, outcomesBefore, entries, outcomes, answers);
        more := *;
      }
    }

    method AwaitAndSchedule(answers: seq<Result>)
      requires Valid() && |answers| == |entries|
      modifies this`entries, this`outcomes, tools
      ensures Valid() && Later(old(entries), old(outcomes), entries, outcomes, answers)
      ensures S.YieldedCount(entries) == S.YieldedCount(old(entries))
      ensures Unfinished(entries) <= Unfinished(old(entries))
      ensures (exists i :: 0 <= i < |old(entries)| && old(entries)[i].status == Executing) ==>
                Unfinished(entries) < Unfinished(old(entries))
    {
      hide Shows, S.Disciplined, S.Pass, S.YieldedCount, Unfinished, Later;
      AwaitSome(answers);
      ghost var before := entries;
      RescheduledIsLater(entries, outcomes, answers);
      ProcessQueue();
      LaterIsTransitive(old(entries), old(outcomes), before, outcomes, entries, outcomes, answers);
    }

    /** One turn of the `drain` loop: yield what is ready, wait, schedule. A turn finishes an execution
        or yields a result. */
    method DrainOnce(answers: seq<Result>) returns (ready: seq<Result>)
      requires Valid() && |answers| == |entries| && S.YieldedCount(entries) < |entries|
      modifies this`entries, this`outcomes, tools
      ensures Valid() && Later(old(entries), old(outcomes), entries, outcomes, answers)
      ensures S.YieldedCount(old(entries)) <= S.YieldedCount(entries)
      ensures Picks(outcomes, S.Range(S.YieldedCount(old(entries)), S.YieldedCount(entries)), ready)
      ensures || Unfinished(entries) < Unfinished(old(entries))
              || (Unfinished(entries) <= Unfinished(old(entries))
                  && S.YieldedCount(entries) > S.YieldedCount(old(entries)))
    {
      ghost var n := S.PollMeans(entries);
      PollIsLater(entries, outcomes, answers);
      hide S.Disciplined, S.Pass, S.Poll, S.Range, S.YieldedCount, S.FinishedUpTo, Unfinished, Later, Picks;
      ready := GetCompletedResults();
      ghost var y, polled, known := S.YieldedCount(old(entries)), entries, outcomes;
      AwaitAndSchedule(answers);
      LaterIsTransitive(old(entries), old(outcomes), polled, known, entries, outcomes, answers);
      PicksLater(polled, known, entries, outcomes, answers, y, n, ready);
    }

    method DrainMore(ghost y0: nat, results: seq<Result>, answers: seq<Result>) returns (more: seq<Result>)
      requires Valid() && |answers| == |entries| && y0 <= S.YieldedCount(entries) < |entries|
      requires Picks(outcomes, S.Range(y0, S.YieldedCount(entries)), results)
      modifies this`entries, this`outcomes, tools
      ensures Valid() && Later(old(entries), old(outcomes), entries, outcomes, answers)
      ensures y0 <= S.YieldedCount(entries)
      ensures Picks(outcomes, S.Range(y0, S.YieldedCount(entries)), more)
      ensures || Unfinished(entries) < Unfinished(old(entries))
              || (Unfinished(entries) <= Unfinished(old(entries))
                  && S.YieldedCount(entries) > S.YieldedCount(old(entries)))
    {
      hide S.Disciplined, S.Pass, S.Poll, S.Range, S.YieldedCount, Unfinished, Later, Picks;
      ghost var y, es, known := S.YieldedCount(entries), entries, outcomes;
      var ready := DrainOnce(answers);
      PicksLater(es, known, entries, outcomes, answers, y0, y, results);
      PicksJoin(outcomes, y0, y, S.YieldedCount(entries), results, ready);
      more := results + ready;
    }

    /** Wait for all tools and yield their results in order, however the executions resolve: every
        result that was still to be yielded comes out exactly once, in submission order. */
    method Drain(answers: seq<Result>) returns (results: seq<Result>)
      requires Valid() && |answers| == |entries|
      modifies this`entries, this`outcomes, tools
      ensures Valid() && S.YieldedCount(entries) == |entries|
      ensures Later(old(entries), old(outcomes), entries, outcomes, answers)
      ensures Picks(outcomes, S.Range(S.YieldedCount(old(entries)), |entries|), results)
    {
      ghost var y0, es0, known0 := S.YieldedCount(entries), entries, outcomes;
      results := [];
      LaterIsReflexive(entries, outcomes, answers);
      assert Picks(outcomes, S.Range(y0, y0), results);
      hide S.Disciplined, S.Pass, S.Poll, S.Range, S.YieldedCount, Unfinished, Later, Picks;
      var pending := HasPendingTools();
      while pending
        invariant Valid() && Later(es0, known0, entries, outcomes, answers)
        invariant y0 <= S.YieldedCount(entries) <= |entries|
        invariant Picks(outcomes, S.Range(y0, S.YieldedCount(entries)), results)
        invariant pending <==> S.YieldedCount(entries) < |entries|
        decreases Unfinished(entries), |entries| - S.YieldedCount(entries)
      {
        ghost var es, known := entries, outcomes;
        results := DrainMore(y0, results, answers);
        LaterIsTransitive(es0, known0, es, known, entries, outcomes, answers);
        pending := HasPendingTools();
      }
      AllYielded(entries);
      var last := GetCompletedResults();
      PicksJoin(outcomes, y0, |entries|, |entries|, results, last);
      results := results + last;
    }
  }

  /** What `drain` may do to the tools: finished ones keep their outcome, and one that finishes has the
      result its execution resolves with. */
  ghost predicate Later(es: seq<Entry>, outcomes: seq<Option<Result>>, es': seq<Entry>,
                        outcomes': seq<Option<Result>>, answers: seq<Result>) {
    && |es| == |outcomes| == |es'| == |outcomes'| == |answers|
    && forall i :: 0 <= i < |es| ==>
         && es'[i].call == es[i].call
         && (es[i].Finished() ==> es'[i].Finished() && outcomes'[i] == outcomes[i])
         && (!es[i].Finished() && es'[i].Finished() ==> outcomes'[i] == Some(answers[i]))
  }

  function Unfinished(es: seq<Entry>): nat {
    if es == [] then 0 else Unfinished(es[..|es| - 1]) + if es[|es| - 1].Finished() then 0 else 1
  }

  lemma {:induction false} UnfinishedDrops(es: seq<Entry>, es': seq<Entry>, i: nat)
    requires |es| == |es'| && forall k :: 0 <= k < |es| && es[k].Finished() ==> es'[k].Finished()
    requires i < |es| ==> !es[i].Finished() && es'[i].Finished()
    ensures Unfinished(es') <= Unfinished(es) - if i < |es| then 1 else 0
  {
    if es != [] {
      UnfinishedDrops(es[..|es| - 1], es'[..|es| - 1], i);
    }
  }

  lemma LaterIsReflexive(es: seq<Entry>, outcomes: seq<Option<Result>>, answers: seq<Result>)
    requires |es| == |outcomes| == |answers|
    ensures Later(es, outcomes, es, outcomes, answers)
  {
  }

  lemma LaterIsTransitive(es: seq<Entry>, outcomes: seq<Option<Result>>,
                          es': seq<Entry>, outcomes': seq<Option<Result>>,
                          es'': seq<Entry>, outcomes'': seq<Option<Result>>, answers: seq<Result>)
    requires Later(es, outcomes, es', outcomes', answers) && Later(es', outcomes', es'', outcomes'', answers)
    ensures Later(es, outcomes, es'', outcomes'', answers)
  {
  }

  lemma StartsAreLater(es: seq<Entry>, es': seq<Entry>, outcomes: seq<Option<Result>>, answers: seq<Result>)
    requires S.OnlyStarts(es, es') && S.YieldedIsPrefix(es) && |es| == |outcomes| == |answers|
    ensures Later(es, outcomes, es', outcomes, answers)
    ensures Unfinished(es') == Unfinished(es) && S.YieldedCount(es') == S.YieldedCount(es)
  {
    S.SameYielded(es, es');
    UnfinishedDrops(es, es', |es|);
    UnfinishedDrops(es', es, |es|);
  }

  lemma CompletionIsLater(es: seq<Entry>, outcomes: seq<Option<Result>>, i: nat, answers: seq<Result>)
    requires |es| == |outcomes| == |answers| && i < |es| && es[i].status == Executing
    ensures Later(es, outcomes, SetStatus(es, i, Completed), outcomes[i := Some(answers[i])], answers)
  {
  }

  lemma CompletionCounts(es: seq<Entry>, i: nat)
    requires S.YieldedIsPrefix(es) && i < |es| && es[i].status == Executing
    ensures var es' := SetStatus(es, i, Completed);
            && Unfinished(es') < Unfinished(es)
            && S.YieldedIsPrefix(es') && S.YieldedCount(es') == S.YieldedCount(es)
  {
    var es' := SetStatus(es, i, Completed);
    S.SameYielded(es, es');
    UnfinishedDrops(es, es', i);
  }

  lemma ResolvedIsLater(es: seq<Entry>, outcomes: seq<Option<Result>>, i: nat, answers: seq<Result>)
    requires S.Disciplined(es) && |es| == |outcomes| == |answers|
    requires i < |es| && es[i].status == Executing
    ensures var es' := S.Pass(SetStatus(es, i, Completed), 0);
            && Later(es, outcomes, es', outcomes[i := Some(answers[i])], answers)
            && Unfinished(es') < Unfinished(es)
            && S.YieldedCount(es') == S.YieldedCount(es)
  {
    S.ResolvedIsDisciplined(es, i);
    CompletionIsLater(es, outcomes, i, answers);
    CompletionCounts(es, i);
    var mid, known := SetStatus(es, i, Completed), outcomes[i := Some(answers[i])];
    var es' := S.Pass(mid, 0);
    StartsAreLater(mid, es', known, answers);
    hide Later, Unfinished, S.YieldedCount, S.Disciplined, S.Pass, S.OnlyStarts;
    LaterIsTransitive(es, outcomes, mid, known, es', known, answers);
  }

  /** When everything is yielded, the last poll finds nothing. */
  lemma AllYielded(es: seq<Entry>)
    requires S.Disciplined(es) && S.YieldedCount(es) == |es|
    ensures S.Poll(es, 0) == (es, S.Range(|es|, |es|))
  {
    var n := S.PollMeans(es);
    S.YieldedCountIs(es);
    hide S.Poll, S.YieldedCount, S.Disciplined, S.FinishedUpTo, S.Range;
    assert S.Poll(es, 0).0 == es;
  }

  lemma PollIsLater(es: seq<Entry>, outcomes: seq<Option<Result>>, answers: seq<Result>)
    requires S.Disciplined(es) && |es| == |outcomes| == |answers|
    ensures var es' := S.Poll(es, 0).0;
            && Later(es, outcomes, es', outcomes, answers)
            && Unfinished(es') == Unfinished(es)
            && ((exists i :: 0 <= i < |es'| && es'[i].status == Executing) || S.YieldedCount(es') == |es|)
  {
    var n := S.PollMeans(es);
    var es' := S.Poll(es, 0).0;
    UnfinishedDrops(es, es', |es|);
    UnfinishedDrops(es', es, |es|);
    if n < |es| {
      assert !es'[n].Finished();
    }
  }

  lemma RescheduledIsLater(es: seq<Entry>, outcomes: seq<Option<Result>>, answers: seq<Result>)
    requires S.Disciplined(es) && |es| == |outcomes| == |answers|
    ensures var es' := S.Pass(es, 0);
            && Later(es, outcomes, es', outcomes, answers)
            && Unfinished(es') == Unfinished(es)
            && S.YieldedCount(es') == S.YieldedCount(es)
            && S.Disciplined(es')
  {
    S.RescheduledIsDisciplined(es);
    hide Later, Unfinished, S.YieldedCount, S.Pass, S.OnlyStarts;
    StartsAreLater(es, S.Pass(es, 0), outcomes, answers);
  }

  /** Outcomes handed out stay what they are. */
  lemma PicksLater(es: seq<Entry>, outcomes: seq<Option<Result>>, es': seq<Entry>, outcomes': seq<Option<Result>>,
                   answers: seq<Result>, lo: nat, hi: nat, results: seq<Result>)
    requires Later(es, outcomes, es', outcomes', answers) && lo <= hi <= |es|
    requires forall i :: 0 <= i < |es| && outcomes[i].Some? ==> es[i].Finished()
    requires Picks(outcomes, S.Range(lo, hi), results)
    ensures Picks(outcomes', S.Range(lo, hi), results)
  {
  }

  lemma PicksJoin(outcomes: seq<Option<Result>>, lo: nat, mid: nat, hi: nat, a: seq<Result>, b: seq<Result>)
    requires lo <= mid <= hi
    requires Picks(outcomes, S.Range(lo, mid), a) && Picks(outcomes, S.Range(mid, hi), b)
    ensures Picks(outcomes, S.Range(lo, hi), a + b)
  {
    assert S.Range(lo, hi) == S.Range(lo, mid) + S.Range(mid, hi);
  }

  /** `results` are the outcomes at `at`, in that order. */
  ghost predicate Picks(outcomes: seq<Option<Result>>, at: seq<nat>, results: seq<Result>) {
    && |results| == |at|
    && forall k :: 0 <= k < |at| ==> at[k] < |outcomes| && outcomes[at[k]] == Some(results[k])
  }

  lemma PicksMore(outcomes: seq<Option<Result>>, at: seq<nat>, results: seq<Result>, i: nat)
    requires Picks(outcomes, at, results) && i < |outcomes| && outcomes[i].Some?
    ensures Picks(outcomes, at + [i], results + [outcomes[i].value])
  {
  }

  /** In the middle of a poll that ends with `all`: what is done up to tool `i` and what is left. */
  ghost predicate Polling(all: (seq<Entry>, seq<nat>), entries: seq<Entry>, outcomes: seq<Option<Result>>,
                          i: nat, results: seq<Result>)
    requires i <= |entries|
  {
    && S.Poll(entries, i).0 == all.0
    && exists picked: seq<nat> ::
         picked + S.Poll(entries, i).1 == all.1 && Picks(outcomes, picked, results)
  }

  lemma PollingStarts(entries: seq<Entry>, outcomes: seq<Option<Result>>)
    ensures Polling(S.Poll(entries, 0), entries, outcomes, 0, [])
  {
    var none: seq<nat> := [];
    assert none + S.Poll(entries, 0).1 == S.Poll(entries, 0).1;
    assert Picks(outcomes, none, []);
  }

  lemma PollingGoesOn(all: (seq<Entry>, seq<nat>), entries: seq<Entry>, outcomes: seq<Option<Result>>,
                      i: nat, results: seq<Result>)
    requires i < |entries| == |outcomes| && Polling(all, entries, outcomes, i, results)
    requires outcomes[i].Some? <==> entries[i].Finished()
    ensures entries[i].status == Completed ==>
              Polling(all, SetStatus(entries, i, Yielded), outcomes, i + 1, results + [outcomes[i].value])
    ensures entries[i].status == Yielded ==> Polling(all, entries, outcomes, i + 1, results)
  {
    var picked: seq<nat> :|
      picked + S.Poll(entries, i).1 == all.1 && Picks(outcomes, picked, results);
    S.PollStep(entries, i, picked);
    hide S.Poll;
    if entries[i].status == Completed {
      PicksMore(outcomes, picked, results, i);
      var picked' := picked + [i];
      assert picked' + S.Poll(SetStatus(entries, i, Yielded), i + 1).1 == all.1;
    }
  }

  lemma PollingStops(all: (seq<Entry>, seq<nat>), entries: seq<Entry>, outcomes: seq<Option<Result>>,
                     i: nat, results: seq<Result>)
    requires i <= |entries| == |outcomes| && Polling(all, entries, outcomes, i, results)
    requires i < |entries| ==> !entries[i].Finished()
    ensures entries == all.0 && Picks(outcomes, all.1, results)
  {
    var picked: seq<nat> :|
      picked + S.Poll(entries, i).1 == all.1 && Picks(outcomes, picked, results);
    assert S.Poll(entries, i) == (entries, []);
    assert picked + [] == picked;
  }
}
