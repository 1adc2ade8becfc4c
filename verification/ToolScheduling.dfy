/** The streaming executor of src/streaming-executor.ts as a scheduler of the tool calls of one reply:
    every run of it is serializable and ends once every call does. */
module ToolScheduling {
  import opened Serializability
  import opened RunLengths

  // ---- The streaming executor ----

  predicate CanExecute(es: seq<Entry>, i: nat)
    requires i < |es|
  {
    forall k :: 0 <= k < |es| && es[k].status == Executing ==> es[i].safe && es[k].safe
  }

  /** `processQueue` from entry `i` on. */
  function Pass(es: seq<Entry>, i: nat): (r: seq<Entry>)
    requires i <= |es|
    ensures |r| == |es|
    decreases |es| - i
  {
    if i == |es| then es
    else if es[i].status != Queued then Pass(es, i + 1)
    else if CanExecute(es, i) then Pass(SetStatus(es, i, Executing), i + 1)
    else if !es[i].safe then es
    else Pass(es, i + 1)
  }

  ghost predicate StartedIsPrefix(es: seq<Entry>) {
    forall i, j :: 0 <= i < j < |es| && es[j].Started() ==> es[i].Started()
  }

  ghost predicate UnsafeRunsAlone(es: seq<Entry>) {
    forall i, j | 0 <= i < |es| && 0 <= j < |es| && i != j ::
      es[i].status == Executing && es[j].status == Executing ==> es[i].safe
  }

  ghost predicate YieldedIsPrefix(es: seq<Entry>) {
    forall i, j :: 0 <= i < j < |es| && es[j].status == Yielded ==> es[i].status == Yielded
  }

  /** A waiting call waits for a running one. */
  ghost predicate NeverIdle(es: seq<Entry>) {
    (exists i :: 0 <= i < |es| && es[i].status == Queued) ==>
      exists i :: 0 <= i < |es| && es[i].status == Executing
  }

  ghost predicate Disciplined(es: seq<Entry>) {
    StartedIsPrefix(es) && UnsafeRunsAlone(es) && YieldedIsPrefix(es) && NeverIdle(es)
  }

  /** In the middle of a pass: a call passed over has an unsafe running call in its way. */
  ghost predicate PassedOver(es: seq<Entry>, i: nat)
    requires i <= |es|
  {
    (exists k :: 0 <= k < i && es[k].status == Queued) ==>
      exists k :: 0 <= k < |es| && es[k].status == Executing && !es[k].safe
  }

  /** `es` with some waiting calls started, each of which may start. */
  ghost predicate OnlyStarts(es: seq<Entry>, r: seq<Entry>) {
    && |r| == |es|
    && forall i :: 0 <= i < |es| ==>
         r[i] == es[i] || (es[i].status == Queued && r[i] == es[i].(status := Executing) && MayStart(r, i))
  }

  lemma StartOne(es: seq<Entry>, i: nat)
    requires i < |es| && StartedIsPrefix(es) && UnsafeRunsAlone(es) && PassedOver(es, i)
    requires es[i].status == Queued && CanExecute(es, i)
    ensures var es' := SetStatus(es, i, Executing);
            && MayStart(es', i)
            && StartedIsPrefix(es') && UnsafeRunsAlone(es') && PassedOver(es', i + 1)
  {
  }

  lemma StartedFirst(es: seq<Entry>, i: nat, r: seq<Entry>)
    requires i < |es| && es[i].status == Queued && MayStart(SetStatus(es, i, Executing), i)
    requires OnlyStarts(SetStatus(es, i, Executing), r)
    ensures OnlyStarts(es, r)
  {
  }

  lemma PassOver(es: seq<Entry>, i: nat)
    requires i < |es| && PassedOver(es, i) && (es[i].status != Queued || (!CanExecute(es, i) && es[i].safe))
    ensures PassedOver(es, i + 1)
  {
  }

  lemma PassEnds(es: seq<Entry>, i: nat)
    requires StartedIsPrefix(es) && i <= |es| && PassedOver(es, i)
    requires i == |es| || (es[i].status == Queued && !CanExecute(es, i))
    ensures OnlyStarts(es, es) && NeverIdle(es)
  {
  }

  /** Whatever the statuses, a pass starts only calls that may start, and it leaves no call waiting
      while nothing runs. */
  lemma {:induction false} PassStarts(es: seq<Entry>, i: nat)
    requires i <= |es| && StartedIsPrefix(es) && UnsafeRunsAlone(es) && PassedOver(es, i)
    ensures var r := Pass(es, i);
            OnlyStarts(es, r) && StartedIsPrefix(r) && UnsafeRunsAlone(r) && NeverIdle(r)
    decreases |es| - i
  {
    hide StartedIsPrefix, UnsafeRunsAlone, PassedOver, OnlyStarts, NeverIdle, MayStart;
    if i == |es| {
      PassEnds(es, i);
    } else if es[i].status != Queued {
      PassOver(es, i);
      PassStarts(es, i + 1);
    } else if CanExecute(es, i) {
      StartOne(es, i);
      PassStarts(SetStatus(es, i, Executing), i + 1);
      StartedFirst(es, i, Pass(es, i));
    } else if es[i].safe {
      PassOver(es, i);
      PassStarts(es, i + 1);
    } else {
      PassEnds(es, i);
    }
  }

  /** A running call that call `j` may not run beside: one of the two is unsafe. */
  ghost predicate Blocked(es: seq<Entry>, j: nat)
    requires j < |es|
  {
    exists k :: 0 <= k < |es| && es[k].status == Executing && !(es[k].safe && es[j].safe)
  }

  /** What still waits after a pass is blocked, or waits behind an unsafe call that is. */
  ghost predicate Exhausted(es: seq<Entry>, i: nat)
    requires i <= |es|
  {
    forall j :: i <= j < |es| && es[j].status == Queued ==>
      Blocked(es, j) || exists k :: i <= k < j && es[k].status == Queued && !es[k].safe && Blocked(es, k)
  }

  /** A pass starts all it can. */
  lemma {:induction false} PassExhausts(es: seq<Entry>, i: nat)
    requires i <= |es| && StartedIsPrefix(es) && UnsafeRunsAlone(es) && PassedOver(es, i)
    ensures Exhausted(Pass(es, i), i)
    decreases |es| - i
  {
    if i == |es| {
    } else if es[i].status != Queued {
      PassExhausts(es, i + 1);
      PassKeepsFront(es, i + 1);
    } else if CanExecute(es, i) {
      var es' := SetStatus(es, i, Executing);
      assert MayStart(es', i);
      PassExhausts(es', i + 1);
      PassKeepsFront(es', i + 1);
    } else if es[i].safe {
      PassExhausts(es, i + 1);
      PassKeepsFront(es, i + 1);
      PassStarts(es, i + 1);
    }
  }

  lemma {:induction false} PassKeepsFront(es: seq<Entry>, i: nat)
    requires i <= |es|
    ensures forall k :: 0 <= k < i ==> Pass(es, i)[k] == es[k]
    decreases |es| - i
  {
    if i < |es| && es[i].status != Queued {
      PassKeepsFront(es, i + 1);
    } else if i < |es| && CanExecute(es, i) {
      PassKeepsFront(SetStatus(es, i, Executing), i + 1);
    } else if i < |es| && es[i].safe {
      PassKeepsFront(es, i + 1);
    }
  }

  /** `getCompletedResults` from entry `i` on: the entries afterwards, and the positions yielded. */
  function Poll(es: seq<Entry>, i: nat): (r: (seq<Entry>, seq<nat>))
    requires i <= |es|
    ensures |r.0| == |es|
    ensures forall k :: 0 <= k < |r.1| ==> i <= r.1[k] < |es|
    decreases |es| - i
  {
    if i == |es| then (es, [])
    else if es[i].status == Completed then
      var r := Poll(SetStatus(es, i, Yielded), i + 1);
      (r.0, [i] + r.1)
    else if es[i].status == Yielded then Poll(es, i + 1)
    else (es, [])
  }

  /** How `Poll` goes on after `picked`. */
  lemma PollStep(es: seq<Entry>, i: nat, picked: seq<nat>)
    requires i < |es|
    ensures es[i].status == Completed ==>
              && Poll(es, i).0 == Poll(SetStatus(es, i, Yielded), i + 1).0
              && picked + Poll(es, i).1 == (picked + [i]) + Poll(SetStatus(es, i, Yielded), i + 1).1
    ensures es[i].status == Yielded ==> Poll(es, i) == Poll(es, i + 1)
    ensures es[i].status == Queued || es[i].status == Executing ==> Poll(es, i) == (es, [])
  {
  }

  function YieldedCount(es: seq<Entry>): (n: nat)
    ensures n <= |es|
  {
    if es == [] || es[0].status != Yielded then 0 else 1 + YieldedCount(es[1..])
  }

  function Range(lo: nat, hi: nat): (r: seq<nat>)
    requires lo <= hi
    ensures |r| == hi - lo && forall k :: 0 <= k < |r| ==> r[k] == lo + k
  {
    seq(hi - lo, k => lo + k)
  }

  /** `n` is where the yielded calls end. */
  ghost predicate YieldedUpTo(es: seq<Entry>, n: nat) {
    && n <= |es|
    && (forall i :: 0 <= i < n ==> es[i].status == Yielded)
    && (forall i :: n <= i < |es| ==> es[i].status != Yielded)
  }

  /** `n` is where the finished calls at the front end. */
  ghost predicate FinishedUpTo(es: seq<Entry>, n: nat) {
    && n <= |es|
    && (forall i :: 0 <= i < n ==> es[i].Finished())
    && (n < |es| ==> !es[n].Finished())
  }

  lemma {:induction false} YieldedCountIs(es: seq<Entry>)
    requires YieldedIsPrefix(es)
    ensures YieldedUpTo(es, YieldedCount(es))
  {
    if es != [] {
      var t := es[1..];
      forall i, j | 0 <= i < j < |t| && t[j].status == Yielded
        ensures t[i].status == Yielded
      {
        assert es[i + 1].status == Yielded by { assert es[j + 1] == t[j]; }
      }
      YieldedCountIs(t);
      forall i | YieldedCount(es) <= i < |es|
        ensures es[i].status != Yielded
      {
        if es[0].status == Yielded {
          assert es[i] == t[i - 1];
        }
      }
    }
  }

  lemma OneEnd(es: seq<Entry>, a: nat, b: nat)
    requires YieldedUpTo(es, a) && YieldedUpTo(es, b)
    ensures a == b
  {
    assert a < |es| ==> es[a].status != Yielded;
    assert b < |es| ==> es[b].status != Yielded;
  }

  /** The number of yielded calls depends only on which calls are yielded. */
  lemma SameYielded(es: seq<Entry>, r: seq<Entry>)
    requires YieldedIsPrefix(es) && |es| <= |r|
    requires forall i :: 0 <= i < |r| ==> (r[i].status == Yielded <==> i < |es| && es[i].status == Yielded)
    ensures YieldedIsPrefix(r) && YieldedCount(r) == YieldedCount(es)
  {
    YieldedCountIs(es);
    YieldedCountIs(r);
  }

  lemma {:induction false} FinishedFront(es: seq<Entry>, i: nat) returns (n: nat)
    requires i <= |es| && forall k :: 0 <= k < i ==> es[k].Finished()
    ensures i <= n && FinishedUpTo(es, n)
    decreases |es| - i
  {
    if i < |es| && es[i].Finished() {
      n := FinishedFront(es, i + 1);
    } else {
      n := i;
    }
  }

  lemma YieldStep(es: seq<Entry>, i: nat, y: nat, n: nat)
    requires YieldedUpTo(es, y) && FinishedUpTo(es, n) && i <= y && i < n && es[i].status == Completed
    ensures y == i && YieldedUpTo(SetStatus(es, i, Yielded), i + 1) && FinishedUpTo(SetStatus(es, i, Yielded), n)
  {
  }

  /** A poll yields the finished calls at the front that were not yielded before, once each and in
      order, and nothing else changes. */
  lemma {:induction false} PollYields(es: seq<Entry>, i: nat, y: nat, n: nat)
    requires YieldedUpTo(es, y) && FinishedUpTo(es, n) && i <= y <= n
    ensures Poll(es, i).1 == Range(y, n)
    ensures YieldedUpTo(Poll(es, i).0, n)
    ensures forall k :: 0 <= k < |es| ==>
              Poll(es, i).0[k] == if k < n then es[k].(status := Yielded) else es[k]
    decreases |es| - i
  {
    if i < n {
      if es[i].status == Completed {
        YieldStep(es, i, y, n);
        hide YieldedUpTo, FinishedUpTo;
        PollYields(SetStatus(es, i, Yielded), i + 1, i + 1, n);
        assert Range(i, n) == [i] + Range(i + 1, n);
      } else {
        PollYields(es, i + 1, y, n);
      }
    }
  }

  // ---- Runs of the streaming executor ----

  /** What may happen to an executor, in any order: a call is added, a running call takes a step, a
      running call that is over resolves, the results are polled, `drain` schedules once more. */
  datatype Event = Add(call: Call, safe: bool) | Step(i: nat) | Resolve(i: nat) | PollNow | Reschedule

  /** The calls, and the results handed out so far. */
  datatype Executor = Executor(st: State, output: seq<Result>)

  function ResultsAt(sem: Semantics, st: State, at: seq<nat>): (rs: seq<Result>)
    requires |st.locals| == |st.entries| && forall k :: 0 <= k < |at| ==> at[k] < |st.entries|
    ensures |rs| == |at|
    ensures forall k :: 0 <= k < |at| ==> rs[k] == sem.result(st.entries[at[k]].call, st.locals[at[k]])
  {
    seq(|at|, k requires 0 <= k < |at| => sem.result(st.entries[at[k]].call, st.locals[at[k]]))
  }

  /** One event; an event that is not possible now changes nothing. */
  function Next(sem: Semantics, x: Executor, e: Event): Executor
    requires |x.st.locals| == |x.st.steps| == |x.st.entries|
  {
    match e
    case Add(c, safe) =>
      var st := Submit(sem, x.st, c, safe);
      x.(st := st.(entries := Pass(st.entries, 0)))
    case Step(i) =>
      if CanStep(sem, x.st, i) then x.(st := MicroStep(sem, x.st, i)) else x
    case Resolve(i) =>
      if CanFinish(sem, x.st, i)
      then x.(st := x.st.(entries := Pass(SetStatus(x.st.entries, i, Completed), 0)))
      else x
    case PollNow =>
      var r := Poll(x.st.entries, 0);
      Executor(x.st.(entries := r.0), x.output + ResultsAt(sem, x.st, r.1))
    case Reschedule =>
      x.(st := x.st.(entries := Pass(x.st.entries, 0)))
  }

  /** Calls added as safe are read-only. */
  ghost predicate HonestFlags(sem: Semantics, es: seq<Event>) {
    forall i :: 0 <= i < |es| && es[i].Add? && es[i].safe ==> ReadOnly(sem, es[i].call)
  }

  /** An executor created over the shared state `s0`, after `es`. */
  ghost function AfterEvents(sem: Semantics, s0: Shared, es: seq<Event>): (x: Executor)
    ensures |x.st.locals| == |x.st.steps| == |x.st.entries|
  {
    if es == [] then Executor(State([], [], [], s0), [])
    else Next(sem, AfterEvents(sem, s0, es[..|es| - 1]), es[|es| - 1])
  }

  ghost predicate GoodExecutor(sem: Semantics, s0: Shared, x: Executor) {
    && Consistent(sem, s0, x.st)
    && Disciplined(x.st.entries)
    && x.output == Results(sem, x.st, YieldedCount(x.st.entries))
  }

  lemma GoodIsSized(sem: Semantics, s0: Shared, x: Executor)
    requires GoodExecutor(sem, s0, x)
    ensures Sized(x.st) && Disciplined(x.st.entries) && Consistent(sem, s0, x.st)
  {
  }

  lemma ResultsSame(sem: Semantics, a: State, b: State, k: nat)
    requires k <= |a.entries| == |a.locals| && k <= |b.entries| == |b.locals|
    requires forall i :: 0 <= i < k ==> a.entries[i].call == b.entries[i].call && a.locals[i] == b.locals[i]
    ensures Results(sem, a, k) == Results(sem, b, k)
  {
    assert Results(sem, a, k) == Results(sem, b, k);
  }

  lemma OutputGrows(sem: Semantics, st: State, r: seq<Entry>, y: nat, n: nat)
    requires y <= n <= |st.entries| == |st.locals| == |r|
    requires forall i :: 0 <= i < |r| ==> r[i].call == st.entries[i].call
    ensures Results(sem, st, y) + ResultsAt(sem, st, Range(y, n)) == Results(sem, st.(entries := r), n)
  {
  }

  lemma PassIsGood(sem: Semantics, s0: Shared, st: State)
    requires Consistent(sem, s0, st)
    requires StartedIsPrefix(st.entries) && UnsafeRunsAlone(st.entries) && YieldedIsPrefix(st.entries)
    ensures Consistent(sem, s0, st.(entries := Pass(st.entries, 0)))
    ensures Disciplined(Pass(st.entries, 0))
    ensures YieldedCount(Pass(st.entries, 0)) == YieldedCount(st.entries)
    ensures Results(sem, st.(entries := Pass(st.entries, 0)), YieldedCount(st.entries))
         == Results(sem, st, YieldedCount(st.entries))
  {
    PassStarts(st.entries, 0);
    var r := st.(entries := Pass(st.entries, 0));
    AdvanceKeepsConsistent(sem, s0, st, r.entries);
    SameYielded(st.entries, r.entries);
    ResultsSame(sem, st, r, YieldedCount(st.entries));
  }

  lemma AddedIsDisciplined(es: seq<Entry>, c: Call, safe: bool)
    requires Disciplined(es)
    ensures Disciplined(Pass(es + [Entry(c, safe, Queued)], 0))
    ensures OnlyStarts(es + [Entry(c, safe, Queued)], Pass(es + [Entry(c, safe, Queued)], 0))
  {
    PassStarts(es + [Entry(c, safe, Queued)], 0);
  }

  lemma ResolvedIsDisciplined(es: seq<Entry>, i: nat)
    requires Disciplined(es) && i < |es| && es[i].status == Executing
    ensures Disciplined(Pass(SetStatus(es, i, Completed), 0))
    ensures OnlyStarts(SetStatus(es, i, Completed), Pass(SetStatus(es, i, Completed), 0))
  {
    PassStarts(SetStatus(es, i, Completed), 0);
  }

  lemma RescheduledIsDisciplined(es: seq<Entry>)
    requires Disciplined(es)
    ensures Disciplined(Pass(es, 0)) && OnlyStarts(es, Pass(es, 0))
  {
    PassStarts(es, 0);
  }

  lemma AddIsGood(sem: Semantics, s0: Shared, x: Executor, c: Call, safe: bool)
    requires GoodExecutor(sem, s0, x) && (safe ==> ReadOnly(sem, c))
    ensures GoodExecutor(sem, s0, Next(sem, x, Add(c, safe)))
  {
    var st := Submit(sem, x.st, c, safe);
    SubmitKeepsConsistent(sem, s0, x.st, c, safe);
    PassIsGood(sem, s0, st);
    SameYielded(x.st.entries, st.entries);
    ResultsSame(sem, x.st, st, YieldedCount(st.entries));
  }

  lemma ResolveIsGood(sem: Semantics, s0: Shared, x: Executor, i: nat)
    requires GoodExecutor(sem, s0, x) && CanFinish(sem, x.st, i)
    ensures GoodExecutor(sem, s0, Next(sem, x, Resolve(i)))
  {
    var es := SetStatus(x.st.entries, i, Completed);
    AdvanceKeepsConsistent(sem, s0, x.st, es);
    assert StartedIsPrefix(es) && UnsafeRunsAlone(es);
    SameYielded(x.st.entries, es);
    hide Consistent, Disciplined, StartedIsPrefix, UnsafeRunsAlone, YieldedIsPrefix;
    PassIsGood(sem, s0, x.st.(entries := es));
    ResultsSame(sem, x.st, x.st.(entries := es), YieldedCount(es));
  }

  /** A poll hands out the finished calls at the front that were still to be handed out. */
  lemma PollMeans(es: seq<Entry>) returns (n: nat)
    requires Disciplined(es)
    ensures FinishedUpTo(es, n) && YieldedCount(es) <= n
    ensures Poll(es, 0).1 == Range(YieldedCount(es), n)
    ensures forall k :: 0 <= k < |es| ==>
              Poll(es, 0).0[k] == if k < n then es[k].(status := Yielded) else es[k]
    ensures Disciplined(Poll(es, 0).0) && YieldedCount(Poll(es, 0).0) == n
  {
    var y := YieldedCount(es);
    YieldedCountIs(es);
    n := FinishedFront(es, y);
    PollYields(es, 0, y, n);
    var r := Poll(es, 0).0;
    YieldedCountIs(r);
    OneEnd(r, YieldedCount(r), n);
    if k: nat :| k < |es| && r[k].status == Queued {
      var i: nat :| i < |es| && es[i].status == Executing;
      assert r[i] == es[i];
    }
  }

  lemma PollIsGood(sem: Semantics, s0: Shared, x: Executor)
    requires GoodExecutor(sem, s0, x)
    ensures GoodExecutor(sem, s0, Next(sem, x, PollNow))
  {
    hide Poll, Pass, YieldedCount, Disciplined, Results, ResultsAt, Consistent;
    GoodIsSized(sem, s0, x);
    var es := x.st.entries;
    var n := PollMeans(es);
    var r := Poll(es, 0);
    AdvanceKeepsConsistent(sem, s0, x.st, r.0);
    OutputGrows(sem, x.st, r.0, YieldedCount(es), n);
  }

  lemma StepIsGood(sem: Semantics, s0: Shared, x: Executor, i: nat)
    requires GoodExecutor(sem, s0, x) && CanStep(sem, x.st, i)
    ensures GoodExecutor(sem, s0, Next(sem, x, Step(i)))
  {
    MicroStepKeepsConsistent(sem, s0, x.st, i);
    YieldedCountIs(x.st.entries);
    ResultsSame(sem, x.st, MicroStep(sem, x.st, i), YieldedCount(x.st.entries));
  }

  /** What holds of every executor after any events: the started calls are a prefix of the submitted
      ones and the yielded calls a prefix of those, an unsafe call runs alone, a waiting call waits for
      a running one, and the results handed out are those of the yielded calls, once each, in
      submission order. */
  lemma {:induction false} EveryRunIsGood(sem: Semantics, s0: Shared, es: seq<Event>)
    requires HonestFlags(sem, es)
    ensures GoodExecutor(sem, s0, AfterEvents(sem, s0, es))
  {
    if es != [] {
      var k := |es| - 1;
      EveryRunIsGood(sem, s0, es[..k]);
      var x := AfterEvents(sem, s0, es[..k]);
      match es[k]
      case Add(c, safe) => AddIsGood(sem, s0, x, c, safe);
      case Step(i) => if CanStep(sem, x.st, i) { StepIsGood(sem, s0, x, i); }
      case Resolve(i) => if CanFinish(sem, x.st, i) { ResolveIsGood(sem, s0, x, i); }
      case PollNow => PollIsGood(sem, s0, x);
      case Reschedule => PassIsGood(sem, s0, x.st);
    }
  }

  /** The calls added by `es`, in order. */
  function Added(es: seq<Event>): seq<Call> {
    if es == [] then []
    else Added(es[..|es| - 1]) + if es[|es| - 1].Add? then [es[|es| - 1].call] else []
  }

  /** What an event does to the calls: an added call comes last, and nothing else changes them. */
  lemma CallsAfter(sem: Semantics, s0: Shared, x: Executor, e: Event)
    requires GoodExecutor(sem, s0, x)
    ensures Calls(Next(sem, x, e).st.entries) == Calls(x.st.entries) + if e.Add? then [e.call] else []
  {
    var es := x.st.entries;
    assert Sized(x.st);
    hide Consistent, Disciplined, Pass, Poll, YieldedCount, FinishedUpTo;
    match e
    case Add(c, safe) =>
      AddedIsDisciplined(es, c, safe);
    case Step(i) =>
    case Resolve(i) =>
      if CanFinish(sem, x.st, i) {
        ResolvedIsDisciplined(es, i);
      }
    case PollNow =>
      var n := PollMeans(es);
    case Reschedule =>
      RescheduledIsDisciplined(es);
  }

  lemma {:induction false} SubmittedAreAdded(sem: Semantics, s0: Shared, es: seq<Event>)
    requires HonestFlags(sem, es)
    ensures Calls(AfterEvents(sem, s0, es).st.entries) == Added(es)
  {
    if es != [] {
      var k := |es| - 1;
      SubmittedAreAdded(sem, s0, es[..k]);
      EveryRunIsGood(sem, s0, es[..k]);
      CallsAfter(sem, s0, AfterEvents(sem, s0, es[..k]), es[k]);
    }
  }

  /** Serializability of the streaming executor: at every moment of every run, whatever the
      interleaving, the results handed out are those of running the first calls added one after another
      in the order they were added. */
  lemma OutputIsSerial(sem: Semantics, s0: Shared, es: seq<Event>)
    requires HonestFlags(sem, es)
    ensures var x := AfterEvents(sem, s0, es);
            && |x.output| <= |Added(es)| == |x.st.entries|
            && Serially(sem, Added(es)[..|x.output|], s0, x.output, Before(sem, s0, x.st, |x.output|))
  {
    EveryRunIsGood(sem, s0, es);
    SubmittedAreAdded(sem, s0, es);
    var x := AfterEvents(sem, s0, es);
    var y := YieldedCount(x.st.entries);
    YieldedCountIs(x.st.entries);
    FinishedPrefixIsSerial(sem, s0, x.st, y);
    assert Calls(x.st.entries[..y]) == Added(es)[..y];
  }

  /** A run that has handed out every result leaves the shared state of the serial execution. */
  lemma CompleteRunIsSerial(sem: Semantics, s0: Shared, es: seq<Event>)
    requires HonestFlags(sem, es)
    requires |AfterEvents(sem, s0, es).output| == |Added(es)|
    ensures var x := AfterEvents(sem, s0, es);
            Serially(sem, Added(es), s0, x.output, x.st.shared)
  {
    OutputIsSerial(sem, s0, es);
    EveryRunIsGood(sem, s0, es);
    SubmittedAreAdded(sem, s0, es);
    assert Added(es)[..|Added(es)|] == Added(es);
  }

  /** While a call is unfinished, a running call can take a step or resolve. */
  lemma NeverStalls(sem: Semantics, s0: Shared, es: seq<Event>) returns (i: nat)
    requires HonestFlags(sem, es)
    requires exists k :: 0 <= k < |AfterEvents(sem, s0, es).st.entries|
                         && !AfterEvents(sem, s0, es).st.entries[k].Finished()
    ensures var st := AfterEvents(sem, s0, es).st; CanStep(sem, st, i) || CanFinish(sem, st, i)
  {
    EveryRunIsGood(sem, s0, es);
    var st := AfterEvents(sem, s0, es).st;
    var k :| 0 <= k < |st.entries| && !st.entries[k].Finished();
    if st.entries[k].status == Queued {
      i :| i < |st.entries| && st.entries[i].status == Executing;
    } else {
      i := k;
    }
  }

  // ---- How long a run can be ----

  /** A call takes a step or resolves. */
  predicate Moves(sem: Semantics, st: State, e: Event)
    requires |st.locals| == |st.entries|
  {
    match e
    case Step(i) => CanStep(sem, st, i)
    case Resolve(i) => CanFinish(sem, st, i)
    case _ => false
  }

  /** How often that happens in a run. */
  ghost function MoveCount(sem: Semantics, s0: Shared, es: seq<Event>): nat {
    if es == [] then 0
    else
      var k := |es| - 1;
      MoveCount(sem, s0, es[..k]) + if Moves(sem, AfterEvents(sem, s0, es[..k]).st, es[k]) then 1 else 0
  }

  lemma AddDone(sem: Semantics, x: Executor, c: Call, safe: bool)
    requires Sized(x.st) && Disciplined(x.st.entries)
    ensures var st := Next(sem, x, Add(c, safe)).st;
            Sized(st) && Done(st, |st.entries|) == Done(x.st, |x.st.entries|)
  {
    var st, n := Next(sem, x, Add(c, safe)).st, |x.st.entries|;
    AddedIsDisciplined(x.st.entries, c, safe);
    hide Disciplined, Pass;
    assert OnlyMoves(x.st, st, -1);
    DoneMoves(x.st, st, -1, n);
    assert st.steps[n] == 0 && !st.entries[n].Finished();
  }

  lemma ResolveDone(sem: Semantics, st: State, i: nat)
    requires Sized(st) && Disciplined(st.entries) && CanFinish(sem, st, i)
    ensures var r := st.(entries := Pass(SetStatus(st.entries, i, Completed), 0));
            Done(r, |st.entries|) == Done(st, |st.entries|) + 1
  {
    ResolvedIsDisciplined(st.entries, i);
    hide Disciplined, Pass;
    DoneMoves(st, st.(entries := Pass(SetStatus(st.entries, i, Completed), 0)), i, |st.entries|);
  }

  /** Polling and rescheduling take no call any further. */
  lemma PollDone(st: State)
    requires Sized(st) && Disciplined(st.entries)
    ensures Done(st.(entries := Poll(st.entries, 0).0), |st.entries|) == Done(st, |st.entries|)
    ensures Done(st.(entries := Pass(st.entries, 0)), |st.entries|) == Done(st, |st.entries|)
  {
    var n := PollMeans(st.entries);
    RescheduledIsDisciplined(st.entries);
    hide Disciplined, Pass, Poll;
    DoneMoves(st, st.(entries := Poll(st.entries, 0).0), -1, |st.entries|);
    DoneMoves(st, st.(entries := Pass(st.entries, 0)), -1, |st.entries|);
  }

  lemma NextDone(sem: Semantics, x: Executor, e: Event)
    requires Sized(x.st) && Disciplined(x.st.entries)
    ensures var st := Next(sem, x, e).st;
            && Sized(st)
            && Done(st, |st.entries|) == Done(x.st, |x.st.entries|) + if Moves(sem, x.st, e) then 1 else 0
  {
    hide Disciplined, Done, Pass, Poll;
    match e
    case Add(c, safe) => AddDone(sem, x, c, safe);
    case Step(i) => if CanStep(sem, x.st, i) { StepDone(sem, x.st, i); }
    case Resolve(i) => if CanFinish(sem, x.st, i) { ResolveDone(sem, x.st, i); }
    case PollNow => PollDone(x.st);
    case Reschedule => PollDone(x.st);
  }

  /** A run consists of the steps and resolutions its calls have taken. */
  lemma {:induction false} MovesAreDone(sem: Semantics, s0: Shared, es: seq<Event>)
    requires HonestFlags(sem, es)
    ensures var st := AfterEvents(sem, s0, es).st; MoveCount(sem, s0, es) == Done(st, |st.entries|)
  {
    hide GoodExecutor, Next, Moves, Disciplined, Consistent;
    if es != [] {
      var k := |es| - 1;
      MovesAreDone(sem, s0, es[..k]);
      EveryRunIsGood(sem, s0, es[..k]);
      GoodIsSized(sem, s0, AfterEvents(sem, s0, es[..k]));
      NextDone(sem, AfterEvents(sem, s0, es[..k]), es[k]);
    }
  }

  lemma RunIsBounded(sem: Semantics, s0: Shared, es: seq<Event>, full: State)
    requires HonestFlags(sem, es) && WholeRun(sem, s0, full) && Calls(full.entries) == Added(es)
    ensures |full.steps| == |AfterEvents(sem, s0, es).st.entries|
    ensures var entries, total := AfterEvents(sem, s0, es).st.entries, Total(full, |full.steps|);
            && MoveCount(sem, s0, es) <= total
            && (MoveCount(sem, s0, es) == total <==> AllFinished(entries, |entries|))
  {
    hide Consistent, WholeRun, GoodExecutor, SameCalls, Calls;
    var x := AfterEvents(sem, s0, es);
    EveryRunIsGood(sem, s0, es);
    SubmittedAreAdded(sem, s0, es);
    MovesAreDone(sem, s0, es);
    GoodIsSized(sem, s0, x);
    SameCallsIff(x.st, full);
    WholeIsSized(sem, s0, full);
    DoneIsBounded(sem, s0, x.st, full, |x.st.entries|);
  }

  /** If the calls come to an end when run one after another, so does every run of the executor: all of
      them take the same number of steps and resolutions until every call has finished, and by
      `NeverStalls` none stops before. So `drain`, which waits only while something runs, ends. */
  lemma EveryRunEnds(sem: Semantics, s0: Shared, cs: seq<Call>, rs: seq<Result>, s': Shared) returns (total: nat)
    requires Serially(sem, cs, s0, rs, s')
    ensures forall es :: HonestFlags(sem, es) && Added(es) == cs ==>
              var entries := AfterEvents(sem, s0, es).st.entries;
              && MoveCount(sem, s0, es) <= total
              && (MoveCount(sem, s0, es) == total <==> AllFinished(entries, |entries|))
  {
    hide *;
    var full := SerialIsWhole(sem, s0, cs, rs, s');
    WholeIsSized(sem, s0, full);
    total := Total(full, |full.steps|);
    forall es | HonestFlags(sem, es) && Added(es) == cs
      ensures var entries := AfterEvents(sem, s0, es).st.entries;
              && MoveCount(sem, s0, es) <= total
              && (MoveCount(sem, s0, es) == total <==> AllFinished(entries, |entries|))
    {
      RunIsBounded(sem, s0, es, full);
    }
  }
}
