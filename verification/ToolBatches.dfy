/** `partitionToolCalls` and `executeToolsPartitioned` of src/agent.ts: tool calls run in batches. */
module ToolBatches {
  import opened Serializability
  import opened RunLengths
  import ToolScheduling

  datatype Batch = Batch(concurrent: bool, calls: seq<Call>)

  /** The calls with the answer the tool registry gives on whether each may run beside others. */
  datatype Flagged = Flagged(call: Call, safe: bool)

  function CallsOf(fs: seq<Flagged>): (cs: seq<Call>)
    ensures |cs| == |fs| && forall i :: 0 <= i < |fs| ==> cs[i] == fs[i].call
  {
    seq(|fs|, i requires 0 <= i < |fs| => fs[i].call)
  }

  /** The batches with one more call. */
  function Extend(batches: seq<Batch>, f: Flagged): seq<Batch> {
    var n := |batches|;
    if n > 0 && f.safe && batches[n - 1].concurrent
    then batches[n - 1 := Batch(true, batches[n - 1].calls + [f.call])]
    else batches + [Batch(f.safe, [f.call])]
  }

  function Plan(fs: seq<Flagged>): seq<Batch> {
    if fs == [] then [] else Extend(Plan(fs[..|fs| - 1]), fs[|fs| - 1])
  }

  method PartitionToolCalls(fs: seq<Flagged>) returns (batches: seq<Batch>)
    ensures batches == Plan(fs)
  {
    batches := [];
    for i := 0 to |fs|
      invariant batches == Plan(fs[..i])
    {
      var f := fs[i];
      assert fs[..i + 1][..i] == fs[..i];
      var n := |batches|;
      if n > 0 && f.safe && batches[n - 1].concurrent {
        batches := batches[n - 1 := Batch(true, batches[n - 1].calls + [f.call])];
      } else {
        batches := batches + [Batch(f.safe, [f.call])];
      }
    }
    assert fs[..|fs|] == fs;
  }

  function Tagged(b: Batch): (fs: seq<Flagged>)
    ensures |fs| == |b.calls| && forall i :: 0 <= i < |fs| ==> fs[i] == Flagged(b.calls[i], b.concurrent)
  {
    seq(|b.calls|, i requires 0 <= i < |b.calls| => Flagged(b.calls[i], b.concurrent))
  }

  /** The calls of all batches, in order, each with the flag of its batch. */
  function Flat(batches: seq<Batch>): seq<Flagged> {
    if batches == [] then [] else Flat(batches[..|batches| - 1]) + Tagged(batches[|batches| - 1])
  }

  /** The calls cut, in order, into stretches of safe calls as long as can be, and single unsafe calls. */
  ghost predicate IsPlan(fs: seq<Flagged>, batches: seq<Batch>) {
    && Flat(batches) == fs
    && (forall b :: 0 <= b < |batches| ==> batches[b].calls != [])
    && (forall b :: 0 <= b < |batches| && !batches[b].concurrent ==> |batches[b].calls| == 1)
    && (forall b :: 0 < b < |batches| ==> !(batches[b - 1].concurrent && batches[b].concurrent))
  }

  lemma FlatExtends(batches: seq<Batch>, f: Flagged)
    ensures Flat(Extend(batches, f)) == Flat(batches) + [f]
  {
    var r := Extend(batches, f);
    var n := |batches|;
    if |r| == n {
      assert r[..n - 1] == batches[..n - 1];
      assert Tagged(r[n - 1]) == Tagged(batches[n - 1]) + [f];
    } else {
      assert r[..n] == batches;
      assert Tagged(r[n]) == [f];
    }
  }

  lemma ExtendIsPlan(fs: seq<Flagged>, batches: seq<Batch>, f: Flagged)
    requires IsPlan(fs, batches)
    ensures IsPlan(fs + [f], Extend(batches, f))
  {
    FlatExtends(batches, f);
    hide Flat;
  }

  lemma {:induction false} PlanIsPlan(fs: seq<Flagged>)
    ensures IsPlan(fs, Plan(fs))
  {
    hide IsPlan, Extend;
    if fs == [] {
      EmptyPlan();
    } else {
      var k := |fs| - 1;
      PlanIsPlan(fs[..k]);
      ExtendIsPlan(fs[..k], Plan(fs[..k]), fs[k]);
      assert fs == fs[..k] + [fs[k]];
    }
  }

  lemma EmptyPlan()
    ensures IsPlan([], [])
  {
  }

  lemma LastApart<T>(s: seq<T>)
    requires s != []
    ensures s == s[..|s| - 1] + [s[|s| - 1]]
  {
  }

  lemma WithoutLast(fs: seq<Flagged>, a: seq<Batch>)
    requires IsPlan(fs, a) && a != []
    ensures |a[|a| - 1].calls| <= |fs|
    ensures IsPlan(fs[..|fs| - |a[|a| - 1].calls|], a[..|a| - 1])
  {
    var m := |a| - 1;
    assert Flat(a) == Flat(a[..m]) + Tagged(a[m]);
    assert fs[..|fs| - |a[m].calls|] == Flat(a[..m]);
    hide Flat;
  }

  /** There is no other way to cut the calls like that. */
  lemma {:induction false} PlanIsUnique(fs: seq<Flagged>, a: seq<Batch>, b: seq<Batch>)
    requires IsPlan(fs, a) && IsPlan(fs, b)
    ensures a == b
    decreases |a|
  {
    if a != [] && b != [] {
      hide *;
      var m, n := |a| - 1, |b| - 1;
      LastBatch(fs, a);
      LastBatch(fs, b);
      SameLastBatch(fs, a[m], b[n]);
      WithoutLast(fs, a);
      WithoutLast(fs, b);
      PlanIsUnique(fs[..|fs| - |a[m].calls|], a[..m], b[..n]);
      LastApart(a);
      LastApart(b);
    } else {
      FlatIsNotEmpty(a);
      FlatIsNotEmpty(b);
    }
  }

  lemma FlatIsNotEmpty(a: seq<Batch>)
    requires forall b :: 0 <= b < |a| ==> a[b].calls != []
    ensures Flat(a) == [] <==> a == []
  {
  }

  /** `x` is a last batch of the calls `fs`: the stretch of safe calls at the end, as long as can be,
      or the single unsafe call there. */
  ghost predicate EndsWith(fs: seq<Flagged>, x: Batch) {
    && 1 <= |x.calls| <= |fs|
    && fs[|fs| - |x.calls|..] == Tagged(x)
    && (!x.concurrent ==> |x.calls| == 1)
    && (x.concurrent && |x.calls| < |fs| ==> !fs[|fs| - |x.calls| - 1].safe)
  }

  lemma LastBatch(fs: seq<Flagged>, a: seq<Batch>)
    requires IsPlan(fs, a) && a != []
    ensures EndsWith(fs, a[|a| - 1])
  {
    var x := a[|a| - 1];
    var before := a[..|a| - 1];
    var at := |fs| - |x.calls|;
    assert fs[at..] == Tagged(x) && fs[..at] == Flat(before);
    if at > 0 {
      var p := before[|before| - 1];
      assert fs[at - 1] == Flat(before)[at - 1] == Tagged(p)[|p.calls| - 1];
    }
  }

  lemma FlagOfTail(fs: seq<Flagged>, x: Batch, i: nat)
    requires EndsWith(fs, x) && |fs| - |x.calls| <= i < |fs|
    ensures fs[i] == Flagged(x.calls[i - (|fs| - |x.calls|)], x.concurrent)
  {
    assert fs[i] == Tagged(x)[i - (|fs| - |x.calls|)];
  }

  lemma TailFlags(fs: seq<Flagged>, x: Batch)
    requires EndsWith(fs, x)
    ensures forall i :: |fs| - |x.calls| <= i < |fs| ==> fs[i].safe == x.concurrent
  {
    forall i | |fs| - |x.calls| <= i < |fs|
      ensures fs[i].safe == x.concurrent
    {
      FlagOfTail(fs, x, i);
    }
  }

  lemma LongestTail(fs: seq<Flagged>, x: Batch, y: Batch)
    requires EndsWith(fs, x) && EndsWith(fs, y)
    ensures x.concurrent == y.concurrent && |y.calls| <= |x.calls|
  {
    TailFlags(fs, x);
    TailFlags(fs, y);
    assert x.concurrent == fs[|fs| - 1].safe == y.concurrent;
  }

  lemma SameLastBatch(fs: seq<Flagged>, x: Batch, y: Batch)
    requires EndsWith(fs, x) && EndsWith(fs, y)
    ensures x == y
  {
    LongestTail(fs, x, y);
    LongestTail(fs, y, x);
    hide EndsWith;
    forall i | 0 <= i < |x.calls|
      ensures x.calls[i] == y.calls[i]
    {
      FlagOfTail(fs, x, i + (|fs| - |x.calls|));
      FlagOfTail(fs, y, i + (|fs| - |x.calls|));
    }
  }

  // ---- Running the batches ----

  /** A step or the resolution of a running call, or the loop goes on to the next batch, which it can
      only when every call of the batches so far has resolved. A batch of one call is the same run
      through `Promise.all` or alone, and a batch that is not concurrent has one call. */
  datatype Event = Step(i: nat) | Resolve(i: nat) | NextBatch

  /** The calls, and how many batches have been started. */
  datatype Runner = Runner(st: State, started: nat)

  function Position(batches: seq<Batch>, b: nat): nat
    requires b <= |batches|
  {
    |Flat(batches[..b])|
  }

  function Entries(fs: seq<Flagged>): (es: seq<Entry>)
    ensures |es| == |fs| && forall i :: 0 <= i < |fs| ==> es[i] == Entry(fs[i].call, fs[i].safe, Queued)
  {
    seq(|fs|, i requires 0 <= i < |fs| => Entry(fs[i].call, fs[i].safe, Queued))
  }

  function Initial(sem: Semantics, s0: Shared, fs: seq<Flagged>): Runner {
    Runner(State(Entries(fs), seq(|fs|, i requires 0 <= i < |fs| => sem.init(fs[i].call)),
                 seq(|fs|, i => 0), s0), 0)
  }

  /** Start the calls from `lo` up to `hi`. */
  function StartRange(es: seq<Entry>, lo: nat, hi: nat): (r: seq<Entry>)
    requires lo <= hi <= |es|
    ensures |r| == |es|
    ensures forall i :: 0 <= i < |es| ==> r[i] == if lo <= i < hi then es[i].(status := Executing) else es[i]
  {
    seq(|es|, i requires 0 <= i < |es| => if lo <= i < hi then es[i].(status := Executing) else es[i])
  }

  predicate AllResolved(es: seq<Entry>) {
    forall i :: 0 <= i < |es| && es[i].Started() ==> es[i].Finished()
  }

  function Next(sem: Semantics, fs: seq<Flagged>, r: Runner, e: Event): Runner
    requires |r.st.locals| == |r.st.steps| == |r.st.entries|
  {
    var batches := Plan(fs);
    match e
    case Step(i) =>
      if CanStep(sem, r.st, i) then r.(st := MicroStep(sem, r.st, i)) else r
    case Resolve(i) =>
      if CanFinish(sem, r.st, i) then r.(st := r.st.(entries := SetStatus(r.st.entries, i, Completed))) else r
    case NextBatch =>
      if r.started < |batches| && AllResolved(r.st.entries)
         && Position(batches, r.started) <= Position(batches, r.started + 1) <= |r.st.entries| then
        var es := StartRange(r.st.entries, Position(batches, r.started), Position(batches, r.started + 1));
        Runner(r.st.(entries := es), r.started + 1)
      else r
  }

  ghost function AfterEvents(sem: Semantics, s0: Shared, fs: seq<Flagged>, es: seq<Event>): (r: Runner)
    ensures |r.st.locals| == |r.st.steps| == |r.st.entries|
  {
    if es == [] then Initial(sem, s0, fs)
    else Next(sem, fs, AfterEvents(sem, s0, fs, es[..|es| - 1]), es[|es| - 1])
  }

  ghost predicate HonestFlags(sem: Semantics, fs: seq<Flagged>) {
    forall i :: 0 <= i < |fs| && fs[i].safe ==> ReadOnly(sem, fs[i].call)
  }

  /** The calls of the batches started so far are the calls that have started. */
  ghost predicate GoodRunner(sem: Semantics, s0: Shared, fs: seq<Flagged>, r: Runner) {
    && Consistent(sem, s0, r.st)
    && |r.st.entries| == |fs|
    && r.started <= |Plan(fs)|
    && forall i :: 0 <= i < |fs| ==>
         && r.st.entries[i].call == fs[i].call && r.st.entries[i].safe == fs[i].safe
         && (r.st.entries[i].Started() <==> i < Position(Plan(fs), r.started))
  }

  lemma {:induction false} FlatPrefix(batches: seq<Batch>, b: nat)
    requires b <= |batches|
    ensures Flat(batches[..b]) <= Flat(batches)
  {
    if b == |batches| {
      assert batches[..b] == batches;
    } else {
      var rest := batches[..|batches| - 1];
      FlatPrefix(rest, b);
      assert rest[..b] == batches[..b];
    }
  }

  /** Where batch `b` of a plan lies among the calls, and that its calls have its flag. */
  lemma BatchSpan(fs: seq<Flagged>, batches: seq<Batch>, b: nat)
    requires Flat(batches) == fs && b < |batches|
    ensures Position(batches, b + 1) == Position(batches, b) + |batches[b].calls| <= |fs|
    ensures forall i :: Position(batches, b) <= i < Position(batches, b + 1) ==> fs[i].safe == batches[b].concurrent
  {
    var lo := Position(batches, b);
    FlatPrefix(batches, b + 1);
    assert batches[..b + 1][..b] == batches[..b];
    var part := Flat(batches[..b + 1]);
    assert part == Flat(batches[..b]) + Tagged(batches[b]);
    forall i | lo <= i < lo + |batches[b].calls|
      ensures fs[i].safe == batches[b].concurrent
    {
      assert fs[i] == part[i] == Tagged(batches[b])[i - lo];
    }
  }

  /** When everything before `lo` has finished, calls that may run together may start together. */
  lemma RangeMayStart(es: seq<Entry>, lo: nat, hi: nat, j: nat)
    requires lo <= j < hi <= |es|
    requires forall i :: 0 <= i < lo ==> es[i].Finished()
    requires hi == lo + 1 || forall i :: lo <= i < hi ==> es[i].safe
    ensures MayStart(StartRange(es, lo, hi), j)
  {
  }

  lemma InitialIsGood(sem: Semantics, s0: Shared, fs: seq<Flagged>)
    requires HonestFlags(sem, fs)
    ensures GoodRunner(sem, s0, fs, Initial(sem, s0, fs))
  {
    var r := Initial(sem, s0, fs);
    assert Plan(fs)[..0] == [];
    for i := 0 to |fs|
      invariant forall k :: 0 <= k <= i ==> Before(sem, s0, r.st, k) == s0
    {
    }
    assert forall i :: 0 <= i < |fs| ==> CallConsistent(sem, s0, r.st, i);
  }

  lemma PlanCoversAll(fs: seq<Flagged>)
    ensures Position(Plan(fs), |Plan(fs)|) == |fs|
  {
    PlanIsPlan(fs);
    hide Plan;
    var batches := Plan(fs);
    assert Flat(batches) == fs;
    hide IsPlan, Flat;
    assert batches[..|batches|] == batches;
  }

  lemma BatchMayStart(sem: Semantics, s0: Shared, fs: seq<Flagged>, r: Runner) returns (lo: nat, hi: nat)
    requires GoodRunner(sem, s0, fs, r) && r.started < |Plan(fs)| && AllResolved(r.st.entries)
    ensures lo == Position(Plan(fs), r.started) && hi == Position(Plan(fs), r.started + 1)
    ensures lo <= hi <= |fs|
    ensures forall j :: lo <= j < hi ==> MayStart(StartRange(r.st.entries, lo, hi), j)
  {
    var batches := Plan(fs);
    PlanIsPlan(fs);
    BatchSpan(fs, batches, r.started);
    lo, hi := Position(batches, r.started), Position(batches, r.started + 1);
    assert hi == lo + 1 || batches[r.started].concurrent;
    hide IsPlan, Consistent, Plan, Position;
    forall j | lo <= j < hi
      ensures MayStart(StartRange(r.st.entries, lo, hi), j)
    {
      RangeMayStart(r.st.entries, lo, hi, j);
    }
  }

  lemma NextBatchIsGood(sem: Semantics, s0: Shared, fs: seq<Flagged>, r: Runner)
    requires GoodRunner(sem, s0, fs, r) && r.started < |Plan(fs)| && AllResolved(r.st.entries)
    ensures GoodRunner(sem, s0, fs, Next(sem, fs, r, NextBatch))
    ensures Next(sem, fs, r, NextBatch).started == r.started + 1
  {
    assert Sized(r.st);
    hide Plan, Position, Consistent, MayStart, Next;
    var lo, hi := BatchMayStart(sem, s0, fs, r);
    NextBatchStep(sem, fs, r, lo, hi);
    AdvanceKeepsConsistent(sem, s0, r.st, StartRange(r.st.entries, lo, hi));
  }

  lemma NextBatchStep(sem: Semantics, fs: seq<Flagged>, r: Runner, lo: nat, hi: nat)
    requires |r.st.locals| == |r.st.steps| == |r.st.entries|
    requires r.started < |Plan(fs)| && AllResolved(r.st.entries)
    requires lo == Position(Plan(fs), r.started) <= hi == Position(Plan(fs), r.started + 1) <= |r.st.entries|
    ensures Next(sem, fs, r, NextBatch)
         == Runner(r.st.(entries := StartRange(r.st.entries, lo, hi)), r.started + 1)
  {
    hide Plan, Position, StartRange;
  }

  lemma {:induction false} EveryRunIsGood(sem: Semantics, s0: Shared, fs: seq<Flagged>, es: seq<Event>)
    requires HonestFlags(sem, fs)
    ensures GoodRunner(sem, s0, fs, AfterEvents(sem, s0, fs, es))
  {
    if es == [] {
      InitialIsGood(sem, s0, fs);
    } else {
      var k := |es| - 1;
      EveryRunIsGood(sem, s0, fs, es[..k]);
      var r := AfterEvents(sem, s0, fs, es[..k]);
      match es[k]
      case Step(i) =>
        if CanStep(sem, r.st, i) { MicroStepKeepsConsistent(sem, s0, r.st, i); }
      case Resolve(i) =>
        if CanFinish(sem, r.st, i) {
          AdvanceKeepsConsistent(sem, s0, r.st, SetStatus(r.st.entries, i, Completed));
        }
      case NextBatch =>
        if r.started < |Plan(fs)| && AllResolved(r.st.entries) { NextBatchIsGood(sem, s0, fs, r); }
    }
  }

  ghost predicate Complete(r: Runner) {
    forall i :: 0 <= i < |r.st.entries| ==> r.st.entries[i].Finished()
  }

  /** Serializability of the batches: a run in which every call has resolved returns the results of
      running the calls one after another, and leaves the same shared state. */
  lemma CompleteRunIsSerial(sem: Semantics, s0: Shared, fs: seq<Flagged>, es: seq<Event>)
    requires HonestFlags(sem, fs) && Complete(AfterEvents(sem, s0, fs, es))
    ensures var r := AfterEvents(sem, s0, fs, es);
            Serially(sem, CallsOf(fs), s0, Results(sem, r.st, |r.st.entries|), r.st.shared)
  {
    EveryRunIsGood(sem, s0, fs, es);
    var st := AfterEvents(sem, s0, fs, es).st;
    FinishedPrefixIsSerial(sem, s0, st, |st.entries|);
    assert Calls(st.entries[..|st.entries|]) == CallsOf(fs);
  }

  lemma NothingRuns(sem: Semantics, s0: Shared, fs: seq<Flagged>, r: Runner)
    requires GoodRunner(sem, s0, fs, r) && !Complete(r)
    requires forall i :: 0 <= i < |r.st.entries| ==> r.st.entries[i].status != Executing
    ensures r.started < |Plan(fs)| && AllResolved(r.st.entries)
  {
    hide Plan, Position, Consistent;
    PlanCoversAll(fs);
  }

  /** Until every call has resolved, a running call can go on or the next batch can be started. */
  lemma NeverStalls(sem: Semantics, s0: Shared, fs: seq<Flagged>, es: seq<Event>)
    requires HonestFlags(sem, fs) && !Complete(AfterEvents(sem, s0, fs, es))
    ensures var r := AfterEvents(sem, s0, fs, es);
            || (exists i: nat :: CanStep(sem, r.st, i) || CanFinish(sem, r.st, i))
            || Next(sem, fs, r, NextBatch).started == r.started + 1
  {
    hide Plan, Consistent, Next, GoodRunner, Complete;
    EveryRunIsGood(sem, s0, fs, es);
    var r := AfterEvents(sem, s0, fs, es);
    if i :| 0 <= i < |r.st.entries| && r.st.entries[i].status == Executing {
      assert CanStep(sem, r.st, i) || CanFinish(sem, r.st, i);
    } else {
      NothingRuns(sem, s0, fs, r);
      NextBatchIsGood(sem, s0, fs, r);
    }
  }

  // ---- How long a run can be ----

  /** A call takes a step or resolves, or the next batch begins. */
  predicate Moves(sem: Semantics, fs: seq<Flagged>, r: Runner, e: Event)
    requires |r.st.locals| == |r.st.steps| == |r.st.entries|
  {
    match e
    case Step(i) => CanStep(sem, r.st, i)
    case Resolve(i) => CanFinish(sem, r.st, i)
    case NextBatch => Next(sem, fs, r, NextBatch).started == r.started + 1
  }

  /** How often that happens in a run. */
  ghost function MoveCount(sem: Semantics, s0: Shared, fs: seq<Flagged>, es: seq<Event>): nat {
    if es == [] then 0
    else
      var k := |es| - 1;
      MoveCount(sem, s0, fs, es[..k]) + if Moves(sem, fs, AfterEvents(sem, s0, fs, es[..k]), es[k]) then 1 else 0
  }

  lemma {:induction false} NothingDone(sem: Semantics, s0: Shared, fs: seq<Flagged>, n: nat)
    requires n <= |fs|
    ensures Done(Initial(sem, s0, fs).st, n) == 0
  {
    if n > 0 { NothingDone(sem, s0, fs, n - 1); }
  }

  lemma ResolveDone(sem: Semantics, st: State, i: nat)
    requires Sized(st) && CanFinish(sem, st, i)
    ensures Done(st.(entries := SetStatus(st.entries, i, Completed)), |st.entries|) == Done(st, |st.entries|) + 1
  {
    DoneMoves(st, st.(entries := SetStatus(st.entries, i, Completed)), i, |st.entries|);
  }

  /** Beginning a batch takes no call any further. */
  lemma NextBatchDone(sem: Semantics, s0: Shared, fs: seq<Flagged>, r: Runner)
    requires GoodRunner(sem, s0, fs, r) && r.started < |Plan(fs)| && AllResolved(r.st.entries)
    ensures var st := Next(sem, fs, r, NextBatch).st;
            Sized(st) && |st.entries| == |fs| && Done(st, |fs|) == Done(r.st, |fs|)
  {
    var lo, hi := BatchMayStart(sem, s0, fs, r);
    var st := Next(sem, fs, r, NextBatch).st;
    hide Plan, Consistent, MayStart;
    forall k | 0 <= k < |fs|
      ensures st.entries[k].Finished() <==> r.st.entries[k].Finished()
    {
    }
    DoneMoves(r.st, st, -1, |fs|);
  }

  lemma NextDone(sem: Semantics, s0: Shared, fs: seq<Flagged>, r: Runner, e: Event)
    requires GoodRunner(sem, s0, fs, r)
    ensures var r' := Next(sem, fs, r, e);
            && Sized(r'.st) && |r'.st.entries| == |fs|
            && Done(r'.st, |fs|) + r'.started
               == Done(r.st, |fs|) + r.started + if Moves(sem, fs, r, e) then 1 else 0
  {
    assert Sized(r.st);
    hide Done, Plan, Consistent;
    match e
    case Step(i) => if CanStep(sem, r.st, i) { StepDone(sem, r.st, i); }
    case Resolve(i) => if CanFinish(sem, r.st, i) { ResolveDone(sem, r.st, i); }
    case NextBatch =>
      if r.started < |Plan(fs)| && AllResolved(r.st.entries) {
        NextBatchIsGood(sem, s0, fs, r);
        NextBatchDone(sem, s0, fs, r);
      }
  }

  /** A run consists of the batches begun and the steps and resolutions its calls have taken. */
  lemma {:induction false} MovesAreDone(sem: Semantics, s0: Shared, fs: seq<Flagged>, es: seq<Event>)
    requires HonestFlags(sem, fs)
    ensures var r := AfterEvents(sem, s0, fs, es);
            |r.st.entries| == |fs| && MoveCount(sem, s0, fs, es) == Done(r.st, |fs|) + r.started
  {
    hide GoodRunner, Next, Moves, Done;
    if es == [] {
      NothingDone(sem, s0, fs, |fs|);
    } else {
      var k := |es| - 1;
      MovesAreDone(sem, s0, fs, es[..k]);
      EveryRunIsGood(sem, s0, fs, es[..k]);
      NextDone(sem, s0, fs, AfterEvents(sem, s0, fs, es[..k]), es[k]);
    }
  }

  /** Before all batches have begun some call has not finished. */
  lemma MoreBatchesToCome(sem: Semantics, s0: Shared, fs: seq<Flagged>, r: Runner)
    requires GoodRunner(sem, s0, fs, r) && r.started < |Plan(fs)|
    ensures !Complete(r)
  {
    hide Plan, Position, Consistent;
    BatchesGoOn(fs, r.started);
    assert !r.st.entries[Position(Plan(fs), r.started)].Started();
  }

  lemma BatchesGoOn(fs: seq<Flagged>, b: nat)
    requires b < |Plan(fs)|
    ensures Position(Plan(fs), b) < |fs|
  {
    hide Plan, Flat, Position;
    PlanIsPlan(fs);
    BatchSpan(fs, Plan(fs), b);
  }

  lemma RunIsBounded(sem: Semantics, s0: Shared, fs: seq<Flagged>, es: seq<Event>, full: State)
    requires HonestFlags(sem, fs) && WholeRun(sem, s0, full) && Calls(full.entries) == CallsOf(fs)
    ensures |full.steps| == |fs|
    ensures var total := Total(full, |fs|) + |Plan(fs)|;
            && MoveCount(sem, s0, fs, es) <= total
            && (MoveCount(sem, s0, fs, es) == total <==> Complete(AfterEvents(sem, s0, fs, es)))
  {
    hide Plan, WholeRun, Consistent, Calls, CallsOf, Done, Total, SameCalls;
    var r := AfterEvents(sem, s0, fs, es);
    EveryRunIsGood(sem, s0, fs, es);
    MovesAreDone(sem, s0, fs, es);
    WholeIsSized(sem, s0, full);
    SameCallsAsPlanned(sem, s0, fs, r, full);
    DoneIsBounded(sem, s0, r.st, full, |fs|);
    if r.started < |Plan(fs)| { MoreBatchesToCome(sem, s0, fs, r); }
  }

  lemma SameCallsAsPlanned(sem: Semantics, s0: Shared, fs: seq<Flagged>, r: Runner, full: State)
    requires GoodRunner(sem, s0, fs, r) && Calls(full.entries) == CallsOf(fs)
    ensures SameCalls(r.st, full) && Sized(r.st) && |full.entries| == |fs|
  {
    assert Calls(r.st.entries) == CallsOf(fs);
    SameCallsIff(r.st, full);
    assert |Calls(full.entries)| == |fs|;
  }

  /** If the calls come to an end when run one after another, so does every run of the batches: all take
      the same number of steps, resolutions and new batches until every call has finished, and by
      `NeverStalls` none stops before. */
  lemma EveryRunEnds(sem: Semantics, s0: Shared, fs: seq<Flagged>, rs: seq<Result>, s': Shared) returns (total: nat)
    requires HonestFlags(sem, fs) && Serially(sem, CallsOf(fs), s0, rs, s')
    ensures forall es ::
              && MoveCount(sem, s0, fs, es) <= total
              && (MoveCount(sem, s0, fs, es) == total <==> Complete(AfterEvents(sem, s0, fs, es)))
  {
    hide *;
    var full := SerialIsWhole(sem, s0, CallsOf(fs), rs, s');
    RunIsBounded(sem, s0, fs, [], full);
    total := Total(full, |fs|) + |Plan(fs)|;
    forall es
      ensures MoveCount(sem, s0, fs, es) <= total
      ensures MoveCount(sem, s0, fs, es) == total <==> Complete(AfterEvents(sem, s0, fs, es))
    {
      RunIsBounded(sem, s0, fs, es, full);
    }
  }

  /** The two schedulers agree: whatever the interleavings, the streaming executor and the batches,
      given the same calls over the same shared state, return the same results in the same order and
      leave the same shared state. */
  lemma SchedulersAgree(sem: Semantics, s0: Shared, fs: seq<Flagged>,
                        streamed: seq<ToolScheduling.Event>, batched: seq<Event>)
    requires HonestFlags(sem, fs) && ToolScheduling.HonestFlags(sem, streamed)
    requires ToolScheduling.Added(streamed) == CallsOf(fs)
    requires |ToolScheduling.AfterEvents(sem, s0, streamed).output| == |fs|
    requires Complete(AfterEvents(sem, s0, fs, batched))
    ensures var x, r := ToolScheduling.AfterEvents(sem, s0, streamed), AfterEvents(sem, s0, fs, batched);
            x.output == Results(sem, r.st, |r.st.entries|) && x.st.shared == r.st.shared
  {
    var x, r := ToolScheduling.AfterEvents(sem, s0, streamed), AfterEvents(sem, s0, fs, batched);
    ToolScheduling.CompleteRunIsSerial(sem, s0, streamed);
    CompleteRunIsSerial(sem, s0, fs, batched);
    SeriallyIsUnique(sem, CallsOf(fs), s0, x.output, x.st.shared,
                     Results(sem, r.st, |r.st.entries|), r.st.shared);
  }
}
