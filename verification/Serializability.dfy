/** Tool calls that run side by side over shared state, and when that is the same as running them
    one after another.

    A running call is a program of atomic steps. Between two steps of one call, any step of any other
    running call may happen. A scheduler decides only when a call may start. */
module Serializability {
  type Call(==, !new)
  type Local(!new)
  type Shared(!new)
  type Result(!new)

  /** What executing a call does: where it begins, one atomic step over the shared state, when it is
      over and the result it then has. */
  datatype Semantics = Semantics(
    init: Call -> Local,
    step: (Call, Local, Shared) -> (Local, Shared),
    over: (Call, Local) -> bool,
    result: (Call, Local) -> Result)

  datatype Status = Queued | Executing | Completed | Yielded

  datatype Entry = Entry(call: Call, safe: bool, status: Status)
  {
    predicate Started() { status != Queued }
    predicate Finished() { status == Completed || status == Yielded }
  }

  /** The entries in submission order, how far each call has come, and the shared state. */
  datatype State = State(entries: seq<Entry>, locals: seq<Local>, steps: seq<nat>, shared: Shared)

  /** `n` steps of a call that runs alone. */
  function Run(sem: Semantics, c: Call, s: Shared, n: nat): (Local, Shared) {
    if n == 0 then (sem.init(c), s)
    else var r := Run(sem, c, s, n - 1); sem.step(c, r.0, r.1)
  }

  /** A concurrency-safe call never changes the shared state. */
  ghost predicate ReadOnly(sem: Semantics, c: Call) {
    forall l: Local, s: Shared :: sem.step(c, l, s).1 == s
  }

  ghost predicate SafeIsReadOnly(sem: Semantics, es: seq<Entry>) {
    forall i :: 0 <= i < |es| && es[i].safe ==> ReadOnly(sem, es[i].call)
  }

  /** `c`, run alone from `s`, is over after exactly `n` steps. */
  ghost predicate Ends(sem: Semantics, c: Call, s: Shared, n: nat) {
    && sem.over(c, Run(sem, c, s, n).0)
    && forall m: nat :: m < n ==> !sem.over(c, Run(sem, c, s, m).0)
  }

  /** Running `cs` one after another, in order, from `s` gives `results` and leaves `s'`. */
  ghost predicate Serially(sem: Semantics, cs: seq<Call>, s: Shared, results: seq<Result>, s': Shared) {
    |results| == |cs| &&
    if cs == [] then s' == s
    else
      var k := |cs| - 1;
      exists mid: Shared, n: nat ::
        && Serially(sem, cs[..k], s, results[..k], mid)
        && Ends(sem, cs[k], mid, n)
        && results[k] == sem.result(cs[k], Run(sem, cs[k], mid, n).0)
        && s' == Run(sem, cs[k], mid, n).1
  }

  /** What running calls one after another gives is determined by the calls and the first state. */
  lemma {:induction false} SeriallyIsUnique(sem: Semantics, cs: seq<Call>, s: Shared,
                                            r1: seq<Result>, s1: Shared, r2: seq<Result>, s2: Shared)
    requires Serially(sem, cs, s, r1, s1) && Serially(sem, cs, s, r2, s2)
    ensures r1 == r2 && s1 == s2
  {
    if cs != [] {
      var k := |cs| - 1;
      var m1: Shared, n1: nat :|
        && Serially(sem, cs[..k], s, r1[..k], m1) && Ends(sem, cs[k], m1, n1)
        && r1[k] == sem.result(cs[k], Run(sem, cs[k], m1, n1).0) && s1 == Run(sem, cs[k], m1, n1).1;
      var m2: Shared, n2: nat :|
        && Serially(sem, cs[..k], s, r2[..k], m2) && Ends(sem, cs[k], m2, n2)
        && r2[k] == sem.result(cs[k], Run(sem, cs[k], m2, n2).0) && s2 == Run(sem, cs[k], m2, n2).1;
      SeriallyIsUnique(sem, cs[..k], s, r1[..k], m1, r2[..k], m2);
      assert n1 == n2;
      assert r1 == r1[..k] + [r1[k]] && r2 == r2[..k] + [r2[k]];
    }
  }

  // ---- The steps every scheduler is made of ----

  /** Call `j` conflicts with no earlier call that is still to finish. */
  ghost predicate MayStart(es: seq<Entry>, j: nat)
    requires j < |es|
  {
    forall i :: 0 <= i < j && !(es[i].safe && es[j].safe) ==> es[i].Finished()
  }

  function Submit(sem: Semantics, st: State, c: Call, safe: bool): State {
    State(st.entries + [Entry(c, safe, Queued)], st.locals + [sem.init(c)], st.steps + [0], st.shared)
  }

  function SetStatus(es: seq<Entry>, i: nat, status: Status): seq<Entry>
    requires i < |es|
  {
    es[i := es[i].(status := status)]
  }

  ghost predicate Sized(st: State) {
    |st.locals| == |st.steps| == |st.entries|
  }

  predicate CanStep(sem: Semantics, st: State, i: nat)
    requires |st.locals| == |st.entries|
  {
    i < |st.entries| && st.entries[i].status == Executing && !sem.over(st.entries[i].call, st.locals[i])
  }

  predicate CanFinish(sem: Semantics, st: State, i: nat)
    requires |st.locals| == |st.entries|
  {
    i < |st.entries| && st.entries[i].status == Executing && sem.over(st.entries[i].call, st.locals[i])
  }

  /** One atomic step of the running call `i`. */
  function MicroStep(sem: Semantics, st: State, i: nat): (r: State)
    requires |st.locals| == |st.steps| == |st.entries| && CanStep(sem, st, i)
  {
    var next := sem.step(st.entries[i].call, st.locals[i], st.shared);
    State(st.entries, st.locals[i := next.0], st.steps[i := st.steps[i] + 1], next.1)
  }

  // ---- Why the discipline is enough ----

  /** The shared state a serial execution has reached before call `i`, when each call takes as many
      steps as it has taken so far. */
  function Before(sem: Semantics, s0: Shared, st: State, i: nat): Shared
    requires i <= |st.entries| == |st.steps|
  {
    if i == 0 then s0
    else Run(sem, st.entries[i - 1].call, Before(sem, s0, st, i - 1), st.steps[i - 1]).1
  }

  ghost predicate CallConsistent(sem: Semantics, s0: Shared, st: State, i: nat)
    requires Sized(st) && i < |st.entries|
  {
    var e, s, n := st.entries[i], Before(sem, s0, st, i), st.steps[i];
    && st.locals[i] == Run(sem, e.call, s, n).0
    && (forall m: nat :: m < n ==> !sem.over(e.call, Run(sem, e.call, s, m).0))
    && (e.Finished() ==> sem.over(e.call, st.locals[i]))
    && (!e.Started() ==> n == 0)
    && (e.Started() ==> MayStart(st.entries, i))
  }

  /** Every reachable state looks like a serial execution in submission order that has been cut short. */
  ghost predicate Consistent(sem: Semantics, s0: Shared, st: State) {
    && Sized(st)
    && SafeIsReadOnly(sem, st.entries)
    && (forall i :: 0 <= i < |st.entries| ==> CallConsistent(sem, s0, st, i))
    && st.shared == Before(sem, s0, st, |st.entries|)
  }

  lemma {:induction false} ReadOnlyRun(sem: Semantics, c: Call, s: Shared, n: nat)
    requires ReadOnly(sem, c)
    ensures Run(sem, c, s, n).1 == s
  {
    if n > 0 {
      ReadOnlyRun(sem, c, s, n - 1);
    }
  }

  /** `Before` looks only at the calls and the step counts before `i`. */
  lemma {:induction false} BeforeSame(sem: Semantics, s0: Shared, a: State, b: State, i: nat)
    requires |a.entries| == |a.steps| && |b.entries| == |b.steps|
    requires i <= |a.entries| && i <= |b.entries|
    requires forall k :: 0 <= k < i ==> a.entries[k].call == b.entries[k].call && a.steps[k] == b.steps[k]
    ensures Before(sem, s0, a, i) == Before(sem, s0, b, i)
  {
    if i > 0 {
      BeforeSame(sem, s0, a, b, i - 1);
    }
  }

  /** While `j` runs, no later call has touched the shared state. */
  lemma {:induction false} NothingAfter(sem: Semantics, s0: Shared, st: State, j: nat, i: nat)
    requires Consistent(sem, s0, st)
    requires j < i <= |st.entries| && st.entries[j].status == Executing
    ensures Before(sem, s0, st, i) == Before(sem, s0, st, j + 1)
  {
    if i > j + 1 {
      var k := i - 1;
      NothingAfter(sem, s0, st, j, k);
      assert CallConsistent(sem, s0, st, k);
      if st.entries[k].Started() {
        ReadOnlyRun(sem, st.entries[k].call, Before(sem, s0, st, k), st.steps[k]);
      }
    }
  }

  /** A running call sees the shared state it would see if it ran in its turn. */
  lemma RunsAsInTurn(sem: Semantics, s0: Shared, st: State, j: nat)
    requires Consistent(sem, s0, st)
    requires j < |st.entries| && st.entries[j].status == Executing
    ensures Run(sem, st.entries[j].call, Before(sem, s0, st, j), st.steps[j]) == (st.locals[j], st.shared)
  {
    NothingAfter(sem, s0, st, j, |st.entries|);
    assert CallConsistent(sem, s0, st, j);
  }

  /** A state with the same calls and flags, the same progress, and statuses that only moved forward. */
  ghost predicate Advances(st: State, es: seq<Entry>) {
    && |es| == |st.entries|
    && forall i :: 0 <= i < |es| ==>
         && es[i].call == st.entries[i].call && es[i].safe == st.entries[i].safe
         && (st.entries[i].Started() ==> es[i].Started())
         && (st.entries[i].Finished() ==> es[i].Finished())
  }

  /** Moving statuses forward keeps consistency when every call that starts may start and every call
      that finishes is over. */
  lemma AdvanceKeepsConsistent(sem: Semantics, s0: Shared, st: State, es: seq<Entry>)
    requires Consistent(sem, s0, st) && Advances(st, es)
    requires forall i :: 0 <= i < |es| && es[i].Started() && !st.entries[i].Started() ==>
                           MayStart(es, i)
    requires forall i :: 0 <= i < |es| && es[i].Finished() && !st.entries[i].Finished() ==>
                           sem.over(es[i].call, st.locals[i])
    ensures Consistent(sem, s0, st.(entries := es))
  {
    var r := st.(entries := es);
    forall i | 0 <= i < |es|
      ensures CallConsistent(sem, s0, r, i)
    {
      assert CallConsistent(sem, s0, st, i);
      BeforeSame(sem, s0, st, r, i);
    }
    BeforeSame(sem, s0, st, r, |es|);
  }

  lemma SubmitKeepsConsistent(sem: Semantics, s0: Shared, st: State, c: Call, safe: bool)
    requires Consistent(sem, s0, st)
    requires safe ==> ReadOnly(sem, c)
    ensures Consistent(sem, s0, Submit(sem, st, c, safe))
  {
    var r := Submit(sem, st, c, safe);
    var n := |st.entries|;
    forall i | 0 <= i < n
      ensures CallConsistent(sem, s0, r, i)
    {
      assert CallConsistent(sem, s0, st, i);
      BeforeSame(sem, s0, st, r, i);
    }
    BeforeSame(sem, s0, st, r, n);
    assert CallConsistent(sem, s0, r, n);
    assert Before(sem, s0, r, n + 1) == Before(sem, s0, r, n);
  }

  /** Any interleaving: whichever running call takes the next step. */
  lemma MicroStepKeepsConsistent(sem: Semantics, s0: Shared, st: State, j: nat)
    requires Consistent(sem, s0, st) && CanStep(sem, st, j)
    ensures Consistent(sem, s0, MicroStep(sem, st, j))
  {
    var r := MicroStep(sem, st, j);
    var n := |st.entries|;
    var c := st.entries[j].call;
    RunsAsInTurn(sem, s0, st, j);
    BeforeSame(sem, s0, st, r, j);
    assert Run(sem, c, Before(sem, s0, r, j), r.steps[j]) == (r.locals[j], r.shared);
    assert CallConsistent(sem, s0, st, j);
    assert CallConsistent(sem, s0, r, j);
    assert Before(sem, s0, r, j + 1) == r.shared;
    for i := j + 1 to n
      invariant forall k :: 0 <= k < i ==> k <= j || CallConsistent(sem, s0, r, k)
      invariant Before(sem, s0, r, i) == r.shared
    {
      LaterCallUnmoved(sem, s0, st, j, i);
    }
    forall i | 0 <= i < j
      ensures CallConsistent(sem, s0, r, i)
    {
      assert CallConsistent(sem, s0, st, i);
      BeforeSame(sem, s0, st, r, i);
    }
  }

  /** A step of `j` is invisible to a later call: it is either still waiting or `j` changes nothing. */
  lemma LaterCallUnmoved(sem: Semantics, s0: Shared, st: State, j: nat, i: nat)
    requires Consistent(sem, s0, st) && CanStep(sem, st, j) && j < i < |st.entries|
    requires Before(sem, s0, MicroStep(sem, st, j), i) == MicroStep(sem, st, j).shared
    ensures CallConsistent(sem, s0, MicroStep(sem, st, j), i)
    ensures Before(sem, s0, MicroStep(sem, st, j), i + 1) == MicroStep(sem, st, j).shared
  {
    var r := MicroStep(sem, st, j);
    assert CallConsistent(sem, s0, st, i);
    if st.entries[i].Started() {
      assert st.entries[j].safe && st.entries[i].safe;
      ReadOnlyRun(sem, st.entries[i].call, r.shared, r.steps[i]);
      NothingAfter(sem, s0, st, j, i);
      NothingAfter(sem, s0, st, j, |st.entries|);
    }
  }

  /** Serializability: as soon as the first `k` calls have finished, whatever else is still running,
      their results are those of running the calls one after another in submission order. */
  lemma {:induction false} FinishedPrefixIsSerial(sem: Semantics, s0: Shared, st: State, k: nat)
    requires Consistent(sem, s0, st) && k <= |st.entries|
    requires forall i :: 0 <= i < k ==> st.entries[i].Finished()
    ensures Serially(sem, Calls(st.entries[..k]), s0, Results(sem, st, k), Before(sem, s0, st, k))
  {
    if k > 0 {
      FinishedPrefixIsSerial(sem, s0, st, k - 1);
      assert CallConsistent(sem, s0, st, k - 1);
      var cs := Calls(st.entries[..k]);
      assert cs[..k - 1] == Calls(st.entries[..k - 1]);
      assert Results(sem, st, k)[..k - 1] == Results(sem, st, k - 1);
      assert Ends(sem, cs[k - 1], Before(sem, s0, st, k - 1), st.steps[k - 1]);
    }
  }

  function Calls(es: seq<Entry>): (cs: seq<Call>)
    ensures |cs| == |es| && forall i :: 0 <= i < |es| ==> cs[i] == es[i].call
  {
    seq(|es|, i requires 0 <= i < |es| => es[i].call)
  }

  /** The results of the first `k` calls. */
  function Results(sem: Semantics, st: State, k: nat): (rs: seq<Result>)
    requires k <= |st.entries| == |st.locals|
    ensures |rs| == k && forall i :: 0 <= i < k ==> rs[i] == sem.result(st.entries[i].call, st.locals[i])
  {
    seq(k, i requires 0 <= i < k => sem.result(st.entries[i].call, st.locals[i]))
  }
}
