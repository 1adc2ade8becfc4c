/** How many steps the calls of a run can take, whichever scheduler starts them: as many as they take
    when run one after another. */
module RunLengths {
  import opened Serializability

  /** A serial execution that comes to an end, with the steps each call takes. */
  ghost predicate WholeRun(sem: Semantics, s0: Shared, full: State) {
    && |full.steps| == |full.entries|
    && forall i :: 0 <= i < |full.entries| ==>
         Ends(sem, full.entries[i].call, Before(sem, s0, full, i), full.steps[i])
  }

  function OneMore(full: State, c: Call, n: nat): State {
    full.(entries := full.entries + [Entry(c, false, Completed)], steps := full.steps + [n])
  }

  lemma WholeExtends(sem: Semantics, s0: Shared, part: State, c: Call, n: nat)
    requires WholeRun(sem, s0, part) && Ends(sem, c, Before(sem, s0, part, |part.entries|), n)
    ensures WholeRun(sem, s0, OneMore(part, c, n))
  {
    hide Run, Ends;
    var full := OneMore(part, c, n);
    forall i | 0 <= i < |full.entries|
      ensures Ends(sem, full.entries[i].call, Before(sem, s0, full, i), full.steps[i])
    {
      BeforeSame(sem, s0, full, part, i);
      hide Before;
    }
  }

  lemma OneMoreBefore(sem: Semantics, s0: Shared, part: State, c: Call, n: nat)
    requires |part.entries| == |part.steps|
    ensures Before(sem, s0, OneMore(part, c, n), |part.entries| + 1)
         == Run(sem, c, Before(sem, s0, part, |part.entries|), n).1
  {
    BeforeSame(sem, s0, OneMore(part, c, n), part, |part.entries|);
  }

  /** Calls that can be run one after another to the end make a whole run. */
  lemma {:induction false} SerialIsWhole(sem: Semantics, s0: Shared, cs: seq<Call>, rs: seq<Result>, s': Shared)
      returns (full: State)
    requires Serially(sem, cs, s0, rs, s')
    ensures WholeRun(sem, s0, full) && Calls(full.entries) == cs
    ensures Before(sem, s0, full, |cs|) == s'
  {
    if cs == [] {
      full := State([], [], [], s0);
    } else {
      hide WholeRun, Run, Ends;
      var k := |cs| - 1;
      var mid: Shared, n: nat :|
        && Serially(sem, cs[..k], s0, rs[..k], mid) && Ends(sem, cs[k], mid, n)
        && rs[k] == sem.result(cs[k], Run(sem, cs[k], mid, n).0) && s' == Run(sem, cs[k], mid, n).1;
      var part := SerialIsWhole(sem, s0, cs[..k], rs[..k], mid);
      assert |part.entries| == k by { assert |Calls(part.entries)| == k; }
      WholeExtends(sem, s0, part, cs[k], n);
      OneMoreBefore(sem, s0, part, cs[k], n);
      full := OneMore(part, cs[k], n);
      assert Calls(full.entries) == Calls(part.entries) + [cs[k]] == cs;
    }
  }

  ghost predicate SameCalls(a: State, b: State) {
    |a.entries| == |b.entries| && forall i :: 0 <= i < |a.entries| ==> a.entries[i].call == b.entries[i].call
  }

  /** A finished or read-only call leaves what it leaves in the whole serial execution. */
  lemma PassesOn(sem: Semantics, c: Call, s: Shared, n: nat, whole: nat)
    requires Ends(sem, c, s, whole)
    requires ReadOnly(sem, c) || Ends(sem, c, s, n)
    ensures Run(sem, c, s, n).1 == Run(sem, c, s, whole).1
  {
    if ReadOnly(sem, c) {
      ReadOnlyRun(sem, c, s, n);
      ReadOnlyRun(sem, c, s, whole);
    }
  }

  /** A call before a started one is read-only or has finished. */
  lemma BeforeStarted(sem: Semantics, s0: Shared, st: State, i: nat, k: nat)
    requires Consistent(sem, s0, st) && k < i < |st.entries| && st.entries[i].Started()
    ensures var c := st.entries[k].call;
            ReadOnly(sem, c) || Ends(sem, c, Before(sem, s0, st, k), st.steps[k])
  {
    hide Run, ReadOnly;
    assert CallConsistent(sem, s0, st, i) && CallConsistent(sem, s0, st, k);
  }

  /** A call that has started runs on the shared state of the whole serial execution. */
  lemma {:induction false} StartedSeesSerialState(sem: Semantics, s0: Shared, st: State, full: State, i: nat, j: nat)
    requires Consistent(sem, s0, st) && WholeRun(sem, s0, full) && SameCalls(st, full)
    requires j <= i < |st.entries| && st.entries[i].Started()
    ensures Before(sem, s0, st, j) == Before(sem, s0, full, j)
    decreases j
  {
    hide Run, ReadOnly, Ends, CallConsistent;
    if j > 0 {
      var k := j - 1;
      StartedSeesSerialState(sem, s0, st, full, i, k);
      BeforeStarted(sem, s0, st, i, k);
      PassesOn(sem, st.entries[k].call, Before(sem, s0, st, k), st.steps[k], full.steps[k]);
    }
  }

  /** No interleaving makes a call take more steps than it takes in its turn, and a finished call has
      taken all of them. */
  lemma StepsAreBounded(sem: Semantics, s0: Shared, st: State, full: State, i: nat)
    requires Consistent(sem, s0, st) && WholeRun(sem, s0, full) && SameCalls(st, full)
    requires i < |st.entries|
    ensures st.steps[i] <= full.steps[i]
    ensures CanStep(sem, st, i) ==> st.steps[i] < full.steps[i]
    ensures st.entries[i].Finished() ==> st.steps[i] == full.steps[i]
  {
    assert CallConsistent(sem, s0, st, i);
    if st.entries[i].Started() {
      StartedSeesSerialState(sem, s0, st, full, i, i);
    }
  }

  /** The steps and resolutions of the first `n` calls so far. */
  ghost function Done(st: State, n: nat): nat
    requires |st.steps| == |st.entries| && n <= |st.entries|
  {
    if n == 0 then 0 else Done(st, n - 1) + st.steps[n - 1] + if st.entries[n - 1].Finished() then 1 else 0
  }

  /** `b` is `a` with the calls other than `i` as far as before, and perhaps more calls. */
  ghost predicate OnlyMoves(a: State, b: State, i: int) {
    && Sized(a) && Sized(b) && |a.entries| <= |b.entries|
    && forall k :: 0 <= k < |a.entries| && k != i ==>
         a.steps[k] == b.steps[k] && (a.entries[k].Finished() <==> b.entries[k].Finished())
  }

  lemma {:induction false} DoneMoves(a: State, b: State, i: int, n: nat)
    requires OnlyMoves(a, b, i) && n <= |a.entries|
    requires 0 <= i < n ==> !a.entries[i].Finished()
    requires 0 <= i < n ==> b.steps[i] == a.steps[i] + if b.entries[i].Finished() then 0 else 1
    ensures Done(b, n) == Done(a, n) + if 0 <= i < n then 1 else 0
  {
    if n > 0 {
      DoneMoves(a, b, i, n - 1);
    }
  }

  lemma StepDone(sem: Semantics, st: State, i: nat)
    requires Sized(st) && CanStep(sem, st, i)
    ensures Done(MicroStep(sem, st, i), |st.entries|) == Done(st, |st.entries|) + 1
  {
    DoneMoves(st, MicroStep(sem, st, i), i, |st.entries|);
  }

  ghost predicate AllFinished(es: seq<Entry>, n: nat)
    requires n <= |es|
  {
    forall k :: 0 <= k < n ==> es[k].Finished()
  }

  /** The steps and resolutions of a whole run. */
  ghost function Total(full: State, n: nat): nat
    requires n <= |full.steps|
  {
    if n == 0 then 0 else Total(full, n - 1) + full.steps[n - 1] + 1
  }

  lemma {:induction false} DoneIsBounded(sem: Semantics, s0: Shared, st: State, full: State, n: nat)
    requires Consistent(sem, s0, st) && WholeRun(sem, s0, full) && SameCalls(st, full)
    requires Sized(st) && |full.steps| == |st.entries| && n <= |st.entries|
    ensures Done(st, n) <= Total(full, n)
    ensures Done(st, n) == Total(full, n) <==> AllFinished(st.entries, n)
  {
    hide Consistent, WholeRun, SameCalls;
    if n > 0 {
      DoneIsBounded(sem, s0, st, full, n - 1);
      StepsAreBounded(sem, s0, st, full, n - 1);
    }
  }

  lemma SameCallsIff(a: State, b: State)
    ensures SameCalls(a, b) <==> Calls(a.entries) == Calls(b.entries)
  {
    if Calls(a.entries) == Calls(b.entries) {
      assert forall i :: 0 <= i < |a.entries| ==> Calls(a.entries)[i] == Calls(b.entries)[i];
    }
  }

  lemma WholeIsSized(sem: Semantics, s0: Shared, full: State)
    requires WholeRun(sem, s0, full)
    ensures |full.steps| == |full.entries|
  {
  }
}
