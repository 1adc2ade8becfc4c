/** Runs of the dual-loop protocol from a submission to a restart: what the tasks that end leave behind,
    and what is missing when they are loaded again. */
module DualLoopRestart {
  import opened Wrappers
  import opened TaskLifecycle
  import opened MessageQueues
  import opened DualLoop
  import opened DualLoopSafety

  // ---- Starting tasks ----

  lemma {:induction false} AfterConcat(s: State, a: seq<Event>, b: seq<Event>)
    ensures After(s, a + b) == After(After(s, a), b)
  {
    hide Next;
    if b == [] {
      assert a + b == a;
    } else {
      var k := |b| - 1;
      AfterConcat(s, a, b[..k]);
      assert (a + b)[..|a| + k] == a + b[..k];
    }
  }

  /** A submission to a session without an active task. */
  lemma SubmitStep(s: State, session: string, content: string, t: TaskId)
    requires t !in s.tasks && forall u :: u in s.store && u in s.tasks ==> !s.tasks[u].status.Active()
    ensures After(s, [Submit(session, content, t)])
         == s.(tasks := s.tasks[t := Task(session, Pending, None, None)], store := s.store + [t],
               contexts := s.contexts + {t}, runs := s.runs + [Run(t, Recalling)])
  {
    AfterMore(s, [], Submit(session, content, t));
    assert [] + [Submit(session, content, t)] == [Submit(session, content, t)];
  }

  function Starting(r: nat): seq<Event> {
    [] + [Recalled(r)] + [Planned(r)] + [Built(r)]
  }

  /** From the memory recall to the run of the inner agent. */
  lemma StartSteps(s: State, r: nat)
    requires At(s, r) && s.runs[r].pc == Recalling && s.tasks[s.runs[r].task].status == Pending
    ensures var t := s.runs[r].task;
            After(s, Starting(r)) == s.(runs := s.runs[r := Run(t, Running)],
                                        tasks := s.tasks[t := s.tasks[t].(status := Executing)])
  {
    var t := s.runs[r].task;
    var s1, s2 := Next(s, Recalled(r)), Next(Next(s, Recalled(r)), Planned(r));
    assert s1 == s.(runs := s.runs[r := Run(t, PlanningCall)], tasks := s.tasks[t := s.tasks[t].(status := Planning)]);
    assert s2 == s.(runs := s.runs[r := Run(t, Building)], tasks := s.tasks[t := s.tasks[t].(status := Executing)]);
    AfterMore(s, [], Recalled(r));
    AfterMore(s, [] + [Recalled(r)], Planned(r));
    AfterMore(s, [] + [Recalled(r)] + [Planned(r)], Built(r));
  }

  /** Two submissions before the first task is active: two inner agents run on one session. */
  lemma TwoRunsShareASession(session: string, t: TaskId, u: TaskId)
    requires t != u
    ensures var es := [Submit(session, "", t)] + [Submit(session, "", u)] + Starting(0) + Starting(1);
            var s := After(Loaded([]), es);
            && s.runs == [Run(t, Running), Run(u, Running)]
            && s.tasks == map[t := Task(session, Executing, None, None), u := Task(session, Executing, None, None)]
  {
    hide Starting, After;
    var s0 := Loaded([]);
    var s1 := After(s0, [Submit(session, "", t)]);
    SubmitStep(s0, session, "", t);
    SubmitStep(s1, session, "", u);
    AfterConcat(s0, [Submit(session, "", t)], [Submit(session, "", u)]);
    var two := [Submit(session, "", t)] + [Submit(session, "", u)];
    StartSteps(After(s0, two), 0);
    AfterConcat(s0, two, Starting(0));
    StartSteps(After(s0, two + Starting(0)), 1);
    AfterConcat(s0, two + Starting(0), Starting(1));
  }

  // ---- What a restart keeps ----

  /** The file of a task gives its session and its error, and its status as far as a restart can tell:
      nothing is written when a task goes to planning, is paused or goes on, but all of these come back
      as interrupted. */
  ghost predicate Fits(m: Meta, t: TaskId, task: Task) {
    m.id == t && m.session == task.session && m.error == task.error && Restored(m.status) == Restored(task.status)
  }

  /** The files on disk, in any order; a file stays when its task is evicted. */
  ghost predicate Records(metas: seq<Meta>, tasks: map<TaskId, Task>) {
    forall k :: 0 <= k < |metas| ==> metas[k].id in tasks && Fits(metas[k], metas[k].id, tasks[metas[k].id])
  }

  ghost predicate Recorded(metas: seq<Meta>, t: TaskId) {
    exists k :: 0 <= k < |metas| && metas[k].id == t
  }

  /** After a restart the store holds each task that has a file, once. */
  lemma {:induction false} LoadedStore(metas: seq<Meta>)
    ensures forall t :: t in Loaded(metas).store <==> Recorded(metas, t)
    ensures forall i, j :: 0 <= i < j < |Loaded(metas).store| ==> Loaded(metas).store[i] != Loaded(metas).store[j]
  {
    if metas != [] {
      var n := |metas| - 1;
      LoadedStore(metas[..n]);
      forall t
        ensures Recorded(metas, t) <==> Recorded(metas[..n], t) || metas[n].id == t
      {
        if k :| 0 <= k < |metas[..n]| && metas[..n][k].id == t {
          assert metas[k].id == t;
        }
        if k :| 0 <= k < |metas| && metas[k].id == t {
          assert k < n ==> metas[..n][k].id == t;
        }
      }
      hide Recorded;
    }
  }

  /** A task comes back as it was, except that a live one is interrupted and no result comes back. */
  lemma {:induction false} RestoredTask(metas: seq<Meta>, tasks: map<TaskId, Task>, t: TaskId)
    requires Records(metas, tasks)
    ensures t in Loaded(metas).tasks <==> Recorded(metas, t)
    ensures Recorded(metas, t) ==>
              Loaded(metas).tasks[t] == tasks[t].(status := Restored(tasks[t].status), result := None)
  {
    if metas != [] {
      var n := |metas| - 1;
      RestoredTask(metas[..n], tasks, t);
      if Recorded(metas[..n], t) {
        var k :| 0 <= k < n && metas[..n][k].id == t;
        assert metas[k].id == t;
      }
      if Recorded(metas, t) && metas[n].id != t {
        var k :| 0 <= k < |metas| && metas[k].id == t;
        assert metas[..n][k].id == t;
      }
    }
  }

  lemma ResultsComeFromFinishing(s: State, e: Event, t: TaskId)
    requires t in Next(s, e).tasks && (t in s.tasks ==> !s.tasks[t].status.Terminal() && s.tasks[t].result == None)
    ensures Next(s, e).tasks[t].result.Some? <==> Next(s, e).tasks[t].status == Completed
  {
    hide Orphan, Deliver, Rebuild, Enqueue, Kept, Append, InvalidTransition, CanTransition;
  }

  /** The task had completed before the restart this run began with. */
  ghost predicate CompletedBefore(metas: seq<Meta>, t: TaskId) {
    t in Loaded(metas).tasks && Loaded(metas).tasks[t].status == Completed
  }

  lemma {:induction false} LoadedHasNoResults(metas: seq<Meta>, t: TaskId)
    requires t in Loaded(metas).tasks
    ensures Loaded(metas).tasks[t].result == None
  {
    if metas != [] && metas[|metas| - 1].id != t {
      LoadedHasNoResults(metas[..|metas| - 1], t);
    }
  }

  /** A task has a result exactly when it has completed since the last restart. */
  lemma {:induction false} ResultIff(metas: seq<Meta>, es: seq<Event>, t: TaskId)
    requires t in After(Loaded(metas), es).tasks
    ensures var task := After(Loaded(metas), es).tasks[t];
            task.result.Some? <==> task.status == Completed && !CompletedBefore(metas, t)
  {
    var s0 := Loaded(metas);
    if t in s0.tasks { LoadedHasNoResults(metas, t); }
    if CompletedBefore(metas, t) {
      EndedIsForever(s0, es, t);
    } else if es != [] {
      var s, e := After(s0, es[..|es| - 1]), es[|es| - 1];
      if t in s.tasks { ResultIff(metas, es[..|es| - 1], t); }
      hide Next, Loaded;
      if t in s.tasks && s.tasks[t].status.Terminal() {
        EndedStays(s, e, t);
      } else {
        ResultsComeFromFinishing(s, e, t);
      }
    }
  }

  /** After any run and a restart a task comes back with its error and, if it has ended, its status; it
      has the result it had exactly unless it completed in that run. */
  lemma ResultSurvivesIff(before: seq<Meta>, es: seq<Event>, metas: seq<Meta>, t: TaskId)
    requires Records(metas, After(Loaded(before), es).tasks) && Recorded(metas, t)
    ensures t in After(Loaded(before), es).tasks && t in Loaded(metas).tasks
    ensures var task, task' := After(Loaded(before), es).tasks[t], Loaded(metas).tasks[t];
            && task'.session == task.session && task'.error == task.error
            && task'.status == (if task.status.Live() then Interrupted else task.status)
            && (task'.result == task.result <==> task.status != Completed || CompletedBefore(before, t))
  {
    RestoredTask(metas, After(Loaded(before), es).tasks, t);
    ResultIff(before, es, t);
  }

  // ---- What is on disk ----

  /** The task whose file an event rewrites, with `writeMeta` or `persistState`. */
  function Written(s: State, e: Event): Option<TaskId> {
    match e
    case Submit(session, _, newId) =>
      if FirstActive(s.tasks, s.store, Some(session)).None? && newId !in s.tasks then Some(newId) else None
    case Planned(r) =>
      if At(s, r) && s.runs[r].pc == PlanningCall && s.tasks[s.runs[r].task].status == Planning
      then Some(s.runs[r].task) else None
    case CrashHandled(r) => if At(s, r) && s.runs[r].pc.Crashed? then Some(s.runs[r].task) else None
    case Finished(r, _) => if At(s, r) && s.runs[r].pc == Running then Some(s.runs[r].task) else None
    case Errored(r, _) => if At(s, r) && s.runs[r].pc == Running then Some(s.runs[r].task) else None
    case Cancel(t, _) => if t in s.contexts && t in s.store && t in s.tasks then Some(t) else None
    case Replayed(k, _) =>
      if k < |s.resumes| && s.resumes[k] in s.tasks && CanTransition(s.tasks[s.resumes[k]].status, Executing)
      then Some(s.resumes[k]) else None
    case _ => None
  }

  function AfterWrite(s: State, e: Event, disk: map<TaskId, Meta>): map<TaskId, Meta> {
    var t := Written(s, e);
    if t.Some? && t.value in Next(s, e).tasks then disk[t.value := MetaOf(t.value, Next(s, e).tasks[t.value])]
    else disk
  }

  /** The files after a run, when every write reaches the disk and none overtakes another. */
  function DiskAfter(s: State, disk: map<TaskId, Meta>, es: seq<Event>): map<TaskId, Meta> {
    if es == [] then disk
    else
      var k := |es| - 1;
      AfterWrite(After(s, es[..k]), es[k], DiskAfter(s, disk, es[..k]))
  }

  ghost predicate DiskFits(disk: map<TaskId, Meta>, tasks: map<TaskId, Task>) {
    && (forall t :: t in disk <==> t in tasks)
    && (forall t :: t in disk ==> Fits(disk[t], t, tasks[t]))
  }

  /** A task whose file is not rewritten looks the same to a restart as before. */
  lemma UnwrittenFits(s: State, e: Event, t: TaskId, m: Meta)
    requires t in s.tasks && Fits(m, t, s.tasks[t]) && Written(s, e) != Some(t)
    ensures t in Next(s, e).tasks && Fits(m, t, Next(s, e).tasks[t])
  {
    hide Orphan, Deliver, Rebuild, Enqueue, Kept, Append, InvalidTransition;
  }

  /** Every change of a task is written, except going to planning, a pause, and going on after a pause. */
  lemma ChangesAreWritten(s: State, e: Event, t: TaskId)
    requires t in s.tasks && t in Next(s, e).tasks && Next(s, e).tasks[t] != s.tasks[t]
    ensures e.Recalled? || e.Pause? || e.Clarify? || Written(s, e) == Some(t)
    ensures e.Recalled? || e.Pause? || e.Clarify? ==> Written(s, e) == None
  {
    hide Orphan, Deliver, Rebuild, Enqueue, Kept, Append, InvalidTransition, CanTransition;
  }

  lemma OnlySubmittedIsNew(s: State, e: Event, t: TaskId)
    requires t in Next(s, e).tasks && t !in s.tasks
    ensures Written(s, e) == Some(t)
  {
    hide Orphan, Deliver, Rebuild, Enqueue, Kept, Append, InvalidTransition, CanTransition;
  }

  lemma WrittenIsKnown(s: State, e: Event)
    requires Written(s, e).Some?
    ensures Written(s, e).value in Next(s, e).tasks
  {
    hide Orphan, Deliver, Rebuild, Enqueue, Kept, Append, InvalidTransition, CanTransition;
  }

  lemma NextFits(s: State, e: Event, disk: map<TaskId, Meta>)
    requires DiskFits(disk, s.tasks)
    ensures DiskFits(AfterWrite(s, e, disk), Next(s, e).tasks)
  {
    hide Written, Next;
    var disk', tasks' := AfterWrite(s, e, disk), Next(s, e).tasks;
    if Written(s, e).Some? { WrittenIsKnown(s, e); }
    forall t
      ensures t in disk' <==> t in tasks'
      ensures t in disk' ==> Fits(disk'[t], t, tasks'[t])
    {
      if t in s.tasks && Written(s, e) != Some(t) { UnwrittenFits(s, e, t, disk[t]); }
      if t in tasks' && t !in s.tasks { OnlySubmittedIsNew(s, e, t); }
    }
  }

  /** `metas` lists the files. */
  ghost predicate Lists(metas: seq<Meta>, disk: map<TaskId, Meta>) {
    && (forall k :: 0 <= k < |metas| ==> metas[k].id in disk && metas[k] == disk[metas[k].id])
    && (forall t :: t in disk ==> disk[t].id == t && Recorded(metas, t))
  }

  lemma {:induction false} LoadedFits(metas: seq<Meta>, disk: map<TaskId, Meta>, t: TaskId)
    requires forall k :: 0 <= k < |metas| ==> metas[k].id in disk && metas[k] == disk[metas[k].id]
    ensures t in Loaded(metas).tasks <==> Recorded(metas, t)
    ensures t in Loaded(metas).tasks ==> t in disk && Fits(disk[t], t, Loaded(metas).tasks[t])
  {
    if metas != [] {
      var n := |metas| - 1;
      LoadedFits(metas[..n], disk, t);
      if Recorded(metas[..n], t) {
        var k :| 0 <= k < n && metas[..n][k].id == t;
        assert metas[k].id == t;
      }
      if Recorded(metas, t) && metas[n].id != t {
        var k :| 0 <= k < |metas| && metas[k].id == t;
        assert metas[..n][k].id == t;
      }
    }
  }

  lemma {:induction false} DiskStaysFit(s: State, disk: map<TaskId, Meta>, es: seq<Event>)
    requires DiskFits(disk, s.tasks)
    ensures DiskFits(DiskAfter(s, disk, es), After(s, es).tasks)
  {
    hide DiskFits, AfterWrite, Next;
    if es != [] {
      var k := |es| - 1;
      DiskStaysFit(s, disk, es[..k]);
      NextFits(After(s, es[..k]), es[k], DiskAfter(s, disk, es[..k]));
    }
  }

  lemma LoadedDiskFits(before: seq<Meta>, disk: map<TaskId, Meta>)
    requires Lists(before, disk)
    ensures DiskFits(disk, Loaded(before).tasks)
  {
    hide Loaded, Fits;
    forall u
      ensures u in disk <==> u in Loaded(before).tasks
      ensures u in disk ==> Fits(disk[u], u, Loaded(before).tasks[u])
    {
      LoadedFits(before, disk, u);
    }
  }

  /** At every moment of every run from a restart the files record every task. */
  lemma DiskKeepsUp(before: seq<Meta>, disk: map<TaskId, Meta>, es: seq<Event>, metas: seq<Meta>, t: TaskId)
    requires Lists(before, disk) && Lists(metas, DiskAfter(Loaded(before), disk, es))
    ensures Records(metas, After(Loaded(before), es).tasks)
    ensures t in After(Loaded(before), es).tasks ==> Recorded(metas, t)
  {
    hide After, DiskAfter, Loaded, Fits, Recorded;
    LoadedDiskFits(before, disk);
    DiskStaysFit(Loaded(before), disk, es);
  }

  lemma FinishStep(s: State, r: nat, text: string)
    requires At(s, r) && s.runs[r].pc == Running && s.tasks[s.runs[r].task].status == Executing
    ensures var t := s.runs[r].task;
            Next(s, Finished(r, text)).tasks == s.tasks[t := s.tasks[t].(status := Completed, result := Some(text))]
  {
    TransitionFacts(Executing, Completed);
    hide Orphan;
  }

  /** A task that completes, and what a restart makes of it. */
  lemma CompletedResultIsForgotten(session: string, t: TaskId, text: string)
    ensures var es := [Submit(session, "", t)] + Starting(0) + [Finished(0, text)];
            var tasks, metas := After(Loaded([]), es).tasks, [Meta(t, session, Completed, None)];
            && tasks == map[t := Task(session, Completed, Some(text), None)] && Records(metas, tasks)
            && Loaded(metas).tasks == map[t := Task(session, Completed, None, None)]
  {
    var s0, submit, metas := Loaded([]), [Submit(session, "", t)], [Meta(t, session, Completed, None)];
    assert metas[..0] == [] && Loaded(metas).tasks == map[t := Task(session, Completed, None, None)];
    hide Starting, Next, After;
    SubmitStep(s0, session, "", t);
    StartSteps(After(s0, submit), 0);
    AfterConcat(s0, submit, Starting(0));
    AfterMore(s0, submit + Starting(0), Finished(0, text));
    FinishStep(After(s0, submit + Starting(0)), 0, text);
  }
}
