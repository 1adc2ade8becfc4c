/** What every run of the dual-loop protocol keeps. */
module DualLoopSafety {
  import opened Wrappers
  import opened TaskLifecycle
  import opened MessageQueues
  import opened DualLoop

  // ---- Messages ----

  /** Every message accepted for `t` is in exactly one place, and the places keep the order: first the
      delivered ones, then the orphaned ones, then those still queued. */
  ghost predicate ConservedFor(tr: Traffic, t: TaskId) {
    For(t, tr.accepted) == For(t, tr.delivered) + For(t, tr.orphaned) + For(t, tr.queue)
  }

  ghost predicate TargetsActive(tasks: map<TaskId, Task>, ms: seq<Queued>) {
    forall i :: 0 <= i < |ms| ==> ms[i].target in tasks && tasks[ms[i].target].status.Active()
  }

  ghost predicate TargetsEnded(tasks: map<TaskId, Task>, ms: seq<Queued>) {
    forall i :: 0 <= i < |ms| ==> ms[i].target in tasks && tasks[ms[i].target].status.Terminal()
  }

  ghost predicate TargetsKnown(tasks: map<TaskId, Task>, ms: seq<Queued>) {
    forall i :: 0 <= i < |ms| ==> ms[i].target in tasks
  }

  ghost predicate TrafficOk(tasks: map<TaskId, Task>, tr: Traffic) {
    && (forall t: TaskId :: ConservedFor(tr, t))
    && tr.dropped == []
    && TargetsActive(tasks, tr.queue)
    && TargetsEnded(tasks, tr.orphaned)
    && TargetsKnown(tasks, tr.delivered)
    && (forall i :: 0 <= i < |tr.accepted| ==> tr.accepted[i].id == i)
  }

  lemma EnqueueKeeps(tasks: map<TaskId, Task>, tr: Traffic, t: TaskId, content: string)
    requires TrafficOk(tasks, tr) && t in tasks && tasks[t].status.Active()
    ensures TrafficOk(tasks, Enqueue(tr, t, content))
  {
    var m := Queued(|tr.accepted|, t, content);
    var tr' := Enqueue(tr, t, content);
    forall u: TaskId
      ensures ConservedFor(tr', u)
    {
      assert ConservedFor(tr, u);
      ForConcat(u, tr.accepted, [m]);
      ForConcat(u, tr.queue, [m]);
      hide For;
    }
  }

  lemma {:induction false} ExceptKeepsActive(tasks: map<TaskId, Task>, t: TaskId, ms: seq<Queued>)
    requires TargetsActive(tasks, ms)
    ensures TargetsActive(tasks, For(t, ms)) && TargetsActive(tasks, Except(t, ms))
    ensures For(t, ms) != [] ==> t in tasks && tasks[t].status.Active()
  {
    if ms != [] {
      ExceptKeepsActive(tasks, t, ms[..|ms| - 1]);
    }
  }

  lemma DeliveredBeforeOrphaned(d: seq<Queued>, o: seq<Queued>, f: seq<Queued>, e: seq<Queued>)
    requires f == [] || o == []
    ensures d + o + (f + e) == (d + f) + o + e
  {
  }

  lemma DeliverConserves(tr: Traffic, t: TaskId, session: string, u: TaskId)
    requires ConservedFor(tr, u)
    requires For(t, tr.queue) == [] || For(t, tr.orphaned) == []
    ensures ConservedFor(Deliver(tr, t, session), u)
  {
    DrainSplits(t, u, tr.queue);
    ForConcat(u, tr.delivered, For(t, tr.queue));
    assert For(u, []) == [];
    DeliveredBeforeOrphaned(For(u, tr.delivered), For(u, tr.orphaned),
                            For(u, For(t, tr.queue)), For(u, Except(t, tr.queue)));
  }

  lemma DeliverKeeps(tasks: map<TaskId, Task>, tr: Traffic, t: TaskId, session: string)
    requires TrafficOk(tasks, tr)
    ensures TrafficOk(tasks, Deliver(tr, t, session))
  {
    ExceptKeepsActive(tasks, t, tr.queue);
    if For(t, tr.queue) != [] {
      NoneFor(t, tr.orphaned);
    }
    hide For, Except, ConservedFor;
    forall u: TaskId
      ensures ConservedFor(Deliver(tr, t, session), u)
    {
      assert ConservedFor(tr, u);
      DeliverConserves(tr, t, session, u);
    }
  }

  /** A task may take any value of the same session that keeps it active if it was, and ended if it
      was. */
  lemma StatusKeeps(tasks: map<TaskId, Task>, tr: Traffic, t: TaskId, task: Task)
    requires TrafficOk(tasks, tr)
    requires t in tasks ==> (tasks[t].status.Active() ==> task.status.Active())
    requires t in tasks ==> (tasks[t].status.Terminal() ==> task.status.Terminal())
    ensures TrafficOk(tasks[t := task], tr)
  {
  }

  lemma OrphanConserves(tr: Traffic, t: TaskId, u: TaskId)
    requires ConservedFor(tr, u)
    ensures ConservedFor(Orphan(tr, t, true), u)
  {
    DrainSplits(t, u, tr.queue);
    ForConcat(u, tr.orphaned, For(t, tr.queue));
    var d, o := For(u, tr.delivered), For(u, tr.orphaned);
    var f, e := For(u, For(t, tr.queue)), For(u, Except(t, tr.queue));
    hide For, Except;
    assert d + o + (f + e) == d + (o + f) + e;
  }

  lemma EndedTargets(tasks: map<TaskId, Task>, tr: Traffic, t: TaskId, task: Task)
    requires TargetsActive(tasks, tr.queue) && TargetsEnded(tasks, tr.orphaned) && TargetsKnown(tasks, tr.delivered)
    requires task.status.Terminal()
    ensures var tr', tasks' := Orphan(tr, t, true), tasks[t := task];
            && TargetsActive(tasks', tr'.queue)
            && TargetsEnded(tasks', tr'.orphaned) && TargetsKnown(tasks', tr'.delivered)
  {
    ExceptKeepsActive(tasks, t, tr.queue);
  }

  /** Ending a task and draining it loses nothing. */
  lemma OrphanKeeps(tasks: map<TaskId, Task>, tr: Traffic, t: TaskId, task: Task)
    requires TrafficOk(tasks, tr) && task.status.Terminal()
    ensures TrafficOk(tasks[t := task], Orphan(tr, t, true))
  {
    EndedTargets(tasks, tr, t, task);
    hide For, Except, ConservedFor, TargetsActive, TargetsEnded, TargetsKnown;
    forall u: TaskId
      ensures ConservedFor(Orphan(tr, t, true), u)
    {
      assert ConservedFor(tr, u);
      OrphanConserves(tr, t, u);
    }
  }

  // ---- Tasks, contexts and inner loops ----

  ghost predicate AllKnown(tasks: map<TaskId, Task>, ts: seq<TaskId>) {
    forall i :: 0 <= i < |ts| ==> ts[i] in tasks
  }

  /** An inner loop is never dispatched for a task that is still interrupted. */
  ghost predicate RunsTakenUp(tasks: map<TaskId, Task>, runs: seq<Run>) {
    forall i :: 0 <= i < |runs| ==> runs[i].task in tasks && tasks[runs[i].task].status != Interrupted
  }

  /** A task under way has its context in the map. */
  ghost predicate LiveHaveContext(tasks: map<TaskId, Task>, contexts: set<TaskId>) {
    forall t :: t in tasks && tasks[t].status.Live() ==> t in contexts
  }

  /** A task that a `resumeTask` call waits for was interrupted and has not gone back before that. */
  ghost predicate ResumesFit(tasks: map<TaskId, Task>, resumes: seq<TaskId>) {
    forall i :: 0 <= i < |resumes| && resumes[i] in tasks ==>
                  tasks[resumes[i]].status != Pending && tasks[resumes[i]].status != Planning
  }

  ghost predicate StructureOk(s: State) {
    && AllKnown(s.tasks, s.store)
    && AllKnown(s.tasks, s.resumes)
    && RunsTakenUp(s.tasks, s.runs)
    && LiveHaveContext(s.tasks, s.contexts)
    && ResumesFit(s.tasks, s.resumes)
  }

  ghost predicate Inv(s: State) {
    StructureOk(s) && TrafficOk(s.tasks, s.traffic)
  }

  /** A task takes a new value: what is asked of it. */
  ghost predicate Allowed(s: State, t: TaskId, task: Task, contexts: set<TaskId>) {
    && (task.status.Live() ==> t in contexts)
    && (t in s.tasks ==>
          && (s.tasks[t].status != Interrupted ==> task.status != Interrupted)
          && (task.status == Pending || task.status == Planning ==>
                s.tasks[t].status == Pending || s.tasks[t].status == Planning))
  }

  lemma ChangeKeeps(s: State, t: TaskId, task: Task, contexts: set<TaskId>)
    requires StructureOk(s) && Allowed(s, t, task, contexts)
    requires s.contexts - {t} <= contexts
    ensures StructureOk(s.(tasks := s.tasks[t := task], contexts := contexts))
  {
  }

  lemma NewRunKeeps(s: State, t: TaskId, pc: Pc)
    requires StructureOk(s) && t in s.tasks && s.tasks[t].status != Interrupted
    ensures StructureOk(s.(runs := s.runs + [Run(t, pc)]))
  {
  }

  lemma MovedKeeps(s: State, r: nat, pc: Pc)
    requires StructureOk(s) && r < |s.runs|
    ensures StructureOk(Moved(s, r, pc))
  {
  }

  lemma SubmitKeeps(s: State, session: string, content: string, newId: TaskId)
    requires Inv(s)
    ensures Inv(AfterSubmit(s, session, content, newId))
  {
    var active := FirstActive(s.tasks, s.store, Some(session));
    var task := Task(session, Pending, None, None);
    if active.Some? {
      EnqueueKeeps(s.tasks, s.traffic, active.value, content);
    } else if newId !in s.tasks {
      StatusKeeps(s.tasks, s.traffic, newId, task);
      hide TrafficOk;
      ChangeKeeps(s, newId, task, s.contexts + {newId});
      NewRunKeeps(s.(tasks := s.tasks[newId := task], contexts := s.contexts + {newId}), newId, Recalling);
    }
  }

  lemma RecallKeeps(s: State, r: nat)
    requires Inv(s) && At(s, r)
    ensures Inv(AfterRecall(s, r))
  {
    var t := s.runs[r].task;
    var task := s.tasks[t];
    TransitionFacts(task.status, Planning);
    assert task.status.Live() ==> t in s.contexts;
    hide TrafficOk, StructureOk;
    if task.status == Pending {
      MovedKeeps(s, r, PlanningCall);
      ChangeKeeps(Moved(s, r, PlanningCall), t, task.(status := Planning), s.contexts);
      StatusKeeps(s.tasks, s.traffic, t, task.(status := Planning));
    } else {
      var pc := if task.status == Executing then Building else Crashed(InvalidTransition(task.status, Planning));
      MovedKeeps(s, r, pc);
    }
  }

  lemma PlanningKeeps(s: State, r: nat)
    requires Inv(s) && At(s, r)
    ensures Inv(AfterPlanning(s, r))
  {
    var t := s.runs[r].task;
    var task := s.tasks[t];
    assert task.status.Live() ==> t in s.contexts;
    hide TrafficOk, StructureOk;
    if task.status == Planning {
      MovedKeeps(s, r, Building);
      ChangeKeeps(Moved(s, r, Building), t, task.(status := Executing), s.contexts);
      StatusKeeps(s.tasks, s.traffic, t, task.(status := Executing));
    } else {
      MovedKeeps(s, r, Ended);
    }
  }

  lemma {:induction false} NothingExcept(t: TaskId, ms: seq<Queued>)
    requires For(t, ms) == []
    ensures Except(t, ms) == ms
  {
    if ms != [] {
      var k := |ms| - 1;
      NothingExcept(t, ms[..k]);
      assert ms == ms[..k] + [ms[k]];
    }
  }

  /** The silent branch of `drainQueueOnTermination` has nothing to lose. */
  lemma NoBusNoMessages(s: State, t: TaskId)
    requires Inv(s) && (t in s.tasks ==> !s.tasks[t].status.Active())
    ensures For(t, s.traffic.queue) == []
    ensures Orphan(s.traffic, t, false) == Orphan(s.traffic, t, true) == s.traffic
  {
    ExceptKeepsActive(s.tasks, t, s.traffic.queue);
    NothingExcept(t, s.traffic.queue);
    var tr := s.traffic;
    assert tr.orphaned + [] == tr.orphaned && tr.dropped + [] == tr.dropped;
  }

  lemma ClosedKeeps(s: State, r: nat, task: Task, pc: Pc)
    requires Inv(s) && At(s, r) && task.status.Terminal()
    ensures Inv(Closed(s, r, task, pc))
  {
    var t := s.runs[r].task;
    assert s.tasks[t].status.Live() ==> t in s.contexts;
    hide StructureOk, TrafficOk;
    MovedKeeps(s, r, pc);
    ChangeKeeps(Moved(s, r, pc), t, task, s.contexts - {t});
    if t !in s.contexts {
      NoBusNoMessages(s, t);
    }
    OrphanKeeps(s.tasks, s.traffic, t, task);
    hide Orphan;
  }

  /** Whatever ends an inner loop leaves its task completed or failed. */
  lemma EndIsTerminal(s: State, r: nat, text: string)
    requires StructureOk(s) && At(s, r)
    ensures s.tasks[s.runs[r].task].TryFail(text).status.Terminal()
    ensures s.tasks[s.runs[r].task].Finish(text).status.Terminal()
  {
    TransitionFacts(s.tasks[s.runs[r].task].status, Failed);
    TransitionFacts(s.tasks[s.runs[r].task].status, Completed);
  }

  lemma CancelKeeps(s: State, t: TaskId, reason: string)
    requires Inv(s)
    ensures Inv(AfterCancel(s, t, reason))
  {
    if t in s.contexts && t in s.store && t in s.tasks {
      var task := s.tasks[t];
      var task' := task.TryFail("cancelled: " + reason);
      TransitionFacts(task.status, Failed);
      hide StructureOk, TrafficOk;
      if task.status.Live() {
        ChangeKeeps(s, t, task', s.contexts);
        OrphanKeeps(s.tasks, s.traffic, t, task');
      } else {
        NoBusNoMessages(s, t);
        assert s.tasks[t := task] == s.tasks;
      }
    }
  }

  /** A task moves between executing and paused. */
  lemma SwitchKeeps(s: State, t: TaskId, status: Status)
    requires Inv(s) && t in s.tasks && s.tasks[t].status.Active() && status.Active()
    ensures Inv(s.(tasks := s.tasks[t := s.tasks[t].(status := status)]))
  {
    var task := s.tasks[t].(status := status);
    assert t in s.contexts;
    hide StructureOk, TrafficOk;
    ChangeKeeps(s, t, task, s.contexts);
    StatusKeeps(s.tasks, s.traffic, t, task);
  }

  lemma PauseKeeps(s: State, t: TaskId)
    requires Inv(s) && t in s.tasks
    ensures Inv(SetTask(s, t, s.tasks[t].To(Paused)))
  {
    hide StructureOk, TrafficOk;
    if s.tasks[t].status == Executing {
      SwitchKeeps(s, t, Paused);
    }
  }

  lemma ResumesShrink(s: State, k: nat)
    requires StructureOk(s) && k < |s.resumes|
    ensures StructureOk(s.(resumes := s.resumes[..k] + s.resumes[k + 1..]))
  {
  }

  lemma RebuildKeeps(tasks: map<TaskId, Task>, tr: Traffic, session: string, turns: seq<string>)
    requires TrafficOk(tasks, tr)
    ensures TrafficOk(tasks, Rebuild(tr, session, turns))
  {
    assert forall t: TaskId :: ConservedFor(tr, t) ==> ConservedFor(Rebuild(tr, session, turns), t);
  }

  lemma AppendKeeps(tasks: map<TaskId, Task>, tr: Traffic, session: string, text: string)
    requires TrafficOk(tasks, tr)
    ensures TrafficOk(tasks, Append(tr, session, text))
  {
    assert forall t: TaskId :: ConservedFor(tr, t) ==> ConservedFor(Append(tr, session, text), t);
  }

  lemma ReplayKeeps(s: State, k: nat, turns: seq<string>)
    requires Inv(s) && k < |s.resumes| && s.resumes[k] in s.tasks
    ensures Inv(AfterReplay(s, k, turns))
  {
    var t := s.resumes[k];
    var task := s.tasks[t];
    var tr := Rebuild(s.traffic, task.session, turns);
    TransitionFacts(task.status, Executing);
    RebuildKeeps(s.tasks, s.traffic, task.session, turns);
    ResumesShrink(s, k);
    hide StructureOk, TrafficOk, Rebuild;
    if CanTransition(task.status, Executing) {
      var task' := task.(status := Executing);
      StatusKeeps(s.tasks, tr, t, task');
      var s1 := s.(resumes := s.resumes[..k] + s.resumes[k + 1..]);
      ChangeKeeps(s1, t, task', s.contexts + {t});
      NewRunKeeps(s1.(tasks := s.tasks[t := task'], contexts := s.contexts + {t}), t, Building);
    }
  }

  /** Eviction removes exactly the completed and failed tasks past the age limit. */
  lemma {:induction false} KeptExactly(tasks: map<TaskId, Task>, store: seq<TaskId>, aged: set<TaskId>, t: TaskId)
    ensures t in Kept(tasks, store, aged) <==>
            t in store && !(t in aged && t in tasks && tasks[t].status.Terminal())
  {
    if store != [] {
      KeptExactly(tasks, store[1..], aged, t);
      assert store == [store[0]] + store[1..];
    }
  }

  lemma EvictKeeps(s: State, aged: set<TaskId>)
    requires Inv(s)
    ensures Inv(s.(store := Kept(s.tasks, s.store, aged)))
  {
    var store := Kept(s.tasks, s.store, aged);
    assert forall i :: 0 <= i < |store| ==> store[i] in s.store;
    hide TrafficOk, Kept;
  }

  lemma OnlyTrafficKeeps(s: State, tr: Traffic)
    requires StructureOk(s)
    ensures StructureOk(s.(traffic := tr))
  {
  }

  lemma ResumeKeeps(s: State, t: TaskId)
    requires Inv(s)
    ensures Inv(Next(s, Resume(t)))
  {
    hide TrafficOk;
  }

  /** Every event keeps the invariant. */
  lemma NextKeeps(s: State, e: Event)
    requires Inv(s)
    ensures Inv(Next(s, e))
  {
    hide StructureOk, TrafficOk, AfterSubmit, AfterRecall, AfterPlanning, Closed, AfterCancel, AfterReplay, Kept;
    match e
    case Submit(session, content, newId) => SubmitKeeps(s, session, content, newId);
    case Recalled(r) => if At(s, r) { RecallKeeps(s, r); }
    case Planned(r) => if At(s, r) { PlanningKeeps(s, r); }
    case Built(r) => if At(s, r) { MovedKeeps(s, r, Running); }
    case Throws(r, why) => if At(s, r) { MovedKeeps(s, r, Crashed(why)); }
    case CrashHandled(r) =>
      if At(s, r) && s.runs[r].pc.Crashed? {
        EndIsTerminal(s, r, s.runs[r].pc.why);
        ClosedKeeps(s, r, s.tasks[s.runs[r].task].TryFail(s.runs[r].pc.why), Ended);
      }
    case IterationStart(r) =>
      if At(s, r) && s.runs[r].pc == Running {
        DeliverKeeps(s.tasks, s.traffic, s.runs[r].task, s.tasks[s.runs[r].task].session);
        OnlyTrafficKeeps(s, Next(s, e).traffic);
      }
    case Write(r, text) =>
      if At(s, r) && s.runs[r].pc == Running {
        AppendKeeps(s.tasks, s.traffic, s.tasks[s.runs[r].task].session, text);
        OnlyTrafficKeeps(s, Next(s, e).traffic);
      }
    case Finished(r, text) =>
      if At(s, r) {
        EndIsTerminal(s, r, text);
        ClosedKeeps(s, r, s.tasks[s.runs[r].task].Finish(text), Flushing);
      }
    case Errored(r, why) =>
      if At(s, r) {
        EndIsTerminal(s, r, why);
        ClosedKeeps(s, r, s.tasks[s.runs[r].task].TryFail(why), Flushing);
      }
    case Flushed(r) => if At(s, r) { MovedKeeps(s, r, Ended); }
    case Cancel(t, reason) => CancelKeeps(s, t, reason);
    case Pause(t) => if t in s.tasks { PauseKeeps(s, t); }
    case Clarify =>
      var active := FirstActive(s.tasks, s.store, None);
      if active.Some? { SwitchKeeps(s, active.value, Executing); }
    case Evict(aged) => EvictKeeps(s, aged);
    case Resume(t) => ResumeKeeps(s, t);
    case Replayed(k, turns) => if k < |s.resumes| && s.resumes[k] in s.tasks { ReplayKeeps(s, k, turns); }
    case ReplayFailed(k) => if k < |s.resumes| { ResumesShrink(s, k); }
  }

  /** After a restart no task is under way, and the invariant holds. */
  lemma {:induction false} LoadedIsGood(metas: seq<Meta>)
    ensures Inv(Loaded(metas))
    ensures forall t :: t in Loaded(metas).tasks ==> !Loaded(metas).tasks[t].status.Live()
    ensures Loaded(metas).runs == [] && Loaded(metas).contexts == {}
    ensures Loaded(metas).traffic == Loaded([]).traffic && Loaded(metas).resumes == []
  {
    if metas != [] {
      LoadedIsGood(metas[..|metas| - 1]);
    }
  }

  lemma {:induction false} EveryRunIsGood(s: State, es: seq<Event>)
    requires Inv(s)
    ensures Inv(After(s, es))
  {
    if es != [] {
      EveryRunIsGood(s, es[..|es| - 1]);
      NextKeeps(After(s, es[..|es| - 1]), es[|es| - 1]);
    }
  }

  /** Message conservation: after any events from any restart, every message accepted for a task is in
      exactly one place (its transcript, an orphan announcement, the queue), in the order accepted, and
      none has vanished; a queued message belongs to an executing or paused task that has its context. */
  lemma MessagesAreConserved(metas: seq<Meta>, es: seq<Event>, t: TaskId)
    ensures var s := After(Loaded(metas), es);
            && For(t, s.traffic.accepted)
               == For(t, s.traffic.delivered) + For(t, s.traffic.orphaned) + For(t, s.traffic.queue)
            && s.traffic.dropped == []
            && (forall i, j :: 0 <= i < j < |s.traffic.accepted| ==> s.traffic.accepted[i] != s.traffic.accepted[j])
            && (For(t, s.traffic.queue) != [] ==> t in s.tasks && s.tasks[t].status.Active() && t in s.contexts)
  {
    LoadedIsGood(metas);
    EveryRunIsGood(Loaded(metas), es);
    var s := After(Loaded(metas), es);
    assert ConservedFor(s.traffic, t);
    ExceptKeepsActive(s.tasks, t, s.traffic.queue);
  }

  // ---- Task lifecycle ----

  /** Once a task has completed or failed, no event changes its status, its result or its error. */
  lemma {:induction false} EndedIsForever(s: State, es: seq<Event>, t: TaskId)
    requires t in s.tasks && s.tasks[t].status.Terminal()
    ensures t in After(s, es).tasks && After(s, es).tasks[t] == s.tasks[t]
  {
    if es != [] {
      EndedIsForever(s, es[..|es| - 1], t);
      EndedStays(After(s, es[..|es| - 1]), es[|es| - 1], t);
    }
  }

  lemma EndedStays(s: State, e: Event, t: TaskId)
    requires t in s.tasks && s.tasks[t].status.Terminal()
    ensures t in Next(s, e).tasks && Next(s, e).tasks[t] == s.tasks[t]
  {
    TransitionFacts(s.tasks[t].status, Failed);
    hide Orphan, Deliver, Rebuild, Enqueue, Kept, Append, InvalidTransition, CanTransition;
  }

  /** The events that end a task, and what each leaves. Of a cancellation and a completion the first to
      happen ends the task, and by `EndedIsForever` the other changes nothing. */
  lemma HowTasksEnd(s: State, e: Event, t: TaskId)
    requires Inv(s) && t in s.tasks && !s.tasks[t].status.Terminal()
    requires Next(s, e).tasks[t].status.Terminal()
    ensures var task, task' := s.tasks[t], Next(s, e).tasks[t];
            match e
            case Cancel(u, reason) =>
              u == t && task' == task.(status := Failed, error := Some("cancelled: " + reason))
            case Finished(r, text) =>
              && r < |s.runs| && s.runs[r] == Run(t, Running)
              && task' == (if task.status == Executing then task.(status := Completed, result := Some(text))
                           else task.(status := Failed, error := Some(InvalidTransition(task.status, Completed))))
            case Errored(r, why) =>
              r < |s.runs| && s.runs[r] == Run(t, Running) && task' == task.(status := Failed, error := Some(why))
            case CrashHandled(r) =>
              && r < |s.runs| && s.runs[r].task == t && s.runs[r].pc.Crashed?
              && task' == task.(status := Failed, error := Some(s.runs[r].pc.why))
            case _ => false
  {
    TransitionFacts(s.tasks[t].status, Failed);
    TransitionFacts(s.tasks[t].status, Completed);
    hide TrafficOk, Orphan, Deliver, Rebuild, Enqueue, Kept, Append, InvalidTransition, CanTransition;
  }

  // ---- Resuming ----

  /** At most one inner loop was ever dispatched for a task. */
  ghost predicate OneRunEach(runs: seq<Run>) {
    forall i, j :: 0 <= i < j < |runs| ==> runs[i].task != runs[j].task
  }

  ghost predicate HasRun(runs: seq<Run>, t: TaskId) {
    exists i :: 0 <= i < |runs| && runs[i].task == t
  }

  /** A `resumeTask` call that has read its transcript dispatches a second inner loop for its task
      exactly when the task has been paused meanwhile. */
  lemma SecondDispatchIff(s: State, k: nat, turns: seq<string>)
    requires Inv(s) && k < |s.resumes| && HasRun(s.runs, s.resumes[k])
    ensures AfterReplay(s, k, turns).runs == s.runs + [Run(s.resumes[k], Building)]
            <==> s.tasks[s.resumes[k]].status == Paused
    ensures AfterReplay(s, k, turns).runs == s.runs <==> s.tasks[s.resumes[k]].status != Paused
  {
    var t := s.resumes[k];
    var i :| 0 <= i < |s.runs| && s.runs[i].task == t;
    assert s.tasks[t].status != Interrupted;
    TransitionFacts(s.tasks[t].status, Executing);
    hide TrafficOk, Rebuild;
  }

  /** No task is paused while a `resumeTask` call waits for it. */
  ghost predicate ResumesNotPaused(s: State) {
    forall i :: 0 <= i < |s.resumes| && s.resumes[i] in s.tasks ==> s.tasks[s.resumes[i]].status != Paused
  }

  ghost predicate NoPauseWhileResuming(s: State, es: seq<Event>) {
    forall k :: 0 <= k < |es| && es[k].Pause? ==> es[k].task !in After(s, es[..k]).resumes
  }

  /** A `resumeTask` call goes through on a paused task that has an inner loop already. */
  ghost predicate SecondDispatch(s: State, e: Event) {
    && e.Replayed? && e.k < |s.resumes| && s.resumes[e.k] in s.tasks
    && HasRun(s.runs, s.resumes[e.k]) && s.tasks[s.resumes[e.k]].status == Paused
  }

  lemma OneRunStays(s: State, e: Event)
    requires Inv(s) && OneRunEach(s.runs) && !SecondDispatch(s, e)
    ensures OneRunEach(Next(s, e).runs)
  {
    hide TrafficOk, Orphan, Deliver, Rebuild, Enqueue, Kept, Append, InvalidTransition, CanTransition;
    if e.Replayed? && e.k < |s.resumes| && HasRun(s.runs, s.resumes[e.k]) {
      SecondDispatchIff(s, e.k, e.turns);
    }
  }

  lemma RunsGrow(s: State, e: Event)
    ensures |s.runs| <= |Next(s, e).runs|
    ensures forall i :: 0 <= i < |s.runs| ==> Next(s, e).runs[i].task == s.runs[i].task
  {
    hide Orphan, Deliver, Rebuild, Enqueue, Kept, Append, InvalidTransition, CanTransition;
  }

  lemma OneRunIff(s: State, e: Event)
    requires Inv(s)
    ensures OneRunEach(Next(s, e).runs) <==> OneRunEach(s.runs) && !SecondDispatch(s, e)
  {
    if !OneRunEach(s.runs) {
      RunsGrow(s, e);
      hide Next, Inv;
      var i, j :| 0 <= i < j < |s.runs| && s.runs[i].task == s.runs[j].task;
      assert Next(s, e).runs[i].task == Next(s, e).runs[j].task;
    } else if SecondDispatch(s, e) {
      SecondDispatchIff(s, e.k, e.turns);
      hide AfterReplay, Inv;
      var i :| 0 <= i < |s.runs| && s.runs[i].task == s.resumes[e.k];
      assert Next(s, e).runs[i].task == Next(s, e).runs[|s.runs|].task;
    } else {
      OneRunStays(s, e);
    }
  }

  /** The `k`th event of a run is such a call. */
  ghost predicate SecondDispatchAt(s0: State, es: seq<Event>, k: nat) {
    k < |es| && SecondDispatch(After(s0, es[..k]), es[k])
  }

  lemma SecondDispatchEarlier(s0: State, es: seq<Event>, n: nat, k: nat)
    requires n <= |es|
    ensures SecondDispatchAt(s0, es[..n], k) <==> k < n && SecondDispatchAt(s0, es, k)
  {
    if k < n { assert es[..n][..k] == es[..k]; }
  }

  /** The exact condition over runs: some task got two inner loops if and only if a `resumeTask` call
      once went through on a paused task that had one. */
  lemma {:induction false} DispatchedTwiceIff(metas: seq<Meta>, es: seq<Event>)
    ensures !OneRunEach(After(Loaded(metas), es).runs) <==>
            exists k: nat :: SecondDispatchAt(Loaded(metas), es, k)
  {
    LoadedIsGood(metas);
    var s0 := Loaded(metas);
    hide Inv, SecondDispatch, Next, Loaded;
    if es != [] {
      var n := |es| - 1;
      DispatchedTwiceIff(metas, es[..n]);
      EveryRunIsGood(s0, es[..n]);
      OneRunIff(After(s0, es[..n]), es[n]);
      forall k: nat ensures SecondDispatchAt(s0, es[..n], k) <==> k < n && SecondDispatchAt(s0, es, k) {
        SecondDispatchEarlier(s0, es, n, k);
      }
      assert SecondDispatchAt(s0, es, n) <==> SecondDispatch(After(s0, es[..n]), es[n]);
      hide SecondDispatchAt, OneRunEach;
    }
  }

  /** Only `Pause` pauses a task. */
  lemma OnlyPausePauses(s: State, e: Event, t: TaskId)
    requires t in s.tasks && s.tasks[t].status != Paused && t in Next(s, e).tasks
    ensures Next(s, e).tasks[t].status == Paused ==> e == Pause(t)
  {
    hide Orphan, Deliver, Rebuild, Enqueue, Kept, Append, InvalidTransition, CanTransition;
  }

  lemma ResumesAre(s: State, e: Event, t: TaskId)
    requires t in Next(s, e).resumes
    ensures t in s.resumes || (e == Resume(t) && t in s.tasks && s.tasks[t].status == Interrupted)
  {
    hide Orphan, Deliver, Rebuild, Enqueue, Kept, Append, InvalidTransition, CanTransition;
  }

  lemma NotPausedStays(s: State, e: Event)
    requires Inv(s) && ResumesNotPaused(s)
    requires e.Pause? ==> e.task !in s.resumes
    ensures ResumesNotPaused(Next(s, e))
  {
    var s' := Next(s, e);
    forall i | 0 <= i < |s'.resumes| && s'.resumes[i] in s'.tasks
      ensures s'.tasks[s'.resumes[i]].status != Paused
    {
      var t := s'.resumes[i];
      ResumesAre(s, e, t);
      assert t in s.tasks;
      OnlyPausePauses(s, e, t);
      hide Next;
    }
  }

  /** Overlapping `resumeTask` calls dispatch at most one inner loop for a task, as long as the task is
      not paused while one of them waits for its transcript. */
  lemma {:induction false} AtMostOneDispatch(metas: seq<Meta>, es: seq<Event>)
    requires NoPauseWhileResuming(Loaded(metas), es)
    ensures OneRunEach(After(Loaded(metas), es).runs) && ResumesNotPaused(After(Loaded(metas), es))
  {
    LoadedIsGood(metas);
    if es != [] {
      var k := |es| - 1;
      assert NoPauseWhileResuming(Loaded(metas), es[..k]) by {
        assert forall i :: 0 <= i < k ==> es[..k][..i] == es[..i];
      }
      AtMostOneDispatch(metas, es[..k]);
      EveryRunIsGood(Loaded(metas), es[..k]);
      var s := After(Loaded(metas), es[..k]);
      assert !SecondDispatch(s, es[k]);
      OneRunStays(s, es[k]);
      NotPausedStays(After(Loaded(metas), es[..k]), es[k]);
    }
  }

  lemma AfterMore(s: State, es: seq<Event>, e: Event)
    ensures After(s, es + [e]) == Next(After(s, es), e)
  {
    assert (es + [e])[..|es|] == es;
    hide Next;
  }

  lemma ResumeStep(s: State, t: TaskId)
    requires t in s.store && t in s.tasks && s.tasks[t].status == Interrupted
    ensures Next(s, Resume(t)) == s.(resumes := s.resumes + [t])
  {
  }

  /** The first waiting `resumeTask` call goes through. */
  lemma ReplayStep(s: State, turns: seq<string>)
    requires s.resumes != [] && s.resumes[0] in s.tasks
    requires s.tasks[s.resumes[0]].status in {Interrupted, Paused}
    ensures var t, s' := s.resumes[0], Next(s, Replayed(0, turns));
            && s'.tasks == s.tasks[t := s.tasks[t].(status := Executing)] && s'.store == s.store
            && s'.resumes == s.resumes[1..] && s'.runs == s.runs + [Run(t, Building)]
            && s'.traffic == Rebuild(s.traffic, s.tasks[t].session, turns)
  {
    TransitionFacts(s.tasks[s.resumes[0]].status, Executing);
    assert s.resumes[..0] + s.resumes[1..] == s.resumes[1..];
    hide Rebuild;
  }

  lemma PauseStep(s: State, t: TaskId)
    requires t in s.store && t in s.tasks && s.tasks[t].status == Executing
    ensures Next(s, Pause(t)) == s.(tasks := s.tasks[t := s.tasks[t].(status := Paused)])
  {
  }

  /** From any state with an interrupted task: two overlapping `resumeTask` calls, and a pause between
      the moments they go through, start two inner loops for it. */
  lemma PausedResumeRunsTwice(s: State, t: TaskId, es: seq<Event>)
    requires s.resumes == [] && t in s.store && t in s.tasks && s.tasks[t].status == Interrupted
    requires es == [] + [Resume(t)] + [Resume(t)] + [Replayed(0, [])] + [Pause(t)] + [Replayed(0, [])]
    ensures !OneRunEach(After(s, es).runs)
  {
    hide Next, Rebuild;
    var s1 := Next(s, Resume(t));
    ResumeStep(s, t);
    var s2 := Next(s1, Resume(t));
    ResumeStep(s1, t);
    var s3 := Next(s2, Replayed(0, []));
    ReplayStep(s2, []);
    var s4 := Next(s3, Pause(t));
    PauseStep(s3, t);
    var s5 := Next(s4, Replayed(0, []));
    ReplayStep(s4, []);
    assert s5.runs[|s.runs|].task == s5.runs[|s.runs| + 1].task == t;
    var e1, e2 := [] + [Resume(t)], [] + [Resume(t)] + [Resume(t)];
    var e3 := [] + [Resume(t)] + [Resume(t)] + [Replayed(0, [])];
    AfterMore(s, [], Resume(t));
    AfterMore(s, e1, Resume(t));
    AfterMore(s, e2, Replayed(0, []));
    AfterMore(s, e3, Pause(t));
    AfterMore(s, e3 + [Pause(t)], Replayed(0, []));
  }
}
