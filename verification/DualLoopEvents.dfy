/** The events of the dual-loop protocol one by one: what each does to tasks, inner loops, contexts and
    messages, told by statuses and places alone. */
module DualLoopEvents {
  import opened Wrappers
  import opened TaskLifecycle
  import opened MessageQueues
  import opened DualLoop
  import opened DualLoopSafety

  // ---- Which task is active ----

  ghost predicate ActiveIn(s: State, t: TaskId, session: Option<string>) {
    && t in s.tasks && (s.tasks[t].status == Executing || s.tasks[t].status == Paused)
    && (session == None || session == Some(s.tasks[t].session))
  }

  /** `t` is the oldest stored task that is active, in the session if one is given. */
  ghost predicate IsFirstActive(s: State, t: TaskId, session: Option<string>) {
    exists i :: 0 <= i < |s.store| && s.store[i] == t && ActiveIn(s, t, session)
                && forall j :: 0 <= j < i ==> !ActiveIn(s, s.store[j], session)
  }

  lemma {:induction false} FirstIndex(s: State, store: seq<TaskId>, session: Option<string>) returns (i: nat)
    requires FirstActive(s.tasks, store, session).Some?
    ensures i < |store| && FirstActive(s.tasks, store, session) == Some(store[i])
    ensures ActiveIn(s, store[i], session) && forall j :: 0 <= j < i ==> !ActiveIn(s, store[j], session)
  {
    i := 0;
    if !ActiveIn(s, store[0], session) {
      var k := FirstIndex(s, store[1..], session);
      i := k + 1;
      assert forall j :: 1 <= j < i ==> store[j] == store[1..][j - 1];
    }
  }

  lemma ActiveIff(s: State, session: Option<string>)
    ensures forall t :: FirstActive(s.tasks, s.store, session) == Some(t) <==> IsFirstActive(s, t, session)
    ensures FirstActive(s.tasks, s.store, session) == None <==>
            forall i :: 0 <= i < |s.store| ==> !ActiveIn(s, s.store[i], session)
  {
    hide FirstActive;
    var first := FirstActive(s.tasks, s.store, session);
    if first.Some? {
      var i := FirstIndex(s, s.store, session);
      hide ActiveIn;
      forall t | IsFirstActive(s, t, session)
        ensures first == Some(t)
      {
        var k :| 0 <= k < |s.store| && s.store[k] == t && ActiveIn(s, t, session)
                 && forall j :: 0 <= j < k ==> !ActiveIn(s, s.store[j], session);
        assert k == i;
      }
    }
  }

  // ---- Tasks ----

  /** Inner loop `r` is of task `t` and stands at `pc`. */
  ghost predicate Stands(s: State, r: nat, t: TaskId, pc: Pc) {
    r < |s.runs| && s.runs[r] == Run(t, pc)
  }

  /** The task fails, unless it has ended or is interrupted. */
  ghost function FailedWith(task: Task, why: string): Task {
    if task.status in {Pending, Planning, Executing, Paused} then task.(status := Failed, error := Some(why)) else task
  }

  /** What becomes of task `t`. */
  ghost function TaskThen(s: State, e: Event, t: TaskId): Task
    requires t in s.tasks
  {
    var task := s.tasks[t];
    match e
    case Recalled(r) =>
      if Stands(s, r, t, Recalling) && task.status == Pending then task.(status := Planning) else task
    case Planned(r) =>
      if Stands(s, r, t, PlanningCall) && task.status == Planning then task.(status := Executing) else task
    case Finished(r, text) =>
      if !Stands(s, r, t, Running) then task
      else if task.status == Executing then task.(status := Completed, result := Some(text))
      else FailedWith(task, InvalidTransition(task.status, Completed))
    case Errored(r, why) => if Stands(s, r, t, Running) then FailedWith(task, why) else task
    case CrashHandled(r) =>
      if r < |s.runs| && s.runs[r].task == t && s.runs[r].pc.Crashed? then FailedWith(task, s.runs[r].pc.why) else task
    case Cancel(u, reason) =>
      if u == t && t in s.contexts && t in s.store then FailedWith(task, "cancelled: " + reason) else task
    case Pause(u) => if u == t && t in s.store && task.status == Executing then task.(status := Paused) else task
    case Clarify =>
      if IsFirstActive(s, t, None) && task.status == Paused then task.(status := Executing) else task
    case Replayed(k, _) =>
      if k < |s.resumes| && s.resumes[k] == t && task.status in {Pending, Planning, Paused, Interrupted}
      then task.(status := Executing) else task
    case _ => task
  }

  /** What the attempts to move a task come to. */
  lemma TaskTransitions(task: Task)
    ensures forall why :: task.TryFail(why) == FailedWith(task, why)
    ensures forall text :: task.Finish(text) ==
              if task.status == Executing then task.(status := Completed, result := Some(text))
              else FailedWith(task, InvalidTransition(task.status, Completed))
    ensures task.To(Planning) == if task.status == Pending then Some(task.(status := Planning)) else None
    ensures task.To(Paused) == if task.status == Executing then Some(task.(status := Paused)) else None
    ensures task.To(Executing) ==
              if task.status in {Pending, Planning, Paused, Interrupted} then Some(task.(status := Executing)) else None
  {
    TransitionFacts(task.status, Failed);
    TransitionFacts(task.status, Completed);
    EntryFacts(task.status);
    hide CanTransition, InvalidTransition;
  }

  ghost predicate ActsOn(s: State, e: Event, t: TaskId) {
    t in s.tasks ==> t in Next(s, e).tasks && Next(s, e).tasks[t] == TaskThen(s, e, t)
  }

  lemma StartActs(s: State, e: Event, t: TaskId)
    requires e.Recalled? || e.Planned?
    ensures ActsOn(s, e, t)
  {
    if t in s.tasks { TaskTransitions(s.tasks[t]); }
    hide CanTransition, InvalidTransition, FailedWith;
  }

  lemma EndActs(s: State, e: Event, t: TaskId)
    requires e.Finished? || e.Errored? || e.CrashHandled?
    ensures ActsOn(s, e, t)
  {
    if t in s.tasks { TaskTransitions(s.tasks[t]); }
    hide CanTransition, InvalidTransition, FailedWith, Orphan;
  }

  lemma CancelActs(s: State, e: Event, t: TaskId)
    requires e.Cancel?
    ensures ActsOn(s, e, t)
  {
    if t in s.tasks { TaskTransitions(s.tasks[t]); }
    hide CanTransition, FailedWith, Orphan;
  }

  lemma PauseActs(s: State, e: Event, t: TaskId)
    requires e.Pause?
    ensures ActsOn(s, e, t)
  {
    if t in s.tasks { TaskTransitions(s.tasks[t]); }
    hide CanTransition;
  }

  lemma ClarifyActs(s: State, e: Event, t: TaskId)
    requires e.Clarify?
    ensures ActsOn(s, e, t)
  {
    ActiveIff(s, None);
    if t in s.tasks { TaskTransitions(s.tasks[t]); }
    hide CanTransition, IsFirstActive, FirstActive;
  }

  lemma ReplayActs(s: State, e: Event, t: TaskId)
    requires e.Replayed?
    ensures ActsOn(s, e, t)
  {
    if t in s.tasks { TaskTransitions(s.tasks[t]); }
    hide CanTransition, Rebuild;
  }

  lemma QuietActs(s: State, e: Event, t: TaskId)
    requires !(e.Recalled? || e.Planned? || e.Finished? || e.Errored? || e.CrashHandled?)
    requires !(e.Cancel? || e.Pause? || e.Clarify? || e.Replayed?)
    ensures ActsOn(s, e, t)
  {
    hide Deliver, Enqueue, Kept, Append, FirstActive;
  }

  /** Every event does to every task what the protocol says. */
  lemma TasksAfter(s: State, e: Event, t: TaskId)
    requires t in s.tasks
    ensures t in Next(s, e).tasks && Next(s, e).tasks[t] == TaskThen(s, e, t)
  {
    hide Next, TaskThen;
    if e.Recalled? || e.Planned? { StartActs(s, e, t); }
    else if e.Finished? || e.Errored? || e.CrashHandled? { EndActs(s, e, t); }
    else if e.Cancel? { CancelActs(s, e, t); }
    else if e.Pause? { PauseActs(s, e, t); }
    else if e.Clarify? { ClarifyActs(s, e, t); }
    else if e.Replayed? { ReplayActs(s, e, t); }
    else { QuietActs(s, e, t); }
  }

  /** Only a submission to a session without an active task makes a new task. */
  lemma NewTasks(s: State, e: Event, t: TaskId)
    requires t !in s.tasks
    ensures t in Next(s, e).tasks <==>
            && e.Submit? && e.newId == t
            && forall i :: 0 <= i < |s.store| ==> !ActiveIn(s, s.store[i], Some(e.session))
    ensures t in Next(s, e).tasks ==>
              && Next(s, e).tasks[t] == Task(e.session, Pending, None, None)
              && t in Next(s, e).contexts && Next(s, e).runs == s.runs + [Run(t, Recalling)]
              && Next(s, e).store == s.store + [t]
  {
    if e.Submit? { ActiveIff(s, Some(e.session)); }
    hide Orphan, Deliver, Rebuild, Enqueue, Kept, Append, FirstActive, ActiveIn, CanTransition, InvalidTransition;
  }

  // ---- Inner loops ----

  /** Where inner loop `r` stands after an event. */
  ghost function PcThen(s: State, e: Event, r: nat): Pc
    requires r < |s.runs| && s.runs[r].task in s.tasks
  {
    var pc, status := s.runs[r].pc, s.tasks[s.runs[r].task].status;
    match e
    case Recalled(q) =>
      if q != r || pc != Recalling then pc
      else if status == Executing then Building
      else if status == Pending then PlanningCall
      else Crashed(InvalidTransition(status, Planning))
    case Planned(q) =>
      if q != r || pc != PlanningCall then pc else if status == Planning then Building else Pc.Ended
    case Built(q) => if q != r || pc != Building then pc else Running
    case Throws(q, why) =>
      if q != r || pc == Running || pc == Pc.Ended || pc.Crashed? then pc else Crashed(why)
    case CrashHandled(q) => if q != r || !pc.Crashed? then pc else Pc.Ended
    case Finished(q, _) => if q != r || pc != Running then pc else Flushing
    case Errored(q, _) => if q != r || pc != Running then pc else Flushing
    case Flushed(q) => if q != r || pc != Flushing then pc else Pc.Ended
    case _ => pc
  }

  /** Every event moves every inner loop as the protocol says. */
  lemma RunsAfter(s: State, e: Event, r: nat)
    requires r < |s.runs| && s.runs[r].task in s.tasks
    ensures r < |Next(s, e).runs| && Next(s, e).runs[r] == Run(s.runs[r].task, PcThen(s, e, r))
  {
    var task := s.tasks[s.runs[r].task];
    TaskTransitions(task);
    hide Orphan, Deliver, Rebuild, Enqueue, Kept, Append, FirstActive, CanTransition, InvalidTransition, FailedWith;
  }

  // ---- Messages ----

  /** A submission to a session with an active task is queued for that task. */
  lemma SubmitQueues(s: State, session: string, content: string, newId: TaskId, t: TaskId)
    requires IsFirstActive(s, t, Some(session))
    ensures var m, s' := Queued(|s.traffic.accepted|, t, content), Next(s, Submit(session, content, newId));
            && s'.traffic.queue == s.traffic.queue + [m] && s'.traffic.accepted == s.traffic.accepted + [m]
            && s'.tasks == s.tasks && s'.runs == s.runs
  {
    ActiveIff(s, Some(session));
    hide FirstActive, IsFirstActive;
  }

  /** The start of an iteration leaves nothing for its task in the queue: all of it is delivered, and
      stands at the end of the session's transcript. */
  lemma IterationDelivers(s: State, r: nat)
    requires r < |s.runs| && s.runs[r].task in s.tasks && s.runs[r].pc == Running
    ensures var t, s' := s.runs[r].task, Next(s, IterationStart(r));
            && For(t, s'.traffic.queue) == []
            && s'.traffic.delivered == s.traffic.delivered + For(t, s.traffic.queue)
            && Transcript(s'.traffic, s.tasks[t].session)
               == Transcript(s.traffic, s.tasks[t].session) + Entries(For(t, s.traffic.queue))
  {
    var t := s.runs[r].task;
    NoneFor(t, Except(t, s.traffic.queue));
    hide For, Except;
  }

  /** What an inner agent writes stands at the end of the session's transcript. */
  lemma WriteAppends(s: State, r: nat, text: string)
    requires r < |s.runs| && s.runs[r].task in s.tasks && s.runs[r].pc == Running
    ensures var session, s' := s.tasks[s.runs[r].task].session, Next(s, Write(r, text));
            && Transcript(s'.traffic, session) == Transcript(s.traffic, session) + [Other(text)]
            && s'.traffic.queue == s.traffic.queue && s'.traffic.delivered == s.traffic.delivered
  {
  }

  /** The end of an inner loop, and a cancellation, leave nothing for the task in the queue: all of it is
      announced as orphaned; the end also releases the context. */
  lemma EndOrphans(s: State, e: Event, t: TaskId)
    requires t in s.contexts && t in s.tasks
    requires || (e.Cancel? && e.task == t && t in s.store)
             || ((e.Finished? || e.Errored?) && Stands(s, e.r, t, Running))
             || (e.CrashHandled? && e.r < |s.runs| && s.runs[e.r].task == t && s.runs[e.r].pc.Crashed?)
    ensures var s' := Next(s, e);
            && For(t, s'.traffic.queue) == []
            && s'.traffic.orphaned == s.traffic.orphaned + For(t, s.traffic.queue)
            && (t in s'.contexts <==> e.Cancel?)
  {
    NoneFor(t, Except(t, s.traffic.queue));
    hide For, Except, CanTransition, InvalidTransition;
  }

  // ---- Resuming ----

  /** A `resumeTask` call is let in for a stored interrupted task; when its transcript has come it is
      done, and takes the task up if that is still possible. */
  lemma ResumesAfter(s: State, e: Event)
    ensures e.Resume? ==>
              Next(s, e) == if e.task in s.store && e.task in s.tasks && s.tasks[e.task].status == Interrupted
                            then s.(resumes := s.resumes + [e.task]) else s
    ensures e.Replayed? && e.k < |s.resumes| && s.resumes[e.k] in s.tasks ==>
              var t, s' := s.resumes[e.k], Next(s, e);
              var up := s.tasks[t].status in {Pending, Planning, Paused, Interrupted};
              && s'.resumes == s.resumes[..e.k] + s.resumes[e.k + 1..]
              && s'.runs == (if up then s.runs + [Run(t, Building)] else s.runs)
              && s'.contexts == (if up then s.contexts + {t} else s.contexts)
              && Transcript(s'.traffic, s.tasks[t].session) == Others(e.turns)
    ensures e.ReplayFailed? && e.k < |s.resumes| ==>
              Next(s, e) == s.(resumes := s.resumes[..e.k] + s.resumes[e.k + 1..])
  {
    if e.Replayed? && e.k < |s.resumes| && s.resumes[e.k] in s.tasks {
      TaskTransitions(s.tasks[s.resumes[e.k]]);
    }
    hide CanTransition, FailedWith;
  }
}
