/** The dual-loop task protocol of src/loop/dual.ts as a state machine. Code between two `await`s is
    one atomic event; the events of all tasks, callers and timers interleave freely. */
module DualLoop {
  import opened Wrappers
  import opened TaskLifecycle
  import opened MessageQueues

  /** Where an inner loop stands between two events. `Crashed` is a loop whose promise was rejected and
      whose `catch` handler has still to run. */
  datatype Pc = Recalling | PlanningCall | Building | Running | Flushing | Crashed(why: string) | Ended

  datatype Run = Run(task: TaskId, pc: Pc)

  /** A message of a session: one taken from the queue, or any other. */
  datatype Entry = FromQueue(message: Queued) | Other(text: string)

  /** The queue, and what has become of every message put into it so far. `sessions` are the
      transcripts; `replayed[s]` is how many messages had been delivered when a resumed task last
      rebuilt session `s`. */
  datatype Traffic = Traffic(
    queue: seq<Queued>,
    accepted: seq<Queued>,
    delivered: seq<Queued>,
    orphaned: seq<Queued>,
    dropped: seq<Queued>,
    sessions: map<string, seq<Entry>>,
    replayed: map<string, nat>)

  /** `tasks` holds every task object ever created, `store` the keys of the task store in insertion
      order, `resumes` the `resumeTask` calls that wait for their transcript. */
  datatype State = State(
    tasks: map<TaskId, Task>,
    store: seq<TaskId>,
    contexts: set<TaskId>,
    runs: seq<Run>,
    resumes: seq<TaskId>,
    traffic: Traffic)

  datatype Event =
    | Submit(session: string, content: string, newId: TaskId)
    | Recalled(r: nat)
    | Planned(r: nat)
    | Built(r: nat)
    | Throws(r: nat, why: string)
    | CrashHandled(r: nat)
    | IterationStart(r: nat)
    | Write(r: nat, text: string)
    | Finished(r: nat, text: string)
    | Errored(r: nat, why: string)
    | Flushed(r: nat)
    | Cancel(task: TaskId, reason: string)
    | Pause(task: TaskId)
    | Clarify
    | Evict(aged: set<TaskId>)
    | Resume(task: TaskId)
    | Replayed(k: nat, turns: seq<string>)
    | ReplayFailed(k: nat)

  // ---- Traffic ----

  function Transcript(tr: Traffic, session: string): seq<Entry> {
    if session in tr.sessions then tr.sessions[session] else []
  }

  /** Message identifiers are random and so distinct; here the count of messages so far serves. */
  function Enqueue(tr: Traffic, t: TaskId, content: string): Traffic {
    var m := Queued(|tr.accepted|, t, content);
    tr.(queue := tr.queue + [m], accepted := tr.accepted + [m])
  }

  function Entries(ms: seq<Queued>): (es: seq<Entry>)
    ensures |es| == |ms| && forall i :: 0 <= i < |ms| ==> es[i] == FromQueue(ms[i])
  {
    seq(|ms|, i requires 0 <= i < |ms| => FromQueue(ms[i]))
  }

  function Others(texts: seq<string>): (es: seq<Entry>)
    ensures |es| == |texts| && forall i :: 0 <= i < |texts| ==> es[i] == Other(texts[i])
  {
    seq(|texts|, i requires 0 <= i < |texts| => Other(texts[i]))
  }

  /** The start of an iteration moves the messages for `t` into the transcript of its session. */
  function Deliver(tr: Traffic, t: TaskId, session: string): Traffic {
    var drained := For(t, tr.queue);
    tr.(queue := Except(t, tr.queue), delivered := tr.delivered + drained,
        sessions := tr.sessions[session := Transcript(tr, session) + Entries(drained)])
  }

  /** `drainQueueOnTermination`: the messages for `t` are announced as orphaned on the bus of the task's
      context; without a context they would vanish. */
  function Orphan(tr: Traffic, t: TaskId, hasBus: bool): Traffic {
    var drained := For(t, tr.queue);
    var rest := tr.(queue := Except(t, tr.queue));
    if hasBus then rest.(orphaned := tr.orphaned + drained) else rest.(dropped := tr.dropped + drained)
  }

  function Append(tr: Traffic, session: string, text: string): Traffic {
    tr.(sessions := tr.sessions[session := Transcript(tr, session) + [Other(text)]])
  }

  function Rebuild(tr: Traffic, session: string, turns: seq<string>): Traffic {
    tr.(sessions := tr.sessions[session := Others(turns)],
        replayed := tr.replayed[session := |tr.delivered|])
  }

  // ---- The task store ----

  /** The first stored task that is executing or paused and satisfies the filter. */
  function FirstActive(tasks: map<TaskId, Task>, store: seq<TaskId>, session: Option<string>): (t: Option<TaskId>)
    ensures t.Some? ==>
              && t.value in store && t.value in tasks && tasks[t.value].status.Active()
              && (session.Some? ==> tasks[t.value].session == session.value)
    ensures t.None? ==> forall i :: 0 <= i < |store| && store[i] in tasks && tasks[store[i]].status.Active() ==>
                                      session.Some? && tasks[store[i]].session != session.value
  {
    if store == [] then None
    else if store[0] in tasks && tasks[store[0]].status.Active()
            && (session.Some? ==> tasks[store[0]].session == session.value) then Some(store[0])
    else FirstActive(tasks, store[1..], session)
  }

  /** `evictCompleted`, where `aged` are the tasks past the age limit. */
  function Kept(tasks: map<TaskId, Task>, store: seq<TaskId>, aged: set<TaskId>): (r: seq<TaskId>)
    ensures forall i :: 0 <= i < |r| ==> r[i] in store
  {
    if store == [] then []
    else
      var gone := store[0] in aged && store[0] in tasks && tasks[store[0]].status.Terminal();
      (if gone then [] else [store[0]]) + Kept(tasks, store[1..], aged)
  }

  // ---- Events ----

  predicate At(s: State, r: nat) {
    r < |s.runs| && s.runs[r].task in s.tasks
  }

  function Moved(s: State, r: nat, pc: Pc): State
    requires r < |s.runs|
  {
    s.(runs := s.runs[r := s.runs[r].(pc := pc)])
  }

  /** `processMessage` up to its first `await`: queue the message for the active task of the session, or
      create a task. */
  function AfterSubmit(s: State, session: string, content: string, newId: TaskId): State {
    var active := FirstActive(s.tasks, s.store, Some(session));
    if active.Some? then s.(traffic := Enqueue(s.traffic, active.value, content))
    else if newId in s.tasks then s
    else s.(tasks := s.tasks[newId := Task(session, Pending, None, None)], store := s.store + [newId],
            contexts := s.contexts + {newId}, runs := s.runs + [Run(newId, Recalling)])
  }

  /** From the memory recall to the planning call. */
  function AfterRecall(s: State, r: nat): State
    requires At(s, r)
  {
    var t := s.runs[r].task;
    var task := s.tasks[t];
    if task.status == Executing then Moved(s, r, Building)
    else
      match task.To(Planning)
      case None => Moved(s, r, Crashed(InvalidTransition(task.status, Planning)))
      case Some(task') => Moved(s, r, PlanningCall).(tasks := s.tasks[t := task'])
  }

  /** A task that is no longer planning is left alone, with its context still in the map. */
  function AfterPlanning(s: State, r: nat): State
    requires At(s, r)
  {
    var t := s.runs[r].task;
    var task := s.tasks[t];
    if task.status != Planning then Moved(s, r, Ended)
    else Moved(s, r, Building).(tasks := s.tasks[t := task.(status := Executing)])
  }

  /** The end of an inner loop: the task takes its last value, its messages are orphaned and its context
      is released. */
  function Closed(s: State, r: nat, task: Task, pc: Pc): State
    requires At(s, r)
  {
    var t := s.runs[r].task;
    Moved(s, r, pc).(tasks := s.tasks[t := task], contexts := s.contexts - {t},
                     traffic := Orphan(s.traffic, t, t in s.contexts))
  }

  /** The context of a cancelled task stays for the inner loop to release. */
  function AfterCancel(s: State, t: TaskId, reason: string): State {
    if t in s.contexts && t in s.store && t in s.tasks then
      s.(tasks := s.tasks[t := s.tasks[t].TryFail("cancelled: " + reason)],
         traffic := Orphan(s.traffic, t, true))
    else s
  }

  /** `resumeTask` after its transcript has been read: the session is rebuilt first; only then is the
      task taken up, which throws when another call was quicker. */
  function AfterReplay(s: State, k: nat, turns: seq<string>): State
    requires k < |s.resumes| && s.resumes[k] in s.tasks
  {
    var t := s.resumes[k];
    var task := s.tasks[t];
    var s' := s.(resumes := s.resumes[..k] + s.resumes[k + 1..], traffic := Rebuild(s.traffic, task.session, turns));
    match task.To(Executing)
    case None => s'
    case Some(task') =>
      s'.(tasks := s.tasks[t := task'], contexts := s.contexts + {t}, runs := s.runs + [Run(t, Building)])
  }

  function SetTask(s: State, t: TaskId, task: Option<Task>): State {
    if task.Some? then s.(tasks := s.tasks[t := task.value]) else s
  }

  /** One event; an event that is not possible now changes nothing. */
  function Next(s: State, e: Event): State {
    match e
    case Submit(session, content, newId) => AfterSubmit(s, session, content, newId)
    case Recalled(r) => if At(s, r) && s.runs[r].pc == Recalling then AfterRecall(s, r) else s
    case Planned(r) => if At(s, r) && s.runs[r].pc == PlanningCall then AfterPlanning(s, r) else s
    case Built(r) => if At(s, r) && s.runs[r].pc == Building then Moved(s, r, Running) else s
    case Throws(r, why) =>
      if At(s, r) && s.runs[r].pc in {Recalling, PlanningCall, Building, Flushing}
      then Moved(s, r, Crashed(why)) else s
    case CrashHandled(r) =>
      if At(s, r) && s.runs[r].pc.Crashed?
      then Closed(s, r, s.tasks[s.runs[r].task].TryFail(s.runs[r].pc.why), Ended) else s
    case IterationStart(r) =>
      if At(s, r) && s.runs[r].pc == Running
      then s.(traffic := Deliver(s.traffic, s.runs[r].task, s.tasks[s.runs[r].task].session)) else s
    case Write(r, text) =>
      if At(s, r) && s.runs[r].pc == Running
      then s.(traffic := Append(s.traffic, s.tasks[s.runs[r].task].session, text)) else s
    case Finished(r, text) =>
      if At(s, r) && s.runs[r].pc == Running
      then Closed(s, r, s.tasks[s.runs[r].task].Finish(text), Flushing) else s
    case Errored(r, why) =>
      if At(s, r) && s.runs[r].pc == Running
      then Closed(s, r, s.tasks[s.runs[r].task].TryFail(why), Flushing) else s
    case Flushed(r) => if At(s, r) && s.runs[r].pc == Flushing then Moved(s, r, Ended) else s
    case Cancel(t, reason) => AfterCancel(s, t, reason)
    case Pause(t) => if t in s.store && t in s.tasks then SetTask(s, t, s.tasks[t].To(Paused)) else s
    case Clarify =>
      var active := FirstActive(s.tasks, s.store, None);
      if active.Some? && s.tasks[active.value].status == Paused
      then SetTask(s, active.value, s.tasks[active.value].To(Executing)) else s
    case Evict(aged) => s.(store := Kept(s.tasks, s.store, aged))
    case Resume(t) =>
      if t in s.store && t in s.tasks && s.tasks[t].status == Interrupted then s.(resumes := s.resumes + [t]) else s
    case Replayed(k, turns) => if k < |s.resumes| && s.resumes[k] in s.tasks then AfterReplay(s, k, turns) else s
    case ReplayFailed(k) =>
      if k < |s.resumes| then s.(resumes := s.resumes[..k] + s.resumes[k + 1..]) else s
  }

  // ---- Restart ----

  /** What is on disk for a task of an earlier server run. */
  datatype Meta = Meta(id: TaskId, session: string, status: Status, error: Option<string>)

  /** What `persistState` writes of a task: everything but its result. */
  function MetaOf(t: TaskId, task: Task): Meta {
    Meta(t, task.session, task.status, task.error)
  }

  function Restored(status: Status): Status {
    if status.Live() then Interrupted else status
  }

  /** `loadPersistedTasks` on a new agent. */
  function Loaded(metas: seq<Meta>): State {
    if metas == [] then State(map[], [], {}, [], [], Traffic([], [], [], [], [], map[], map[]))
    else
      var k := |metas| - 1;
      var s := Loaded(metas[..k]);
      var m := metas[k];
      s.(tasks := s.tasks[m.id := Task(m.session, Restored(m.status), None, m.error)],
         store := if m.id in s.store then s.store else s.store + [m.id])
  }

  function After(s: State, es: seq<Event>): State {
    if es == [] then s else Next(After(s, es[..|es| - 1]), es[|es| - 1])
  }
}
