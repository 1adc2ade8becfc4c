/** `DualLoopAgent` of src/loop/dual.ts with the task store of src/task/store.ts: the objects whose
    methods carry out the events of the protocol. Each method is the code between two `await`s. */
module DualLoopAgents {
  import opened Wrappers
  import opened TaskLifecycle
  import opened MessageQueues
  import opened DualLoop

  /** What the task objects hold, as values. */
  ghost predicate Holds(objects: map<TaskId, TaskObject>, tasks: map<TaskId, Task>)
    reads objects.Values
  {
    && (forall t :: t in objects <==> t in tasks)
    && forall t :: t in objects ==> objects[t].id == t && objects[t].Value() == tasks[t]
  }

  /** `InMemoryTaskStore`: a map and its keys in insertion order. */
  class TaskStore {
    var keys: seq<TaskId>
    var tasks: map<TaskId, TaskObject>

    constructor ()
      ensures keys == [] && tasks == map[]
    {
      keys := [];
      tasks := map[];
    }

    ghost predicate Lists(objects: map<TaskId, TaskObject>)
      reads this
    {
      forall i :: 0 <= i < |keys| ==>
        keys[i] in tasks && keys[i] in objects && tasks[keys[i]] == objects[keys[i]]
    }

    /** The first task, in insertion order, that is executing or paused and belongs to the session, if
        one is given. */
    method GetActive(session: Option<string>, ghost objects: map<TaskId, TaskObject>,
                     ghost values: map<TaskId, Task>) returns (active: Option<TaskId>)
      requires Lists(objects) && Holds(objects, values)
      ensures active == FirstActive(values, keys, session)
    {
      for i := 0 to |keys|
        invariant FirstActive(values, keys, session) == FirstActive(values, keys[i..], session)
      {
        var task := tasks[keys[i]];
        assert task.Value() == values[keys[i]];
        if task.status.Active() && (session.Some? ==> task.session == session.value) {
          return Some(keys[i]);
        }
      }
      return None;
    }

    /** `Map.set`: a new key goes last, a known key keeps its place. */
    method Create(id: TaskId, task: TaskObject)
      modifies this
      ensures keys == if id in old(keys) then old(keys) else old(keys) + [id]
      ensures tasks == old(tasks)[id := task]
    {
      if id !in keys {
        keys := keys + [id];
      }
      tasks := tasks[id := task];
    }

    /** Remove the completed and failed tasks that are past the age limit. */
    method EvictCompleted(aged: set<TaskId>, ghost objects: map<TaskId, TaskObject>,
                          ghost values: map<TaskId, Task>) returns (evicted: nat)
      requires Lists(objects) && Holds(objects, values)
      modifies this
      ensures keys == Kept(values, old(keys), aged) && Lists(objects)
      ensures evicted == |old(keys)| - |keys|
    {
      hide Kept;
      var kept: seq<TaskId> := [];
      evicted := 0;
      for i := 0 to |keys|
        invariant keys == old(keys) && tasks == old(tasks)
        invariant kept + Kept(values, keys[i..], aged) == Kept(values, keys, aged)
        invariant evicted + |kept| == i
        invariant forall k :: 0 <= k < |kept| ==> kept[k] in keys
      {
        var task := tasks[keys[i]];
        assert task.Value() == values[keys[i]];
        KeptStep(values, keys, i, aged, kept);
        if keys[i] in aged && task.status.Terminal() {
          evicted := evicted + 1;
        } else {
          kept := kept + [keys[i]];
        }
      }
      KeptEnd(values, keys, aged, kept);
      keys := kept;
    }
  }

  lemma KeptStep(values: map<TaskId, Task>, keys: seq<TaskId>, i: nat, aged: set<TaskId>, kept: seq<TaskId>)
    requires i < |keys| && keys[i] in values
    ensures kept + Kept(values, keys[i..], aged) ==
            (if keys[i] in aged && values[keys[i]].status.Terminal() then kept else kept + [keys[i]])
            + Kept(values, keys[i + 1..], aged)
  {
    assert keys[i..][1..] == keys[i + 1..];
  }

  lemma KeptEnd(values: map<TaskId, Task>, keys: seq<TaskId>, aged: set<TaskId>, kept: seq<TaskId>)
    ensures kept + Kept(values, keys[|keys|..], aged) == kept
  {
  }

  // ---- What the agent's fields show of a protocol state ----

  datatype View = View(tasks: map<TaskId, Task>, store: seq<TaskId>, contexts: set<TaskId>, queue: seq<Queued>,
                       sessions: map<string, seq<Entry>>)

  function ViewOf(s: State): View {
    View(s.tasks, s.store, s.contexts, s.traffic.queue, s.traffic.sessions)
  }

  function Released(v: View, id: TaskId): View {
    v.(contexts := v.contexts - {id}, queue := Except(id, v.queue))
  }

  function WithTask(v: View, id: TaskId, task: Task): View {
    v.(tasks := v.tasks[id := task])
  }

  lemma ClosingEvents(s: State, r: nat, id: TaskId, text: string)
    requires At(s, r) && s.runs[r].task == id
    ensures s.runs[r].pc == Running ==>
              && ViewOf(Next(s, Finished(r, text))) == Released(WithTask(ViewOf(s), id, s.tasks[id].Finish(text)), id)
              && ViewOf(Next(s, Errored(r, text))) == Released(WithTask(ViewOf(s), id, s.tasks[id].TryFail(text)), id)
    ensures s.runs[r].pc == Crashed(text) ==>
              ViewOf(Next(s, CrashHandled(r))) == Released(WithTask(ViewOf(s), id, s.tasks[id].TryFail(text)), id)
  {
    hide For, Except, CanTransition, InvalidTransition;
  }

  lemma OrphansOf(s: State, r: nat, id: TaskId, e: Event)
    requires At(s, r) && s.runs[r].task == id
    requires || (s.runs[r].pc == Running && (e.Finished? || e.Errored?) && (if e.Finished? then e.r else e.r) == r)
             || (s.runs[r].pc.Crashed? && e == CrashHandled(r))
    ensures Next(s, e).traffic.orphaned
            == s.traffic.orphaned + if id in s.contexts then For(id, s.traffic.queue) else []
  {
    hide For, Except, CanTransition, InvalidTransition;
  }

  lemma SubmitEvent(s: State, session: string, content: string, newId: TaskId)
    requires newId !in s.tasks
    ensures var active, v := FirstActive(s.tasks, s.store, Some(session)), ViewOf(s);
            ViewOf(Next(s, Submit(session, content, newId))) ==
            if active.Some? then v.(queue := v.queue + [Queued(|s.traffic.accepted|, active.value, content)])
            else Added(v, newId, Task(session, Pending, None, None))
  {
    hide FirstActive;
  }

  function Added(v: View, id: TaskId, task: Task): View {
    v.(tasks := v.tasks[id := task], store := v.store + [id], contexts := v.contexts + {id})
  }

  lemma PlanningEvents(s: State, r: nat, id: TaskId)
    requires At(s, r) && s.runs[r].task == id
    ensures var task, s' := s.tasks[id], Next(s, Recalled(r));
            s.runs[r].pc == Recalling ==>
              && (s'.runs[r].pc.Crashed? <==> task.status != Executing && !CanTransition(task.status, Planning))
              && ViewOf(s') == if task.status != Executing && CanTransition(task.status, Planning)
                               then WithTask(ViewOf(s), id, task.(status := Planning)) else ViewOf(s)
    ensures var task, s' := s.tasks[id], Next(s, Planned(r));
            s.runs[r].pc == PlanningCall ==>
              && (s'.runs[r].pc == Building <==> task.status == Planning)
              && ViewOf(s') == if task.status == Planning
                               then WithTask(ViewOf(s), id, task.(status := Executing)) else ViewOf(s)
  {
    hide CanTransition, InvalidTransition;
  }

  lemma CancelEvent(s: State, id: TaskId, reason: string)
    ensures var s' := Next(s, Cancel(id, reason));
            if id in s.contexts && id in s.store && id in s.tasks
            then && ViewOf(s') == Drained(WithTask(ViewOf(s), id, s.tasks[id].TryFail("cancelled: " + reason)), id)
                 && s'.traffic.orphaned == s.traffic.orphaned + For(id, s.traffic.queue)
            else s' == s
  {
    hide For, Except, CanTransition;
  }

  function Drained(v: View, id: TaskId): View {
    v.(queue := Except(id, v.queue))
  }

  lemma ClarifyEvent(s: State)
    ensures var active := FirstActive(s.tasks, s.store, None);
            ViewOf(Next(s, Clarify)) ==
            if active.Some? && s.tasks[active.value].status == Paused
            then WithTask(ViewOf(s), active.value, s.tasks[active.value].(status := Executing)) else ViewOf(s)
  {
    hide FirstActive;
    TransitionFacts(Paused, Executing);
    assert CanTransition(Paused, Executing);
  }

  lemma ReplayedEvent(s: State, k: nat, id: TaskId, turns: seq<string>)
    requires k < |s.resumes| && s.resumes[k] == id && id in s.tasks
    ensures var task, s' := s.tasks[id], Next(s, Replayed(k, turns));
            var v := ViewOf(s).(sessions := s.traffic.sessions[task.session := Others(turns)]);
            if CanTransition(task.status, Executing)
            then && ViewOf(s') == WithTask(v, id, task.(status := Executing)).(contexts := s.contexts + {id})
                 && s'.runs == s.runs + [Run(id, Building)]
            else ViewOf(s') == v && s'.runs == s.runs
  {
    hide CanTransition;
  }

  /** The agent. `objects` are all task objects, those of evicted tasks included, to which running
      inner loops still refer. Methods take the protocol state that the fields show as a ghost. */
  class DualLoopAgent {
    const tasks: TaskStore
    const messageQueue: MessageQueue
    var taskContexts: set<TaskId>
    var sessions: map<string, seq<Entry>>
    ghost var objects: map<TaskId, TaskObject>

    ghost predicate Shows(v: View)
      reads this, tasks, messageQueue, objects.Values
    {
      && Holds(objects, v.tasks)
      && tasks.Lists(objects) && tasks.keys == v.store
      && messageQueue.messages == v.queue
      && taskContexts == v.contexts
      && sessions == v.sessions
    }

    constructor ()
      ensures Shows(ViewOf(Loaded([]))) && objects == map[]
      ensures fresh(tasks) && fresh(messageQueue)
    {
      tasks := new TaskStore();
      messageQueue := new MessageQueue();
      taskContexts := {};
      sessions := map[];
      objects := map[];
    }

    // ---- Single changes ----

    method FailTask(task: TaskObject, why: string, ghost v: View)
      requires Shows(v) && task.id in objects && task == objects[task.id]
      modifies task
      ensures Shows(WithTask(v, task.id, v.tasks[task.id].TryFail(why)))
    {
      TryFail(task, why);
      hide Task.TryFail;
    }

    method CompleteOrFailTask(task: TaskObject, text: string, ghost v: View)
      requires Shows(v) && task.id in objects && task == objects[task.id]
      modifies task
      ensures Shows(WithTask(v, task.id, v.tasks[task.id].Finish(text)))
    {
      hide CanTransition, InvalidTransition;
      CompleteOrFail(task, text);
    }

    method MoveTask(task: TaskObject, status: Status, ghost v: View) returns (invalid: Option<string>)
      requires Shows(v) && task.id in objects && task == objects[task.id]
      modifies task
      ensures invalid.None? <==> CanTransition(v.tasks[task.id].status, status)
      ensures invalid.None? ==> Shows(WithTask(v, task.id, v.tasks[task.id].(status := status)))
      ensures invalid.Some? ==> Shows(v)
    {
      hide CanTransition, InvalidTransition;
      invalid := Transition(task, status);
    }

    /** `drainQueueOnTermination`, and the release of the context. Returns the messages announced as
        orphaned on the bus of the context. */
    method Release(id: TaskId, ghost v: View) returns (orphans: seq<Queued>)
      requires Shows(v)
      modifies this`taskContexts, messageQueue
      ensures Shows(Released(v, id))
      ensures orphans == if id in v.contexts then For(id, v.queue) else []
    {
      orphans := DrainQueueOnTermination(id);
      taskContexts := taskContexts - {id};
    }

    method DrainQueueOnTermination(id: TaskId) returns (orphans: seq<Queued>)
      modifies messageQueue
      ensures messageQueue.messages == Except(id, old(messageQueue.messages))
      ensures orphans == if id in taskContexts then For(id, old(messageQueue.messages)) else []
    {
      var drained := messageQueue.DrainForTask(id);
      orphans := [];
      if |drained| > 0 && id in taskContexts {
        orphans := drained;
      }
    }

    // ---- Events ----

    /** The inner loop has a result: complete the task, or fail it when it cannot be completed. */
    method FinishRun(task: TaskObject, text: string, ghost s: State, ghost r: nat) returns (orphans: seq<Queued>)
      requires Shows(ViewOf(s)) && task.id in objects && task == objects[task.id]
      requires At(s, r) && s.runs[r] == Run(task.id, Running)
      modifies this`taskContexts, messageQueue, task
      ensures Shows(ViewOf(Next(s, Finished(r, text))))
      ensures Next(s, Finished(r, text)).traffic.orphaned == s.traffic.orphaned + orphans
    {
      hide Shows, Next, Released, For, Except;
      ClosingEvents(s, r, task.id, text);
      OrphansOf(s, r, task.id, Finished(r, text));
      CompleteOrFailTask(task, text, ViewOf(s));
      orphans := Release(task.id, WithTask(ViewOf(s), task.id, s.tasks[task.id].Finish(text)));
    }
  
    /** The inner loop threw `why`. */
    method FailRun(task: TaskObject, why: string, ghost s: State, ghost r: nat) returns (orphans: seq<Queued>)
      requires Shows(ViewOf(s)) && task.id in objects && task == objects[task.id]
      requires At(s, r) && s.runs[r] == Run(task.id, Running)
      modifies this`taskContexts, messageQueue, task
      ensures Shows(ViewOf(Next(s, Errored(r, why))))
      ensures Next(s, Errored(r, why)).traffic.orphaned == s.traffic.orphaned + orphans
    {
      hide Shows, Next, Released, For, Except;
      ClosingEvents(s, r, task.id, why);
      OrphansOf(s, r, task.id, Errored(r, why));
      FailTask(task, why, ViewOf(s));
      orphans := Release(task.id, WithTask(ViewOf(s), task.id, s.tasks[task.id].TryFail(why)));
    }

    /** The `catch` handler of a dispatched inner loop. */
    method HandleCrash(task: TaskObject, why: string, ghost s: State, ghost r: nat) returns (orphans: seq<Queued>)
      requires Shows(ViewOf(s)) && task.id in objects && task == objects[task.id]
      requires At(s, r) && s.runs[r] == Run(task.id, Crashed(why))
      modifies this`taskContexts, messageQueue, task
      ensures Shows(ViewOf(Next(s, CrashHandled(r))))
      ensures Next(s, CrashHandled(r)).traffic.orphaned == s.traffic.orphaned + orphans
    {
      hide Shows, Next, Released, For, Except;
      ClosingEvents(s, r, task.id, why);
      OrphansOf(s, r, task.id, CrashHandled(r));
      FailTask(task, why, ViewOf(s));
      orphans := Release(task.id, WithTask(ViewOf(s), task.id, s.tasks[task.id].TryFail(why)));
    }

    /** A new task with its context. */
    method AddTask(id: TaskId, session: string, ghost v: View)
      requires Shows(v) && id !in v.tasks
      modifies this`objects, this`taskContexts, tasks
      ensures Shows(Added(v, id, Task(session, Pending, None, None)))
    {
      taskContexts := taskContexts + {id};
      var task := new TaskObject(id, session, Pending, None);
      tasks.Create(id, task);
      objects := objects[id := task];
    }

    /** `processMessage` up to its first `await`. `messageId` stands for the random identifier. */
    method ProcessMessage(session: string, content: string, newId: TaskId, messageId: nat, ghost s: State)
        returns (queuedFor: Option<TaskId>)
      requires Shows(ViewOf(s)) && newId !in s.tasks && messageId == |s.traffic.accepted|
      modifies this`objects, this`taskContexts, tasks, messageQueue
      ensures Shows(ViewOf(Next(s, Submit(session, content, newId))))
      ensures queuedFor == FirstActive(s.tasks, s.store, Some(session))
    {
      hide Next, FirstActive;
      SubmitEvent(s, session, content, newId);
      queuedFor := tasks.GetActive(Some(session), objects, s.tasks);
      if queuedFor.Some? {
        var message := messageQueue.Enqueue(messageId, queuedFor.value, content);
      } else {
        AddTask(newId, session, ViewOf(s));
      }
    }

    /** The inner loop of `task` from the memory recall to its planning call. */
    method AfterMemoryRecall(task: TaskObject, ghost s: State, ghost r: nat) returns (crash: Option<string>)
      requires Shows(ViewOf(s)) && task.id in objects && task == objects[task.id]
      requires At(s, r) && s.runs[r] == Run(task.id, Recalling)
      modifies task
      ensures Shows(ViewOf(Next(s, Recalled(r))))
      ensures crash.Some? <==> Next(s, Recalled(r)).runs[r].pc.Crashed?
    {
      hide Next, CanTransition;
      PlanningEvents(s, r, task.id);
      assert task.status == s.tasks[task.id].status;
      crash := None;
      if task.status != Executing {
        crash := MoveTask(task, Planning, ViewOf(s));
      }
    }

    /** The inner loop after its planning call; a task that was cancelled meanwhile is left alone. */
    method AfterPlanningCall(task: TaskObject, ghost s: State, ghost r: nat) returns (goesOn: bool)
      requires Shows(ViewOf(s)) && task.id in objects && task == objects[task.id]
      requires At(s, r) && s.runs[r] == Run(task.id, PlanningCall)
      modifies task
      ensures Shows(ViewOf(Next(s, Planned(r))))
      ensures goesOn <==> Next(s, Planned(r)).runs[r].pc == Building
    {
      PlanningEvents(s, r, task.id);
      assert CanTransition(Planning, Executing);
      hide Next, CanTransition;
      assert task.status == s.tasks[task.id].status;
      goesOn := task.status == Planning;
      if goesOn {
        var invalid := MoveTask(task, Executing, ViewOf(s));
      }
    }

    /** `onIterationStart`: the queued messages become user messages of the session. */
    method OnIterationStart(task: TaskObject, ghost s: State, ghost r: nat)
      requires Shows(ViewOf(s)) && task.id in objects && task == objects[task.id]
      requires At(s, r) && s.runs[r] == Run(task.id, Running)
      modifies this`sessions, messageQueue
      ensures Shows(ViewOf(Next(s, IterationStart(r))))
    {
      hide For, Except;
      assert task.session == s.tasks[task.id].session;
      var drained := messageQueue.DrainForTask(task.id);
      var messages := if task.session in sessions then sessions[task.session] else [];
      ghost var before := messages;
      for i := 0 to |drained|
        invariant messages == before + Entries(drained[..i])
      {
        messages := messages + [FromQueue(drained[i])];
      }
      assert drained[..|drained|] == drained;
      sessions := sessions[task.session := messages];
    }

    /** `cancel` of one task. Its context stays for the inner loop to release. */
    method Cancel(id: TaskId, reason: string, ghost s: State) returns (orphans: seq<Queued>)
      requires Shows(ViewOf(s))
      modifies messageQueue, objects.Values
      ensures Shows(ViewOf(Next(s, Event.Cancel(id, reason))))
      ensures Next(s, Event.Cancel(id, reason)).traffic.orphaned == s.traffic.orphaned + orphans
    {
      hide Next, For, Except;
      CancelEvent(s, id, reason);
      orphans := [];
      if id in taskContexts && id in tasks.keys {
        FailTask(tasks.tasks[id], "cancelled: " + reason, ViewOf(s));
        orphans := DrainQueueOnTermination(id);
      }
    }

    /** `resume`: the first active task, if it is paused, goes on. */
    method Resume(ghost s: State)
      requires Shows(ViewOf(s))
      modifies objects.Values
      ensures Shows(ViewOf(Next(s, Clarify)))
    {
      ClarifyEvent(s);
      assert CanTransition(Paused, Executing);
      hide Next, FirstActive, CanTransition;
      var active := tasks.GetActive(None, objects, s.tasks);
      if active.Some? && tasks.tasks[active.value].status == Paused {
        var invalid := MoveTask(tasks.tasks[active.value], Executing, ViewOf(s));
      }
    }

    /** `resumeTask` up to the reading of the transcript. */
    method BeginResume(id: TaskId, ghost s: State) returns (task: Option<TaskObject>)
      requires Shows(ViewOf(s))
      ensures Shows(ViewOf(Next(s, Event.Resume(id))))
      ensures task.Some? ==> id in objects && task.value == objects[id]
      ensures Next(s, Event.Resume(id)).resumes == s.resumes + if task.Some? then [id] else []
    {
      task := None;
      if id in tasks.keys && tasks.tasks[id].status == Interrupted {
        task := Some(tasks.tasks[id]);
      }
    }

    method ReplaySession(session: string, turns: seq<string>, ghost v: View)
      requires Shows(v)
      modifies this`sessions
      ensures Shows(v.(sessions := v.sessions[session := Others(turns)]))
    {
      var messages: seq<Entry> := [];
      for i := 0 to |turns|
        invariant messages == Others(turns[..i])
      {
        messages := messages + [Other(turns[i])];
      }
      assert turns[..|turns|] == turns;
      sessions := sessions[session := messages];
    }

    /** `resumeTask` once the transcript is read: rebuild the session, then take the task up. */
    method EndResume(task: TaskObject, turns: seq<string>, ghost s: State, ghost k: nat)
        returns (error: Option<string>)
      requires Shows(ViewOf(s)) && task.id in objects && task == objects[task.id]
      requires k < |s.resumes| && s.resumes[k] == task.id
      modifies this`sessions, this`taskContexts, task
      ensures Shows(ViewOf(Next(s, Replayed(k, turns))))
      ensures Next(s, Replayed(k, turns)).runs == s.runs + if error == None then [Run(task.id, Building)] else []
    {
      hide Next, CanTransition, WithTask, Others;
      ReplayedEvent(s, k, task.id, turns);
      assert task.session == s.tasks[task.id].session;
      ghost var v := ViewOf(s).(sessions := s.traffic.sessions[task.session := Others(turns)]);
      ReplaySession(task.session, turns, ViewOf(s));
      error := MoveTask(task, Executing, v);
      if error == None {
        taskContexts := taskContexts + {task.id};
      }
    }

    /** The eviction timer. */
    method EvictTick(aged: set<TaskId>, ghost s: State) returns (evicted: nat)
      requires Shows(ViewOf(s))
      modifies tasks
      ensures Shows(ViewOf(Next(s, Evict(aged))))
      ensures evicted == |s.store| - |Next(s, Evict(aged)).store|
    {
      hide Kept;
      evicted := tasks.EvictCompleted(aged, objects, s.tasks);
    }

    /** A task read from disk. */
    method RestoreTask(meta: Meta, ghost v: View)
      requires Shows(v)
      modifies this`objects, tasks
      ensures Shows(v.(tasks := v.tasks[meta.id := Task(meta.session, Restored(meta.status), None, meta.error)],
                       store := if meta.id in v.store then v.store else v.store + [meta.id]))
    {
      var status := if meta.status.Live() then Interrupted else meta.status;
      var task := new TaskObject(meta.id, meta.session, status, meta.error);
      tasks.Create(meta.id, task);
      objects := objects[meta.id := task];
    }

    /** `loadPersistedTasks` on a new agent. */
    method LoadPersistedTasks(metas: seq<Meta>)
      requires Shows(ViewOf(Loaded([])))
      modifies this`objects, tasks
      ensures Shows(ViewOf(Loaded(metas)))
    {
      for i := 0 to |metas|
        invariant Shows(ViewOf(Loaded(metas[..i])))
      {
        RestoreTask(metas[i], ViewOf(Loaded(metas[..i])));
        assert metas[..i + 1][..i] == metas[..i];
      }
      assert metas[..|metas|] == metas;
    }
  }
}
