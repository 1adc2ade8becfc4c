/** Tasks and their status transitions: src/task/types.ts and src/task/machine.ts. */
module TaskLifecycle {
  import opened Wrappers

  datatype Status = Pending | Planning | Executing | Paused | Completed | Failed | Interrupted
  {
    predicate Terminal() { this == Completed || this == Failed }

    /** Messages for a session are queued while it has a task like this. */
    predicate Active() { this == Executing || this == Paused }

    /** Not ended and not left over from an earlier server run. */
    predicate Live() { this == Pending || this == Planning || this == Executing || this == Paused }

    function Name(): string {
      match this
      case Pending => "pending"
      case Planning => "planning"
      case Executing => "executing"
      case Paused => "paused"
      case Completed => "completed"
      case Failed => "failed"
      case Interrupted => "interrupted"
    }
  }

  const VALID_TRANSITIONS: map<Status, set<Status>> := map[
    Pending := {Planning, Executing, Failed},
    Planning := {Executing, Failed},
    Executing := {Paused, Completed, Failed, Interrupted},
    Paused := {Executing, Failed, Interrupted},
    Completed := {},
    Failed := {},
    Interrupted := {Executing}
  ]

  predicate CanTransition(from: Status, to: Status) {
    from in VALID_TRANSITIONS && to in VALID_TRANSITIONS[from]
  }

  /** The message of an `InvalidTransitionError`. */
  function InvalidTransition(from: Status, to: Status): string {
    "Invalid task transition: " + from.Name() + " \U{2192} " + to.Name()
  }

  datatype Task = Task(session: string, status: Status, result: Option<string>, error: Option<string>)
  {
    /** The task after `transition`, or none when it throws. */
    function To(status': Status): Option<Task> {
      if CanTransition(status, status') then Some(this.(status := status')) else None
    }

    /** The task after an attempt to fail it, a thrown error being swallowed. */
    function TryFail(why: string): Task {
      if CanTransition(status, Failed) then this.(status := Failed, error := Some(why)) else this
    }

    /** The task after an attempt to complete it; when `complete` throws, it is failed instead. */
    function Finish(text: string): Task {
      if CanTransition(status, Completed) then this.(status := Completed, result := Some(text))
      else TryFail(InvalidTransition(status, Completed))
    }
  }

  /** Nothing leaves `completed` or `failed`; nothing enters `pending`; every other status can fail,
      except that an interrupted task can only be taken up again. */
  lemma TransitionFacts(from: Status, to: Status)
    ensures from.Terminal() ==> !CanTransition(from, to)
    ensures !CanTransition(from, Pending)
    ensures CanTransition(from, Failed) <==> from.Live()
    ensures CanTransition(from, Completed) <==> from == Executing
    ensures CanTransition(from, Interrupted) <==> from.Active()
    ensures CanTransition(Interrupted, to) <==> to == Executing
  {
  }

  /** From where a task comes to planning, goes on, and is paused. */
  lemma EntryFacts(from: Status)
    ensures CanTransition(from, Planning) <==> from == Pending
    ensures CanTransition(from, Executing) <==> from in {Pending, Planning, Paused, Interrupted}
    ensures CanTransition(from, Paused) <==> from == Executing
  {
  }

  /** What the errors read like. */
  lemma ErrorsRead()
    ensures InvalidTransition(Pending, Paused) == "Invalid task transition: pending \U{2192} paused"
    ensures InvalidTransition(Interrupted, Planning) == "Invalid task transition: interrupted \U{2192} planning"
  {
  }

  lemma MoreErrorsRead()
    ensures InvalidTransition(Failed, Executing) == "Invalid task transition: failed \U{2192} executing"
    ensures InvalidTransition(Completed, Completed) == "Invalid task transition: completed \U{2192} completed"
  {
  }

  class TaskObject {
    const id: string
    const session: string
    var status: Status
    var result: Option<string>
    var error: Option<string>

    constructor (id: string, session: string, status: Status, error: Option<string>)
      ensures this.id == id && Value() == Task(session, status, None, error)
    {
      this.id := id;
      this.session := session;
      this.status := status;
      this.result := None;
      this.error := error;
    }

    function Value(): Task
      reads this
    {
      Task(session, status, result, error)
    }
  }

  /** `TaskStateMachine.transition`: move the task, or report the transition as invalid. */
  method Transition(task: TaskObject, status: Status) returns (invalid: Option<string>)
    modifies task
    ensures old(task.Value()).To(status) == if invalid == None then Some(task.Value()) else None
    ensures invalid.Some? ==>
              task.Value() == old(task.Value()) && invalid.value == InvalidTransition(task.status, status)
  {
    if !CanTransition(task.status, status) {
      return Some(InvalidTransition(task.status, status));
    }
    task.status := status;
    return None;
  }

  /** `TaskStateMachine.complete`. */
  method Complete(task: TaskObject, result: string) returns (invalid: Option<string>)
    modifies task
    ensures invalid == None ==>
              task.Value() == old(task.Value()).(status := Completed, result := Some(result))
    ensures invalid == None <==> CanTransition(old(task.status), Completed)
    ensures invalid.Some? ==>
              task.Value() == old(task.Value()) && invalid.value == InvalidTransition(task.status, Completed)
  {
    invalid := Transition(task, Completed);
    if invalid == None {
      task.result := Some(result);
    }
  }

  /** `TaskStateMachine.fail`, with the callers' empty `catch` around it. */
  method TryFail(task: TaskObject, error: string)
    modifies task
    ensures task.Value() == old(task.Value()).TryFail(error)
  {
    var invalid := Transition(task, Failed);
    if invalid == None {
      task.error := Some(error);
    }
  }

  /** Complete a task; when that throws, the error fails it, if it can still fail. */
  method CompleteOrFail(task: TaskObject, result: string)
    modifies task
    ensures task.Value() == old(task.Value()).Finish(result)
  {
    hide CanTransition, InvalidTransition;
    var invalid := Complete(task, result);
    if invalid.Some? {
      TryFail(task, invalid.value);
    }
  }
}
