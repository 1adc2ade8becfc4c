/** `MessageQueue` of src/task/message-queue.ts: one list of messages, drained by target task. */
module MessageQueues {
  import opened Sublists

  type TaskId = string

  datatype Queued = Queued(id: nat, target: TaskId, content: string)

  /** The messages for `t`, in order. */
  function For(t: TaskId, ms: seq<Queued>): (r: seq<Queued>)
    ensures forall i :: 0 <= i < |r| ==> r[i].target == t
  {
    if ms == [] then []
    else
      var k := |ms| - 1;
      For(t, ms[..k]) + if ms[k].target == t then [ms[k]] else []
  }

  /** The messages for other tasks, in order. */
  function Except(t: TaskId, ms: seq<Queued>): (r: seq<Queued>)
    ensures forall i :: 0 <= i < |r| ==> r[i].target != t
  {
    if ms == [] then []
    else
      var k := |ms| - 1;
      Except(t, ms[..k]) + if ms[k].target != t then [ms[k]] else []
  }

  /** `For` and `Except` hold the messages of the task and all others, each where they were before one
      another. */
  lemma {:induction false} DrainPicks(t: TaskId, ms: seq<Queued>) returns (mine: seq<nat>, others: seq<nat>)
    ensures InOrder(For(t, ms), ms, mine) && InOrder(Except(t, ms), ms, others)
    ensures forall k :: 0 <= k < |ms| ==> (k in mine <==> ms[k].target == t) && (k in others <==> ms[k].target != t)
  {
    mine, others := [], [];
    if ms != [] {
      var k := |ms| - 1;
      mine, others := DrainPicks(t, ms[..k]);
      assert ms == ms[..k] + [ms[k]];
      hide InOrder;
      if ms[k].target == t {
        Take(For(t, ms[..k]), ms[..k], mine, ms[k]);
        Skip(Except(t, ms[..k]), ms[..k], others, ms[k]);
        mine := mine + [k];
      } else {
        Skip(For(t, ms[..k]), ms[..k], mine, ms[k]);
        Take(Except(t, ms[..k]), ms[..k], others, ms[k]);
        others := others + [k];
      }
    }
  }

  lemma {:induction false} ForConcat(t: TaskId, a: seq<Queued>, b: seq<Queued>)
    ensures For(t, a + b) == For(t, a) + For(t, b)
  {
    if b == [] {
      assert a + b == a;
    } else {
      var k := |b| - 1;
      ForConcat(t, a, b[..k]);
      assert (a + b)[..|a + b| - 1] == a + b[..k];
    }
  }

  lemma {:induction false} NoneFor(t: TaskId, ms: seq<Queued>)
    requires forall i :: 0 <= i < |ms| ==> ms[i].target != t
    ensures For(t, ms) == []
  {
    if ms != [] {
      NoneFor(t, ms[..|ms| - 1]);
    }
  }

  lemma {:induction false} AllFor(t: TaskId, ms: seq<Queued>)
    requires forall i :: 0 <= i < |ms| ==> ms[i].target == t
    ensures For(t, ms) == ms
  {
    if ms != [] {
      var k := |ms| - 1;
      AllFor(t, ms[..k]);
      assert ms == ms[..k] + [ms[k]];
    }
  }

  lemma {:induction false} ForExcept(t: TaskId, u: TaskId, ms: seq<Queued>)
    requires u != t
    ensures For(u, Except(t, ms)) == For(u, ms)
  {
    if ms != [] {
      var k := |ms| - 1;
      ForExcept(t, u, ms[..k]);
      ForConcat(u, Except(t, ms[..k]), if ms[k].target != t then [ms[k]] else []);
    }
  }

  /** Draining one task splits the queue: its messages come out in order, and for every other task the
      queue is as before. */
  lemma DrainSplits(t: TaskId, u: TaskId, ms: seq<Queued>)
    ensures For(u, For(t, ms)) + For(u, Except(t, ms)) == For(u, ms)
    ensures u == t ==> For(u, Except(t, ms)) == []
    ensures u != t ==> For(u, For(t, ms)) == []
  {
    if u == t {
      AllFor(t, For(t, ms));
      NoneFor(t, Except(t, ms));
    } else {
      NoneFor(u, For(t, ms));
      ForExcept(t, u, ms);
    }
  }

  class MessageQueue {
    var messages: seq<Queued>

    constructor ()
      ensures messages == []
    {
      messages := [];
    }

    /** Append a message for a task; `id` stands for the fresh random identifier. */
    method Enqueue(id: nat, target: TaskId, content: string) returns (message: Queued)
      modifies this
      ensures message == Queued(id, target, content) && messages == old(messages) + [message]
    {
      message := Queued(id, target, content);
      messages := messages + [message];
    }

    /** Remove and return the messages for a task, in the order they were enqueued. */
    method DrainForTask(target: TaskId) returns (drained: seq<Queued>)
      modifies this
      ensures drained == For(target, old(messages)) && messages == Except(target, old(messages))
    {
      drained := [];
      var remaining: seq<Queued> := [];
      for i := 0 to |messages|
        invariant messages == old(messages)
        invariant drained == For(target, messages[..i]) && remaining == Except(target, messages[..i])
      {
        var m := messages[i];
        assert messages[..i + 1][..i] == messages[..i];
        if m.target == target {
          drained := drained + [m];
        } else {
          remaining := remaining + [m];
        }
      }
      assert messages[..|messages|] == messages;
      messages := remaining;
    }
  }
}
