/** Which delivered messages a session transcript still holds: resuming a task rebuilds the transcript
    of its session, and what had been delivered before is gone. */
module DualLoopTranscripts {
  import opened TaskLifecycle
  import opened MessageQueues
  import opened DualLoop
  import opened DualLoopSafety

  /** The queue messages in a transcript, in order. */
  function Received(es: seq<Entry>): seq<Queued> {
    if es == [] then []
    else
      var k := |es| - 1;
      Received(es[..k]) + if es[k].FromQueue? then [es[k].message] else []
  }

  /** The messages for tasks of one session, in order. */
  function InSession(tasks: map<TaskId, Task>, session: string, ms: seq<Queued>): seq<Queued> {
    if ms == [] then []
    else
      var k := |ms| - 1;
      var mine := ms[k].target in tasks && tasks[ms[k].target].session == session;
      InSession(tasks, session, ms[..k]) + if mine then [ms[k]] else []
  }

  /** How many messages had been delivered when the session was last rebuilt. */
  function Since(tr: Traffic, session: string): nat {
    if session in tr.replayed then tr.replayed[session] else 0
  }

  /** The transcript holds exactly the messages delivered to the session since it was last rebuilt. */
  ghost predicate Shows(s: State, session: string) {
    && Since(s.traffic, session) <= |s.traffic.delivered|
    && Received(Transcript(s.traffic, session))
       == InSession(s.tasks, session, s.traffic.delivered[Since(s.traffic, session)..])
  }

  lemma {:induction false} ReceivedConcat(a: seq<Entry>, b: seq<Entry>)
    ensures Received(a + b) == Received(a) + Received(b)
  {
    if b == [] {
      assert a + b == a;
    } else {
      var k := |b| - 1;
      ReceivedConcat(a, b[..k]);
      assert (a + b)[..|a + b| - 1] == a + b[..k] && (a + b)[|a + b| - 1] == b[k];
    }
  }

  lemma {:induction false} ReceivedEntries(ms: seq<Queued>)
    ensures Received(Entries(ms)) == ms
  {
    if ms != [] {
      var k := |ms| - 1;
      ReceivedEntries(ms[..k]);
      assert Entries(ms)[..k] == Entries(ms[..k]);
      assert ms == ms[..k] + [ms[k]];
    }
  }

  lemma {:induction false} ReceivedOthers(texts: seq<string>)
    ensures Received(Others(texts)) == []
  {
    if texts != [] {
      var k := |texts| - 1;
      ReceivedOthers(texts[..k]);
      assert Others(texts)[..k] == Others(texts[..k]);
    }
  }

  lemma {:induction false} InSessionConcat(tasks: map<TaskId, Task>, session: string, a: seq<Queued>, b: seq<Queued>)
    ensures InSession(tasks, session, a + b) == InSession(tasks, session, a) + InSession(tasks, session, b)
  {
    if b == [] {
      assert a + b == a;
    } else {
      var k := |b| - 1;
      InSessionConcat(tasks, session, a, b[..k]);
      assert (a + b)[..|a + b| - 1] == a + b[..k];
    }
  }

  lemma {:induction false} InSessionFor(tasks: map<TaskId, Task>, session: string, t: TaskId, ms: seq<Queued>)
    requires t in tasks && forall i :: 0 <= i < |ms| ==> ms[i].target == t
    ensures InSession(tasks, session, ms) == if tasks[t].session == session then ms else []
  {
    if ms != [] {
      var k := |ms| - 1;
      InSessionFor(tasks, session, t, ms[..k]);
      assert ms == ms[..k] + [ms[k]];
    }
  }

  /** Tasks never change their session. */
  ghost predicate SameSessions(tasks: map<TaskId, Task>, tasks': map<TaskId, Task>) {
    forall t :: t in tasks ==> t in tasks' && tasks'[t].session == tasks[t].session
  }

  lemma {:induction false} InSessionSame(tasks: map<TaskId, Task>, tasks': map<TaskId, Task>, session: string,
                                         ms: seq<Queued>)
    requires SameSessions(tasks, tasks') && TargetsKnown(tasks, ms)
    ensures InSession(tasks', session, ms) == InSession(tasks, session, ms)
  {
    if ms != [] {
      InSessionSame(tasks, tasks', session, ms[..|ms| - 1]);
    }
  }

  lemma NextKeepsSessions(s: State, e: Event)
    ensures SameSessions(s.tasks, Next(s, e).tasks)
  {
    hide Orphan, Deliver, Rebuild, Enqueue, Kept, Append, InvalidTransition, CanTransition;
  }

  lemma DeliverShows(s: State, t: TaskId, session: string)
    requires Shows(s, session) && t in s.tasks
    ensures Shows(s.(traffic := Deliver(s.traffic, t, s.tasks[t].session)), session)
  {
    var tr := s.traffic;
    var drained := For(t, tr.queue);
    var from := Since(tr, session);
    assert (tr.delivered + drained)[from..] == tr.delivered[from..] + drained;
    InSessionConcat(s.tasks, session, tr.delivered[from..], drained);
    InSessionFor(s.tasks, session, t, drained);
    if session == s.tasks[t].session {
      ReceivedConcat(Transcript(tr, session), Entries(drained));
      ReceivedEntries(drained);
    }
  }

  lemma RebuildShows(s: State, of: string, turns: seq<string>, session: string)
    requires Shows(s, session)
    ensures Shows(s.(traffic := Rebuild(s.traffic, of, turns)), session)
  {
    ReceivedOthers(turns);
    assert s.traffic.delivered[|s.traffic.delivered|..] == [];
  }

  lemma AppendShows(s: State, of: string, text: string, session: string)
    requires Shows(s, session)
    ensures Shows(s.(traffic := Append(s.traffic, of, text)), session)
  {
    ReceivedConcat(Transcript(s.traffic, session), [Other(text)]);
    assert Received([Other(text)]) == [];
  }

  ghost predicate SameDeliveries(tr: Traffic, tr': Traffic) {
    tr'.delivered == tr.delivered && tr'.sessions == tr.sessions && tr'.replayed == tr.replayed
  }

  /** A `resumeTask` call has its transcript and rebuilds the session of its task. */
  predicate Rebuilds(s: State, e: Event) {
    e.Replayed? && e.k < |s.resumes| && s.resumes[e.k] in s.tasks
  }

  lemma SubmitTraffic(s: State, session: string, content: string, newId: TaskId)
    ensures SameDeliveries(s.traffic, Next(s, Submit(session, content, newId)).traffic)
  {
    hide FirstActive;
  }

  /** The events that end an inner loop. */
  lemma EndTraffic(s: State, e: Event)
    requires e.CrashHandled? || e.Finished? || e.Errored?
    ensures SameDeliveries(s.traffic, Next(s, e).traffic)
  {
    hide For, Except, CanTransition, InvalidTransition;
  }

  lemma CancelTraffic(s: State, t: TaskId, reason: string)
    ensures SameDeliveries(s.traffic, Next(s, Cancel(t, reason)).traffic)
  {
    hide For, Except, CanTransition;
  }

  lemma ReplayTraffic(s: State, k: nat, turns: seq<string>)
    ensures var tr := Next(s, Replayed(k, turns)).traffic;
            if Rebuilds(s, Replayed(k, turns)) then tr == Rebuild(s.traffic, s.tasks[s.resumes[k]].session, turns)
            else tr == s.traffic
  {
    hide Rebuild, CanTransition;
  }

  /** The events that touch no message. */
  lemma QuietTraffic(s: State, e: Event)
    requires !(e.Submit? || e.CrashHandled? || e.Finished? || e.Errored? || e.Cancel? || e.Replayed?)
    requires !(e.IterationStart? || e.Write?)
    ensures Next(s, e).traffic == s.traffic
  {
    hide CanTransition, InvalidTransition, FirstActive, Kept;
  }

  lemma ContentTraffic(s: State, e: Event)
    requires e.IterationStart? || e.Write?
    ensures var tr' := Next(s, e).traffic;
            || tr' == s.traffic
            || (At(s, e.r) && (if e.IterationStart?
                               then tr' == Deliver(s.traffic, s.runs[e.r].task, s.tasks[s.runs[e.r].task].session)
                               else tr' == Append(s.traffic, s.tasks[s.runs[e.r].task].session, e.text)))
  {
    hide Deliver, Append;
  }

  /** What an event does to transcripts and deliveries. */
  lemma NextTraffic(s: State, e: Event)
    ensures var tr, tr' := s.traffic, Next(s, e).traffic;
            || SameDeliveries(tr, tr')
            || (e.IterationStart? && At(s, e.r)
                && tr' == Deliver(tr, s.runs[e.r].task, s.tasks[s.runs[e.r].task].session))
            || (e.Write? && At(s, e.r) && tr' == Append(tr, s.tasks[s.runs[e.r].task].session, e.text))
            || Rebuilds(s, e)
    ensures Rebuilds(s, e) ==> Next(s, e).traffic == Rebuild(s.traffic, s.tasks[s.resumes[e.k]].session, e.turns)
  {
    hide Next, Deliver, Append, Rebuild;
    match e
    case Submit(session, content, newId) => SubmitTraffic(s, session, content, newId);
    case CrashHandled(_) => EndTraffic(s, e);
    case Finished(_, _) => EndTraffic(s, e);
    case Errored(_, _) => EndTraffic(s, e);
    case Cancel(t, reason) => CancelTraffic(s, t, reason);
    case Replayed(k, turns) => ReplayTraffic(s, k, turns);
    case IterationStart(_) => ContentTraffic(s, e);
    case Write(_, _) => ContentTraffic(s, e);
    case _ => QuietTraffic(s, e);
  }

  lemma NextTrafficShows(s: State, e: Event, session: string)
    requires Shows(s, session)
    ensures Shows(s.(traffic := Next(s, e).traffic), session)
  {
    NextTraffic(s, e);
    hide Next;
    if e.IterationStart? && At(s, e.r) {
      DeliverShows(s, s.runs[e.r].task, session);
    }
    if e.Write? && At(s, e.r) {
      AppendShows(s, s.tasks[s.runs[e.r].task].session, e.text, session);
    }
    if Rebuilds(s, e) {
      RebuildShows(s, s.tasks[s.resumes[e.k]].session, e.turns, session);
    }
    hide Deliver, Rebuild, Append;
  }

  /** Every delivered message belongs to a task that was known before the event. */
  lemma DeliveredKnown(s: State, e: Event)
    requires Inv(s)
    ensures TargetsKnown(s.tasks, Next(s, e).traffic.delivered)
  {
    NextTraffic(s, e);
    hide Next;
    if e.IterationStart? && At(s, e.r) {
      ExceptKeepsActive(s.tasks, s.runs[e.r].task, s.traffic.queue);
    }
  }

  lemma NextShows(s: State, e: Event, session: string)
    requires Inv(s) && Shows(s, session)
    ensures Shows(Next(s, e), session)
  {
    var s' := Next(s, e);
    NextTrafficShows(s, e, session);
    NextKeepsSessions(s, e);
    DeliveredKnown(s, e);
    hide Next;
    InSessionSame(s.tasks, s'.tasks, session, s'.traffic.delivered[Since(s'.traffic, session)..]);
  }

  /** After any events from any restart, the transcript of a session holds exactly the messages
      delivered to its tasks since it was last rebuilt, in order of delivery. */
  lemma {:induction false} TranscriptsShow(metas: seq<Meta>, es: seq<Event>, session: string)
    ensures Shows(After(Loaded(metas), es), session)
  {
    LoadedIsGood(metas);
    if es != [] {
      var k := |es| - 1;
      TranscriptsShow(metas, es[..k], session);
      EveryRunIsGood(Loaded(metas), es[..k]);
      NextShows(After(Loaded(metas), es[..k]), es[k], session);
    }
  }

  /** The `i`th event of a run rebuilds the session. */
  ghost predicate RebuiltAt(s: State, es: seq<Event>, session: string, i: nat) {
    i < |es| &&
    var s' := After(s, es[..i]);
    Rebuilds(s', es[i]) && s'.tasks[s'.resumes[es[i].k]].session == session
  }

  /** The messages delivered to a session in a run. */
  function DeliveredTo(s: State, session: string): seq<Queued> {
    InSession(s.tasks, session, s.traffic.delivered)
  }

  /** Every rebuild of the session comes before any delivery to it. */
  ghost predicate RebuiltBeforeDeliveries(s: State, es: seq<Event>, session: string) {
    forall i: nat :: RebuiltAt(s, es, session, i) ==> DeliveredTo(After(s, es[..i]), session) == []
  }

  lemma RebuiltEarlier(s: State, es: seq<Event>, n: nat, session: string)
    requires n + 1 == |es|
    ensures RebuiltBeforeDeliveries(s, es, session) <==>
            && RebuiltBeforeDeliveries(s, es[..n], session)
            && (RebuiltAt(s, es, session, n) ==> DeliveredTo(After(s, es[..n]), session) == [])
  {
    hide After, Rebuilds, DeliveredTo;
    forall i: nat | i < n
      ensures RebuiltAt(s, es[..n], session, i) <==> RebuiltAt(s, es, session, i)
      ensures es[..n][..i] == es[..i]
    {
      assert es[..n][..i] == es[..i];
    }
  }

  /** The messages delivered to the session before it was last rebuilt. */
  function Forgotten(s: State, session: string): seq<Queued>
    requires Since(s.traffic, session) <= |s.traffic.delivered|
  {
    InSession(s.tasks, session, s.traffic.delivered[..Since(s.traffic, session)])
  }

  lemma ForgottenOrShown(s: State, session: string)
    requires Shows(s, session)
    ensures DeliveredTo(s, session) == Forgotten(s, session) + Received(Transcript(s.traffic, session))
  {
    hide InSession, Received, Since;
    var d, n := s.traffic.delivered, Since(s.traffic, session);
    InSessionConcat(s.tasks, session, d[..n], d[n..]);
    assert d[..n] + d[n..] == d;
  }

  /** An event forgets exactly when it rebuilds the session after deliveries to it. */
  lemma NextForgets(s: State, e: Event, session: string)
    requires Inv(s) && Shows(s, session)
    ensures var s' := Next(s, e);
            var rebuilt := Rebuilds(s, e) && s.tasks[s.resumes[e.k]].session == session;
            && Since(s'.traffic, session) <= |s'.traffic.delivered|
            && Forgotten(s', session) == if rebuilt then DeliveredTo(s, session) else Forgotten(s, session)
  {
    hide Next, Inv, InSession, Received, TrafficOk;
    var s' := Next(s, e);
    NextTraffic(s, e);
    NextKeepsSessions(s, e);
    DeliveredStays(s);
    var d, n := s.traffic.delivered, Since(s.traffic, session);
    InSessionSame(s.tasks, s'.tasks, session, d);
    InSessionSame(s.tasks, s'.tasks, session, d[..n]);
    assert d <= s'.traffic.delivered && d[..|d|] == d;
    assert s'.traffic.delivered[..n] == d[..n];
  }

  lemma DeliveredStays(s: State)
    requires Inv(s)
    ensures TargetsKnown(s.tasks, s.traffic.delivered)
  {
  }

  lemma {:induction false} NothingForgottenIff(metas: seq<Meta>, es: seq<Event>, session: string)
    ensures var s := After(Loaded(metas), es);
            && Since(s.traffic, session) <= |s.traffic.delivered|
            && (Forgotten(s, session) == [] <==> RebuiltBeforeDeliveries(Loaded(metas), es, session))
  {
    var s0 := Loaded(metas);
    LoadedIsGood(metas);
    if es != [] {
      var n := |es| - 1;
      var s := After(s0, es[..n]);
      NothingForgottenIff(metas, es[..n], session);
      TranscriptsShow(metas, es[..n], session);
      EveryRunIsGood(s0, es[..n]);
      NextForgets(s, es[n], session);
      RebuiltEarlier(s0, es, n, session);
      ForgottenOrShown(s, session);
    }
  }

  /** After any events from any restart, the transcript of a session holds every message ever delivered
      to its tasks if and only if each rebuild of it came before any delivery. */
  lemma NothingIsForgottenIff(metas: seq<Meta>, es: seq<Event>, session: string)
    ensures var s := After(Loaded(metas), es);
            Received(Transcript(s.traffic, session)) == DeliveredTo(s, session)
            <==> RebuiltBeforeDeliveries(Loaded(metas), es, session)
  {
    var s := After(Loaded(metas), es);
    TranscriptsShow(metas, es, session);
    NothingForgottenIff(metas, es, session);
    ForgottenOrShown(s, session);
    hide After, Loaded, RebuiltBeforeDeliveries, Forgotten;
    var f, r := Forgotten(s, session), Received(Transcript(s.traffic, session));
    assert |f + r| == |f| + |r|;
  }

  /** A `resumeTask` call that comes too late changes no task and starts no inner loop, yet it has
      already rebuilt the session: no message delivered before is left in the transcript. */
  lemma LateResumeForgets(s: State, k: nat, turns: seq<string>)
    requires k < |s.resumes| && s.resumes[k] in s.tasks
    requires s.tasks[s.resumes[k]].status == Executing || s.tasks[s.resumes[k]].status.Terminal()
    ensures var s', session := AfterReplay(s, k, turns), s.tasks[s.resumes[k]].session;
            && s'.tasks == s.tasks && s'.runs == s.runs && s'.contexts == s.contexts
            && s'.traffic.delivered == s.traffic.delivered
            && Transcript(s'.traffic, session) == Others(turns)
            && Received(Transcript(s'.traffic, session)) == []
  {
    TransitionFacts(s.tasks[s.resumes[k]].status, Executing);
    ReceivedOthers(turns);
  }

  lemma SubmitStep(s: State, t: TaskId, content: string, newId: TaskId)
    requires s.store == [t] && t in s.tasks && s.tasks[t].status == Executing
    ensures Next(s, Submit(s.tasks[t].session, content, newId)) == s.(traffic := Enqueue(s.traffic, t, content))
  {
    hide Enqueue;
  }

  lemma DeliverStep(s: State, t: TaskId)
    requires s.runs == [Run(t, Building)] && t in s.tasks
    ensures Next(Next(s, Built(0)), IterationStart(0)) ==
            s.(runs := [Run(t, Running)], traffic := Deliver(s.traffic, t, s.tasks[t].session))
  {
    hide Deliver;
  }

  lemma ReplayLate(s: State, turns: seq<string>)
    requires s.resumes != [] && s.resumes[0] in s.tasks && s.tasks[s.resumes[0]].status == Executing
    ensures Next(s, Replayed(0, turns)).traffic == Rebuild(s.traffic, s.tasks[s.resumes[0]].session, turns)
    ensures Received(Transcript(Next(s, Replayed(0, turns)).traffic, s.tasks[s.resumes[0]].session)) == []
  {
    LateResumeForgets(s, 0, turns);
  }

  /** The queued message `m` is delivered and forgotten. */
  lemma DeliverThenReplay(s: State, t: TaskId, m: Queued)
    requires s.resumes == [t] && s.runs == [Run(t, Building)] && t in s.tasks && s.tasks[t].status == Executing
    requires s.traffic.queue == [m] && m.target == t && s.traffic.delivered == []
    ensures var tr := Next(Next(Next(s, Built(0)), IterationStart(0)), Replayed(0, [])).traffic;
            tr.delivered == [m] && Received(Transcript(tr, s.tasks[t].session)) == []
  {
    DeliverStep(s, t);
    hide Next, Received;
    AllFor(t, [m]);
    var s6 := s.(runs := [Run(t, Running)], traffic := Deliver(s.traffic, t, s.tasks[t].session));
    ReplayLate(s6, []);
  }

  /** Two overlapping `resumeTask` calls, of which one goes through. */
  lemma ResumeTwiceReplayOnce(s: State, t: TaskId)
    requires s.store == [t] && t in s.tasks && s.tasks[t].status == Interrupted
    requires s.resumes == [] && s.runs == []
    ensures var task, s' := s.tasks[t], Next(Next(Next(s, Resume(t)), Resume(t)), Replayed(0, []));
            && s'.tasks == s.tasks[t := task.(status := Executing)] && s'.store == [t]
            && s'.resumes == [t] && s'.runs == [Run(t, Building)]
            && s'.traffic == Rebuild(s.traffic, task.session, [])
  {
    hide Next, Rebuild;
    assert s.resumes + [t] == [t] && [t] + [t] == [t, t] && [t, t][1..] == [t];
    assert s.runs + [Run(t, Building)] == [Run(t, Building)];
    ResumeStep(s, t);
    ResumeStep(s.(resumes := [t]), t);
    ReplayStep(s.(resumes := [t, t]), []);
  }

  /** Two overlapping `resumeTask` calls for the only task `t`; between the moments they go through, a
      message is queued for it and delivered. It is in no transcript afterwards. */
  lemma DeliveredThenForgotten(s: State, t: TaskId, content: string, newId: TaskId)
    requires s.store == [t] && t in s.tasks && s.tasks[t].status == Interrupted
    requires s.resumes == [] && s.runs == [] && s.traffic.queue == [] && s.traffic.delivered == []
    ensures var session := s.tasks[t].session;
            var s3 := Next(Next(Next(s, Resume(t)), Resume(t)), Replayed(0, []));
            var s4 := Next(s3, Submit(session, content, newId));
            var tr := Next(Next(Next(s4, Built(0)), IterationStart(0)), Replayed(0, [])).traffic;
            && |tr.delivered| == 1 && tr.delivered[0].content == content && tr.delivered[0].target == t
            && Received(Transcript(tr, session)) == []
  {
    hide Next, Received;
    ResumeTwiceReplayOnce(s, t);
    var s3 := Next(Next(Next(s, Resume(t)), Resume(t)), Replayed(0, []));
    SubmitStep(s3, t, content, newId);
    var s4 := s3.(traffic := Enqueue(s3.traffic, t, content));
    DeliverThenReplay(s4, t, Queued(|s3.traffic.accepted|, t, content));
  }
}
