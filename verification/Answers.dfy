/**
 What each request is answered, whatever the handler returned: replies by position, NoResponse where replies run
 out, the error where the handler failed; and a failed batch reports its error once.
 */
module Answers {
  import opened Machine
  import opened Formation
  import opened Invariant
  import opened Conservation
  import opened ControlReports

  // ---------------------------------------------------------------- what the handlers returned

  /** Which handler tasks have returned, and what. */
  function Note(outs: map<nat, Outcome>, a: Act): map<nat, Outcome> {
    if a.Do? && a.work.Handle? then outs[a.work.task := a.work.out] else outs
  }

  function Notes(outs: map<nat, Outcome>, acts: seq<Act>): map<nat, Outcome>
    decreases |acts|
  {
    if acts == [] then outs else Notes(Note(outs, acts[0]), acts[1..])
  }

  ghost predicate Noted(outs: map<nat, Outcome>, tasks: seq<Task>) {
    forall t: nat :: t in outs <==> t < |tasks| && tasks[t].phase.Emitting?
  }

  // ---------------------------------------------------------------- where a response can be

  predicate ToldAt(outs: map<nat, Outcome>, tasks: seq<Task>, m: Mid, a: Answer, t: nat, k: nat) {
    && t in outs && t < |tasks| && k < |tasks[t].mids| && tasks[t].mids[k] == m
    && a == match outs[t]
            case Done(replies) => if k < |replies| then Answered(replies[k]) else NoResponse
            case Failed(fault) => Other(fault)
  }

  /** Some task that has returned accounts for the response. */
  ghost predicate Told(outs: map<nat, Outcome>, tasks: seq<Task>, m: Mid, a: Answer) {
    exists t: nat, k: nat :: ToldAt(outs, tasks, m, a, t, k)
  }

  ghost predicate AllTold(outs: map<nat, Outcome>, tasks: seq<Task>, es: seq<Event>) {
    forall e :: e in es && e.Response? ==> Told(outs, tasks, e.mid, e.answer)
  }

  /** What a task still has to send tells of its own requests only. */
  ghost predicate TasksTold(outs: map<nat, Outcome>, tasks: seq<Task>) {
    forall t: nat :: t < |tasks| && tasks[t].phase.Emitting? ==> AllTold(outs, tasks, tasks[t].phase.events)
  }

  /** A response was sent to the event loop, or a task is about to send it. */
  ghost predicate Responded(s: State, m: Mid, a: Answer) {
    || Response(m, a) in s.sink.seen || Response(m, a) in s.sink.events
    || exists t :: 0 <= t < |s.work.tasks| && InTask(s.work.tasks[t], Response(m, a))
  }

  predicate InTask(task: Task, e: Event) {
    task.phase.Emitting? && e in task.phase.events
  }

  /** Every task that has returned has its responses on their way. */
  ghost predicate Responding(outs: map<nat, Outcome>, s: State) {
    forall m: Mid, a: Answer, t: nat, k: nat :: ToldAt(outs, s.work.tasks, m, a, t, k) ==> Responded(s, m, a)
  }

  /** What the loop holds or has dealt with came to it as an event. */
  ghost predicate Taken(s: State) {
    && (forall e :: e in s.sink.answered ==> e in s.sink.seen)
    && (forall i :: 0 <= i < |s.desk.delivered| ==>
          Response(s.desk.delivered[i].mid, s.desk.delivered[i].answer) in s.sink.seen)
    && (s.sink.loop.OweNotify? || s.sink.loop.OweDeliver? ==>
          Response(s.sink.loop.mid, s.sink.loop.answer) in s.sink.seen)
  }

  ghost predicate Accounted(outs: map<nat, Outcome>, s: State) {
    && Noted(outs, s.work.tasks) && TasksTold(outs, s.work.tasks) && Responding(outs, s) && Taken(s)
    && AllTold(outs, s.work.tasks, s.sink.events) && AllTold(outs, s.work.tasks, s.sink.seen)
  }

  // ---------------------------------------------------------------- steps

  /** Tasks only grow in number, and keep their requests. */
  ghost predicate Grows(tasks: seq<Task>, tasks': seq<Task>) {
    |tasks| <= |tasks'| && forall t :: 0 <= t < |tasks| ==> tasks'[t].mids == tasks[t].mids
  }

  lemma StepGrows(c: Config, s: State, a: Act)
    requires Enabled(c, s, a)
    ensures Grows(s.work.tasks, Apply(c, s, a).work.tasks)
  {
  }

  lemma ToldStays(outs: map<nat, Outcome>, outs': map<nat, Outcome>, tasks: seq<Task>, tasks': seq<Task>,
      es: seq<Event>)
    requires AllTold(outs, tasks, es) && Grows(tasks, tasks')
    requires forall t :: t in outs ==> t in outs' && outs'[t] == outs[t]
    ensures AllTold(outs', tasks', es)
  {
    forall e | e in es && e.Response?
      ensures Told(outs', tasks', e.mid, e.answer)
    {
      var t: nat, k: nat :| ToldAt(outs, tasks, e.mid, e.answer, t, k);
      assert ToldAt(outs', tasks', e.mid, e.answer, t, k);
    }
  }

  /** The events of a batch tell of its requests what its outcome says. */
  lemma TaskEventsTell(c: Config, outs: map<nat, Outcome>, tasks: seq<Task>, t: nat, out: Outcome)
    requires t < |tasks| && t in outs && outs[t] == out
    ensures AllTold(outs, tasks, TaskEvents(c, tasks[t].mids, out))
    ensures forall m: Mid, a: Answer, k: nat :: ToldAt(outs, tasks, m, a, t, k) ==>
              Response(m, a) in TaskEvents(c, tasks[t].mids, out)
  {
    var mids := tasks[t].mids;
    var es := TaskEvents(c, mids, out);
    forall e | e in es && e.Response?
      ensures Told(outs, tasks, e.mid, e.answer)
    {
      var k :| 0 <= k < |es| && es[k] == e;
      assert es[k] == Responses(mids, out)[k];
      assert ToldAt(outs, tasks, e.mid, e.answer, t, k);
    }
    forall m: Mid, a: Answer, k: nat | ToldAt(outs, tasks, m, a, t, k)
      ensures Response(m, a) in es
    {
      assert es[k] == Responses(mids, out)[k] == Response(m, a);
    }
  }

  lemma HandleAccounted(c: Config, outs: map<nat, Outcome>, s: State, t: nat, out: Outcome)
    requires Accounted(outs, s) && Enabled(c, s, Do(Handle(t, out)))
    ensures Accounted(outs[t := out], Apply(c, s, Do(Handle(t, out))))
  {
    var a := Do(Handle(t, out));
    var s', outs' := Apply(c, s, a), outs[t := out];
    var tasks, tasks' := s.work.tasks, s'.work.tasks;
    assert t !in outs;
    StepGrows(c, s, a);
    TaskEventsTell(c, outs', tasks', t, out);
    ToldStays(outs, outs', tasks, tasks', s.sink.events);
    ToldStays(outs, outs', tasks, tasks', s.sink.seen);
    forall u: nat | u < |tasks'| && tasks'[u].phase.Emitting?
      ensures AllTold(outs', tasks', tasks'[u].phase.events)
    {
      if u != t {
        ToldStays(outs, outs', tasks, tasks', tasks[u].phase.events);
      }
    }
    forall m: Mid, x: Answer, u: nat, k: nat | ToldAt(outs', tasks', m, x, u, k)
      ensures Responded(s', m, x)
    {
      if u == t {
        assert InTask(tasks'[t], Response(m, x));
      } else {
        assert ToldAt(outs, tasks, m, x, u, k) && Responded(s, m, x);
        if v :| 0 <= v < |tasks| && InTask(tasks[v], Response(m, x)) {
          assert InTask(tasks'[v], Response(m, x));
        }
      }
    }
  }

  /** An event moves from its task to the event channel. */
  lemma EmitAccounted(c: Config, outs: map<nat, Outcome>, s: State, t: nat)
    requires Accounted(outs, s) && Enabled(c, s, Do(Emit(t)))
    ensures Accounted(outs, Apply(c, s, Do(Emit(t))))
  {
    var s' := Apply(c, s, Do(Emit(t)));
    var tasks, tasks' := s.work.tasks, s'.work.tasks;
    var es := tasks[t].phase.events;
    assert es == [es[0]] + es[1..] && es[0] in es;
    StepGrows(c, s, Do(Emit(t)));
    ToldStays(outs, outs, tasks, tasks', s.sink.events);
    ToldStays(outs, outs, tasks, tasks', s.sink.seen);
    ToldStays(outs, outs, tasks, tasks', es);
    forall u: nat | u < |tasks'| && tasks'[u].phase.Emitting?
      ensures AllTold(outs, tasks', tasks'[u].phase.events)
    {
      ToldStays(outs, outs, tasks, tasks', tasks[u].phase.events);
    }
    forall m: Mid, x: Answer, u: nat, k: nat | ToldAt(outs, tasks', m, x, u, k)
      ensures Responded(s', m, x)
    {
      assert ToldAt(outs, tasks, m, x, u, k) && Responded(s, m, x);
      if v :| 0 <= v < |tasks| && InTask(tasks[v], Response(m, x)) {
        assert v != t || Response(m, x) == es[0] || InTask(tasks'[v], Response(m, x));
        assert v != t ==> InTask(tasks'[v], Response(m, x));
      }
    }
  }

  /** The loop takes an event: it is seen from now on. */
  lemma TakeAccounted(c: Config, outs: map<nat, Outcome>, s: State)
    requires Accounted(outs, s) && Enabled(c, s, Take)
    ensures Accounted(outs, Apply(c, s, Take))
  {
    var s' := Apply(c, s, Take);
    var e := s.sink.events[0];
    assert s.sink.events == [e] + s.sink.events[1..];
    forall m: Mid, x: Answer, u: nat, k: nat | ToldAt(outs, s'.work.tasks, m, x, u, k)
      ensures Responded(s', m, x)
    {
      assert ToldAt(outs, s.work.tasks, m, x, u, k) && Responded(s, m, x);
    }
  }

  /** Other steps of the poller may add a task that has not returned, and events that are no responses. */
  lemma PollerAccounted(c: Config, outs: map<nat, Outcome>, s: State, a: Act)
    requires Accounted(outs, s) && Enabled(c, s, a)
    requires a.Recv? || (a.Do? && !a.work.Handle? && !a.work.Emit?)
    ensures Accounted(outs, Apply(c, s, a))
  {
    var s' := Apply(c, s, a);
    var tasks, tasks' := s.work.tasks, s'.work.tasks;
    PollerSpawns(c, s, a);
    ToldStays(outs, outs, tasks, tasks', s.sink.events);
    ToldStays(outs, outs, tasks, tasks', s.sink.seen);
    forall u: nat | u < |tasks'| && tasks'[u].phase.Emitting?
      ensures AllTold(outs, tasks', tasks'[u].phase.events)
    {
      ToldStays(outs, outs, tasks, tasks', tasks[u].phase.events);
    }
    forall m: Mid, x: Answer, u: nat, k: nat | ToldAt(outs, tasks', m, x, u, k)
      ensures Responded(s', m, x)
    {
      assert ToldAt(outs, tasks, m, x, u, k) && Responded(s, m, x);
      if v :| 0 <= v < |tasks| && InTask(tasks[v], Response(m, x)) {
        assert InTask(tasks'[v], Response(m, x));
      }
    }
  }

  lemma PollerSpawns(c: Config, s: State, a: Act)
    requires Enabled(c, s, a) && (a.Recv? || (a.Do? && !a.work.Handle? && !a.work.Emit?))
    ensures var s' := Apply(c, s, a); var tasks, tasks' := s.work.tasks, s'.work.tasks;
            && Grows(tasks, tasks')
            && (forall u :: 0 <= u < |tasks| && tasks[u].phase.Emitting? ==> tasks'[u] == tasks[u])
            && (forall u :: 0 <= u < |tasks'| && tasks'[u].phase.Emitting? ==> u < |tasks| && tasks[u].phase.Emitting?)
            && s'.sink.seen == s.sink.seen && s.sink.events <= s'.sink.events
            && (forall e :: e in s'.sink.events ==> e in s.sink.events || !e.Response?)
            && s'.sink.answered == s.sink.answered && s'.sink.loop == s.sink.loop && s'.desk == s.desk
  {
  }

  /** Steps of senders, and of the loop once it holds a response, move no event. */
  lemma QuietAccounted(c: Config, outs: map<nat, Outcome>, s: State, a: Act)
    requires Accounted(outs, s) && Enabled(c, s, a) && !a.Recv? && !a.Do? && !a.Take?
    ensures Accounted(outs, Apply(c, s, a))
  {
    var s' := Apply(c, s, a);
    assert s'.work == s.work && s'.sink.events == s.sink.events && s'.sink.seen == s.sink.seen;
    forall m: Mid, x: Answer, u: nat, k: nat | ToldAt(outs, s'.work.tasks, m, x, u, k)
      ensures Responded(s', m, x)
    {
      assert Responded(s, m, x);
    }
  }

  lemma AccountedStep(c: Config, outs: map<nat, Outcome>, s: State, a: Act)
    requires Accounted(outs, s) && Enabled(c, s, a)
    ensures Accounted(Note(outs, a), Apply(c, s, a))
    ensures forall t :: t in outs ==> t in Note(outs, a) && Note(outs, a)[t] == outs[t]
  {
    if a.Take? {
      TakeAccounted(c, outs, s);
    } else if a.Do? && a.work.Handle? {
      assert a.work.task !in outs;
      HandleAccounted(c, outs, s, a.work.task, a.work.out);
    } else if a.Do? && a.work.Emit? {
      EmitAccounted(c, outs, s, a.work.task);
    } else if a.Recv? || a.Do? {
      PollerAccounted(c, outs, s, a);
    } else {
      QuietAccounted(c, outs, s, a);
    }
  }

  lemma {:induction false} AccountedRun(c: Config, outs: map<nat, Outcome>, s: State, acts: seq<Act>)
    requires Accounted(outs, s) && Valid(c, s, acts)
    ensures Accounted(Notes(outs, acts), Exec(c, s, acts))
    ensures forall t :: t in outs ==> t in Notes(outs, acts) && Notes(outs, acts)[t] == outs[t]
    ensures forall i :: 0 <= i < |acts| && acts[i].Do? && acts[i].work.Handle? ==>
              acts[i].work.task in Notes(outs, acts) && Notes(outs, acts)[acts[i].work.task] == acts[i].work.out
    ensures Grows(s.work.tasks, Exec(c, s, acts).work.tasks)
    decreases |acts|
  {
    if acts != [] {
      var a, rest := acts[0], acts[1..];
      AccountedStep(c, outs, s, a);
      StepGrows(c, s, a);
      AccountedRun(c, Note(outs, a), Apply(c, s, a), rest);
      forall i | 0 <= i < |acts| && acts[i].Do? && acts[i].work.Handle?
        ensures acts[i].work.task in Notes(outs, acts) && Notes(outs, acts)[acts[i].work.task] == acts[i].work.out
      {
        if i > 0 {
          assert rest[i - 1] == acts[i];
        }
      }
    }
  }

  // ---------------------------------------------------------------- requests are in one place

  /** Position k of task t in the dispatched requests. */
  function Offset(tasks: seq<Task>, t: nat): nat
    requires t <= |tasks|
  {
    |FlatMids(tasks[..t])|
  }

  lemma {:induction false} FlatAt(tasks: seq<Task>, t: nat, k: nat)
    requires t < |tasks| && k < |tasks[t].mids|
    ensures Offset(tasks, t) + k < Offset(tasks, t + 1) <= |FlatMids(tasks)|
    ensures FlatMids(tasks)[Offset(tasks, t) + k] == tasks[t].mids[k]
    decreases |tasks|
  {
    var n := |tasks| - 1;
    if t == n {
      assert tasks[..n + 1] == tasks;
    } else {
      FlatAt(tasks[..n], t, k);
      assert tasks[..n][..t] == tasks[..t] && tasks[..n][..t + 1] == tasks[..t + 1];
    }
  }

  lemma {:induction false} OffsetGrows(tasks: seq<Task>, t: nat, u: nat)
    requires t <= u <= |tasks|
    ensures Offset(tasks, t) <= Offset(tasks, u)
    decreases u - t
  {
    if t < u {
      OffsetGrows(tasks, t, u - 1);
      assert tasks[..u][..u - 1] == tasks[..u - 1];
    }
  }

  /** No request is in two tasks, or twice in one. */
  lemma OnePlace(c: Config, n: nat, s: State, t: nat, k: nat, u: nat, j: nat)
    requires Reachable(c, n, s) && t < |s.work.tasks| && u < |s.work.tasks|
    requires k < |s.work.tasks[t].mids| && j < |s.work.tasks[u].mids|
    requires s.work.tasks[t].mids[k] == s.work.tasks[u].mids[j]
    ensures t == u && k == j
  {
    var tasks := s.work.tasks;
    var flat := FlatMids(tasks);
    ReachableFormed(c, n, s);
    ReceivedAndQueued(s.chan);
    assert flat <= JobMids(s.chan.jobs);
    FlatAt(tasks, t, k);
    FlatAt(tasks, u, j);
    assert flat[Offset(tasks, t) + k].id == Offset(tasks, t) + k;
    assert flat[Offset(tasks, u) + j].id == Offset(tasks, u) + j;
    if t < u {
      OffsetGrows(tasks, t + 1, u);
    } else if u < t {
      OffsetGrows(tasks, u + 1, t);
    }
  }

  // ---------------------------------------------------------------- the theorem

  lemma StartAccounted(c: Config, n: nat)
    ensures Accounted(map[], Start(c, n))
  {
  }

  /**
   In every run, once the handler of the batch that holds m at position k has returned `out`, the one response to m
   that is sent, or about to be, is the error if the handler failed, the k-th reply if there is one, and NoResponse
   if the replies have run out.
   */
  lemma AnsweredByPosition(c: Config, n: nat, acts: seq<Act>, i: nat, k: nat)
    requires Valid(c, Start(c, n), acts) && i < |acts| && acts[i].Do? && acts[i].work.Handle?
    ensures var s, t, out := Exec(c, Start(c, n), acts), acts[i].work.task, acts[i].work.out;
            t < |s.work.tasks| && (k < |s.work.tasks[t].mids| ==> forall a: Answer ::
              Responded(s, s.work.tasks[t].mids[k], a) <==>
                match out
                case Failed(fault) => a == Other(fault)
                case Done(replies) => if k < |replies| then a == Answered(replies[k]) else a == NoResponse)
  {
    var s, t, out := Exec(c, Start(c, n), acts), acts[i].work.task, acts[i].work.out;
    var outs := Notes(map[], acts);
    StartAccounted(c, n);
    AccountedRun(c, map[], Start(c, n), acts);
    assert t in outs && outs[t] == out;
    if k < |s.work.tasks[t].mids| {
      var m := s.work.tasks[t].mids[k];
      forall a: Answer
        ensures Responded(s, m, a) <==> ToldAt(outs, s.work.tasks, m, a, t, k)
      {
        if Responded(s, m, a) {
          RespondedTold(outs, s, m, a);
          var u: nat, j: nat :| ToldAt(outs, s.work.tasks, m, a, u, j);
          assert Reachable(c, n, s);
          OnePlace(c, n, s, t, k, u, j);
        }
      }
    }
  }

  lemma RespondedTold(outs: map<nat, Outcome>, s: State, m: Mid, a: Answer)
    requires Accounted(outs, s) && Responded(s, m, a)
    ensures Told(outs, s.work.tasks, m, a)
  {
    if t :| 0 <= t < |s.work.tasks| && InTask(s.work.tasks[t], Response(m, a)) {
      assert AllTold(outs, s.work.tasks, s.work.tasks[t].phase.events);
    }
  }

  /** What the loop holds, has answered or has delivered is a response sent to it. */
  lemma DeliveredWasSent(c: Config, n: nat, s: State)
    requires Reachable(c, n, s)
    ensures forall m: Mid, a: Answer :: Response(m, a) in s.sink.answered ==> Responded(s, m, a)
    ensures forall i :: 0 <= i < |s.desk.delivered| ==>
              Responded(s, s.desk.delivered[i].mid, s.desk.delivered[i].answer)
    ensures s.sink.loop.OweNotify? || s.sink.loop.OweDeliver? ==> Responded(s, s.sink.loop.mid, s.sink.loop.answer)
  {
    var acts :| Valid(c, Start(c, n), acts) && Exec(c, Start(c, n), acts) == s;
    StartAccounted(c, n);
    AccountedRun(c, map[], Start(c, n), acts);
  }

  // ---------------------------------------------------------------- reports of failed batches

  /** How many handlers returned this error in the run. */
  function Failures(acts: seq<Act>, fault: Fault): nat {
    if acts == [] then 0
    else
      (if acts[0].Do? && acts[0].work.Handle? && acts[0].work.out == Failed(fault) then 1 else 0)
      + Failures(acts[1..], fault)
  }

  /** Reports of the error that tasks are still to send. */
  function Unsent(tasks: seq<Task>, fault: Fault): nat {
    if tasks == [] then 0 else Unsent(tasks[..|tasks| - 1], fault) + InHand(tasks[|tasks| - 1].phase, fault)
  }

  function InHand(p: Phase, fault: Fault): nat {
    if p.Emitting? then multiset(p.events)[BatchError(fault)] else 0
  }

  lemma {:induction false} UnsentUpdate(tasks: seq<Task>, t: nat, task: Task, fault: Fault)
    requires t < |tasks|
    ensures Unsent(tasks[t := task], fault) + InHand(tasks[t].phase, fault)
         == Unsent(tasks, fault) + InHand(task.phase, fault)
  {
    var n := |tasks| - 1;
    if t < n {
      assert tasks[t := task][..n] == tasks[..n][t := task];
      UnsentUpdate(tasks[..n], t, task, fault);
    } else {
      assert tasks[t := task][..n] == tasks[..n];
    }
  }

  lemma UnsentSpawn(tasks: seq<Task>, task: Task, fault: Fault)
    requires !task.phase.Emitting?
    ensures Unsent(tasks + [task], fault) == Unsent(tasks, fault)
  {
    assert (tasks + [task])[..|tasks|] == tasks;
  }

  /** All reports of the error, sent or still to be sent. */
  function ErrorReports(s: State, fault: Fault): nat {
    multiset(AllEvents(s.sink))[BatchError(fault)] + Unsent(s.work.tasks, fault)
  }

  lemma ReportsIn(c: Config, mids: seq<Mid>, out: Outcome, fault: Fault)
    ensures multiset(TaskEvents(c, mids, out))[BatchError(fault)]
         == if c.Batched() && out == Failed(fault) then 1 else 0
  {
    var answers := Responses(mids, out);
    assert BatchError(fault) !in answers;
    if c.Batched() && out.Failed? {
      assert TaskEvents(c, mids, out) == answers + [BatchError(out.fault)];
    } else {
      assert TaskEvents(c, mids, out) == answers;
    }
  }

  lemma UnsentAcquire(w: Work, fault: Fault)
    requires (w.poller.AtAcquireFull? || w.poller.AtAcquire?) && w.avail >= 1
    ensures Unsent(AcquireStep(w).tasks, fault) == Unsent(w.tasks, fault)
  {
    var tasks' := AcquireStep(w).tasks;
    assert tasks' == w.tasks + [tasks'[|w.tasks|]];
    UnsentSpawn(w.tasks, tasks'[|w.tasks|], fault);
  }

  /** The head of what a task has to send leaves its hand. */
  lemma InHandEmit(events: seq<Event>, fault: Fault)
    requires events != []
    ensures InHand(Emitting(events), fault)
         == InHand(Emitting(events[1..]), fault) + multiset([events[0]])[BatchError(fault)]
  {
    assert events == [events[0]] + events[1..];
  }

  lemma UnsentDo(c: Config, w: Work, a: WorkAct, fault: Fault)
    requires EnabledWork(c, w, a)
    ensures Unsent(WorkStep(c, w, a).tasks, fault) + multiset(WorkEvents(c, w, a))[BatchError(fault)]
         == Unsent(w.tasks, fault) + if c.Batched() && a.Handle? && a.out == Failed(fault) then 1 else 0
  {
    var tasks, tasks' := w.tasks, WorkStep(c, w, a).tasks;
    match a {
      case Lock(t) => UnsentUpdate(tasks, t, tasks'[t], fault);
      case Handle(t, out) =>
        UnsentUpdate(tasks, t, tasks'[t], fault);
        ReportsIn(c, tasks[t].mids, out, fault);
      case Emit(t) =>
        UnsentUpdate(tasks, t, tasks'[t], fault);
        InHandEmit(tasks[t].phase.events, fault);
      case Acquire => UnsentAcquire(w, fault);
      case Drained =>
      case SyncStart =>
      case SyncEnd =>
      case Joined =>
      case Leave =>
    }
  }

  lemma UnsentRecv(c: Config, w: Work, item: Item, fault: Fault)
    ensures Unsent(RecvStep(c, w, item).tasks, fault) == Unsent(w.tasks, fault)
    ensures multiset(RecvEvents(c, item))[BatchError(fault)] == 0
  {
    var tasks, tasks' := w.tasks, RecvStep(c, w, item).tasks;
    if |tasks'| > |tasks| {
      assert tasks' == tasks + [tasks'[|tasks|]];
      UnsentSpawn(tasks, tasks'[|tasks|], fault);
    }
  }

  lemma ReportsStep(c: Config, s: State, a: Act, fault: Fault)
    requires Enabled(c, s, a)
    ensures ErrorReports(Apply(c, s, a), fault)
         == ErrorReports(s, fault) + if c.Batched() then Failures([a], fault) else 0
  {
    assert [a][1..] == [];
    match a {
      case Recv =>
        UnsentRecv(c, s.work, s.chan.queue[0], fault);
        StreamAfter(s.sink, RecvEvents(c, s.chan.queue[0]), BatchError(fault));
      case Do(w) =>
        UnsentDo(c, s.work, w, fault);
        StreamAfter(s.sink, WorkEvents(c, s.work, w), BatchError(fault));
      case Take => TakeStream(s.sink);
      case Client(_, _) =>
      case Push(_) =>
      case Notify =>
      case Deliver =>
      case Stop =>
    }
  }

  lemma {:induction false} ReportsRun(c: Config, s: State, acts: seq<Act>, fault: Fault)
    requires Valid(c, s, acts)
    ensures ErrorReports(Exec(c, s, acts), fault)
         == ErrorReports(s, fault) + if c.Batched() then Failures(acts, fault) else 0
    decreases |acts|
  {
    if acts != [] {
      ReportsStep(c, s, acts[0], fault);
      ReportsRun(c, Apply(c, s, acts[0]), acts[1..], fault);
      assert [acts[0]][1..] == [] && Failures([acts[0]], fault) + Failures(acts[1..], fault) == Failures(acts, fault);
    }
  }

  /**
   In every run the reports of an error, sent or still with a task, are as many as batches failed with it; the
   unbatched kinds report none.
   */
  lemma OneReportEach(c: Config, n: nat, acts: seq<Act>, fault: Fault)
    requires Valid(c, Start(c, n), acts)
    ensures var s := Exec(c, Start(c, n), acts);
            multiset(s.sink.seen + s.sink.events)[BatchError(fault)] + Unsent(s.work.tasks, fault)
            == if c.kind.UnorderedBatched? || c.kind.SynchronizedBatched? then Failures(acts, fault) else 0
  {
    ReportsRun(c, Start(c, n), acts, fault);
  }
}
