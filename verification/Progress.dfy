/**
 Progress of the poller, handler tasks and the event loop: they can only take boundedly many steps on their
 own, and what a state looks like when none of them can move.
 */
module Progress {
  import opened Machine
  import opened Formation
  import opened Exclusion
  import opened Invariant

  // ---------------------------------------------------------------- nothing can move

  lemma IdleSink(c: Config, s: State)
    requires Stuck(c, s) && Ended(s)
    ensures s.sink.events == [] && (s.sink.loop.LoopIdle? || s.sink.loop.LoopExited?)
  {
    assert Internal(Notify) && Internal(Deliver) && Internal(Take);
    assert !Enabled(c, s, Notify) && !Enabled(c, s, Deliver) && !Enabled(c, s, Take);
  }

  lemma IdleTasks(c: Config, s: State, out: Outcome)
    requires Stuck(c, s) && Exclusive(c, s.work) && ValidOutcome(c, out)
    ensures AllDone(s.work.tasks)
  {
    forall t | 0 <= t < |s.work.tasks|
      ensures !s.work.tasks[t].phase.Running?
                && (s.work.tasks[t].phase.Emitting? ==> s.work.tasks[t].phase == Emitting([]))
    {
      assert Internal(Do(Handle(t, out))) && Internal(Do(Emit(t)));
      assert !Enabled(c, s, Do(Handle(t, out))) && !Enabled(c, s, Do(Emit(t)));
    }
    assert Internal(Do(SyncEnd)) && !Enabled(c, s, Do(SyncEnd));
    forall t | 0 <= t < |s.work.tasks|
      ensures !s.work.tasks[t].phase.Waiting?
    {
      assert Internal(Do(Lock(t))) && !Enabled(c, s, Do(Lock(t)));
    }
  }

  lemma IdlePoller(c: Config, s: State)
    requires Stuck(c, s) && Exclusive(c, s.work) && AllDone(s.work.tasks) && (c.Gated() ==> c.maxParallel >= 1)
    requires s.work.poller.AtAcquireFull? || s.work.poller.AtAcquire? || s.work.poller.AtDrain? ==> c.Gated()
    requires s.work.poller.AtJoin? ==> s.work.poller.task < |s.work.tasks|
    ensures s.work.poller.Exited? || (s.work.poller.AtRecv? && s.chan.queue == [] && s.chan.open)
  {
    BusyZero(s.work.tasks);
    forall a: WorkAct ensures a.Leave? || !EnabledWork(c, s.work, a) {
      assert Internal(Do(a)) && !Enabled(c, s, Do(a));
    }
    assert !EnabledWork(c, s.work, Acquire) && !EnabledWork(c, s.work, Drained) && !EnabledWork(c, s.work, SyncStart)
        && !EnabledWork(c, s.work, SyncEnd) && !EnabledWork(c, s.work, Joined);
    assert Internal(Recv) && !Enabled(c, s, Recv);
    assert Internal(Do(Leave)) && !Enabled(c, s, Do(Leave));
  }

  /** Everything is at rest. */
  ghost predicate AtRest(s: State) {
    && s.sink.events == []
    && AllDone(s.work.tasks)
    && s.chan.queue == []
    && (if s.chan.open then s.work.poller.AtRecv? && s.sink.loop.LoopIdle?
        else s.work.poller.Exited? && s.sink.loop.LoopExited?)
  }

  /** If handlers return and there is a permit at all, a state without internal steps is at rest. */
  lemma StuckAtRest(c: Config, n: nat, s: State, out: Outcome)
    requires Reachable(c, n, s) && Stuck(c, s) && ValidOutcome(c, out) && (c.Gated() ==> c.maxParallel >= 1)
    ensures AtRest(s)
  {
    ReachableShape(c, n, s);
    ReachableExclusive(c, n, s);
    IdleSink(c, s);
    IdleTasks(c, s, out);
    IdlePoller(c, s);
    assert Internal(Stop) && !Enabled(c, s, Stop);
  }

  /** Closing completes: once a Close was accepted and nothing can move, the loop has announced `closed`. */
  lemma CloseCompletes(c: Config, n: nat, s: State, out: Outcome)
    requires Reachable(c, n, s) && Stuck(c, s) && ValidOutcome(c, out) && (c.Gated() ==> c.maxParallel >= 1)
    requires Control(Close) in s.chan.enqueued
    ensures s.sink.loop.LoopExited?
  {
    StuckAtRest(c, n, s, out);
    ReachableFormed(c, n, s);
    assert Received(s.chan) == s.chan.enqueued;
  }

  // ---------------------------------------------------------------- a measure of outstanding work

  function EventWork(es: seq<Event>): nat {
    if es == [] then 0 else (if es[0].Response? then 3 else 1) + EventWork(es[1..])
  }

  lemma {:induction false} EventWorkAppend(xs: seq<Event>, ys: seq<Event>)
    ensures EventWork(xs + ys) == EventWork(xs) + EventWork(ys)
  {
    if xs == [] {
      assert xs + ys == ys;
    } else {
      assert (xs + ys)[1..] == xs[1..] + ys;
      EventWorkAppend(xs[1..], ys);
    }
  }

  function TaskWork(t: Task): nat {
    match t.phase
    case Waiting => 4 * |t.mids| + 5
    case Running => 4 * |t.mids| + 4
    case Emitting(es) => EventWork(es) + |es|
  }

  function TasksWork(tasks: seq<Task>): nat {
    if tasks == [] then 0 else TasksWork(tasks[..|tasks| - 1]) + TaskWork(tasks[|tasks| - 1])
  }

  lemma TasksWorkSpawn(tasks: seq<Task>, t: Task)
    ensures TasksWork(tasks + [t]) == TasksWork(tasks) + TaskWork(t)
  {
    assert (tasks + [t])[..|tasks + [t]| - 1] == tasks;
  }

  lemma {:induction false} TasksWorkUpdate(tasks: seq<Task>, i: nat, t: Task)
    requires i < |tasks|
    ensures TasksWork(tasks[i := t]) + TaskWork(tasks[i]) == TasksWork(tasks) + TaskWork(t)
  {
    var n := |tasks| - 1;
    if i < n {
      assert tasks[i := t][..n] == tasks[..n][i := t];
      TasksWorkUpdate(tasks[..n], i, t);
    } else {
      assert tasks[i := t][..n] == tasks[..n];
    }
  }

  function PollerWork(p: Poller): nat {
    match p
    case AtRecv => 1
    case AtAcquireFull => 1
    case AtAcquire(mids, _, _) => 4 * |mids| + 8
    case AtDrain => 3
    case AtSyncWait => 4
    case InSync => 3
    case AtJoin(_) => 2
    case Exited => 0
  }

  function LoopWork(l: Loop): nat {
    match l
    case LoopIdle => 1
    case OweNotify(_, _) => 3
    case OweDeliver(_, _) => 2
    case LoopExited => 0
  }

  function WorkLeft(w: Work): nat {
    PollerWork(w.poller) + 12 * |w.bufferMid| + TasksWork(w.tasks)
  }

  /** An upper bound on the steps poller, tasks and event loop can take before someone else moves. */
  function Outstanding(s: State): nat {
    14 * |s.chan.queue| + WorkLeft(s.work) + EventWork(s.sink.events) + LoopWork(s.sink.loop)
  }

  lemma {:induction false} ResponsesWork(mids: seq<Mid>, out: Outcome, k: nat)
    requires k <= |mids|
    ensures EventWork(Responses(mids, out)[k..]) == 3 * (|mids| - k)
    decreases |mids| - k
  {
    if k < |mids| {
      assert Responses(mids, out)[k..][1..] == Responses(mids, out)[k + 1..];
      ResponsesWork(mids, out, k + 1);
    }
  }

  lemma TaskEventsWork(c: Config, mids: seq<Mid>, out: Outcome)
    ensures EventWork(TaskEvents(c, mids, out)) + |TaskEvents(c, mids, out)| <= 4 * |mids| + 2
  {
    var rs := Responses(mids, out);
    assert rs[0..] == rs;
    ResponsesWork(mids, out, 0);
    if c.Batched() && out.Failed? {
      EventWorkAppend(rs, [BatchError(out.fault)]);
    } else {
      assert TaskEvents(c, mids, out) == rs;
    }
  }

  lemma RecvRequestWork(c: Config, w: Work, mid: Mid, msg: Msg)
    requires w.poller.AtRecv?
    ensures WorkLeft(RecvRequest(c, w, mid, msg)) < WorkLeft(w) + 14
  {
    if c.kind.Synchronized? {
      TasksWorkSpawn(w.tasks, Task([mid], [msg], true, Waiting));
    } else if c.kind.SynchronizedBatched? {
      var t := Task(w.bufferMid + [mid], w.buffer + [msg], true, Waiting);
      if |t.mids| >= c.batchSize {
        TasksWorkSpawn(w.tasks, t);
        assert RecvRequest(c, w, mid, msg) == Work(AtRecv, [], [], w.avail, w.tasks + [t], w.dropped);
      }
    }
  }

  lemma RecvFlushWork(c: Config, w: Work)
    requires w.poller.AtRecv?
    ensures WorkLeft(RecvFlush(c, w)) + 1 < WorkLeft(w) + 14
  {
    if c.kind.SynchronizedBatched? && w.bufferMid != [] {
      var t := Task(w.bufferMid, w.buffer, false, Waiting);
      TasksWorkSpawn(w.tasks, t);
      assert RecvFlush(c, w) == Work(AtRecv, [], [], w.avail, w.tasks + [t], w.dropped);
    }
  }

  lemma AcquireWork(w: Work)
    requires (w.poller.AtAcquireFull? || w.poller.AtAcquire?) && w.avail >= 1
    requires w.poller.AtAcquireFull? ==> w.bufferMid != []
    ensures WorkLeft(AcquireStep(w)) < WorkLeft(w)
  {
    var t := AcquireStep(w).tasks[|w.tasks|];
    TasksWorkSpawn(w.tasks, t);
  }

  lemma WorkDecreases(c: Config, w: Work, a: WorkAct)
    requires EnabledWork(c, w, a)
    requires w.poller.AtAcquireFull? ==> w.bufferMid != []
    ensures WorkLeft(WorkStep(c, w, a)) + EventWork(WorkEvents(c, w, a)) < WorkLeft(w)
  {
    match a {
      case Acquire => AcquireWork(w);
      case Lock(t) => TasksWorkUpdate(w.tasks, t, w.tasks[t].(phase := Running));
      case Handle(t, out) =>
        TaskEventsWork(c, w.tasks[t].mids, out);
        TasksWorkUpdate(w.tasks, t, w.tasks[t].(phase := Emitting(TaskEvents(c, w.tasks[t].mids, out))));
      case Emit(t) => TasksWorkUpdate(w.tasks, t, w.tasks[t].(phase := Emitting(w.tasks[t].phase.events[1..])));
      case _ =>
    }
  }

  lemma StepDecreases(c: Config, s: State, a: Act)
    requires Internal(a) && Enabled(c, s, a)
    requires s.work.poller.AtAcquireFull? ==> s.work.bufferMid != []
    ensures Outstanding(Apply(c, s, a)) < Outstanding(s)
  {
    match a {
      case Recv =>
        var item := s.chan.queue[0];
        EventWorkAppend(s.sink.events, RecvEvents(c, item));
        if item.Request? {
          RecvRequestWork(c, s.work, item.mid, item.msg);
        } else {
          RecvFlushWork(c, s.work);
        }
      case Do(w) =>
        WorkDecreases(c, s.work, w);
        EventWorkAppend(s.sink.events, WorkEvents(c, s.work, w));
      case _ =>
    }
  }

  predicate AllInternal(acts: seq<Act>) {
    forall k :: 0 <= k < |acts| ==> Internal(acts[k])
  }

  /** Left alone, poller, tasks and event loop come to a halt, however they are scheduled. */
  lemma {:induction false} InternalRunsEnd(c: Config, n: nat, s: State, acts: seq<Act>)
    requires Reachable(c, n, s) && Valid(c, s, acts) && AllInternal(acts)
    ensures |acts| + Outstanding(Exec(c, s, acts)) <= Outstanding(s)
    decreases |acts|
  {
    if acts != [] {
      ReachableShape(c, n, s);
      StepDecreases(c, s, acts[0]);
      ReachableStep(c, n, s, acts[0]);
      InternalRunsEnd(c, n, Apply(c, s, acts[0]), acts[1..]);
    }
  }

  /** Every state has an internal run that cannot be continued. */
  lemma {:induction false} MaximalRun(c: Config, n: nat, s: State) returns (acts: seq<Act>)
    requires Reachable(c, n, s)
    ensures Valid(c, s, acts) && AllInternal(acts) && Stuck(c, Exec(c, s, acts))
    decreases Outstanding(s)
  {
    if Stuck(c, s) {
      acts := [];
    } else {
      var a: Act :| Internal(a) && Enabled(c, s, a);
      ReachableShape(c, n, s);
      StepDecreases(c, s, a);
      ReachableStep(c, n, s, a);
      var rest := MaximalRun(c, n, Apply(c, s, a));
      acts := [a] + rest;
      assert acts[1..] == rest;
    }
  }
}
