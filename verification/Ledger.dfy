/**
 Conservation of requests.

 Every accepted request is at every moment in exactly one place: in the channel, in the poller's hand or
 buffer, pending in a task, in the event channel, with the event loop, answered, or dropped with the
 final partial batch.  The capacity counter counts those not yet taken off the event channel, plus the
 unused permits and the refused sends.
 */
module Ledger {
  import opened Machine
  import opened Formation

  // ---------------------------------------------------------------- bags of requests

  /** The requests whose responses are among these events. */
  function EventMids(es: seq<Event>): seq<Mid> {
    if es == [] then []
    else if es[0].Response? then [es[0].mid] + EventMids(es[1..])
    else EventMids(es[1..])
  }

  lemma {:induction false} EventMidsAppend(xs: seq<Event>, ys: seq<Event>)
    ensures EventMids(xs + ys) == EventMids(xs) + EventMids(ys)
  {
    if xs == [] {
      assert xs + ys == ys;
    } else {
      assert (xs + ys)[1..] == xs[1..] + ys;
      EventMidsAppend(xs[1..], ys);
    }
  }

  /** Whatever the handler returned, each request of the batch gets exactly one response, in order. */
  lemma {:induction false} ResponseMids(mids: seq<Mid>, out: Outcome, k: nat)
    requires k <= |mids|
    ensures EventMids(Responses(mids, out)[k..]) == mids[k..]
    decreases |mids| - k
  {
    if k < |mids| {
      assert Responses(mids, out)[k..][1..] == Responses(mids, out)[k + 1..];
      assert mids[k..] == [mids[k]] + mids[k + 1..];
      ResponseMids(mids, out, k + 1);
    }
  }

  lemma TaskEventMids(c: Config, mids: seq<Mid>, out: Outcome)
    ensures EventMids(TaskEvents(c, mids, out)) == mids
  {
    var rs := Responses(mids, out);
    assert rs[0..] == rs && mids[0..] == mids;
    ResponseMids(mids, out, 0);
    if c.Batched() && out.Failed? {
      EventMidsAppend(rs, [BatchError(out.fault)]);
    } else {
      assert TaskEvents(c, mids, out) == rs;
    }
  }

  /** Requests a task has still to answer. */
  function PendingIn(t: Task): seq<Mid> {
    if t.phase.Emitting? then EventMids(t.phase.events) else t.mids
  }

  function Pending(tasks: seq<Task>): multiset<Mid> {
    if tasks == [] then multiset{} else Pending(tasks[..|tasks| - 1]) + multiset(PendingIn(tasks[|tasks| - 1]))
  }

  lemma PendingSpawn(tasks: seq<Task>, t: Task)
    ensures Pending(tasks + [t]) == Pending(tasks) + multiset(PendingIn(t))
  {
    assert (tasks + [t])[..|tasks + [t]| - 1] == tasks;
  }

  /** Moves one part of a sum across. */
  lemma Exchange<T>(a: multiset<T>, b: multiset<T>, x: multiset<T>, y: multiset<T>, z: multiset<T>)
    requires b + x == a + y
    ensures (b + z) + x == (a + z) + y
  {
    assert (b + z) + x == (b + x) + z;
    assert (a + z) + y == (a + y) + z;
  }

  lemma {:induction false} PendingUpdate(tasks: seq<Task>, i: nat, t: Task)
    requires i < |tasks|
    ensures Pending(tasks[i := t]) + multiset(PendingIn(tasks[i])) == Pending(tasks) + multiset(PendingIn(t))
  {
    var n := |tasks| - 1;
    var front, front' := tasks[..n], tasks[i := t][..n];
    PendingLast(tasks);
    PendingLast(tasks[i := t]);
    if i < n {
      assert front' == front[i := t];
      PendingUpdate(front, i, t);
      Exchange(Pending(front), Pending(front'), multiset(PendingIn(tasks[i])), multiset(PendingIn(t)),
               multiset(PendingIn(tasks[n])));
    } else {
      assert front' == front;
    }
  }

  lemma PendingLast(tasks: seq<Task>)
    requires tasks != []
    ensures Pending(tasks) == Pending(tasks[..|tasks| - 1]) + multiset(PendingIn(tasks[|tasks| - 1]))
  {
  }

  function InHand(l: Loop): seq<Mid> {
    if l.OweNotify? || l.OweDeliver? then [l.mid] else []
  }

  // ---------------------------------------------------------------- permits

  function Permit(x: Sender): nat {
    if x.Holding? || x.Forcing? then 1 else 0
  }

  /** Capacity units held by senders that have not sent yet. */
  function Permits(xs: seq<Sender>): nat {
    if xs == [] then 0 else Permit(xs[0]) + Permits(xs[1..])
  }

  lemma {:induction false} PermitsUpdate(xs: seq<Sender>, i: nat, x: Sender)
    requires i < |xs|
    ensures Permits(xs[i := x]) + Permit(xs[i]) == Permits(xs) + Permit(x)
  {
    if i == 0 {
      assert xs[i := x][1..] == xs[1..];
    } else {
      assert xs[i := x][1..] == xs[1..][i - 1 := x];
      PermitsUpdate(xs[1..], i - 1, x);
    }
  }

  lemma {:induction false} PermitsIdle(xs: seq<Sender>)
    requires forall i :: 0 <= i < |xs| ==> Permit(xs[i]) == 0
    ensures Permits(xs) == 0
  {
    if xs != [] {
      PermitsIdle(xs[1..]);
    }
  }

  // ---------------------------------------------------------------- the ledger

  /** What was dispatched is pending, on its way to a waiter, or answered. */
  ghost predicate Balanced(w: Work, k: Sink) {
    Pending(w.tasks) + multiset(EventMids(k.events)) + multiset(InHand(k.loop)) + multiset(EventMids(k.answered))
    == multiset(FlatMids(w.tasks))
  }

  /** How many capacity units the poller and the handler tasks account for. */
  function Load(w: Work): nat {
    |HeldMids(w.poller)| + |w.bufferMid| + |Pending(w.tasks)| + |w.dropped|
  }

  ghost predicate Counted(s: State) {
    s.gate.processing
    == Permits(s.gate.senders) + |Mids(s.chan.queue)| + Load(s.work) + |EventMids(s.sink.events)| + s.chan.refused
  }

  /** Receiving spawns at most one task. */
  lemma RecvSpawns(c: Config, w: Work, item: Item)
    requires w.poller.AtRecv?
    ensures var w' := RecvStep(c, w, item);
      w'.tasks == w.tasks || (|w'.tasks| == |w.tasks| + 1 && w'.tasks == w.tasks + [w'.tasks[|w.tasks|]])
  {
  }

  lemma SpawnLoad(tasks: seq<Task>, t: Task)
    requires !t.phase.Emitting?
    ensures |Pending(tasks + [t])| == |Pending(tasks)| + |t.mids|
  {
    PendingSpawn(tasks, t);
  }

  lemma RecvRequestLoad(c: Config, w: Work, mid: Mid, msg: Msg)
    requires w.poller.AtRecv?
    ensures Load(RecvRequest(c, w, mid, msg)) == Load(w) + 1
  {
    if c.kind.Synchronized? {
      SpawnLoad(w.tasks, Task([mid], [msg], true, Waiting));
    } else if c.kind.SynchronizedBatched? {
      var mids := w.bufferMid + [mid];
      var t := Task(mids, w.buffer + [msg], true, Waiting);
      assert |mids| == |w.bufferMid| + 1;
      if |mids| >= c.batchSize {
        assert RecvRequest(c, w, mid, msg) == Work(AtRecv, [], [], w.avail, w.tasks + [t], w.dropped);
        SpawnLoad(w.tasks, t);
      }
    }
  }

  lemma RecvFlushLoad(c: Config, w: Work)
    requires w.poller.AtRecv?
    ensures Load(RecvFlush(c, w)) == Load(w)
  {
    if c.kind.SynchronizedBatched? && w.bufferMid != [] {
      SpawnLoad(w.tasks, Task(w.bufferMid, w.buffer, false, Waiting));
      assert RecvFlush(c, w).tasks == w.tasks + [Task(w.bufferMid, w.buffer, false, Waiting)];
    }
  }

  lemma RecvLoad(c: Config, w: Work, item: Item)
    requires w.poller.AtRecv?
    ensures Load(RecvStep(c, w, item)) == Load(w) + (if item.Request? then 1 else 0)
  {
    if item.Request? {
      RecvRequestLoad(c, w, item.mid, item.msg);
    } else {
      RecvFlushLoad(c, w);
    }
  }

  lemma AcquireLoad(w: Work)
    requires (w.poller.AtAcquireFull? || w.poller.AtAcquire?) && w.avail >= 1
    ensures Load(AcquireStep(w)) == Load(w)
  {
    if w.poller.AtAcquire? {
      PendingSpawn(w.tasks, Task(w.poller.mids, w.poller.msgs, !w.poller.flushing, Running));
    } else {
      PendingSpawn(w.tasks, Task(w.bufferMid, w.buffer, true, Running));
    }
  }

  lemma PhasePending(w: Work, i: nat, p: Phase)
    requires i < |w.tasks|
    ensures Pending(SetPhase(w, i, p).tasks) + multiset(PendingIn(w.tasks[i]))
         == Pending(w.tasks) + multiset(PendingIn(w.tasks[i].(phase := p)))
  {
    PendingUpdate(w.tasks, i, w.tasks[i].(phase := p));
  }

  lemma EmitMids(es: seq<Event>)
    requires es != []
    ensures multiset(EventMids(es)) == multiset(EventMids([es[0]])) + multiset(EventMids(es[1..]))
  {
    assert [es[0]] + es[1..] == es;
    EventMidsAppend([es[0]], es[1..]);
  }

  lemma Cancel<T>(a: multiset<T>, b: multiset<T>, x: multiset<T>)
    requires a + x == b + x
    ensures a == b
  {
    assert (a + x) - x == a && (b + x) - x == b;
  }

  /** A phase change that keeps a batch's requests keeps the bag. */
  lemma SamePending(w: Work, i: nat, p: Phase)
    requires i < |w.tasks| && PendingIn(w.tasks[i].(phase := p)) == PendingIn(w.tasks[i])
    ensures Pending(SetPhase(w, i, p).tasks) == Pending(w.tasks)
  {
    PhasePending(w, i, p);
    Cancel(Pending(SetPhase(w, i, p).tasks), Pending(w.tasks), multiset(PendingIn(w.tasks[i])));
  }

  lemma HandlePending(c: Config, w: Work, i: nat, out: Outcome)
    requires EnabledWork(c, w, Handle(i, out))
    ensures Pending(HandleStep(c, w, i, out).tasks) == Pending(w.tasks)
  {
    TaskEventMids(c, w.tasks[i].mids, out);
    SamePending(w, i, Emitting(TaskEvents(c, w.tasks[i].mids, out)));
  }

  lemma EmitPending(c: Config, w: Work, i: nat)
    requires EnabledWork(c, w, Emit(i))
    ensures Pending(w.tasks) == Pending(WorkStep(c, w, Emit(i)).tasks) + multiset(EventMids(WorkEvents(c, w, Emit(i))))
  {
    var es := w.tasks[i].phase.events;
    PhasePending(w, i, Emitting(es[1..]));
    EmitMids(es);
    var before, after, head, rest := Pending(w.tasks), Pending(SetPhase(w, i, Emitting(es[1..])).tasks),
      multiset(EventMids([es[0]])), multiset(EventMids(es[1..]));
    assert after + (head + rest) == before + rest;
    assert (after + head) + rest == before + rest;
    Cancel(after + head, before, rest);
  }

  /** A task's steps only move its requests along. */
  lemma TaskPending(c: Config, w: Work, a: WorkAct)
    requires (a.Lock? || a.Handle? || a.Emit?) && EnabledWork(c, w, a)
    ensures Pending(w.tasks) == Pending(WorkStep(c, w, a).tasks) + multiset(EventMids(WorkEvents(c, w, a)))
    ensures FlatMids(WorkStep(c, w, a).tasks) == FlatMids(w.tasks)
  {
    match a {
      case Lock(i) =>
        SamePending(w, i, Running);
        FlatPhase(w.tasks, i, Running);
      case Handle(i, out) =>
        HandlePending(c, w, i, out);
        FlatPhase(w.tasks, i, Emitting(TaskEvents(c, w.tasks[i].mids, out)));
      case Emit(i) =>
        EmitPending(c, w, i);
        FlatPhase(w.tasks, i, Emitting(w.tasks[i].phase.events[1..]));
    }
  }

  lemma WorkLoad(c: Config, w: Work, a: WorkAct)
    requires EnabledWork(c, w, a)
    requires !w.poller.Exited? ==> w.dropped == []
    ensures Load(WorkStep(c, w, a)) + |EventMids(WorkEvents(c, w, a))| == Load(w)
  {
    match a {
      case Acquire => AcquireLoad(w);
      case Lock(_) => TaskPending(c, w, a);
      case Handle(_, _) => TaskPending(c, w, a);
      case Emit(_) => TaskPending(c, w, a);
      case _ =>
    }
  }

  lemma SpawnBalanced(w: Work, k: Sink, t: Task, w': Work)
    requires Balanced(w, k) && w'.tasks == w.tasks + [t] && !t.phase.Emitting?
    ensures Balanced(w', k)
  {
    PendingSpawn(w.tasks, t);
    FlatSpawn(w.tasks, t);
  }

  lemma SinkBalanced(w: Work, k: Sink, es: seq<Event>, w': Work)
    requires Balanced(w, k) && FlatMids(w'.tasks) == FlatMids(w.tasks)
    requires Pending(w.tasks) == Pending(w'.tasks) + multiset(EventMids(es))
    ensures Balanced(w', k.(events := k.events + es))
  {
    EventMidsAppend(k.events, es);
  }

  lemma RecvBalanced(c: Config, w: Work, k: Sink, item: Item)
    requires Balanced(w, k) && w.poller.AtRecv?
    ensures Balanced(RecvStep(c, w, item), k.(events := k.events + RecvEvents(c, item)))
  {
    var w' := RecvStep(c, w, item);
    RecvSpawns(c, w, item);
    RecvWaiting(c, w, item);
    if w'.tasks != w.tasks {
      SpawnBalanced(w, k, w'.tasks[|w.tasks|], w');
    }
    RecvNoMids(c, item);
    SinkBalanced(w', k, RecvEvents(c, item), w');
  }

  lemma RecvNoMids(c: Config, item: Item)
    ensures multiset(EventMids(RecvEvents(c, item))) == multiset{}
  {
  }

  lemma RecvWaiting(c: Config, w: Work, item: Item)
    requires w.poller.AtRecv?
    ensures var tasks' := RecvStep(c, w, item).tasks; |tasks'| > |w.tasks| ==> tasks'[|w.tasks|].phase.Waiting?
  {
  }

  lemma WorkBalanced(c: Config, w: Work, k: Sink, a: WorkAct)
    requires Balanced(w, k) && EnabledWork(c, w, a)
    ensures Balanced(WorkStep(c, w, a), k.(events := k.events + WorkEvents(c, w, a)))
  {
    var w' := WorkStep(c, w, a);
    if a.Acquire? {
      SpawnBalanced(w, k, w'.tasks[|w.tasks|], w');
      SinkBalanced(w', k, [], w');
    } else {
      if a.Lock? || a.Handle? || a.Emit? {
        TaskPending(c, w, a);
      }
      SinkBalanced(w, k, WorkEvents(c, w, a), w');
    }
  }

  lemma TakeMids(es: seq<Event>)
    requires es != []
    ensures EventMids(es) == (if es[0].Response? then [es[0].mid] else []) + EventMids(es[1..])
  {
  }

  lemma DeliverMids(answered: seq<Event>, e: Event)
    requires e.Response?
    ensures EventMids(answered + [e]) == EventMids(answered) + [e.mid]
  {
    EventMidsAppend(answered, [e]);
  }

  lemma TakeBalanced(w: Work, k: Sink)
    requires Balanced(w, k) && k.loop.LoopIdle? && k.events != []
    ensures Balanced(w, TakeSink(k))
  {
    TakeMids(k.events);
    var mine := if k.events[0].Response? then [k.events[0].mid] else [];
    assert multiset(mine + EventMids(k.events[1..])) == multiset(mine) + multiset(EventMids(k.events[1..]));
    assert multiset(InHand(k.loop)) == multiset{} && InHand(TakeSink(k).loop) == mine;
  }

  lemma DeliverBalanced(w: Work, k: Sink)
    requires Balanced(w, k) && k.loop.OweDeliver?
    ensures Balanced(w, k.(loop := LoopIdle, answered := k.answered + [Response(k.loop.mid, k.loop.answer)]))
  {
    DeliverMids(k.answered, Response(k.loop.mid, k.loop.answer));
    assert multiset(EventMids(k.answered) + [k.loop.mid]) == multiset(EventMids(k.answered)) + multiset([k.loop.mid]);
  }

  lemma BalancedStep(c: Config, s: State, a: Act)
    requires Balanced(s.work, s.sink) && Enabled(c, s, a)
    ensures Balanced(Apply(c, s, a).work, Apply(c, s, a).sink)
  {
    match a {
      case Recv => RecvBalanced(c, s.work, s.sink, s.chan.queue[0]);
      case Do(w) => WorkBalanced(c, s.work, s.sink, w);
      case Take => TakeBalanced(s.work, s.sink);
      case Deliver => DeliverBalanced(s.work, s.sink);
      case _ =>
    }
  }

  lemma ClientCounted(c: Config, s: State, i: nat, x: ClientAct)
    requires Counted(s) && Enabled(c, s, Client(i, x))
    ensures Counted(Apply(c, s, Client(i, x)))
  {
    var s' := Apply(c, s, Client(i, x));
    assert s'.gate.senders == s.gate.senders[i := s'.gate.senders[i]];
    PermitsUpdate(s.gate.senders, i, s'.gate.senders[i]);
    if x.Send? && s.chan.open {
      StreamAppend(s.chan.queue, [Request(MidOf(s.gate.senders[i].job, |s.chan.jobs|), s.gate.senders[i].job.msg)]);
    }
  }

  lemma {:induction false} PermitsSame(xs: seq<Sender>, i: nat, x: Sender)
    requires i < |xs| && Permit(xs[i]) == Permit(x)
    ensures Permits(xs[i := x]) == Permits(xs)
  {
    PermitsUpdate(xs, i, x);
  }

  lemma NotifyPermits(g: Gate)
    ensures Permits(NotifyStep(g).senders) == Permits(g.senders)
  {
    if g.parked != [] && g.parked[0] < |g.senders| && g.senders[g.parked[0]].Parked? {
      PermitsSame(g.senders, g.parked[0], Trying(g.senders[g.parked[0]].job));
    }
  }

  lemma RecvCounted(c: Config, s: State)
    requires Counted(s) && Enabled(c, s, Recv)
    ensures Counted(Apply(c, s, Recv))
  {
    var item := s.chan.queue[0];
    RecvLoad(c, s.work, item);
    EventMidsAppend(s.sink.events, RecvEvents(c, item));
  }

  lemma WorkCounted(c: Config, s: State, w: WorkAct)
    requires Counted(s) && Enabled(c, s, Do(w))
    requires !s.work.poller.Exited? ==> s.work.dropped == []
    ensures Counted(Apply(c, s, Do(w)))
  {
    WorkLoad(c, s.work, w);
    EventMidsAppend(s.sink.events, WorkEvents(c, s.work, w));
  }

  lemma CountedStep(c: Config, s: State, a: Act)
    requires Counted(s) && Enabled(c, s, a)
    requires !s.work.poller.Exited? ==> s.work.dropped == []
    ensures Counted(Apply(c, s, a))
  {
    match a {
      case Client(i, x) => ClientCounted(c, s, i, x);
      case Push(action) => StreamAppend(s.chan.queue, [Control(action)]);
      case Recv => RecvCounted(c, s);
      case Do(w) => WorkCounted(c, s, w);
      case Take => TakeMids(s.sink.events);
      case Notify => NotifyPermits(s.gate);
      case _ =>
    }
  }

  lemma StartLedger(c: Config, n: nat)
    ensures Balanced(Start(c, n).work, Start(c, n).sink) && Counted(Start(c, n))
  {
    PermitsIdle(Start(c, n).gate.senders);
  }
}
