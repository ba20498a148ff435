/**
 Batch formation: what the poller makes of the stream of requests.

 The two parallel buffers pair up, and the batches handed to tasks, the batch in hand and the buffer,
 in this order, are exactly the requests received so far.
 */
module Formation {
  import opened Machine

  // ---------------------------------------------------------------- the request stream

  /** The ids of the requests in a stretch of the channel, and their messages. */
  function Mids(items: seq<Item>): seq<Mid> {
    if items == [] then []
    else if items[0].Request? then [items[0].mid] + Mids(items[1..])
    else Mids(items[1..])
  }

  function Msgs(items: seq<Item>): seq<Msg> {
    if items == [] then []
    else if items[0].Request? then [items[0].msg] + Msgs(items[1..])
    else Msgs(items[1..])
  }

  lemma {:induction false} StreamAppend(xs: seq<Item>, ys: seq<Item>)
    ensures Mids(xs + ys) == Mids(xs) + Mids(ys) && Msgs(xs + ys) == Msgs(xs) + Msgs(ys)
  {
    if xs == [] {
      assert xs + ys == ys;
    } else {
      assert (xs + ys)[1..] == xs[1..] + ys;
      StreamAppend(xs[1..], ys);
    }
  }

  /** The accepted jobs seen as the requests they became. */
  function JobMids(jobs: seq<Job>): (ms: seq<Mid>)
    ensures |ms| == |jobs|
  {
    seq(|jobs|, i requires 0 <= i < |jobs| => MidOf(jobs[i], i))
  }

  function JobMsgs(jobs: seq<Job>): seq<Msg> {
    seq(|jobs|, i requires 0 <= i < |jobs| => jobs[i].msg)
  }

  // ---------------------------------------------------------------- the dispatched batches

  function FlatMids(tasks: seq<Task>): seq<Mid> {
    if tasks == [] then [] else FlatMids(tasks[..|tasks| - 1]) + tasks[|tasks| - 1].mids
  }

  function FlatMsgs(tasks: seq<Task>): seq<Msg> {
    if tasks == [] then [] else FlatMsgs(tasks[..|tasks| - 1]) + tasks[|tasks| - 1].msgs
  }

  lemma FlatSpawn(tasks: seq<Task>, t: Task)
    ensures FlatMids(tasks + [t]) == FlatMids(tasks) + t.mids
    ensures FlatMsgs(tasks + [t]) == FlatMsgs(tasks) + t.msgs
  {
    assert (tasks + [t])[..|tasks + [t]| - 1] == tasks;
  }

  lemma {:induction false} FlatPhase(tasks: seq<Task>, i: nat, p: Phase)
    requires i < |tasks|
    ensures FlatMids(tasks[i := tasks[i].(phase := p)]) == FlatMids(tasks)
    ensures FlatMsgs(tasks[i := tasks[i].(phase := p)]) == FlatMsgs(tasks)
  {
    var n := |tasks| - 1;
    var after := tasks[i := tasks[i].(phase := p)];
    if i < n {
      assert after[..n] == tasks[..n][i := tasks[..n][i].(phase := p)];
      FlatPhase(tasks[..n], i, p);
    } else {
      assert after[..n] == tasks[..n];
    }
  }

  function HeldMids(p: Poller): seq<Mid> {
    if p.AtAcquire? then p.mids else []
  }

  function HeldMsgs(p: Poller): seq<Msg> {
    if p.AtAcquire? then p.msgs else []
  }

  // ---------------------------------------------------------------- the invariants

  function Received(ch: Channel): seq<Item>
    requires ch.taken <= |ch.enqueued|
  {
    ch.enqueued[..ch.taken]
  }

  /** The channel is the part of the history not yet received, and the jobs are its requests. */
  ghost predicate Stream(ch: Channel) {
    && ch.taken <= |ch.enqueued|
    && ch.queue == ch.enqueued[ch.taken..]
    && Mids(ch.enqueued) == JobMids(ch.jobs)
    && Msgs(ch.enqueued) == JobMsgs(ch.jobs)
    && (ch.open <==> Control(Close) !in Received(ch))
    && (ch.open ==> ch.refused == 0)
  }

  /** Dispatched batches, batch in hand, buffer and what was dropped make up what was received, in order. */
  ghost predicate Formed(w: Work, mids: seq<Mid>, msgs: seq<Msg>) {
    && FlatMids(w.tasks) + HeldMids(w.poller) + w.bufferMid + w.dropped == mids
    && (!w.poller.Exited? ==> FlatMsgs(w.tasks) + HeldMsgs(w.poller) + w.buffer == msgs && w.dropped == [])
    && |w.bufferMid| == |w.buffer|
  }

  predicate LastIsFlush(received: seq<Item>) {
    received != [] && received[|received| - 1] == Control(Flush)
  }

  /** What each await point of the poller says about the buffers. */
  ghost predicate Shape(c: Config, w: Work, flushed: bool) {
    && (!c.Batched() ==> w.bufferMid == [] && w.dropped == [])
    && |w.dropped| < c.Quantum()
    && (w.poller.AtAcquireFull? ==> c.kind.UnorderedBatched? && |w.bufferMid| == c.Quantum())
    && (!w.poller.AtAcquireFull? ==> |w.bufferMid| < c.Quantum())
    && (w.poller.AtAcquire? ==>
          && c.Gated() && |w.poller.mids| == |w.poller.msgs| && w.bufferMid == []
          && (if w.poller.flushing then c.Batched() && 0 < |w.poller.mids| < c.Quantum() && flushed
              else !c.Batched() && |w.poller.mids| == 1 && !flushed))
    && (w.poller.AtAcquireFull? || w.poller.AtSyncWait? || w.poller.InSync? || w.poller.AtJoin? ==> !flushed)
    && (w.poller.AtDrain? ==> c.Gated() && w.bufferMid == [] && flushed)
    && (w.poller.AtRecv? && flushed ==> w.bufferMid == [])
    && (w.poller.AtJoin? ==> c.kind.Synchronized? && w.poller.task == |w.tasks| - 1)
    && (w.poller.Exited? ==> w.bufferMid == [])
  }

  /** A batch is full exactly when no Flush cut it short. */
  ghost predicate BatchOk(c: Config, t: Task) {
    && |t.mids| == |t.msgs|
    && (if t.full then |t.mids| == c.Quantum() else c.Batched() && 0 < |t.mids| < c.Quantum())
  }

  ghost predicate Batches(c: Config, tasks: seq<Task>) {
    forall t :: 0 <= t < |tasks| ==> BatchOk(c, tasks[t])
  }

  /** The poller leaves only a closed and drained channel, the event loop only after poller and tasks. */
  ghost predicate Ended(s: State) {
    && (s.work.poller.Exited? ==> s.chan.queue == [] && !s.chan.open)
    && (s.sink.loop.LoopExited? ==> s.work.poller.Exited? && s.sink.events == [] && AllDone(s.work.tasks))
  }

  ghost predicate WellFormed(c: Config, s: State) {
    && Stream(s.chan)
    && Formed(s.work, Mids(Received(s.chan)), Msgs(Received(s.chan)))
    && Shape(c, s.work, LastIsFlush(Received(s.chan)))
    && Batches(c, s.work.tasks)
    && Ended(s)
  }

  lemma StartWellFormed(c: Config, n: nat)
    ensures WellFormed(c, Start(c, n))
  {
  }

  // ---------------------------------------------------------------- the channel

  lemma EnqueueStream(ch: Channel, item: Item, ch': Channel)
    requires Stream(ch) && ch.open
    requires ch'.queue == ch.queue + [item] && ch'.open
    requires ch'.enqueued == ch.enqueued + [item] && ch'.taken == ch.taken && ch'.refused == ch.refused
    requires item.Request? ==> exists j :: item == Request(MidOf(j, |ch.jobs|), j.msg) && ch'.jobs == ch.jobs + [j]
    requires item.Control? ==> ch'.jobs == ch.jobs
    ensures Stream(ch') && Received(ch') == Received(ch)
  {
    StreamAppend(ch.enqueued, [item]);
  }

  lemma OfferStream(ch: Channel, job: Job)
    requires Stream(ch)
    ensures Stream(OfferStep(ch, job)) && Received(OfferStep(ch, job)) == Received(ch)
  {
    if ch.open {
      EnqueueStream(ch, Request(MidOf(job, |ch.jobs|), job.msg), OfferStep(ch, job));
    }
  }

  lemma ReceiveStream(ch: Channel)
    requires Stream(ch) && ch.queue != []
    ensures Stream(ReceiveStep(ch)) && Received(ReceiveStep(ch)) == Received(ch) + [ch.queue[0]]
  {
  }

  lemma StreamLast(xs: seq<Item>, x: Item)
    ensures Mids(xs + [x]) == (if x.Request? then Mids(xs) + [x.mid] else Mids(xs))
    ensures Msgs(xs + [x]) == (if x.Request? then Msgs(xs) + [x.msg] else Msgs(xs))
  {
    StreamAppend(xs, [x]);
  }

  // ---------------------------------------------------------------- the poller

  lemma OneMore<T>(f: seq<T>, x: T)
    ensures f + [x] + [] + [] == (f + [] + [] + []) + [x] == (f + [x]) + [] + [] + []
    ensures f + [x] + [] == (f + [] + []) + [x] == (f + [x]) + [] + []
  {
  }

  lemma DispatchFormed(c: Config, w: Work, mid: Mid, msg: Msg, mids: seq<Mid>, msgs: seq<Msg>)
    requires Formed(w, mids, msgs) && w.poller.AtRecv? && !c.Batched() && w.bufferMid == []
    ensures Formed(RecvRequest(c, w, mid, msg), mids + [mid], msgs + [msg])
  {
    OneMore(FlatMids(w.tasks), mid);
    OneMore(FlatMsgs(w.tasks), msg);
    if c.kind.Synchronized? {
      FlatSpawn(w.tasks, Task([mid], [msg], true, Waiting));
    }
  }

  lemma OneBuffered<T>(f: seq<T>, b: seq<T>, x: T)
    ensures f + [] + (b + [x]) + [] == (f + [] + b + []) + [x] == (f + (b + [x])) + [] + [] + []
    ensures f + [] + (b + [x]) == (f + [] + b) + [x] == (f + (b + [x])) + [] + []
  {
  }

  lemma BufferFormed(c: Config, w: Work, mid: Mid, msg: Msg, mids: seq<Mid>, msgs: seq<Msg>)
    requires Formed(w, mids, msgs) && w.poller.AtRecv? && c.Batched()
    ensures Formed(RecvRequest(c, w, mid, msg), mids + [mid], msgs + [msg])
  {
    OneBuffered(FlatMids(w.tasks), w.bufferMid, mid);
    OneBuffered(FlatMsgs(w.tasks), w.buffer, msg);
    if c.kind.SynchronizedBatched? {
      FlatSpawn(w.tasks, Task(w.bufferMid + [mid], w.buffer + [msg], true, Waiting));
    }
  }

  lemma Shuffle<T>(f: seq<T>, b: seq<T>, d: seq<T>)
    ensures f + [] + b + d == f + b + [] + d == (f + b) + [] + [] + d
  {
  }

  lemma RecvFlushFormed(c: Config, w: Work, mids: seq<Mid>, msgs: seq<Msg>)
    requires Formed(w, mids, msgs) && w.poller.AtRecv?
    ensures Formed(RecvFlush(c, w), mids, msgs)
  {
    var flatMids, flatMsgs := FlatMids(w.tasks), FlatMsgs(w.tasks);
    Shuffle(flatMids, w.bufferMid, w.dropped);
    Shuffle(flatMsgs, w.buffer, []);
    if c.kind.SynchronizedBatched? && w.bufferMid != [] {
      FlatSpawn(w.tasks, Task(w.bufferMid, w.buffer, false, Waiting));
    } else if c.kind.UnorderedBatched? && w.bufferMid != [] {
      assert flatMsgs + w.buffer + [] == msgs;
    }
  }

  lemma StepFormed(c: Config, w: Work, item: Item, mids: seq<Mid>, msgs: seq<Msg>)
    requires Formed(w, mids, msgs) && w.poller.AtRecv?
    requires !c.Batched() ==> w.bufferMid == []
    ensures item.Request? ==> Formed(RecvStep(c, w, item), mids + [item.mid], msgs + [item.msg])
    ensures !item.Request? ==> Formed(RecvStep(c, w, item), mids, msgs)
  {
    if item.Request? {
      if c.Batched() {
        BufferFormed(c, w, item.mid, item.msg, mids, msgs);
      } else {
        DispatchFormed(c, w, item.mid, item.msg, mids, msgs);
      }
    } else if item.action.Flush? {
      RecvFlushFormed(c, w, mids, msgs);
    }
  }

  lemma RecvFormed(c: Config, w: Work, item: Item, seen: seq<Item>)
    requires Formed(w, Mids(seen), Msgs(seen)) && w.poller.AtRecv?
    requires !c.Batched() ==> w.bufferMid == []
    ensures Formed(RecvStep(c, w, item), Mids(seen + [item]), Msgs(seen + [item]))
  {
    StreamLast(seen, item);
    StepFormed(c, w, item, Mids(seen), Msgs(seen));
  }

  lemma AcquireFormed(w: Work, mids: seq<Mid>, msgs: seq<Msg>)
    requires Formed(w, mids, msgs)
    requires (w.poller.AtAcquireFull? || w.poller.AtAcquire?) && w.avail >= 1
    requires w.poller.AtAcquire? ==> w.bufferMid == []
    ensures Formed(AcquireStep(w), mids, msgs)
  {
    if w.poller.AtAcquire? {
      FlatSpawn(w.tasks, Task(w.poller.mids, w.poller.msgs, !w.poller.flushing, Running));
    } else {
      FlatSpawn(w.tasks, Task(w.bufferMid, w.buffer, true, Running));
    }
  }

  lemma WorkFormed(c: Config, w: Work, a: WorkAct, mids: seq<Mid>, msgs: seq<Msg>)
    requires Formed(w, mids, msgs) && EnabledWork(c, w, a)
    requires w.poller.AtAcquire? ==> w.bufferMid == []
    ensures Formed(WorkStep(c, w, a), mids, msgs)
  {
    match a {
      case Acquire => AcquireFormed(w, mids, msgs);
      case Lock(t) => FlatPhase(w.tasks, t, Running);
      case Handle(t, out) => FlatPhase(w.tasks, t, Emitting(TaskEvents(c, w.tasks[t].mids, out)));
      case Emit(t) => FlatPhase(w.tasks, t, Emitting(w.tasks[t].phase.events[1..]));
      case _ =>
    }
  }

  lemma RecvShape(c: Config, w: Work, item: Item, flushed: bool)
    requires Shape(c, w, flushed) && w.poller.AtRecv? && |w.bufferMid| == |w.buffer|
    ensures Shape(c, RecvStep(c, w, item), item == Control(Flush))
  {
  }

  lemma WorkShape(c: Config, w: Work, a: WorkAct, flushed: bool)
    requires Shape(c, w, flushed) && EnabledWork(c, w, a)
    ensures Shape(c, WorkStep(c, w, a), flushed)
  {
  }

  lemma RecvBatches(c: Config, w: Work, item: Item, flushed: bool)
    requires Shape(c, w, flushed) && Batches(c, w.tasks) && w.poller.AtRecv? && |w.bufferMid| == |w.buffer|
    ensures Batches(c, RecvStep(c, w, item).tasks)
  {
  }

  lemma WorkBatches(c: Config, w: Work, a: WorkAct, flushed: bool)
    requires Shape(c, w, flushed) && Batches(c, w.tasks) && EnabledWork(c, w, a) && |w.bufferMid| == |w.buffer|
    ensures Batches(c, WorkStep(c, w, a).tasks)
  {
  }

  // ---------------------------------------------------------------- every step

  lemma RecvWellFormed(c: Config, s: State)
    requires WellFormed(c, s) && Enabled(c, s, Recv)
    ensures WellFormed(c, Apply(c, s, Recv))
  {
    var item, seen := s.chan.queue[0], Received(s.chan);
    ReceiveStream(s.chan);
    RecvFormed(c, s.work, item, seen);
    RecvShape(c, s.work, item, LastIsFlush(seen));
    RecvBatches(c, s.work, item, LastIsFlush(seen));
  }

  lemma WorkWellFormed(c: Config, s: State, w: WorkAct)
    requires WellFormed(c, s) && Enabled(c, s, Do(w))
    ensures WellFormed(c, Apply(c, s, Do(w)))
  {
    var seen := Received(s.chan);
    WorkFormed(c, s.work, w, Mids(seen), Msgs(seen));
    WorkShape(c, s.work, w, LastIsFlush(seen));
    WorkBatches(c, s.work, w, LastIsFlush(seen));
  }

  lemma WellFormedStep(c: Config, s: State, a: Act)
    requires WellFormed(c, s) && Enabled(c, s, a)
    ensures WellFormed(c, Apply(c, s, a))
  {
    match a {
      case Client(i, x) => if x.Send? { OfferStream(s.chan, s.gate.senders[i].job); }
      case Push(action) => EnqueueStream(s.chan, Control(action), PushStep(s.chan, action));
      case Recv => RecvWellFormed(c, s);
      case Do(w) => WorkWellFormed(c, s, w);
      case _ =>
    }
  }
}
