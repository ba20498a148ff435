/**
 What a Flush promises, and which handlers may run together.
 */
module Barrier {
  import opened Machine
  import opened Formation
  import opened Ledger
  import opened Exclusion
  import opened Invariant
  import opened Conservation

  /** The step by which the poller reports that a Flush is done. */
  predicate EmitsFlushed(c: Config, s: State, a: Act)
    requires Enabled(c, s, a)
  {
    match a
    case Do(w) => w.Drained?
    case Recv => Flushed in RecvEvents(c, s.chan.queue[0])
    case _ => false
  }

  predicate Handled(tasks: seq<Task>) {
    forall t :: 0 <= t < |tasks| ==> tasks[t].phase.Emitting?
  }

  /** Every request received so far has been handled, and the poller keeps none back. */
  ghost predicate Quiet(s: State) {
    && s.chan.taken <= |s.chan.enqueued|
    && Handled(s.work.tasks)
    && s.work.bufferMid == []
    && FlatMids(s.work.tasks) == Mids(Received(s.chan))
  }

  /** The permit count fits the 32 bits that Flush and Sync ask with. */
  predicate Counts32(c: Config) {
    c.maxParallel < 0x1_0000_0000
  }

  predicate FlushSafe(c: Config) {
    if c.Gated() then Counts32(c) else c.kind.Synchronized?
  }

  /** In every run, a Flush reported as done leaves nothing unhandled that was queued before it. */
  ghost predicate FlushIsBarrier(c: Config) {
    forall n: nat, s: State, a: Act | Reachable(c, n, s) && Enabled(c, s, a) && EmitsFlushed(c, s, a) ::
      Quiet(Apply(c, s, a))
  }

  lemma DrainedQuiet(c: Config, w: Work)
    requires Exclusive(c, w) && c.Gated() && Counts32(c) && EnabledWork(c, w, Drained)
    ensures Handled(w.tasks)
  {
    BusyZero(w.tasks);
  }

  lemma SafeFlush(c: Config, n: nat, s: State, a: Act)
    requires Reachable(c, n, s) && Enabled(c, s, a) && EmitsFlushed(c, s, a) && FlushSafe(c)
    ensures Quiet(Apply(c, s, a))
  {
    ReachableExclusive(c, n, s);
    ReachableShape(c, n, s);
    if a.Recv? {
      assert Handled(s.work.tasks);
    } else {
      DrainedQuiet(c, s.work);
    }
    var s' := Apply(c, s, a);
    assert s'.work.bufferMid == [];
    ReachableStep(c, n, s, a);
    FlatAll(c, n, s');
  }

  /** With nothing in hand or buffered, everything received is in a task. */
  lemma FlatAll(c: Config, n: nat, s: State)
    requires Reachable(c, n, s) && s.work.poller.AtRecv? && s.work.bufferMid == []
    ensures s.chan.taken <= |s.chan.enqueued| && FlatMids(s.work.tasks) == Mids(Received(s.chan))
  {
    ReachableFormed(c, n, s);
  }

  // ---------------------------------------------------------------- where it is no barrier

  /** One forced message is delivered and received. */
  lemma OneReceived(c: Config, msg: Msg) returns (s: State)
    ensures Reachable(c, 1, s)
    ensures s.work == RecvStep(c, Start(c, 1).work, Request(Mid(0, false, 0), msg))
    ensures s.chan == Channel([], true, [Request(Mid(0, false, 0), msg)], 1, [Posted(0, msg)], 0)
    ensures s.sink == Start(c, 1).sink
  {
    ReachableStart(c, 1);
    s := Move(c, 1, Start(c, 1), Client(0, Force(0, msg)));
    s := Move(c, 1, s, Client(0, Send));
    s := Move(c, 1, s, Client(0, Flag));
    assert s.chan.queue == [Request(Mid(0, false, 0), msg)];
    s := Move(c, 1, s, Recv);
  }

  /** The message is with the poller, or buffered, when a Flush is queued; `acts` lead to t, where it is overtaken. */
  ghost predicate Overtakes(c: Config, s: State, acts: seq<Act>, t: State) {
    && Reachable(c, 1, s) && s.chan.open && |s.chan.enqueued| == 1 && |s.chan.jobs| == 1
    && Mids(s.chan.enqueued) == [Mid(0, false, 0)] == JobMids(s.chan.jobs)
    && Valid(c, Apply(c, s, Push(Flush)), acts) && t == Exec(c, Apply(c, s, Push(Flush)), acts)
    && Reachable(c, 1, t) && t.chan.open && t.chan.queue == [] && t.chan.taken == 2 == |t.chan.enqueued|
    && Mids(t.chan.enqueued) == [Mid(0, false, 0)]
    && |t.work.tasks| == 1 && t.work.tasks[0].mids == [Mid(0, false, 0)] && t.work.bufferMid == []
    && t.sink == Start(c, 1).sink
  }

  lemma OneStep(c: Config, s: State, a: Act)
    requires Enabled(c, s, a)
    ensures Valid(c, s, [a]) && Exec(c, s, [a]) == Apply(c, s, a)
  {
    assert [a][1..] == [] && Valid(c, Apply(c, s, a), []);
  }

  /** The request is at work before the Flush is received. */
  lemma FlushBehindTask(c: Config, s: State) returns (t: State)
    requires Reachable(c, 1, s) && c.Gated() && s.work.poller.AtRecv? && s.work.bufferMid == []
    requires s.chan.open && s.chan.queue == [] && s.chan.taken == 1 == |s.chan.enqueued| == |s.chan.jobs|
    requires Mids(s.chan.enqueued) == [Mid(0, false, 0)] == JobMids(s.chan.jobs)
    requires |s.work.tasks| == 1 && s.work.tasks[0].mids == [Mid(0, false, 0)] && s.sink == Start(c, 1).sink
    ensures Overtakes(c, s, [Recv], t) && t.work == s.work.(poller := AtDrain)
  {
    var s' := Move(c, 1, s, Push(Flush));
    StreamLast(s.chan.enqueued, Control(Flush));
    OneStep(c, s', Recv);
    t := Move(c, 1, s', Recv);
  }

  lemma FlushOvertakes(c: Config, msg: Msg) returns (s: State, acts: seq<Act>, t: State)
    requires c.Gated() && c.maxParallel >= 1
    ensures Overtakes(c, s, acts, t)
    ensures t.work.poller.AtDrain? && t.work.avail == c.maxParallel - 1 && t.work.tasks[0].phase.Running?
  {
    var s0 := OneReceived(c, msg);
    if s0.work.poller.AtRecv? {
      s := s0;
      acts, t := FlushBehindBuffer(c, s);
    } else {
      s := Move(c, 1, s0, Do(Acquire));
      acts := [Recv];
      t := FlushBehindTask(c, s);
    }
  }

  /** The request is still in the buffer when the Flush is received. */
  lemma FlushBehindBuffer(c: Config, s: State) returns (acts: seq<Act>, t: State)
    requires Reachable(c, 1, s) && c.kind.UnorderedBatched? && c.maxParallel >= 1 && s.work.poller.AtRecv?
    requires s.chan.open && s.chan.queue == [] && s.chan.taken == 1 == |s.chan.enqueued| == |s.chan.jobs|
    requires Mids(s.chan.enqueued) == [Mid(0, false, 0)] == JobMids(s.chan.jobs)
    requires s.work.bufferMid == [Mid(0, false, 0)] && s.work.tasks == [] && s.work.avail == c.maxParallel
    requires s.sink == Start(c, 1).sink
    ensures Overtakes(c, s, acts, t)
    ensures t.work.poller.AtDrain? && t.work.avail == c.maxParallel - 1 && t.work.tasks[0].phase.Running?
  {
    var s' := Move(c, 1, s, Push(Flush));
    StreamLast(s.chan.enqueued, Control(Flush));
    var s1 := Move(c, 1, s', Recv);
    t := Move(c, 1, s1, Do(Acquire));
    OneStep(c, s', Recv);
    OneStep(c, s1, Do(Acquire));
    ExecAppend(c, s', [Recv], [Do(Acquire)]);
    acts := [Recv] + [Do(Acquire)];
  }

  /** The synchronized batched poller has its batch spawned, or in the buffer, and reports the Flush at once. */
  lemma FlushUnwaited(c: Config, msg: Msg) returns (s: State, u: State)
    requires c.kind.SynchronizedBatched?
    ensures Reachable(c, 1, s) && s.chan.open && |s.chan.jobs| == 1 && JobMids(s.chan.jobs) == [Mid(0, false, 0)]
    ensures var t := Apply(c, s, Push(Flush));
            && |t.chan.enqueued| == 2 && Reachable(c, 1, t)
            && Enabled(c, t, Recv) && EmitsFlushed(c, t, Recv) && u == Apply(c, t, Recv)
    ensures Reachable(c, 1, u) && |u.work.tasks| == 1 && u.work.tasks[0].phase.Waiting?
    ensures u.chan.taken == 2 && Mids(Received(u.chan)) == [Mid(0, false, 0)]
    ensures u.sink == Sink([Flushed], LoopIdle, [], [])
  {
    s := OneReceived(c, msg);
    var t := Move(c, 1, s, Push(Flush));
    StreamLast(s.chan.enqueued, Control(Flush));
    assert t.chan.queue[0] == Control(Flush) && RecvEvents(c, Control(Flush)) == [Flushed];
    u := Move(c, 1, t, Recv);
    assert Received(u.chan) == t.chan.enqueued;
  }

  /** The synchronized batched poller reports a Flush before the batch has run. */
  lemma SynchronizedBatchedFlush(c: Config, msg: Msg)
    requires c.kind.SynchronizedBatched?
    ensures !FlushIsBarrier(c)
  {
    var s, u := FlushUnwaited(c, msg);
    var t := Apply(c, s, Push(Flush));
    assert Reachable(c, 1, t) && EmitsFlushed(c, t, Recv) && !Quiet(Apply(c, t, Recv));
  }

  /** With 2^32 permits or more, Flush asks for fewer than there are and overtakes a running handler. */
  lemma TruncatedFlush(c: Config, msg: Msg)
    requires c.Gated() && !Counts32(c)
    ensures !FlushIsBarrier(c)
  {
    var s, acts, t := FlushOvertakes(c, msg);
    assert Enabled(c, t, Do(Drained)) && EmitsFlushed(c, t, Do(Drained));
    assert !Quiet(Apply(c, t, Do(Drained)));
  }

  /** Flush is a barrier exactly for the unordered kinds with a 32-bit permit count and for Synchronized. */
  lemma FlushBarrier(c: Config, msg: Msg)
    ensures FlushIsBarrier(c) <==> FlushSafe(c)
  {
    if FlushSafe(c) {
      forall n: nat, s: State, a: Act | Reachable(c, n, s) && Enabled(c, s, a) && EmitsFlushed(c, s, a)
        ensures Quiet(Apply(c, s, a))
      {
        SafeFlush(c, n, s, a);
      }
    } else if c.Gated() {
      TruncatedFlush(c, msg);
    } else {
      SynchronizedBatchedFlush(c, msg);
    }
  }

  // ---------------------------------------------------------------- a flush as one drain

  /** The handler of every request accepted in s has returned in u. */
  ghost predicate Drains(s: State, u: State) {
    forall id :: 0 <= id < |s.chan.jobs| ==> HandledIn(u.work.tasks, MidOf(s.chan.jobs[id], id))
  }

  ghost predicate HandledIn(tasks: seq<Task>, m: Mid) {
    exists t :: 0 <= t < |tasks| && tasks[t].phase.Emitting? && m in tasks[t].mids
  }

  /**
   From the moment a Flush is sent to the moment it is reported, the receiver handles everything it had accepted
   before: seen from outside, a flush is one drain.
   */
  ghost predicate FlushDrains(c: Config) {
    forall n: nat, s: State, acts: seq<Act>, a: Act |
      && Reachable(c, n, s) && s.chan.open && Valid(c, Apply(c, s, Push(Flush)), acts)
      && Reports(c, |s.chan.enqueued|, Exec(c, Apply(c, s, Push(Flush)), acts), a) ::
      Drains(s, Apply(c, Exec(c, Apply(c, s, Push(Flush)), acts), a))
  }

  /** The step emits Flushed, and the Flush at that position has been received. */
  ghost predicate Reports(c: Config, position: nat, t: State, a: Act) {
    Enabled(c, t, a) && EmitsFlushed(c, t, a) && position < Apply(c, t, a).chan.taken
  }

  lemma AcceptedKept(c: Config, s: State, a: Act)
    requires Enabled(c, s, a)
    ensures s.chan.enqueued <= Apply(c, s, a).chan.enqueued && s.chan.jobs <= Apply(c, s, a).chan.jobs
  {
  }

  lemma {:induction false} AcceptedGrows(c: Config, s: State, acts: seq<Act>)
    requires Valid(c, s, acts)
    ensures s.chan.enqueued <= Exec(c, s, acts).chan.enqueued && s.chan.jobs <= Exec(c, s, acts).chan.jobs
    decreases |acts|
  {
    if acts != [] {
      AcceptedKept(c, s, acts[0]);
      AcceptedGrows(c, Apply(c, s, acts[0]), acts[1..]);
    }
  }

  lemma {:induction false} InFlat(tasks: seq<Task>, m: Mid)
    requires m in FlatMids(tasks)
    ensures exists t :: 0 <= t < |tasks| && m in tasks[t].mids
  {
    var k := |tasks| - 1;
    if m in tasks[k].mids {
      assert m in tasks[k].mids;
    } else {
      InFlat(tasks[..k], m);
      var t :| 0 <= t < k && m in tasks[..k][t].mids;
      assert m in tasks[t].mids;
    }
  }

  /** A quiet state has handled everything accepted before an item it has received. */
  lemma QuietDrains(c: Config, n: nat, s: State, m: nat, u: State)
    requires Reachable(c, n, s) && Reachable(c, m, u) && Quiet(u)
    requires s.chan.enqueued <= u.chan.enqueued && s.chan.jobs <= u.chan.jobs && |s.chan.enqueued| <= u.chan.taken
    ensures Drains(s, u)
  {
    ReachableFormed(c, n, s);
    var seen := Received(u.chan);
    var early := s.chan.enqueued;
    assert seen == early + seen[|early|..];
    StreamAppend(early, seen[|early|..]);
    forall id | 0 <= id < |s.chan.jobs|
      ensures HandledIn(u.work.tasks, MidOf(s.chan.jobs[id], id))
    {
      var mid := MidOf(s.chan.jobs[id], id);
      assert JobMids(s.chan.jobs)[id] == mid && mid in Mids(early) && mid in FlatMids(u.work.tasks);
      InFlat(u.work.tasks, mid);
    }
  }

  lemma SafeFlushDrains(c: Config, n: nat, s: State, acts: seq<Act>, a: Act)
    requires FlushSafe(c) && Reachable(c, n, s) && s.chan.open && Valid(c, Apply(c, s, Push(Flush)), acts)
    requires Reports(c, |s.chan.enqueued|, Exec(c, Apply(c, s, Push(Flush)), acts), a)
    ensures Drains(s, Apply(c, Exec(c, Apply(c, s, Push(Flush)), acts), a))
  {
    var s' := Apply(c, s, Push(Flush));
    ReachableStep(c, n, s, Push(Flush));
    ReachableRun(c, n, s', acts);
    var t := Exec(c, s', acts);
    SafeFlush(c, n, t, a);
    ReachableStep(c, n, t, a);
    AcceptedGrows(c, s', acts);
    AcceptedKept(c, t, a);
    QuietDrains(c, n, s, n, Apply(c, t, a));
  }

  /** A flush is one drain exactly where it is a barrier. */
  lemma FlushDrainsExactly(c: Config, msg: Msg)
    ensures FlushDrains(c) <==> FlushSafe(c)
  {
    if FlushSafe(c) {
      forall n: nat, s: State, acts: seq<Act>, a: Act |
        && Reachable(c, n, s) && s.chan.open && Valid(c, Apply(c, s, Push(Flush)), acts)
        && Reports(c, |s.chan.enqueued|, Exec(c, Apply(c, s, Push(Flush)), acts), a)
        ensures Drains(s, Apply(c, Exec(c, Apply(c, s, Push(Flush)), acts), a))
      {
        SafeFlushDrains(c, n, s, acts, a);
      }
    } else if c.Gated() {
      var s, acts, t := FlushOvertakes(c, msg);
      NotDrained(s, Apply(c, t, Do(Drained)));
      assert Reports(c, |s.chan.enqueued|, Exec(c, Apply(c, s, Push(Flush)), acts), Do(Drained));
    } else {
      var s, u := FlushUnwaited(c, msg);
      NotDrained(s, u);
      var t := Apply(c, s, Push(Flush));
      assert Valid(c, t, []) && Exec(c, t, []) == t && Reports(c, |s.chan.enqueued|, Exec(c, t, []), Recv);
    }
  }

  lemma NotDrained(s: State, u: State)
    requires |s.chan.jobs| == 1 && |u.work.tasks| == 1 && !u.work.tasks[0].phase.Emitting?
    ensures !Drains(s, u)
  {
    assert !HandledIn(u.work.tasks, MidOf(s.chan.jobs[0], 0));
  }

  // ---------------------------------------------------------------- handled is not answered

  /** The response to every request received has been emitted. */
  ghost predicate AllSent(s: State) {
    && s.chan.taken <= |s.chan.enqueued|
    && multiset(Mids(Received(s.chan)))
       == multiset(EventMids(s.sink.events)) + multiset(InHand(s.sink.loop)) + multiset(EventMids(s.sink.answered))
  }

  /** In every run, a Flush reported as done means that everything received has been answered. */
  ghost predicate FlushAnswers(c: Config) {
    forall n: nat, s: State, a: Act | Reachable(c, n, s) && Enabled(c, s, a) && EmitsFlushed(c, s, a) ::
      AllSent(Apply(c, s, a))
  }

  /** Without a permit no handler ever runs. */
  predicate Idles(c: Config) {
    c.Gated() && c.maxParallel == 0
  }

  lemma IdlesStep(c: Config, n: nat, s: State, a: Act)
    requires Idles(c) && Reachable(c, n, s) && s.work.tasks == [] && Enabled(c, s, a)
    ensures Apply(c, s, a).work.tasks == []
  {
    ReachableExclusive(c, n, s);
  }

  lemma {:induction false} IdlesRun(c: Config, n: nat, s: State, acts: seq<Act>)
    requires Idles(c) && Reachable(c, n, s) && s.work.tasks == [] && Valid(c, s, acts)
    ensures Exec(c, s, acts).work.tasks == []
    decreases |acts|
  {
    if acts != [] {
      IdlesStep(c, n, s, acts[0]);
      ReachableStep(c, n, s, acts[0]);
      IdlesRun(c, n, Apply(c, s, acts[0]), acts[1..]);
    }
  }

  lemma NoTasks(c: Config, n: nat, s: State)
    requires Idles(c) && Reachable(c, n, s)
    ensures s.work.tasks == []
  {
    var acts :| Valid(c, Start(c, n), acts) && Exec(c, Start(c, n), acts) == s;
    ReachableStart(c, n);
    IdlesRun(c, n, Start(c, n), acts);
  }

  lemma AnsweredFlush(c: Config, n: nat, s: State, a: Act)
    requires Reachable(c, n, s) && Enabled(c, s, a) && EmitsFlushed(c, s, a) && (c.kind.Synchronized? || Idles(c))
    ensures AllSent(Apply(c, s, a))
  {
    var s' := Apply(c, s, a);
    ReachableExclusive(c, n, s);
    ReachableShape(c, n, s);
    ReachableStep(c, n, s, a);
    if Idles(c) {
      NoTasks(c, n, s');
    }
    FlatAll(c, n, s');
    DonePending(s'.work.tasks);
    ReachableLedger(c, n, s');
  }

  lemma HandledUnsent(c: Config, t: State, reply: Reply) returns (t': State)
    requires Reachable(c, 1, t) && c.Gated() && t.work.poller.AtDrain? && t.work.avail == c.maxParallel - 1
    requires |t.work.tasks| == 1 && t.work.tasks[0].phase.Running?
    ensures Reachable(c, 1, t') && Enabled(c, t', Do(Drained)) && t'.chan == t.chan && t'.sink == t.sink
  {
    t' := Move(c, 1, t, Do(Handle(0, Done([reply]))));
  }

  /** A permit is free, the request is handled, and the Flush is reported while the response is still to be sent. */
  lemma FlushedBeforeAnswered(c: Config, msg: Msg, reply: Reply) returns (s: State)
    requires c.Gated() && c.maxParallel >= 1
    ensures Reachable(c, 1, s) && Enabled(c, s, Do(Drained)) && !AllSent(Apply(c, s, Do(Drained)))
  {
    var s0, acts, t := FlushOvertakes(c, msg);
    s := HandledUnsent(c, t, reply);
    assert Received(s.chan) == s.chan.enqueued;
    Unsent(Apply(c, s, Do(Drained)));
  }

  lemma Unsent(s: State)
    requires s.sink == Sink([Flushed], LoopIdle, [], [])
    requires s.chan.taken <= |s.chan.enqueued| && Mids(Received(s.chan)) == [Mid(0, false, 0)]
    ensures !AllSent(s)
  {
    assert EventMids([Flushed]) == [] by {
      assert [Flushed][1..] == [];
    }
    assert |multiset(Mids(Received(s.chan)))| == 1;
  }

  /** Flushed implies answered exactly for the synchronized kind, and where no permit lets anything be handled. */
  lemma FlushAnswersExactly(c: Config, msg: Msg, reply: Reply)
    ensures FlushAnswers(c) <==> c.kind.Synchronized? || Idles(c)
  {
    if c.kind.Synchronized? || Idles(c) {
      forall n: nat, s: State, a: Act | Reachable(c, n, s) && Enabled(c, s, a) && EmitsFlushed(c, s, a)
        ensures AllSent(Apply(c, s, a))
      {
        AnsweredFlush(c, n, s, a);
      }
    } else if c.Gated() {
      var s := FlushedBeforeAnswered(c, msg, reply);
      assert EmitsFlushed(c, s, Do(Drained));
    } else {
      var s, u := FlushUnwaited(c, msg);
      Unsent(u);
      var t := Apply(c, s, Push(Flush));
      assert Reachable(c, 1, t) && EmitsFlushed(c, t, Recv);
    }
  }

  // ---------------------------------------------------------------- exclusion

  /** The semaphore bounds the handlers of the unordered kinds, the mutex those of the synchronized kinds to one. */
  lemma HandlersExclusive(c: Config, n: nat, s: State)
    requires Reachable(c, n, s)
    ensures Busy(s.work.tasks) <= if c.Gated() then c.maxParallel else 1
    ensures s.work.poller.InSync? && (c.Gated() ==> Counts32(c)) ==> NoneRunning(s.work.tasks)
  {
    ReachableExclusive(c, n, s);
    BusyZero(s.work.tasks);
  }

  /** In every run, no handler runs while `sync` does. */
  ghost predicate SyncAlone(c: Config) {
    forall n: nat, s: State | Reachable(c, n, s) && s.work.poller.InSync? :: NoneRunning(s.work.tasks)
  }

  /** With 2^32 permits or more, Sync too asks for fewer than there are, and starts beside a running handler. */
  lemma TruncatedSync(c: Config, msg: Msg) returns (s: State)
    requires c.Gated() && !Counts32(c)
    ensures Reachable(c, 1, s) && s.work.poller.InSync? && !NoneRunning(s.work.tasks)
  {
    var s0, acts, t := FlushOvertakes(c, msg);
    s := Move(c, 1, t, Do(Drained));
    s := Move(c, 1, s, Push(Sync));
    s := Move(c, 1, s, Recv);
    s := Move(c, 1, s, Do(SyncStart));
  }

  /** `sync` runs alone exactly if the permits, where there are any, can be counted in 32 bits. */
  lemma SyncAloneExactly(c: Config, msg: Msg)
    ensures SyncAlone(c) <==> (c.Gated() ==> Counts32(c))
  {
    if c.Gated() && !Counts32(c) {
      var s := TruncatedSync(c, msg);
      assert !SyncAlone(c);
    } else {
      forall n: nat, s: State | Reachable(c, n, s) && s.work.poller.InSync?
        ensures NoneRunning(s.work.tasks)
      {
        HandlersExclusive(c, n, s);
      }
    }
  }

  /** Batches are full unless a Flush cut them, and together with the buffer they are what was received. */
  lemma BatchesFormed(c: Config, n: nat, s: State)
    requires Reachable(c, n, s)
    ensures |s.work.bufferMid| == |s.work.buffer| <= c.Quantum()
    ensures forall t :: 0 <= t < |s.work.tasks| ==>
      && |s.work.tasks[t].mids| == |s.work.tasks[t].msgs|
      && (if s.work.tasks[t].full then |s.work.tasks[t].mids| == c.Quantum()
          else c.Batched() && 0 < |s.work.tasks[t].mids| < c.Quantum())
    ensures c.Quantum() == if c.kind.UnorderedBatched? || c.kind.SynchronizedBatched? then Max(1, c.batchSize) else 1
    ensures s.work.poller.Exited? ==> FlatMids(s.work.tasks) + s.work.dropped == JobMids(s.chan.jobs)
    ensures !s.work.poller.Exited? ==>
      && FlatMids(s.work.tasks) + HeldMids(s.work.poller) + s.work.bufferMid + Mids(s.chan.queue)
          == JobMids(s.chan.jobs)
      && FlatMsgs(s.work.tasks) + HeldMsgs(s.work.poller) + s.work.buffer + Msgs(s.chan.queue) == JobMsgs(s.chan.jobs)
  {
    ReachableFormed(c, n, s);
    ReachableShape(c, n, s);
    ReachableBatches(c, n, s);
    ReceivedAndQueued(s.chan);
    if s.work.poller.Exited? {
      assert Mids(s.chan.queue) == [] && HeldMids(s.work.poller) == [] && s.work.bufferMid == [];
    }
  }
}
