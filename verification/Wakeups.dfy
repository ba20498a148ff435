/**
 Backpressure without lost wake-ups: when a sender waits for capacity, somebody will wake it.
 */
module Wakeups {
  import opened Machine
  import opened Formation
  import opened Ledger
  import opened Invariant
  import opened Conservation
  import opened Progress

  // ---------------------------------------------------------------- one sender

  /** The only sender waits, or is about to, only while the counter is full or a notification is due. */
  ghost predicate Awaited(c: Config, s: State) {
    && |s.gate.senders| == 1
    && (s.gate.senders[0].Registering? || s.gate.senders[0].Parked? ==>
          s.gate.processing >= c.Cap() || s.sink.loop.OweNotify? || (s.gate.stored && s.gate.senders[0].Registering?))
  }

  lemma AwaitedStep(c: Config, s: State, a: Act)
    requires Awaited(c, s) && Lined(s.gate) && Enabled(c, s, a)
    ensures Awaited(c, Apply(c, s, a))
  {
  }

  lemma {:induction false} AwaitedRun(c: Config, s: State, acts: seq<Act>)
    requires Inv(c, s) && Awaited(c, s) && Valid(c, s, acts)
    ensures Awaited(c, Exec(c, s, acts))
    decreases |acts|
  {
    if acts != [] {
      AwaitedStep(c, s, acts[0]);
      InvStep(c, s, acts[0]);
      AwaitedRun(c, Apply(c, s, acts[0]), acts[1..]);
    }
  }

  lemma ReachableAwaited(c: Config, s: State)
    requires Reachable(c, 1, s)
    ensures Awaited(c, s)
  {
    var acts :| Valid(c, Start(c, 1), acts) && Exec(c, Start(c, 1), acts) == s;
    StartInv(c, 1);
    AwaitedRun(c, Start(c, 1), acts);
  }

  /** With everything else at rest, a lone waiting sender faces only what the buffer holds. */
  lemma RestingCount(c: Config, n: nat, s: State)
    requires Reachable(c, n, s) && AtRest(s) && s.chan.open
    ensures s.gate.processing == Permits(s.gate.senders) + |s.work.bufferMid| < Permits(s.gate.senders) + c.Quantum()
  {
    CounterExact(c, n, s);
    ReachableFormed(c, n, s);
    ReachableShape(c, n, s);
    DonePending(s.work.tasks);
  }

  /** A limit that lets a batch fill up, and a semaphore that lets a batch run. */
  predicate Adequate(c: Config) {
    c.Cap() >= c.Quantum() && (c.Gated() ==> c.maxParallel >= 1)
  }

  /** While the receiver is open, a lone sender that waits never waits on nobody. */
  ghost predicate DeadlockFree(c: Config) {
    forall s: State | Reachable(c, 1, s) && s.chan.open && s.gate.senders != [] && s.gate.senders[0].Parked? ::
      !Stuck(c, s)
  }

  lemma NoDeadlock(c: Config, s: State, out: Outcome)
    requires Adequate(c) && ValidOutcome(c, out)
    requires Reachable(c, 1, s) && s.chan.open && s.gate.senders != [] && s.gate.senders[0].Parked?
    ensures !Stuck(c, s)
  {
    if Stuck(c, s) {
      StuckAtRest(c, 1, s, out);
      RestingCount(c, 1, s);
      ReachableAwaited(c, s);
      PermitsIdle(s.gate.senders);
      assert false;
    }
  }

  /**
   The waiting sender is woken: left to themselves, poller, tasks and event loop halt within
   `Outstanding(s)` steps, and when they halt with the receiver still open the sender no longer waits.
   */
  lemma WokenInTime(c: Config, s: State, acts: seq<Act>, out: Outcome)
    requires Adequate(c) && ValidOutcome(c, out)
    requires Reachable(c, 1, s) && Valid(c, s, acts) && AllInternal(acts)
    requires var t := Exec(c, s, acts); t.chan.open && t.gate.senders != [] && t.gate.senders[0].Parked?
    ensures |acts| < Outstanding(s)
    ensures exists a :: Internal(a) && Enabled(c, Exec(c, s, acts), a)
  {
    var t := Exec(c, s, acts);
    ReachableRun(c, 1, s, acts);
    ReachableAwaited(c, t);
    NoDeadlock(c, t, out);
    var a :| Internal(a) && Enabled(c, t, a);
    ReachableShape(c, 1, t);
    StepDecreases(c, t, a);
    InternalRunsEnd(c, 1, s, acts);
  }

  // ---------------------------------------------------------------- inadequate configurations deadlock

  /** A sender is parked and only requests are queued, with nothing dispatched. */
  ghost predicate Clogged(s: State) {
    && s.chan.open && |s.gate.senders| == 1 && s.gate.senders[0].Parked?
    && (forall k :: 0 <= k < |s.chan.queue| ==> s.chan.queue[k].Request?)
    && s.work.tasks == [] && s.sink.events == [] && s.sink.loop.LoopIdle?
  }

  /** Too few requests fit under the limit to fill a batch. */
  ghost predicate TooFew(c: Config, s: State) {
    Clogged(s) && s.work.poller.AtRecv? && |s.chan.queue| + |s.work.bufferMid| < c.Quantum()
  }

  /** There is no permit to run a batch with. */
  ghost predicate NoPermit(c: Config, s: State) {
    && Clogged(s) && c.Gated() && s.work.avail == 0
    && (s.work.poller.AtRecv? || s.work.poller.AtAcquireFull? || s.work.poller.AtAcquire?)
  }

  lemma CloggedStep(c: Config, s: State, a: Act)
    requires Internal(a) && Enabled(c, s, a)
    requires !c.Batched() ==> s.work.bufferMid == []
    ensures TooFew(c, s) ==> TooFew(c, Apply(c, s, a))
    ensures NoPermit(c, s) ==> NoPermit(c, Apply(c, s, a))
  {
  }

  lemma {:induction false} CloggedRun(c: Config, s: State, acts: seq<Act>)
    requires Reachable(c, 1, s) && Valid(c, s, acts) && AllInternal(acts)
    requires TooFew(c, s) || NoPermit(c, s)
    ensures Clogged(Exec(c, s, acts))
    decreases |acts|
  {
    if acts != [] {
      ReachableShape(c, 1, s);
      CloggedStep(c, s, acts[0]);
      ReachableStep(c, 1, s, acts[0]);
      CloggedRun(c, Apply(c, s, acts[0]), acts[1..]);
    }
  }

  /** The sender has sent k messages and nobody else has moved. */
  ghost predicate Sent(c: Config, s: State, k: nat) {
    && s.gate.processing == k && s.gate.senders == [Idle] && !s.gate.stored && s.gate.parked == []
    && s.chan.open && |s.chan.queue| == k
    && (forall j :: 0 <= j < k ==> s.chan.queue[j].Request?)
    && s.work == Start(c, 1).work && s.sink == Start(c, 1).sink
  }

  lemma SendOne(c: Config, s: State, msg: Msg, k: nat) returns (s': State)
    requires Kept(c, 1, s) && Sent(c, s, k) && k < c.Cap()
    ensures Kept(c, 1, s') && Sent(c, s', k + 1)
  {
    s' := KeptMove(c, 1, s, Client(0, Post(0, msg)));
    s' := KeptMove(c, 1, s', Client(0, Load));
    s' := KeptMove(c, 1, s', Client(0, Cas));
    assert s'.gate.senders == [Holding(Posted(0, msg))];
    s' := KeptMove(c, 1, s', Client(0, Send));
    s' := KeptMove(c, 1, s', Client(0, Flag));
  }

  lemma SendMany(c: Config, msg: Msg, k: nat) returns (s: State)
    requires k <= Ceiling(c)
    ensures Kept(c, 1, s) && Sent(c, s, k)
    decreases k
  {
    if k == 0 {
      s := Start(c, 1);
      KeptStart(c, 1);
    } else {
      s := SendMany(c, msg, k - 1);
      s := SendOne(c, s, msg, k - 1);
    }
  }

  lemma ParkBehind(c: Config, s: State, msg: Msg, k: nat) returns (s': State)
    requires Kept(c, 1, s) && Sent(c, s, k) && k >= c.Cap()
    ensures Kept(c, 1, s') && Clogged(s')
    ensures s'.chan == s.chan && s'.work == s.work
  {
    s' := KeptMove(c, 1, s, Client(0, Post(0, msg)));
    s' := KeptMove(c, 1, s', Client(0, Load));
    s' := KeptMove(c, 1, s', Client(0, Register));
  }

  /** Without an adequate limit and semaphore a lone sender gets stuck for good. */
  lemma Cloggable(c: Config, msg: Msg) returns (s: State)
    requires !Adequate(c)
    ensures Kept(c, 1, s) && Clogged(s) && Stuck(c, s)
  {
    var k: nat := Ceiling(c);
    s := SendMany(c, msg, k);
    s := ParkBehind(c, s, msg, k);
    assert TooFew(c, s) || NoPermit(c, s);
    KeptReachable(c, 1, s);
    var acts := MaximalRun(c, 1, s);
    CloggedRun(c, s, acts);
    KeptRun(c, 1, s, acts);
    s := Exec(c, s, acts);
  }

  lemma Deadlocks(c: Config, msg: Msg)
    requires !Adequate(c)
    ensures !DeadlockFree(c)
  {
    var s := Cloggable(c, msg);
    KeptReachable(c, 1, s);
  }

  /** Backpressure is free of deadlock exactly for adequate configurations. */
  lemma Backpressure(c: Config, msg: Msg, out: Outcome)
    requires ValidOutcome(c, out)
    ensures DeadlockFree(c) <==> Adequate(c)
  {
    if Adequate(c) {
      forall s: State | Reachable(c, 1, s) && s.chan.open && s.gate.senders != [] && s.gate.senders[0].Parked?
        ensures !Stuck(c, s)
      {
        NoDeadlock(c, s, out);
      }
    } else {
      Deadlocks(c, msg);
    }
  }

  // ---------------------------------------------------------------- many senders

  predicate Retrying(x: Sender) {
    x.Trying? || x.Loaded?
  }

  predicate Queuing(x: Sender) {
    x.Registering? || x.Parked?
  }

  /** If anyone waits, the counter is positive, a notification is due or stored, or someone is retrying. */
  ghost predicate Attended(s: State) {
    (exists i :: 0 <= i < |s.gate.senders| && Queuing(s.gate.senders[i])) ==>
      || s.gate.processing > 0 || s.sink.loop.OweNotify? || s.gate.stored
      || exists j :: 0 <= j < |s.gate.senders| && Retrying(s.gate.senders[j])
  }

  lemma AttendedClient(c: Config, s: State, i: nat, x: ClientAct)
    requires Attended(s) && Counted(s) && c.Cap() >= 1 && Enabled(c, s, Client(i, x)) && !x.DropPermit?
    ensures Attended(Apply(c, s, Client(i, x)))
  {
    var g, g' := s.gate, Apply(c, s, Client(i, x)).gate;
    if exists j :: 0 <= j < |g'.senders| && Queuing(g'.senders[j]) {
      var j :| 0 <= j < |g'.senders| && Queuing(g'.senders[j]);
      if x.Cas? || x.Force? {
        assert g'.processing > 0 || Retrying(g'.senders[i]) by {
          CountedPositive(s);
        }
      } else if Retrying(g'.senders[i]) {
      } else if !x.Load? {
        assert Queuing(g.senders[j]);
        if g.processing <= 0 && !s.sink.loop.OweNotify? && !g.stored {
          var r :| 0 <= r < |g.senders| && Retrying(g.senders[r]);
          assert g'.senders[r] == g.senders[r];
        }
      }
    }
  }

  lemma CountedPositive(s: State)
    requires Counted(s)
    ensures s.gate.processing >= 0
  {
  }

  lemma AttendedNotify(s: State, c: Config)
    requires Attended(s) && Lined(s.gate) && Enabled(c, s, Notify)
    ensures Attended(Apply(c, s, Notify))
  {
    var g, g' := s.gate, Apply(c, s, Notify).gate;
    if g.parked != [] {
      assert Retrying(g'.senders[g.parked[0]]);
    }
  }

  lemma AttendedStep(c: Config, s: State, a: Act)
    requires Attended(s) && Counted(s) && Lined(s.gate) && c.Cap() >= 1 && Enabled(c, s, a)
    requires !Drops(a)
    ensures Attended(Apply(c, s, a))
  {
    match a {
      case Client(i, x) => AttendedClient(c, s, i, x);
      case Notify => AttendedNotify(s, c);
      case _ =>
    }
  }

  predicate Drops(a: Act) {
    a.Client? && a.client.DropPermit?
  }

  /** No unused permit is dropped in the run. */
  predicate KeepsPermits(acts: seq<Act>) {
    forall k :: 0 <= k < |acts| ==> !Drops(acts[k])
  }

  /** A state some run reaches in which no unused permit is dropped. */
  ghost predicate Kept(c: Config, n: nat, s: State) {
    exists acts :: Valid(c, Start(c, n), acts) && KeepsPermits(acts) && Exec(c, Start(c, n), acts) == s
  }

  lemma KeptReachable(c: Config, n: nat, s: State)
    requires Kept(c, n, s)
    ensures Reachable(c, n, s)
  {
  }

  lemma KeptStart(c: Config, n: nat)
    ensures Kept(c, n, Start(c, n))
  {
    assert Valid(c, Start(c, n), []) && KeepsPermits([]) && Exec(c, Start(c, n), []) == Start(c, n);
  }

  lemma KeptOn(c: Config, n: nat, s: State, acts: seq<Act>)
    requires Kept(c, n, s) && Valid(c, s, acts) && KeepsPermits(acts)
    ensures Kept(c, n, Exec(c, s, acts))
  {
    var before :| Valid(c, Start(c, n), before) && KeepsPermits(before) && Exec(c, Start(c, n), before) == s;
    ExecAppend(c, Start(c, n), before, acts);
    assert KeepsPermits(before + acts);
  }

  lemma KeptStep(c: Config, n: nat, s: State, a: Act)
    requires Kept(c, n, s) && Enabled(c, s, a) && !Drops(a)
    ensures Kept(c, n, Apply(c, s, a))
  {
    assert [a][1..] == [] && Valid(c, Apply(c, s, a), []);
    assert Exec(c, s, [a]) == Exec(c, Apply(c, s, a), []);
    KeptOn(c, n, s, [a]);
  }

  lemma KeptMove(c: Config, n: nat, s: State, a: Act) returns (s': State)
    requires Kept(c, n, s) && Enabled(c, s, a) && !Drops(a)
    ensures Kept(c, n, s') && s' == Apply(c, s, a)
  {
    KeptStep(c, n, s, a);
    s' := Apply(c, s, a);
  }

  lemma KeptRun(c: Config, n: nat, s: State, acts: seq<Act>)
    requires Kept(c, n, s) && Valid(c, s, acts) && AllInternal(acts)
    ensures Kept(c, n, Exec(c, s, acts))
  {
    assert forall k :: 0 <= k < |acts| ==> Internal(acts[k]);
    KeptOn(c, n, s, acts);
  }

  lemma {:induction false} AttendedRun(c: Config, n: nat, s: State, acts: seq<Act>)
    requires Reachable(c, n, s) && Attended(s) && c.Cap() >= 1 && Valid(c, s, acts) && KeepsPermits(acts)
    ensures Attended(Exec(c, s, acts))
    decreases |acts|
  {
    if acts != [] {
      ReachableLedger(c, n, s);
      ReachableLined(c, n, s);
      AttendedStep(c, s, acts[0]);
      ReachableStep(c, n, s, acts[0]);
      assert forall k :: 0 <= k < |acts[1..]| ==> acts[1..][k] == acts[k + 1];
      AttendedRun(c, n, Apply(c, s, acts[0]), acts[1..]);
    }
  }

  /** Accepted requests that still owe the counter a decrement. */
  ghost predicate Unanswered(s: State) {
    || Mids(s.chan.queue) != [] || HeldMids(s.work.poller) != [] || s.work.bufferMid != []
    || Pending(s.work.tasks) != multiset{} || EventMids(s.sink.events) != []
  }

  /** A sender that is not waiting and not idle. */
  predicate Active(x: Sender) {
    Retrying(x) || x.Holding? || x.Forcing?
  }

  /**
   For an open receiver with any number of senders: a parked sender always has an accepted unanswered
   request, a due notification, or an active sender to rely on.
   */
  lemma NoStrandedSender(c: Config, n: nat, acts: seq<Act>, i: nat)
    requires Valid(c, Start(c, n), acts) && KeepsPermits(acts)
    requires c.Cap() >= 1
    requires var s := Exec(c, Start(c, n), acts); s.chan.open && i < |s.gate.senders| && s.gate.senders[i].Parked?
    ensures var s := Exec(c, Start(c, n), acts);
      || Unanswered(s) || s.sink.loop.OweNotify?
      || exists j :: 0 <= j < |s.gate.senders| && Active(s.gate.senders[j])
  {
    var s := Exec(c, Start(c, n), acts);
    RunAttended(c, n, acts);
    ReachableLined(c, n, s);
    assert Queuing(s.gate.senders[i]) && !s.gate.stored;
    if s.gate.processing > 0 && !Unanswered(s) {
      PermitOut(c, n, s);
    }
  }

  lemma RunAttended(c: Config, n: nat, acts: seq<Act>)
    requires Valid(c, Start(c, n), acts) && KeepsPermits(acts) && c.Cap() >= 1
    ensures Attended(Exec(c, Start(c, n), acts))
  {
    ReachableStart(c, n);
    AttendedRun(c, n, Start(c, n), acts);
  }

  /** A positive counter with nothing unanswered means that some sender holds a permit. */
  lemma PermitOut(c: Config, n: nat, s: State)
    requires Reachable(c, n, s) && s.chan.open && s.gate.processing > 0 && !Unanswered(s)
    ensures exists j :: 0 <= j < |s.gate.senders| && Active(s.gate.senders[j])
  {
    CounterExact(c, n, s);
    ReachableFormed(c, n, s);
    ReachableShape(c, n, s);
    if forall j :: 0 <= j < |s.gate.senders| ==> Permit(s.gate.senders[j]) == 0 {
      PermitsIdle(s.gate.senders);
    }
  }

  /** ... and if no request can be left in a buffer, somebody can move: the machinery, or an active sender. */
  lemma SomebodyMoves(c: Config, n: nat, acts: seq<Act>, i: nat, out: Outcome)
    requires Valid(c, Start(c, n), acts) && KeepsPermits(acts)
    requires c.Quantum() == 1 && Adequate(c) && ValidOutcome(c, out)
    requires var s := Exec(c, Start(c, n), acts); s.chan.open && i < |s.gate.senders| && s.gate.senders[i].Parked?
    ensures var s := Exec(c, Start(c, n), acts);
      || !Stuck(c, s)
      || exists j, x :: Enabled(c, s, Client(j, x)) && (x.Load? || x.Cas? || x.Send?)
  {
    var s := Exec(c, Start(c, n), acts);
    NoStrandedSender(c, n, acts, i);
    if Stuck(c, s) {
      StuckAtRest(c, n, s, out);
      DonePending(s.work.tasks);
      ReachableShape(c, n, s);
      assert !Unanswered(s) && !s.sink.loop.OweNotify?;
      var j :| 0 <= j < |s.gate.senders| && Active(s.gate.senders[j]);
      var x := if s.gate.senders[j].Trying? then Load else if s.gate.senders[j].Loaded? then Cas else Send;
      assert Enabled(c, s, Client(j, x));
    }
  }
}
