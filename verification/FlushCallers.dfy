/**
 Callers of `flush`: each sends a Flush and waits on the one notification cell `flushed` they all share.

 The event loop notifies one waiter for each Flushed it takes.  Nothing ties that waiter to the Flush reported, so
 a caller can be woken by another's report.
 */
module FlushCallers {
  import opened Machine
  import opened Formation
  import opened Invariant
  import opened Barrier
  import opened FlushReports

  // ---------------------------------------------------------------- the receiver with its flush callers

  /**
   A caller's place in `flush`.  History: the ordinal of the Flush it sent, and how many requests had been
   accepted by then.
   */
  datatype Caller =
    | Away
    | Called(ordinal: nat, accepted: nat)     // Flush sent, `notified()` not polled yet
    | Waiting(ordinal: nat, accepted: nat)
    | Returned(ordinal: nat, accepted: nat)

  /** `stored` and `line` are the notification cell: one stored notification, or the callers that wait on it. */
  datatype System = System(s: State, callers: seq<Caller>, stored: bool, line: seq<nat>)

  datatype CallAct = Base(act: Act) | Call(caller: nat) | Await(caller: nat)

  function StartSystem(c: Config, n: nat, m: nat): System {
    System(Start(c, n), seq(m, i => Away), false, [])
  }

  predicate EnabledSystem(c: Config, y: System, a: CallAct) {
    match a
    case Base(b) => b != Push(Flush) && Enabled(c, y.s, b)
    case Call(i) => i < |y.callers| && (y.callers[i].Away? || y.callers[i].Returned?) && y.s.chan.open
    case Await(i) => i < |y.callers| && y.callers[i].Called?
  }

  /** `flushed.notify_one()` */
  function NotifyFlushed(y: System): System {
    if y.line == [] then y.(stored := true)
    else
      var i := y.line[0];
      if i < |y.callers| && y.callers[i].Waiting? then
        y.(callers := y.callers[i := Returned(y.callers[i].ordinal, y.callers[i].accepted)], line := y.line[1..])
      else y.(line := y.line[1..])
  }

  /** One caller is woken, the one that has waited longest; with nobody waiting one notification is stored. */
  lemma NotifiedFirst(y: System)
    ensures y.line == [] ==> NotifyFlushed(y) == y.(stored := true)
    ensures y.line != [] && y.line[0] < |y.callers| && y.callers[y.line[0]].Waiting? ==>
              var y', i := NotifyFlushed(y), y.line[0];
              && y'.line == y.line[1..] && y'.stored == y.stored && y'.s == y.s && |y'.callers| == |y.callers|
              && y'.callers[i] == Returned(y.callers[i].ordinal, y.callers[i].accepted)
              && forall j :: 0 <= j < |y.callers| && j != i ==> y'.callers[j] == y.callers[j]
  {
  }

  function ApplySystem(c: Config, y: System, a: CallAct): System
    requires EnabledSystem(c, y, a)
  {
    match a
    case Base(b) =>
      var y' := y.(s := Apply(c, y.s, b));
      if b.Take? && y.s.sink.events[0].Flushed? then NotifyFlushed(y') else y'
    case Call(i) =>
      y.(s := Apply(c, y.s, Push(Flush)),
         callers := y.callers[i := Called(Flushes(y.s.chan.enqueued) + 1, |y.s.chan.jobs|)])
    case Await(i) =>
      var o, k := y.callers[i].ordinal, y.callers[i].accepted;
      if y.stored then y.(callers := y.callers[i := Returned(o, k)], stored := false)
      else y.(callers := y.callers[i := Caller.Waiting(o, k)], line := y.line + [i])
  }

  ghost predicate ValidSystem(c: Config, y: System, acts: seq<CallAct>)
    decreases |acts|
  {
    acts == [] || (EnabledSystem(c, y, acts[0]) && ValidSystem(c, ApplySystem(c, y, acts[0]), acts[1..]))
  }

  ghost function ExecSystem(c: Config, y: System, acts: seq<CallAct>): System
    requires ValidSystem(c, y, acts)
    decreases |acts|
  {
    if acts == [] then y else ExecSystem(c, ApplySystem(c, y, acts[0]), acts[1..])
  }

  /** A state of the system that some run with n senders and m flush callers reaches. */
  ghost predicate Arises(c: Config, n: nat, m: nat, y: System) {
    exists acts :: ValidSystem(c, StartSystem(c, n, m), acts) && ExecSystem(c, StartSystem(c, n, m), acts) == y
  }

  lemma {:induction false} SystemAppend(c: Config, y: System, acts: seq<CallAct>, a: CallAct)
    requires ValidSystem(c, y, acts) && EnabledSystem(c, ExecSystem(c, y, acts), a)
    ensures ValidSystem(c, y, acts + [a]) && ExecSystem(c, y, acts + [a]) == ApplySystem(c, ExecSystem(c, y, acts), a)
    decreases |acts|
  {
    if acts == [] {
      assert [a][1..] == [] && acts + [a] == [a];
    } else {
      assert (acts + [a])[0] == acts[0] && (acts + [a])[1..] == acts[1..] + [a];
      SystemAppend(c, ApplySystem(c, y, acts[0]), acts[1..], a);
    }
  }

  lemma MoveSystem(c: Config, n: nat, m: nat, y: System, a: CallAct) returns (y': System)
    requires Arises(c, n, m, y) && EnabledSystem(c, y, a)
    ensures Arises(c, n, m, y') && y' == ApplySystem(c, y, a)
  {
    var acts :| ValidSystem(c, StartSystem(c, n, m), acts) && ExecSystem(c, StartSystem(c, n, m), acts) == y;
    SystemAppend(c, StartSystem(c, n, m), acts, a);
    y' := ApplySystem(c, y, a);
  }

  lemma ArisesAtStart(c: Config, n: nat, m: nat)
    ensures Arises(c, n, m, StartSystem(c, n, m))
  {
    assert ValidSystem(c, StartSystem(c, n, m), []) && ExecSystem(c, StartSystem(c, n, m), []) == StartSystem(c, n, m);
  }

  // ---------------------------------------------------------------- what a return should mean

  /** All of the first k accepted requests have been handled. */
  ghost predicate HandledFirst(s: State, k: nat) {
    forall id :: 0 <= id < |s.chan.jobs| && id < k ==> HandledIn(s.work.tasks, MidOf(s.chan.jobs[id], id))
  }

  /** In every run with m callers, whoever returns from `flush` finds handled what was accepted before the call. */
  ghost predicate FlushReturnsMean(c: Config, m: nat) {
    forall n: nat, y: System, i: nat | Arises(c, n, m, y) && i < m && i < |y.callers| && y.callers[i].Returned? ::
      HandledFirst(y.s, y.callers[i].accepted)
  }

  // ---------------------------------------------------------------- one caller at a time

  /** The Flush with that ordinal was sent when that many requests had been accepted. */
  ghost predicate Marked(ch: Channel, ordinal: nat, accepted: nat) {
    exists p: nat :: MarkedAt(ch, ordinal, accepted, p)
  }

  ghost predicate MarkedAt(ch: Channel, ordinal: nat, accepted: nat, p: nat) {
    && p < |ch.enqueued| && ch.enqueued[p] == Control(Flush) && Flushes(ch.enqueued[..p + 1]) == ordinal
    && accepted <= |ch.jobs| && Mids(ch.enqueued[..p]) == JobMids(ch.jobs[..accepted])
  }

  lemma MarkedStays(ch: Channel, ch': Channel, ordinal: nat, accepted: nat)
    requires Marked(ch, ordinal, accepted) && ch.enqueued <= ch'.enqueued && ch.jobs <= ch'.jobs
    ensures Marked(ch', ordinal, accepted)
  {
    var p: nat :| MarkedAt(ch, ordinal, accepted, p);
    assert ch'.enqueued[..p + 1] == ch.enqueued[..p + 1] && ch'.enqueued[..p] == ch.enqueued[..p];
    assert ch'.jobs[..accepted] == ch.jobs[..accepted];
    assert MarkedAt(ch', ordinal, accepted, p);
  }

  /** Flushed events the loop has taken. */
  function Taken(y: System): nat {
    FlushedIn(y.s.sink.seen)
  }

  function Asked(y: System): nat {
    Flushes(y.s.chan.enqueued)
  }

  /** The only caller and the cell: at most its own Flush is under way. */
  ghost predicate Solo(y: System) {
    && |y.callers| == 1
    && match y.callers[0]
       case Away => Taken(y) == Asked(y) && !y.stored && y.line == []
       case Called(o, k) =>
         o == Asked(y) && y.line == [] && Taken(y) + 1 >= o >= Taken(y) && (y.stored <==> Taken(y) == o)
       case Waiting(o, k) => o == Asked(y) && y.line == [0] && !y.stored && Taken(y) + 1 == o
       case Returned(o, k) => Taken(y) == Asked(y) == o && !y.stored && y.line == []
  }

  /** What a caller remembers of its call. */
  ghost predicate Remembers(y: System) {
    forall i :: 0 <= i < |y.callers| && !y.callers[i].Away? ==>
      Marked(y.s.chan, y.callers[i].ordinal, y.callers[i].accepted)
  }

  /** There are never more reports than Flushes. */
  lemma TakenAtMostAsked(c: Config, n: nat, s: State)
    requires Reachable(c, n, s)
    ensures FlushedIn(s.sink.seen) + FlushedIn(s.sink.events) <= Flushes(s.chan.enqueued)
  {
    ReportsInOrder(c, n, s);
    EmittedAtMost(s);
  }

  /** A step that is no Flush leaves the number of Flushes sent alone, and only Take changes what was taken. */
  lemma BaseCounts(c: Config, s: State, b: Act)
    requires Enabled(c, s, b) && b != Push(Flush)
    ensures Flushes(Apply(c, s, b).chan.enqueued) == Flushes(s.chan.enqueued)
    ensures FlushedIn(Apply(c, s, b).sink.seen)
         == FlushedIn(s.sink.seen) + if b.Take? && s.sink.events[0].Flushed? then 1 else 0
  {
    var s' := Apply(c, s, b);
    match b {
      case Push(action) => FlushesNext(s.chan.enqueued, Control(action));
      case Client(i, x) =>
        if x.Send? && s.chan.open {
          FlushesNext(s.chan.enqueued, s'.chan.enqueued[|s.chan.enqueued|]);
        }
      case Take =>
        FlushedInAppend(s.sink.seen, [s.sink.events[0]]);
        FlushedInOne(s.sink.events[0]);
      case Recv =>
      case Do(_) =>
      case Notify =>
      case Deliver =>
      case Stop =>
    }
  }

  /** A report still to be taken answers a Flush that was not reported before. */
  lemma OwnReport(c: Config, n: nat, y: System)
    requires Reachable(c, n, y.s) && y.s.sink.events != [] && y.s.sink.events[0].Flushed?
    ensures Taken(y) < Asked(y)
  {
    TakenAtMostAsked(c, n, y.s);
    FlushedInHead(y.s.sink.events);
    FlushedInOne(y.s.sink.events[0]);
  }

  lemma SoloBase(c: Config, n: nat, y: System, b: Act)
    requires Reachable(c, n, y.s) && Solo(y) && EnabledSystem(c, y, Base(b))
    ensures Solo(ApplySystem(c, y, Base(b)))
  {
    BaseCounts(c, y.s, b);
    if b.Take? && y.s.sink.events[0].Flushed? {
      OwnReport(c, n, y);
    }
  }

  lemma SoloCall(c: Config, y: System, i: nat)
    requires Solo(y) && EnabledSystem(c, y, Call(i))
    ensures Solo(ApplySystem(c, y, Call(i)))
  {
    FlushesNext(y.s.chan.enqueued, Control(Flush));
  }

  lemma CallMarks(c: Config, n: nat, y: System, i: nat)
    requires Reachable(c, n, y.s) && EnabledSystem(c, y, Call(i))
    ensures var y' := ApplySystem(c, y, Call(i)); Marked(y'.s.chan, y'.callers[i].ordinal, y'.callers[i].accepted)
  {
    var y' := ApplySystem(c, y, Call(i));
    var items, p := y.s.chan.enqueued, |y.s.chan.enqueued|;
    ReachableFormed(c, n, y.s);
    FlushesNext(items, Control(Flush));
    assert y'.s.chan.enqueued[..p] == items && y'.s.chan.enqueued[..p + 1] == y'.s.chan.enqueued;
    assert y.s.chan.jobs[..|y.s.chan.jobs|] == y.s.chan.jobs;
    assert MarkedAt(y'.s.chan, y'.callers[i].ordinal, y'.callers[i].accepted, p);
  }

  /** Notifications move callers and touch nothing that they remember. */
  lemma SameMemory(c: Config, y: System, a: CallAct, i: nat)
    requires EnabledSystem(c, y, a) && !a.Call? && i < |y.callers|
    ensures var y' := ApplySystem(c, y, a);
            && |y'.callers| == |y.callers| && (y'.callers[i].Away? <==> y.callers[i].Away?)
            && (!y.callers[i].Away? ==>
                  y'.callers[i].ordinal == y.callers[i].ordinal && y'.callers[i].accepted == y.callers[i].accepted)
  {
  }

  lemma ChannelGrows(c: Config, y: System, a: CallAct)
    requires EnabledSystem(c, y, a)
    ensures y.s.chan.enqueued <= ApplySystem(c, y, a).s.chan.enqueued
    ensures y.s.chan.jobs <= ApplySystem(c, y, a).s.chan.jobs
  {
    match a
    case Base(b) => AcceptedKept(c, y.s, b);
    case Call(_) => AcceptedKept(c, y.s, Push(Flush));
    case Await(_) =>
  }

  lemma RemembersStep(c: Config, n: nat, y: System, a: CallAct)
    requires Reachable(c, n, y.s) && Remembers(y) && EnabledSystem(c, y, a)
    ensures Remembers(ApplySystem(c, y, a))
  {
    var y' := ApplySystem(c, y, a);
    ChannelGrows(c, y, a);
    forall i | 0 <= i < |y'.callers| && !y'.callers[i].Away?
      ensures Marked(y'.s.chan, y'.callers[i].ordinal, y'.callers[i].accepted)
    {
      if a == Call(i) {
        CallMarks(c, n, y, i);
      } else {
        if !a.Call? {
          SameMemory(c, y, a, i);
        }
        MarkedStays(y.s.chan, y'.s.chan, y.callers[i].ordinal, y.callers[i].accepted);
      }
    }
  }

  lemma SystemStep(c: Config, n: nat, y: System, a: CallAct)
    requires Reachable(c, n, y.s) && Remembers(y) && EnabledSystem(c, y, a)
    ensures Reachable(c, n, ApplySystem(c, y, a).s) && Remembers(ApplySystem(c, y, a))
    ensures Solo(y) ==> Solo(ApplySystem(c, y, a))
  {
    RemembersStep(c, n, y, a);
    match a {
      case Base(b) =>
        ReachableStep(c, n, y.s, b);
        if Solo(y) {
          SoloBase(c, n, y, b);
        }
      case Call(i) =>
        ReachableStep(c, n, y.s, Push(Flush));
        if Solo(y) {
          SoloCall(c, y, i);
        }
      case Await(_) =>
    }
  }

  lemma {:induction false} SystemRun(c: Config, n: nat, y: System, acts: seq<CallAct>)
    requires Reachable(c, n, y.s) && Remembers(y) && ValidSystem(c, y, acts)
    ensures Reachable(c, n, ExecSystem(c, y, acts).s) && Remembers(ExecSystem(c, y, acts))
    ensures Solo(y) ==> Solo(ExecSystem(c, y, acts))
    decreases |acts|
  {
    if acts != [] {
      SystemStep(c, n, y, acts[0]);
      SystemRun(c, n, ApplySystem(c, y, acts[0]), acts[1..]);
    }
  }

  lemma ArisesInv(c: Config, n: nat, m: nat, y: System)
    requires Arises(c, n, m, y)
    ensures Reachable(c, n, y.s) && Remembers(y) && (m == 1 ==> Solo(y))
  {
    var acts :| ValidSystem(c, StartSystem(c, n, m), acts) && ExecSystem(c, StartSystem(c, n, m), acts) == y;
    ReachableStart(c, n);
    assert m == 1 ==> Solo(StartSystem(c, n, m));
    SystemRun(c, n, StartSystem(c, n, m), acts);
  }

  /** Once the Flush a caller sent has been reported, what was accepted before its call has been handled. */
  lemma ReportMeans(c: Config, n: nat, s: State, ordinal: nat, accepted: nat)
    requires FlushSafe(c) && Reachable(c, n, s) && Marked(s.chan, ordinal, accepted) && ordinal <= Emitted(s.sink)
    ensures HandledFirst(s, accepted)
  {
    ReportsInOrder(c, n, s);
    var p: nat :| MarkedAt(s.chan, ordinal, accepted, p);
    assert Reported(s, p) && HandledBefore(s, p);
    forall id | 0 <= id < |s.chan.jobs| && id < accepted
      ensures HandledIn(s.work.tasks, MidOf(s.chan.jobs[id], id))
    {
      assert JobMids(s.chan.jobs[..accepted])[id] == MidOf(s.chan.jobs[id], id);
    }
  }

  /** A caller on its own returns on the report of its own Flush, and where that is a barrier it can rely on it. */
  lemma SoloReturn(c: Config, n: nat, y: System)
    requires Arises(c, n, 1, y) && y.callers != [] && y.callers[0].Returned?
    ensures Marked(y.s.chan, y.callers[0].ordinal, y.callers[0].accepted) && y.callers[0].ordinal <= Taken(y)
    ensures FlushSafe(c) ==> HandledFirst(y.s, y.callers[0].accepted)
  {
    ArisesInv(c, n, 1, y);
    if FlushSafe(c) {
      ReportMeans(c, n, y.s, y.callers[0].ordinal, y.callers[0].accepted);
    }
  }

  // ---------------------------------------------------------------- woken by somebody else's report

  /** A message is forced in, and nothing else happens. */
  lemma ForceIn(c: Config, m: nat, y: System, msg: Msg) returns (y': System)
    requires Arises(c, 1, m, y) && y.s.gate.senders == [Idle] && y.s.chan.open
    ensures Arises(c, 1, m, y') && y'.s.work == y.s.work && y'.s.sink == y.s.sink && y'.s.chan.open
    ensures y'.callers == y.callers && y'.stored == y.stored && y'.line == y.line
    ensures y'.s.chan.queue == y.s.chan.queue + [Request(Mid(0, false, |y.s.chan.jobs|), msg)]
    ensures y'.s.chan.jobs == y.s.chan.jobs + [Posted(0, msg)]
  {
    y' := MoveSystem(c, 1, m, y, Base(Client(0, Force(0, msg))));
    y' := MoveSystem(c, 1, m, y', Base(Client(0, Send)));
    y' := MoveSystem(c, 1, m, y', Base(Client(0, Flag)));
  }

  /** Two callers: a message is accepted between their Flushes, and the second is the first to wait. */
  lemma SecondWaitsFirst(c: Config, m: nat, msg: Msg) returns (y: System)
    requires m >= 2
    ensures Arises(c, 1, m, y) && |y.callers| == m && y.callers[1].Waiting? && y.callers[1].accepted == 1
    ensures y.line == [1] && y.s.chan.queue != [] && y.s.chan.queue[0] == Control(Flush)
    ensures |y.s.chan.jobs| == 1 && y.s.work == Start(c, 1).work && y.s.sink == Start(c, 1).sink
  {
    y := StartSystem(c, 1, m);
    ArisesAtStart(c, 1, m);
    assert y.s.gate.senders == [Idle];
    y := MoveSystem(c, 1, m, y, Call(0));
    y := ForceIn(c, m, y, msg);
    y := MoveSystem(c, 1, m, y, Call(1));
    y := MoveSystem(c, 1, m, y, Await(1));
  }

  /** The Flush at the head of the channel is received and reported. */
  lemma FirstReported(c: Config, m: nat, y: System) returns (y': System)
    requires Arises(c, 1, m, y) && y.s.chan.queue != [] && y.s.chan.queue[0] == Control(Flush)
    requires y.s.work == Start(c, 1).work && y.s.sink == Start(c, 1).sink
    ensures Arises(c, 1, m, y') && y'.s.sink == Sink([Flushed], LoopIdle, [], []) && y'.s.work.tasks == []
    ensures y'.callers == y.callers && y'.line == y.line && y'.s.chan.jobs == y.s.chan.jobs
  {
    y' := MoveSystem(c, 1, m, y, Base(Recv));
    if c.Gated() {
      y' := MoveSystem(c, 1, m, y', Base(Do(Drained)));
    }
  }

  /** The first Flushed wakes the second caller, whose message has not even been received. */
  lemma WokenByAnother(c: Config, m: nat, msg: Msg) returns (y: System)
    requires m >= 2
    ensures Arises(c, 1, m, y) && |y.callers| == m && y.callers[1].Returned?
    ensures !HandledFirst(y.s, y.callers[1].accepted)
  {
    y := SecondWaitsFirst(c, m, msg);
    y := FirstReported(c, m, y);
    y := MoveSystem(c, 1, m, y, Base(Take));
    Unhandled(y.s);
  }

  lemma Unhandled(s: State)
    requires |s.chan.jobs| == 1 && forall t :: 0 <= t < |s.work.tasks| ==> !s.work.tasks[t].phase.Emitting?
    ensures !HandledFirst(s, 1)
  {
    assert !HandledIn(s.work.tasks, MidOf(s.chan.jobs[0], 0));
  }

  // ---------------------------------------------------------------- where Flush itself is no barrier

  /** One message is received, and the only caller is away. */
  ghost predicate Received1(c: Config, y: System) {
    && Arises(c, 1, 1, y) && y.callers == [Away] && !y.stored && y.line == []
    && y.s.chan.open && y.s.chan.queue == [] && |y.s.chan.jobs| == 1 && y.s.sink == Start(c, 1).sink
    && forall t :: 0 <= t < |y.s.work.tasks| ==> !y.s.work.tasks[t].phase.Emitting?
  }

  lemma OneIn(c: Config, msg: Msg) returns (y: System)
    ensures Received1(c, y)
    ensures y.s.work == RecvStep(c, Start(c, 1).work, Request(Mid(0, false, 0), msg))
  {
    y := StartSystem(c, 1, 1);
    ArisesAtStart(c, 1, 1);
    assert y.s.gate.senders == [Idle] && y.callers == [Away];
    y := ForceIn(c, 1, y, msg);
    assert y.s.chan.queue == [Request(Mid(0, false, 0), msg)];
    y := MoveSystem(c, 1, 1, y, Base(Recv));
  }

  /** The caller's Flush is reported; the caller finds the notification stored and returns. */
  lemma ReturnOn(c: Config, y: System) returns (y': System)
    requires Arises(c, 1, 1, y) && |y.callers| == 1 && y.callers[0].Called? && y.callers[0].accepted == 1
    requires y.line == [] && y.s.sink == Sink([Flushed], LoopIdle, [], []) && |y.s.chan.jobs| == 1
    requires forall t :: 0 <= t < |y.s.work.tasks| ==> !y.s.work.tasks[t].phase.Emitting?
    ensures Arises(c, 1, 1, y') && |y'.callers| == 1 && y'.callers[0].Returned?
    ensures !HandledFirst(y'.s, y'.callers[0].accepted)
  {
    y' := MoveSystem(c, 1, 1, y, Base(Take));
    y' := MoveSystem(c, 1, 1, y', Await(0));
    Unhandled(y'.s);
  }

  /** With 2^32 permits or more, the caller returns while the handler still runs. */
  lemma ReturnsTooEarly(c: Config, msg: Msg) returns (y: System)
    requires c.Gated() && !Counts32(c)
    ensures Arises(c, 1, 1, y) && |y.callers| == 1 && y.callers[0].Returned?
    ensures !HandledFirst(y.s, y.callers[0].accepted)
  {
    y := OneIn(c, msg);
    y := Overtaken(c, y);
    y := MoveSystem(c, 1, 1, y, Base(Do(Drained)));
    y := ReturnOn(c, y);
  }

  /** Behind the request, in the buffer or already at work, the Flush comes to wait for fewer permits than there are. */
  lemma Overtaken(c: Config, y: System) returns (y': System)
    requires c.Gated() && c.maxParallel >= 1 && Received1(c, y)
    requires exists msg :: y.s.work == RecvStep(c, Start(c, 1).work, Request(Mid(0, false, 0), msg))
    ensures Arises(c, 1, 1, y') && |y'.callers| == 1 && y'.callers[0].Called? && y'.callers[0].accepted == 1
    ensures y'.line == [] && y'.s.sink == Start(c, 1).sink && |y'.s.chan.jobs| == 1
    ensures y'.s.work.poller.AtDrain? && y'.s.work.avail == c.maxParallel - 1
    ensures forall t :: 0 <= t < |y'.s.work.tasks| ==> !y'.s.work.tasks[t].phase.Emitting?
  {
    if y.s.work.poller.AtRecv? {
      y' := MoveSystem(c, 1, 1, y, Call(0));
      y' := MoveSystem(c, 1, 1, y', Base(Recv));
      y' := MoveSystem(c, 1, 1, y', Base(Do(Acquire)));
    } else {
      y' := MoveSystem(c, 1, 1, y, Base(Do(Acquire)));
      y' := MoveSystem(c, 1, 1, y', Call(0));
      y' := MoveSystem(c, 1, 1, y', Base(Recv));
    }
  }

  /** The synchronized batched poller reports before the batch has run. */
  lemma ReturnsAtOnce(c: Config, msg: Msg) returns (y: System)
    requires c.kind.SynchronizedBatched?
    ensures Arises(c, 1, 1, y) && |y.callers| == 1 && y.callers[0].Returned?
    ensures !HandledFirst(y.s, y.callers[0].accepted)
  {
    y := OneIn(c, msg);
    y := MoveSystem(c, 1, 1, y, Call(0));
    y := MoveSystem(c, 1, 1, y, Base(Recv));
    y := ReturnOn(c, y);
  }

  // ---------------------------------------------------------------- the theorem

  /**
   Returning from `flush` means that what was accepted before the call has been handled, exactly if nobody else
   flushes at the same time and Flush is a barrier at all (or nobody ever calls).
   */
  lemma FlushReturnsExactly(c: Config, m: nat, msg: Msg)
    ensures FlushReturnsMean(c, m) <==> m == 0 || (m == 1 && FlushSafe(c))
  {
    if m >= 2 {
      var y := WokenByAnother(c, m, msg);
      assert !FlushReturnsMean(c, m);
    } else if m == 1 && !FlushSafe(c) {
      var y;
      if c.Gated() {
        y := ReturnsTooEarly(c, msg);
      } else {
        y := ReturnsAtOnce(c, msg);
      }
      assert !FlushReturnsMean(c, m);
    } else if m == 1 {
      forall n: nat, y: System, i: nat | Arises(c, n, m, y) && i < m && i < |y.callers| && y.callers[i].Returned?
        ensures HandledFirst(y.s, y.callers[i].accepted)
      {
        SoloReturn(c, n, y);
      }
    }
  }
}
