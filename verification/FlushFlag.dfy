/**
 What the need-flush flag says when it is down.

 `flush_all` skips receivers whose flag is down.  It reads the flag while everything is running, and then a lowered
 flag never means that nothing is left to flush: Flushed lowers it even for what was sent behind the Flush.  What
 it does say is stated in `LoweredFlag`; `FlagTruthfulExactly` is about receivers that have halted.
 */
module FlushFlag {
  import opened Machine
  import opened Formation
  import opened Invariant
  import opened Conservation
  import opened Progress
  import opened Wakeups
  import opened Barrier
  import opened FlushReports

  // ---------------------------------------------------------------- while the receiver runs

  /** No sender is between handing its message over and raising the flag. */
  predicate NoneFlagging(g: Gate) {
    forall i :: 0 <= i < |g.senders| ==> !g.senders[i].Flagging?
  }

  /** With no send half done, a lowered flag would mean that every accepted request has been handled. */
  ghost predicate FlagBelievable(c: Config) {
    forall n: nat, s: State | Reachable(c, n, s) && s.chan.open && !s.gate.needFlush && NoneFlagging(s.gate) ::
      Drains(s, s)
  }

  /**
   For every configuration: the flag is down, the only sender idle, and an accepted request has not even been
   received.
   */
  lemma FlagLiesAnyway(c: Config, msg: Msg) returns (s: State)
    ensures Reachable(c, 1, s) && s.chan.open && !s.gate.needFlush && s.gate.senders == [Idle]
    ensures s.chan.queue == [Request(Mid(0, false, 0), msg)] && s.work.tasks == [] && |s.chan.jobs| == 1
  {
    s := FlushThenMessage(c, msg);
    s := Move(c, 1, s, Take);
  }

  lemma FlagNeverBelievable(c: Config, msg: Msg)
    ensures !FlagBelievable(c)
  {
    var s := FlagLiesAnyway(c, msg);
    assert !HandledIn(s.work.tasks, MidOf(s.chan.jobs[0], 0));
  }

  /** Some message was handed over, taken by the channel or refused. */
  predicate AnythingSent(s: State) {
    s.chan.jobs != [] || s.chan.refused > 0
  }

  ghost predicate RaisedBySenders(s: State) {
    s.gate.needFlush || (exists i :: 0 <= i < |s.gate.senders| && s.gate.senders[i].Flagging?) ==> AnythingSent(s)
  }

  lemma RaisedStep(c: Config, s: State, a: Act)
    requires RaisedBySenders(s) && Enabled(c, s, a)
    ensures RaisedBySenders(Apply(c, s, a))
  {
    var xs, xs' := s.gate.senders, Apply(c, s, a).gate.senders;
    if i :| 0 <= i < |xs'| && xs'[i].Flagging? {
      assert !AnythingSent(Apply(c, s, a)) ==> xs[i].Flagging?;
    }
  }

  lemma {:induction false} RaisedRun(c: Config, s: State, acts: seq<Act>)
    requires RaisedBySenders(s) && Valid(c, s, acts)
    ensures RaisedBySenders(Exec(c, s, acts))
    decreases |acts|
  {
    if acts != [] {
      RaisedStep(c, s, acts[0]);
      RaisedRun(c, Apply(c, s, acts[0]), acts[1..]);
    }
  }

  /** The flag is up only once a message has been handed over. */
  lemma RaisedFlag(c: Config, n: nat, s: State)
    requires Reachable(c, n, s) && s.gate.needFlush
    ensures s.chan.jobs != [] || s.chan.refused > 0
  {
    var acts :| Valid(c, Start(c, n), acts) && Exec(c, Start(c, n), acts) == s;
    RaisedRun(c, Start(c, n), acts);
  }

  // ---------------------------------------------------------------- what a lowered flag does say

  lemma {:induction false} ExecSplit(c: Config, s: State, acts: seq<Act>, k: nat)
    requires Valid(c, s, acts) && k <= |acts|
    ensures Valid(c, s, acts[..k]) && Valid(c, Exec(c, s, acts[..k]), acts[k..])
    ensures Exec(c, s, acts) == Exec(c, Exec(c, s, acts[..k]), acts[k..])
    decreases k
  {
    if k == 0 {
      assert acts[..0] == [] && acts[0..] == acts;
    } else {
      ExecSplit(c, Apply(c, s, acts[0]), acts[1..], k - 1);
      assert acts[..k][0] == acts[0] && acts[..k][1..] == acts[1..][..k - 1] && acts[k..] == acts[1..][k - 1..];
    }
  }

  /** The state of the run before its k-th step. */
  ghost function Before(c: Config, n: nat, acts: seq<Act>, k: nat): State
    requires Valid(c, Start(c, n), acts) && k <= |acts|
  {
    ExecSplit(c, Start(c, n), acts, k);
    Exec(c, Start(c, n), acts[..k])
  }

  /** The k-th step of the run takes a Flushed and so lowers the flag. */
  ghost predicate Lowers(c: Config, n: nat, acts: seq<Act>, k: nat)
    requires Valid(c, Start(c, n), acts)
  {
    k < |acts| && acts[k] == Take
    && Before(c, n, acts, k).sink.events != [] && Before(c, n, acts, k).sink.events[0].Flushed?
  }

  function Flaggers(xs: seq<Sender>): nat {
    if xs == [] then 0 else Flaggers(xs[..|xs| - 1]) + if xs[|xs| - 1].Flagging? then 1 else 0
  }

  lemma {:induction false} FlaggersUpdate(xs: seq<Sender>, i: nat, x: Sender)
    requires i < |xs|
    ensures Flaggers(xs[i := x]) + (if xs[i].Flagging? then 1 else 0) == Flaggers(xs) + if x.Flagging? then 1 else 0
  {
    var k := |xs| - 1;
    if i < k {
      assert xs[i := x][..k] == xs[..k][i := x];
      FlaggersUpdate(xs[..k], i, x);
    } else {
      assert xs[i := x][..k] == xs[..k];
    }
  }

  lemma {:induction false} FlaggersNone(xs: seq<Sender>)
    requires forall i :: 0 <= i < |xs| ==> !xs[i].Flagging?
    ensures Flaggers(xs) == 0
  {
    if xs != [] {
      FlaggersNone(xs[..|xs| - 1]);
    }
  }

  /** At most `base` requests were accepted and not followed by a sender that is still to raise the flag. */
  predicate Owed(s: State, base: nat) {
    !s.gate.needFlush ==> |s.chan.jobs| <= base + Flaggers(s.gate.senders)
  }

  lemma OwedStep(c: Config, s: State, a: Act, base: nat)
    requires Enabled(c, s, a) && Owed(s, base)
    requires !(a.Take? && s.sink.events[0].Flushed?)
    ensures Owed(Apply(c, s, a), base)
  {
    match a {
      case Client(i, x) =>
        var xs' := Apply(c, s, a).gate.senders;
        assert xs' == s.gate.senders[i := xs'[i]];
        FlaggersUpdate(s.gate.senders, i, xs'[i]);
      case Notify =>
        var g := s.gate;
        if g.parked != [] && g.parked[0] < |g.senders| && g.senders[g.parked[0]].Parked? {
          FlaggersUpdate(g.senders, g.parked[0], Trying(g.senders[g.parked[0]].job));
        }
      case Recv =>
      case Do(_) =>
      case Push(_) =>
      case Take =>
      case Deliver =>
      case Stop =>
    }
  }

  /** The last step that lowered the flag, and how many requests had been accepted by then. */
  ghost predicate LoweredLast(c: Config, n: nat, acts: seq<Act>, k: nat)
    requires Valid(c, Start(c, n), acts)
  {
    Lowers(c, n, acts, k) && Owed(Exec(c, Start(c, n), acts), |Before(c, n, acts, k).chan.jobs|)
  }

  lemma LastStep(c: Config, n: nat, acts: seq<Act>)
    requires Valid(c, Start(c, n), acts) && acts != []
    ensures var k := |acts| - 1;
            && Valid(c, Start(c, n), acts[..k]) && Enabled(c, Before(c, n, acts, k), acts[k])
            && Exec(c, Start(c, n), acts) == Apply(c, Before(c, n, acts, k), acts[k])
  {
    var k := |acts| - 1;
    ExecSplit(c, Start(c, n), acts, k);
    assert acts[k..] == [acts[k]] && [acts[k]][1..] == [];
  }

  /** A longer run was in the same states before. */
  lemma EarlierSteps(c: Config, n: nat, acts: seq<Act>, k: nat)
    requires Valid(c, Start(c, n), acts) && acts != []
    requires Valid(c, Start(c, n), acts[..|acts| - 1]) && Lowers(c, n, acts[..|acts| - 1], k)
    ensures Lowers(c, n, acts, k) && Before(c, n, acts, k) == Before(c, n, acts[..|acts| - 1], k)
  {
    assert acts[..|acts| - 1][..k] == acts[..k];
  }

  lemma {:induction false} OwedRun(c: Config, n: nat, acts: seq<Act>)
    requires Valid(c, Start(c, n), acts)
    ensures Owed(Exec(c, Start(c, n), acts), 0) || exists k: nat :: LoweredLast(c, n, acts, k)
    decreases |acts|
  {
    if acts != [] {
      var last := |acts| - 1;
      LastStep(c, n, acts);
      var s := Before(c, n, acts, last);
      OwedRun(c, n, acts[..last]);
      if acts[last].Take? && s.sink.events[0].Flushed? {
        assert LoweredLast(c, n, acts, last);
      } else if Owed(s, 0) {
        OwedStep(c, s, acts[last], 0);
      } else {
        var k: nat :| LoweredLast(c, n, acts[..last], k);
        EarlierSteps(c, n, acts, k);
        OwedStep(c, s, acts[last], |Before(c, n, acts, k).chan.jobs|);
        assert LoweredLast(c, n, acts, k);
      }
    }
  }

  /** Handled, or accepted behind the Flush at that position. */
  ghost predicate HandledOrBehind(s: State, p: nat)
    requires p < |s.chan.enqueued|
  {
    forall m :: m in Mids(s.chan.enqueued) ==> HandledIn(s.work.tasks, m) || m in Mids(s.chan.enqueued[p + 1..])
  }

  lemma Behind(s: State, p: nat)
    requires p < |s.chan.enqueued| && s.chan.enqueued[p] == Control(Flush) && HandledBefore(s, p)
    ensures HandledOrBehind(s, p)
  {
    var items := s.chan.enqueued;
    assert items == items[..p] + ([items[p]] + items[p + 1..]);
    StreamAppend(items[..p], [items[p]] + items[p + 1..]);
    StreamAppend([items[p]], items[p + 1..]);
    assert [items[p]][1..] == [];
  }

  /**
   What a lowered flag says, when no sender is about to raise it and anything was accepted at all: the loop has
   taken a Flushed, the k-th step; everything accepted was accepted before that step; and, where Flush is a barrier,
   what has not been handled was accepted behind the Flush which that Flushed reports, the one at position p.
   */
  lemma LoweredFlag(c: Config, n: nat, acts: seq<Act>) returns (k: nat, p: nat)
    requires Valid(c, Start(c, n), acts)
    requires var s := Exec(c, Start(c, n), acts); !s.gate.needFlush && NoneFlagging(s.gate) && s.chan.jobs != []
    ensures Lowers(c, n, acts, k)
    ensures var s, t := Exec(c, Start(c, n), acts), Before(c, n, acts, k);
            && s.chan.jobs == t.chan.jobs
            && p < |s.chan.enqueued| && s.chan.enqueued[p] == Control(Flush)
            && Flushes(s.chan.enqueued[..p + 1]) == FlushedIn(t.sink.seen) + 1
            && (FlushSafe(c) ==> HandledOrBehind(s, p))
  {
    var s := Exec(c, Start(c, n), acts);
    OwedRun(c, n, acts);
    FlaggersNone(s.gate.senders);
    k :| LoweredLast(c, n, acts, k);
    var t := Before(c, n, acts, k);
    ExecSplit(c, Start(c, n), acts, k);
    AcceptedGrows(c, t, acts[k..]);
    p := ReportedPosition(c, n, acts, k);
    assert s.chan.jobs == t.chan.jobs;
    if FlushSafe(c) {
      assert Reachable(c, n, s);
      ReportsInOrder(c, n, s);
      Behind(s, p);
    }
  }

  lemma {:induction false} SeenGrows(c: Config, n: nat, s: State, acts: seq<Act>)
    requires Reachable(c, n, s) && Valid(c, s, acts)
    ensures Emitted(s.sink) <= Emitted(Exec(c, s, acts).sink)
    decreases |acts|
  {
    if acts != [] {
      ReportsInOrder(c, n, s);
      SentGrows(c, n, s, acts[0]);
      ReachableStep(c, n, s, acts[0]);
      SeenGrows(c, n, Apply(c, s, acts[0]), acts[1..]);
    }
  }

  /** The Flush that the Flushed taken at step k reports. */
  lemma ReportedPosition(c: Config, n: nat, acts: seq<Act>, k: nat) returns (p: nat)
    requires Valid(c, Start(c, n), acts) && Lowers(c, n, acts, k)
    ensures var s, t := Exec(c, Start(c, n), acts), Before(c, n, acts, k);
            Reported(s, p) && Flushes(s.chan.enqueued[..p + 1]) == FlushedIn(t.sink.seen) + 1
  {
    var s, t := Exec(c, Start(c, n), acts), Before(c, n, acts, k);
    ExecSplit(c, Start(c, n), acts, k);
    assert Reachable(c, n, t);
    ReportsInOrder(c, n, t);
    FlushedInHead(t.sink.events);
    FlushedInOne(t.sink.events[0]);
    var m := FlushedIn(t.sink.seen) + 1;
    assert t.chan.enqueued == Received(t.chan) + t.chan.enqueued[t.chan.taken..];
    FlushesAppend(Received(t.chan), t.chan.enqueued[t.chan.taken..]);
    p := FindFlush(t.chan.enqueued, m);
    AcceptedGrows(c, t, acts[k..]);
    assert s.chan.enqueued[..p + 1] == t.chan.enqueued[..p + 1];
    SeenGrows(c, n, t, acts[k..]);
  }

  // ---------------------------------------------------------------- once the receiver has halted

  /** An open receiver that has come to a halt with the flag down has nothing unanswered. */
  ghost predicate FlagTruthful(c: Config) {
    forall n: nat, s: State | Reachable(c, n, s) && s.chan.open && Stuck(c, s) && !s.gate.needFlush :: !Unanswered(s)
  }

  /** Requests are dispatched one by one, and there is a permit to run them with. */
  predicate Prompt(c: Config) {
    c.Quantum() == 1 && (c.Gated() ==> c.maxParallel >= 1)
  }

  lemma PromptAnswers(c: Config, n: nat, s: State, out: Outcome)
    requires Prompt(c) && ValidOutcome(c, out) && Reachable(c, n, s) && s.chan.open && Stuck(c, s)
    ensures !Unanswered(s)
  {
    StuckAtRest(c, n, s, out);
    ReachableShape(c, n, s);
    DonePending(s.work.tasks);
  }

  /** A Flush is received and reported, and a message is sent behind it, which raises the flag. */
  lemma FlushThenMessage(c: Config, msg: Msg) returns (s: State)
    ensures Reachable(c, 1, s) && s.chan.open && s.chan.queue == [Request(Mid(0, false, 0), msg)]
    ensures s.work == Start(c, 1).work && s.sink == Sink([Flushed], LoopIdle, [], []) && s.gate.senders == [Idle]
    ensures |s.chan.jobs| == 1
  {
    ReachableStart(c, 1);
    s := Move(c, 1, Start(c, 1), Push(Flush));
    s := Move(c, 1, s, Recv);
    if c.Gated() {
      s := Move(c, 1, s, Do(Drained));
    }
    s := MessageSent(c, s, msg);
  }

  lemma MessageSent(c: Config, s: State, msg: Msg) returns (s': State)
    requires Reachable(c, 1, s) && s.gate.senders == [Idle] && s.chan.open && s.chan.queue == [] && s.chan.jobs == []
    ensures Reachable(c, 1, s') && s'.chan.open && s'.chan.queue == [Request(Mid(0, false, 0), msg)]
    ensures s'.work == s.work && s'.sink == s.sink && s'.gate.senders == [Idle] && |s'.chan.jobs| == 1
  {
    s' := Move(c, 1, s, Client(0, Force(0, msg)));
    s' := Move(c, 1, s', Client(0, Send));
    s' := Move(c, 1, s', Client(0, Flag));
  }

  /** The message stays with the poller, in its buffer or in want of a permit, and Flushed lowers the flag. */
  lemma FlushFlagMayLie(c: Config, msg: Msg) returns (s: State)
    requires !Prompt(c)
    ensures Reachable(c, 1, s) && s.chan.open && Stuck(c, s) && !s.gate.needFlush && Unanswered(s)
  {
    s := FlushThenMessage(c, msg);
    s := Move(c, 1, s, Recv);
    s := Move(c, 1, s, Take);
    LeftBehind(c, s);
  }

  lemma LeftBehind(c: Config, s: State)
    requires s.work.tasks == [] && s.chan.queue == [] && s.chan.open && s.sink.events == [] && s.sink.loop.LoopIdle?
    requires s.work.poller.AtRecv? || ((s.work.poller.AtAcquire? || s.work.poller.AtAcquireFull?) && s.work.avail == 0)
    ensures Stuck(c, s)
  {
  }

  /**
   Of a receiver that has halted the flag can be believed exactly where requests are dispatched one by one and there
   is a permit: there nothing is unanswered, whatever the flag says, and elsewhere a lowered flag may mislead.
   */
  lemma FlagTruthfulExactly(c: Config, msg: Msg, out: Outcome)
    requires ValidOutcome(c, out)
    ensures FlagTruthful(c) <==> Prompt(c)
  {
    if Prompt(c) {
      forall n: nat, s: State | Reachable(c, n, s) && s.chan.open && Stuck(c, s) && !s.gate.needFlush
        ensures !Unanswered(s)
      {
        PromptAnswers(c, n, s, out);
      }
    } else {
      var s := FlushFlagMayLie(c, msg);
      assert !FlagTruthful(c);
    }
  }
}
