/**
 Many senders: exactly which configurations can strand one.

 A batched receiver does not answer a partial batch, and only one notification can be stored.  Two senders
 that both saw a full receiver share that notification: one sends a message that stays in the buffer, the
 other waits for good.
 */
module Stranding {
  import opened Machine
  import opened Formation
  import opened Ledger
  import opened Invariant
  import opened Conservation
  import opened Progress
  import opened Wakeups
  import opened Meaning

  /** The poller, a handler, the event loop or a sender that is neither idle nor waiting has a step. */
  ghost predicate CanMove(c: Config, s: State) {
    || !Stuck(c, s)
    || exists j, x :: Enabled(c, s, Client(j, x)) && (x.Load? || x.Cas? || x.Send?)
  }

  /** However many senders there are: while the receiver is open and one is parked, somebody can move. */
  ghost predicate StrandFree(c: Config) {
    forall n: nat, s: State, i: nat | Kept(c, n, s) && s.chan.open && i < |s.gate.senders|
        && s.gate.senders[i].Parked? ::
      CanMove(c, s)
  }

  // ---------------------------------------------------------------- the two victims

  /** The first sender has sent k messages, and nobody else has moved. */
  ghost predicate Flooded(c: Config, s: State, k: nat) {
    && s.gate.processing == k && !s.gate.stored && s.gate.parked == [] && s.gate.senders == [Idle, Idle]
    && s.chan.open && |s.chan.jobs| == k && Control(Close) !in s.chan.enqueued
    && s.sink == Start(c, 2).sink
  }

  lemma Flood(c: Config, msg: Msg, k: nat) returns (s: State)
    requires k <= Ceiling(c)
    ensures Kept(c, 2, s) && Flooded(c, s, k)
    decreases k
  {
    if k == 0 {
      s := Start(c, 2);
      KeptStart(c, 2);
      assert s.gate.senders == [Idle, Idle];
    } else {
      s := Flood(c, msg, k - 1);
      s := FloodOne(c, s, msg, k - 1);
    }
  }

  lemma FloodOne(c: Config, s: State, msg: Msg, k: nat) returns (s': State)
    requires Kept(c, 2, s) && Flooded(c, s, k) && k < c.Cap()
    ensures Kept(c, 2, s') && Flooded(c, s', k + 1)
  {
    s' := KeptMove(c, 2, s, Client(0, Post(0, msg)));
    s' := KeptMove(c, 2, s', Client(0, Load));
    s' := KeptMove(c, 2, s', Client(0, Cas));
    assert s'.gate.senders == [Holding(Posted(0, msg)), Idle];
    s' := KeptMove(c, 2, s', Client(0, Send));
    s' := KeptMove(c, 2, s', Client(0, Flag));
  }

  function Waiting(msg: Msg): seq<Sender> {
    [Registering(Posted(0, msg)), Registering(Posted(0, msg))]
  }

  /** Both senders find the receiver full, and a Flush is queued. */
  lemma BothFull(c: Config, s: State, msg: Msg, k: nat) returns (s': State)
    requires Kept(c, 2, s) && Flooded(c, s, k) && k >= c.Cap()
    ensures Kept(c, 2, s') && s'.gate.senders == Waiting(msg) && s'.gate.parked == [] && s'.sink == s.sink
    ensures |s'.chan.jobs| == k && Control(Close) !in s'.chan.enqueued && LastIsFlush(s'.chan.enqueued)
  {
    s' := KeptMove(c, 2, s, Client(0, Post(0, msg)));
    s' := KeptMove(c, 2, s', Client(0, Load));
    s' := KeptMove(c, 2, s', Client(1, Post(0, msg)));
    s' := KeptMove(c, 2, s', Client(1, Load));
    s' := KeptMove(c, 2, s', Push(Flush));
  }

  // ---------------------------------------------------------------- the receiver runs dry

  /** Nobody is parked, and every response so far has stored its notification. */
  ghost predicate Hushed(s: State) {
    s.gate.parked == [] && (s.sink.answered != [] || s.sink.loop.OweDeliver? ==> s.gate.stored)
  }

  lemma HushedStep(c: Config, s: State, a: Act)
    requires Hushed(s) && Internal(a) && Enabled(c, s, a)
    ensures var t := Apply(c, s, a);
            Hushed(t) && t.gate.senders == s.gate.senders && t.chan.enqueued == s.chan.enqueued
                && t.chan.jobs == s.chan.jobs
  {
  }

  lemma {:induction false} HushedRun(c: Config, s: State, acts: seq<Act>)
    requires Hushed(s) && Valid(c, s, acts) && AllInternal(acts)
    ensures var t := Exec(c, s, acts);
            Hushed(t) && t.gate.senders == s.gate.senders && t.chan.enqueued == s.chan.enqueued
                && t.chan.jobs == s.chan.jobs
    decreases |acts|
  {
    if acts != [] {
      HushedStep(c, s, acts[0]);
      HushedRun(c, Apply(c, s, acts[0]), acts[1..]);
    }
  }

  /** Everything sent has been answered: the counter is back at zero, one notification is stored. */
  lemma DryCounter(c: Config, s: State, msg: Msg, out: Outcome)
    requires Reachable(c, 2, s) && Stuck(c, s) && Adequate(c) && ValidOutcome(c, out)
    requires Control(Close) !in s.chan.enqueued && LastIsFlush(s.chan.enqueued) && s.chan.jobs != []
    requires s.gate.senders == Waiting(msg) && Hushed(s)
    ensures Settled(s) && s.chan.open && s.gate.processing == 0 && s.gate.stored
  {
    ReachableFormed(c, 2, s);
    assert s.chan.open;
    FlushSettles(c, 2, s, out);
    SettledAnswers(c, 2, s);
    assert |multiset(EventMids(s.sink.answered))| == |JobMids(s.chan.jobs)| > 0;
    DonePending(s.work.tasks);
    CounterExact(c, 2, s);
    NoPermits(s.gate.senders, msg);
  }

  lemma NoPermits(xs: seq<Sender>, msg: Msg)
    requires xs == Waiting(msg)
    ensures Permits(xs) == 0
  {
    PermitsIdle(xs);
  }

  lemma RunsDry(c: Config, s: State, msg: Msg, out: Outcome) returns (s': State)
    requires Kept(c, 2, s) && Adequate(c) && ValidOutcome(c, out)
    requires s.gate.senders == Waiting(msg) && s.gate.parked == [] && s.sink == Start(c, 2).sink
    requires s.chan.jobs != [] && Control(Close) !in s.chan.enqueued && LastIsFlush(s.chan.enqueued)
    ensures Kept(c, 2, s') && Settled(s') && s'.chan.open && s'.gate.senders == Waiting(msg)
    ensures s'.gate.processing == 0 && s'.gate.stored && s'.gate.parked == []
  {
    KeptReachable(c, 2, s);
    var acts := MaximalRun(c, 2, s);
    HushedRun(c, s, acts);
    KeptRun(c, 2, s, acts);
    s' := Exec(c, s, acts);
    KeptReachable(c, 2, s');
    DryCounter(c, s', msg, out);
  }

  // ---------------------------------------------------------------- one notification for two

  /** The first sender takes the notification and a slot. */
  lemma FirstReserves(c: Config, s: State, msg: Msg) returns (s': State)
    requires Kept(c, 2, s) && c.Cap() > 0 && s.gate.senders == Waiting(msg)
    requires s.gate.processing == 0 && s.gate.stored && s.gate.parked == []
    ensures Kept(c, 2, s') && s'.gate.senders == [Holding(Posted(0, msg)), Registering(Posted(0, msg))]
    ensures s'.gate.processing == 1 && !s'.gate.stored && s'.gate.parked == []
    ensures s'.chan == s.chan && s'.work == s.work && s'.sink == s.sink
  {
    s' := KeptMove(c, 2, s, Client(0, Register));
    s' := KeptMove(c, 2, s', Client(0, Load));
    s' := KeptMove(c, 2, s', Client(0, Cas));
  }

  /** Its message stays in the buffer, and the second sender parks. */
  lemma SecondParks(c: Config, s: State, msg: Msg) returns (s': State)
    requires Kept(c, 2, s) && c.Quantum() >= 2 && Settled(s) && s.chan.open
    requires s.gate.senders == [Holding(Posted(0, msg)), Registering(Posted(0, msg))]
    requires s.gate.processing == 1 && !s.gate.stored && s.gate.parked == []
    ensures Kept(c, 2, s') && s'.gate.senders == [Idle, Parked(Posted(0, msg))] && s'.gate.processing == 1
    ensures AtRest(s') && s'.chan.open && s'.work.buffer == s.work.buffer + [msg]
  {
    s' := KeptMove(c, 2, s, Client(0, Send));
    s' := KeptMove(c, 2, s', Client(0, Flag));
    s' := KeptMove(c, 2, s', Recv);
    s' := KeptMove(c, 2, s', Client(1, Register));
  }

  lemma RestIsStuck(c: Config, s: State)
    requires AtRest(s) && s.chan.open
    ensures Stuck(c, s)
  {
  }

  /**
   Batches of two or more, any limit they fit, no permit dropped: a run into an open state with room to
   spare, a partial batch, nothing able to move and a parked sender.
   */
  lemma BatchedSenderStranded(c: Config, msg: Msg, out: Outcome) returns (s: State)
    requires c.Quantum() >= 2 && Adequate(c) && ValidOutcome(c, out)
    ensures Kept(c, 2, s) && s.chan.open && Stuck(c, s)
    ensures s.gate.processing == 1 < c.Cap() && s.gate.senders == [Idle, Parked(Posted(0, msg))]
  {
    var k: nat := c.Cap();
    s := Flood(c, msg, k);
    s := BothFull(c, s, msg, k);
    s := RunsDry(c, s, msg, out);
    s := FirstReserves(c, s, msg);
    s := SecondParks(c, s, msg);
    RestIsStuck(c, s);
  }

  // ---------------------------------------------------------------- the theorem

  lemma UnbatchedMoves(c: Config, n: nat, s: State, i: nat, out: Outcome)
    requires c.Quantum() == 1 && Adequate(c) && ValidOutcome(c, out)
    requires Kept(c, n, s) && s.chan.open && i < |s.gate.senders| && s.gate.senders[i].Parked?
    ensures CanMove(c, s)
  {
    var acts :| Valid(c, Start(c, n), acts) && KeepsPermits(acts) && Exec(c, Start(c, n), acts) == s;
    SomebodyMoves(c, n, acts, i, out);
  }

  lemma StrandedRefutes(c: Config, n: nat, s: State, i: nat)
    requires Kept(c, n, s) && s.chan.open && Stuck(c, s)
    requires i < |s.gate.senders| && s.gate.senders[i].Parked?
    requires forall j :: 0 <= j < |s.gate.senders| ==> s.gate.senders[j].Parked? || s.gate.senders[j].Idle?
    ensures !StrandFree(c)
  {
    assert !CanMove(c, s);
  }

  /**
   As long as no unused permit is dropped, no number of senders can strand one of them exactly if requests are
   dispatched one by one, the limit admits at least one and, for the unordered kinds, there is a permit.
   */
  lemma StrandedExactly(c: Config, msg: Msg, out: Outcome)
    requires ValidOutcome(c, out)
    ensures StrandFree(c) <==> c.Quantum() == 1 && Adequate(c)
  {
    if !Adequate(c) {
      var s := Cloggable(c, msg);
      StrandedRefutes(c, 1, s, 0);
    } else if c.Quantum() >= 2 {
      var s := BatchedSenderStranded(c, msg, out);
      StrandedRefutes(c, 2, s, 1);
    } else {
      forall n: nat, s: State, i: nat | Kept(c, n, s) && s.chan.open && i < |s.gate.senders|
          && s.gate.senders[i].Parked?
        ensures CanMove(c, s)
      {
        UnbatchedMoves(c, n, s, i, out);
      }
    }
  }

  // ---------------------------------------------------------------- dropped permits

  /** Nothing but the senders has moved. */
  ghost predicate Untouched(c: Config, s: State, n: nat) {
    && |s.gate.senders| == n && !s.gate.stored
    && s.chan == Start(c, n).chan && s.work == Start(c, n).work && s.sink == Start(c, n).sink
  }

  /** Of k + 1 senders the first j hold a permit. */
  ghost predicate Holders(c: Config, s: State, msg: Msg, k: nat, j: nat) {
    && Untouched(c, s, k + 1) && j <= k && s.gate.processing == j && s.gate.parked == []
    && forall i :: 0 <= i <= k ==> s.gate.senders[i] == if i < j then Holding(Posted(0, msg)) else Idle
  }

  lemma OneMoreHolder(c: Config, s: State, msg: Msg, k: nat, j: nat) returns (s': State)
    requires Reachable(c, k + 1, s) && Holders(c, s, msg, k, j) && j < k && j < c.Cap()
    ensures Reachable(c, k + 1, s') && Holders(c, s', msg, k, j + 1)
  {
    s' := Move(c, k + 1, s, Client(j, Post(0, msg)));
    s' := Move(c, k + 1, s', Client(j, Load));
    s' := Move(c, k + 1, s', Client(j, Cas));
  }

  lemma AllHold(c: Config, msg: Msg, k: nat, j: nat) returns (s: State)
    requires j <= k <= Ceiling(c)
    ensures Reachable(c, k + 1, s) && Holders(c, s, msg, k, j)
    decreases j
  {
    if j == 0 {
      s := Start(c, k + 1);
      ReachableStart(c, k + 1);
    } else {
      s := AllHold(c, msg, k, j - 1);
      s := OneMoreHolder(c, s, msg, k, j - 1);
    }
  }

  /** The last sender is parked; the first j have dropped their permits. */
  ghost predicate Droppers(c: Config, s: State, msg: Msg, k: nat, j: nat) {
    && Untouched(c, s, k + 1) && j <= k && s.gate.processing == k - j && s.gate.parked == [k]
    && s.gate.senders[k] == Parked(Posted(0, msg))
    && forall i :: 0 <= i < k ==> s.gate.senders[i] == if i < j then Idle else Holding(Posted(0, msg))
  }

  lemma LastParks(c: Config, s: State, msg: Msg, k: nat) returns (s': State)
    requires Reachable(c, k + 1, s) && Holders(c, s, msg, k, k) && k >= c.Cap()
    ensures Reachable(c, k + 1, s') && Droppers(c, s', msg, k, 0)
  {
    s' := Move(c, k + 1, s, Client(k, Post(0, msg)));
    s' := Move(c, k + 1, s', Client(k, Load));
    s' := Move(c, k + 1, s', Client(k, Register));
  }

  lemma {:induction false} AllDrop(c: Config, s: State, msg: Msg, k: nat, j: nat) returns (s': State)
    requires Reachable(c, k + 1, s) && Droppers(c, s, msg, k, j)
    ensures Reachable(c, k + 1, s') && Droppers(c, s', msg, k, k)
    decreases k - j
  {
    if j == k {
      s' := s;
    } else {
      s' := Move(c, k + 1, s, Client(j, DropPermit));
      s' := AllDrop(c, s', msg, k, j + 1);
    }
  }

  /**
   Dropping a permit frees its slot and tells nobody.  Whatever the kind and the limit, one sender more than
   there are slots can end up parked at an open receiver with nothing to do, all slots free and nobody left.
   */
  lemma DroppedPermitStrands(c: Config, msg: Msg) returns (s: State)
    ensures Reachable(c, Ceiling(c) + 1, s) && s.chan.open && Stuck(c, s) && s.gate.processing == 0
    ensures |s.gate.senders| == Ceiling(c) + 1 && s.gate.senders[Ceiling(c)] == Parked(Posted(0, msg))
    ensures forall i :: 0 <= i < Ceiling(c) ==> s.gate.senders[i] == Idle
  {
    var k: nat := Ceiling(c);
    s := AllHold(c, msg, k, k);
    s := LastParks(c, s, msg, k);
    s := AllDrop(c, s, msg, k, 0);
    RestIsStuck(c, s);
  }

  /** Strand-freedom over all runs, dropped permits included. */
  ghost predicate StrandFreeAnyway(c: Config) {
    forall n: nat, s: State, i: nat | Reachable(c, n, s) && s.chan.open && i < |s.gate.senders|
        && s.gate.senders[i].Parked? ::
      CanMove(c, s)
  }

  /**
   Once permits may be dropped no configuration is free of stranding; `StrandedExactly` says what holds if they
   are not.
   */
  lemma NeverStrandFree(c: Config, msg: Msg)
    ensures !StrandFreeAnyway(c)
  {
    var s := DroppedPermitStrands(c, msg);
    var k: nat := Ceiling(c);
    forall j: nat, x | Enabled(c, s, Client(j, x))
      ensures !(x.Load? || x.Cas? || x.Send?)
    {
      assert j < k || j == k;
    }
    assert s.gate.senders[k].Parked? && !CanMove(c, s);
  }
}
