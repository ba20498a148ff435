/**
 The invariant of the receiver: what holds after every run, for every configuration, every number of
 senders and every interleaving.
 */
module Invariant {
  import opened Machine
  import opened Formation
  import opened Ledger
  import opened Exclusion

  /** The waiting list names exactly the parked senders; a notification is stored only while nobody waits. */
  ghost predicate Lined(g: Gate) {
    && (forall k :: 0 <= k < |g.parked| ==> g.parked[k] < |g.senders| && g.senders[g.parked[k]].Parked?)
    && (forall j, k :: 0 <= j < k < |g.parked| ==> g.parked[j] != g.parked[k])
    && (forall i :: 0 <= i < |g.senders| && g.senders[i].Parked? ==> i in g.parked)
    && (g.stored ==> g.parked == [])
  }

  /** A sender that neither was nor becomes parked changes nothing in the line. */
  lemma OthersLined(g: Gate, g': Gate, i: nat, x: Sender)
    requires Lined(g) && i < |g.senders| && !g.senders[i].Parked? && !x.Parked?
    requires g'.senders == g.senders[i := x] && g'.parked == g.parked && (g'.stored ==> g.stored)
    ensures Lined(g')
  {
  }

  lemma RegisterLined(g: Gate, i: nat, job: Job)
    requires Lined(g) && i < |g.senders| && !g.senders[i].Parked?
    ensures Lined(RegisterStep(g, i, job))
  {
    var g' := RegisterStep(g, i, job);
    if g.stored {
      OthersLined(g, g', i, Trying(job));
    } else {
      assert g'.parked[|g.parked|] == i;
      forall j | 0 <= j < |g'.senders| && g'.senders[j].Parked?
        ensures j in g'.parked
      {
        assert j != i ==> j in g.parked;
      }
    }
  }

  lemma ClientLined(c: Config, g: Gate, i: nat, a: ClientAct, asker: nat)
    requires Lined(g) && i < |g.senders| && EnabledClient(g.senders[i], a)
    ensures Lined(GateStep(c, g, i, a, asker))
  {
    if a.Register? {
      RegisterLined(g, i, g.senders[i].job);
    } else {
      var g' := GateStep(c, g, i, a, asker);
      OthersLined(g, g', i, g'.senders[i]);
    }
  }

  lemma NotifyLined(g: Gate)
    requires Lined(g)
    ensures Lined(NotifyStep(g))
  {
    if g.parked != [] {
      var g' := NotifyStep(g);
      assert g'.parked == g.parked[1..];
      forall j | 0 <= j < |g'.senders| && g'.senders[j].Parked?
        ensures j in g'.parked
      {
        assert g.senders[j].Parked? && j in g.parked && j != g.parked[0];
      }
    }
  }

  ghost predicate Inv(c: Config, s: State) {
    && WellFormed(c, s)
    && Balanced(s.work, s.sink)
    && Counted(s)
    && Exclusive(c, s.work)
    && Lined(s.gate)
  }

  lemma StartInv(c: Config, n: nat)
    ensures Inv(c, Start(c, n))
  {
    StartWellFormed(c, n);
    StartLedger(c, n);
  }

  lemma ExclusiveStep(c: Config, s: State, a: Act)
    requires WellFormed(c, s) && Exclusive(c, s.work) && Enabled(c, s, a)
    ensures Exclusive(c, Apply(c, s, a).work)
  {
    match a {
      case Recv => RecvExclusive(c, s.work, s.chan.queue[0]);
      case Do(w) => WorkExclusive(c, s.work, w);
      case _ =>
    }
  }

  lemma LinedStep(c: Config, s: State, a: Act)
    requires Lined(s.gate) && Enabled(c, s, a)
    ensures Lined(Apply(c, s, a).gate)
  {
    match a {
      case Client(i, x) => ClientLined(c, s.gate, i, x, s.desk.askers);
      case Notify => NotifyLined(s.gate);
      case _ =>
    }
  }

  lemma InvStep(c: Config, s: State, a: Act)
    requires Inv(c, s) && Enabled(c, s, a)
    ensures Inv(c, Apply(c, s, a))
  {
    WellFormedStep(c, s, a);
    BalancedStep(c, s, a);
    CountedStep(c, s, a);
    ExclusiveStep(c, s, a);
    LinedStep(c, s, a);
  }

  lemma {:induction false} InvRun(c: Config, s: State, acts: seq<Act>)
    requires Inv(c, s) && Valid(c, s, acts)
    ensures Inv(c, Exec(c, s, acts))
    decreases |acts|
  {
    if acts != [] {
      InvStep(c, s, acts[0]);
      InvRun(c, Apply(c, s, acts[0]), acts[1..]);
    }
  }

  /** A state some run reaches. */
  ghost predicate Reachable(c: Config, n: nat, s: State) {
    exists acts :: Valid(c, Start(c, n), acts) && Exec(c, Start(c, n), acts) == s
  }

  lemma ReachableInv(c: Config, n: nat, s: State)
    requires Reachable(c, n, s)
    ensures Inv(c, s)
  {
    var acts :| Valid(c, Start(c, n), acts) && Exec(c, Start(c, n), acts) == s;
    StartInv(c, n);
    InvRun(c, Start(c, n), acts);
  }

  // The parts of the invariant, one at a time.

  lemma ReachableFormed(c: Config, n: nat, s: State)
    requires Reachable(c, n, s)
    ensures Stream(s.chan) && Formed(s.work, Mids(Received(s.chan)), Msgs(Received(s.chan)))
  {
    ReachableInv(c, n, s);
  }

  lemma ReachableShape(c: Config, n: nat, s: State)
    requires Reachable(c, n, s)
    ensures s.chan.taken <= |s.chan.enqueued|
    ensures Shape(c, s.work, LastIsFlush(Received(s.chan))) && Ended(s)
  {
    ReachableInv(c, n, s);
  }

  lemma ReachableBatches(c: Config, n: nat, s: State)
    requires Reachable(c, n, s)
    ensures Batches(c, s.work.tasks)
  {
    ReachableInv(c, n, s);
  }

  lemma ReachableExclusive(c: Config, n: nat, s: State)
    requires Reachable(c, n, s)
    ensures Exclusive(c, s.work)
  {
    ReachableInv(c, n, s);
  }

  lemma ReachableLedger(c: Config, n: nat, s: State)
    requires Reachable(c, n, s)
    ensures Balanced(s.work, s.sink) && Counted(s)
  {
    ReachableInv(c, n, s);
  }

  lemma ReachableLined(c: Config, n: nat, s: State)
    requires Reachable(c, n, s)
    ensures Lined(s.gate)
  {
    ReachableInv(c, n, s);
  }

  lemma ReachableStart(c: Config, n: nat)
    ensures Reachable(c, n, Start(c, n))
  {
    assert Valid(c, Start(c, n), []) && Exec(c, Start(c, n), []) == Start(c, n);
  }

  lemma ReachableStep(c: Config, n: nat, s: State, a: Act)
    requires Reachable(c, n, s) && Enabled(c, s, a)
    ensures Reachable(c, n, Apply(c, s, a))
  {
    var s' := Apply(c, s, a);
    assert [a][1..] == [] && Valid(c, s', []) && Exec(c, s', []) == s';
    ReachableRun(c, n, s, [a]);
  }

  lemma ReachableRun(c: Config, n: nat, s: State, acts: seq<Act>)
    requires Reachable(c, n, s) && Valid(c, s, acts)
    ensures Reachable(c, n, Exec(c, s, acts))
  {
    var before :| Valid(c, Start(c, n), before) && Exec(c, Start(c, n), before) == s;
    ExecAppend(c, Start(c, n), before, acts);
  }

  /** One more step of a run. */
  lemma Move(c: Config, n: nat, s: State, a: Act) returns (s': State)
    requires Reachable(c, n, s) && Enabled(c, s, a)
    ensures Reachable(c, n, s') && s' == Apply(c, s, a)
  {
    ReachableStep(c, n, s, a);
    s' := Apply(c, s, a);
  }
}
