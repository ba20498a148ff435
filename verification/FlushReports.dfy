/**
 Which Flush a Flushed reports.

 The poller reports Flushes one by one and in the order in which they were sent: the m-th Flushed answers the m-th
 Flush.  Where Flush is a barrier, everything accepted before a Flush already reported has been handled.
 */
module FlushReports {
  import opened Machine
  import opened Formation
  import opened Invariant
  import opened Barrier

  // ---------------------------------------------------------------- counting

  function Flushes(items: seq<Item>): nat {
    multiset(items)[Control(Flush)]
  }

  function FlushedIn(es: seq<Event>): nat {
    multiset(es)[Flushed]
  }

  lemma FlushesAppend(xs: seq<Item>, ys: seq<Item>)
    ensures Flushes(xs + ys) == Flushes(xs) + Flushes(ys)
  {
  }

  lemma FlushesNext(xs: seq<Item>, x: Item)
    ensures Flushes(xs + [x]) == Flushes(xs) + if x == Control(Flush) then 1 else 0
  {
  }

  lemma FlushedInAppend(xs: seq<Event>, ys: seq<Event>)
    ensures FlushedIn(xs + ys) == FlushedIn(xs) + FlushedIn(ys)
  {
  }

  lemma FlushedInOne(e: Event)
    ensures FlushedIn([e]) == if e.Flushed? then 1 else 0
  {
  }

  lemma FlushedInHead(es: seq<Event>)
    requires es != []
    ensures FlushedIn(es) == FlushedIn([es[0]]) + FlushedIn(es[1..])
  {
    assert es == [es[0]] + es[1..];
  }

  /** Flushed events sent so far, whether or not the loop has taken them. */
  function Emitted(k: Sink): nat {
    FlushedIn(k.seen) + FlushedIn(k.events)
  }

  // ---------------------------------------------------------------- one report for each Flush

  /** A Flush has been received and is still to be reported. */
  predicate Flushing(p: Poller) {
    p.AtDrain? || (p.AtAcquire? && p.flushing)
  }

  /** Handler tasks report no Flush. */
  ghost predicate Silent(tasks: seq<Task>) {
    forall t :: 0 <= t < |tasks| && tasks[t].phase.Emitting? ==> Flushed !in tasks[t].phase.events
  }

  /** Reports sent, and one in the making, are the Flushes received. */
  ghost predicate Tallied(s: State) {
    && Silent(s.work.tasks) && s.chan.taken <= |s.chan.enqueued|
    && Emitted(s.sink) + (if Flushing(s.work.poller) then 1 else 0) == Flushes(Received(s.chan))
  }

  lemma SilentStep(c: Config, w: Work, a: WorkAct)
    requires Silent(w.tasks) && EnabledWork(c, w, a)
    ensures Silent(WorkStep(c, w, a).tasks)
    ensures !a.Drained? ==> FlushedIn(WorkEvents(c, w, a)) == 0
    ensures a.Drained? ==> FlushedIn(WorkEvents(c, w, a)) == 1
  {
    match a
    case Handle(t, out) =>
      assert Flushed !in TaskEvents(c, w.tasks[t].mids, out);
    case Emit(t) => FlushedInOne(w.tasks[t].phase.events[0]);
    case SyncEnd => FlushedInOne(Synced);
    case Drained => FlushedInOne(Flushed);
    case Acquire =>
    case SyncStart =>
    case Joined =>
    case Leave =>
    case Lock(_) =>
  }

  lemma TallyDo(c: Config, s: State, w: WorkAct)
    requires Tallied(s) && Enabled(c, s, Do(w))
    ensures Tallied(Apply(c, s, Do(w)))
  {
    SilentStep(c, s.work, w);
    FlushedInAppend(s.sink.events, WorkEvents(c, s.work, w));
  }

  lemma RecvReports(c: Config, w: Work, item: Item)
    requires w.poller.AtRecv? && Silent(w.tasks)
    ensures Silent(RecvStep(c, w, item).tasks)
    ensures FlushedIn(RecvEvents(c, item)) + (if Flushing(RecvStep(c, w, item).poller) then 1 else 0)
         == if item == Control(Flush) then 1 else 0
  {
    FlushedInOne(Flushed);
    FlushedInOne(Ready);
  }

  lemma TallyRecv(c: Config, n: nat, s: State)
    requires Reachable(c, n, s) && Tallied(s) && Enabled(c, s, Recv)
    ensures Tallied(Apply(c, s, Recv))
  {
    ReachableFormed(c, n, s);
    var item := s.chan.queue[0];
    ReceiveStream(s.chan);
    FlushesNext(Received(s.chan), item);
    RecvReports(c, s.work, item);
    FlushedInAppend(s.sink.events, RecvEvents(c, item));
  }

  lemma TallyTake(c: Config, s: State)
    requires Tallied(s) && Enabled(c, s, Take)
    ensures Tallied(Apply(c, s, Take)) && Emitted(Apply(c, s, Take).sink) == Emitted(s.sink)
  {
    FlushedInHead(s.sink.events);
    FlushedInAppend(s.sink.seen, [s.sink.events[0]]);
  }

  lemma TallyStep(c: Config, n: nat, s: State, a: Act)
    requires Reachable(c, n, s) && Tallied(s) && Enabled(c, s, a)
    ensures Tallied(Apply(c, s, a))
  {
    ReachableFormed(c, n, s);
    match a {
      case Recv => TallyRecv(c, n, s);
      case Do(w) => TallyDo(c, s, w);
      case Take => TallyTake(c, s);
      case Client(i, x) => if x.Send? { OfferStream(s.chan, s.gate.senders[i].job); }
      case Push(_) => assert Received(Apply(c, s, a).chan) == Received(s.chan);
      case Notify =>
      case Deliver =>
      case Stop =>
    }
  }

  /** The step sends as many reports as it is a report. */
  lemma SentGrows(c: Config, n: nat, s: State, a: Act)
    requires Reachable(c, n, s) && Tallied(s) && Enabled(c, s, a)
    ensures Emitted(Apply(c, s, a).sink) == Emitted(s.sink) + if EmitsFlushed(c, s, a) then 1 else 0
    ensures EmitsFlushed(c, s, a) ==> !Flushing(Apply(c, s, a).work.poller)
  {
    match a {
      case Recv =>
        var item := s.chan.queue[0];
        FlushedInAppend(s.sink.events, RecvEvents(c, item));
        FlushedInOne(Flushed);
        FlushedInOne(Ready);
      case Do(w) =>
        SilentStep(c, s.work, w);
        FlushedInAppend(s.sink.events, WorkEvents(c, s.work, w));
      case Take => TallyTake(c, s);
      case Client(_, _) =>
      case Push(_) =>
      case Notify =>
      case Deliver =>
      case Stop =>
    }
  }

  // ---------------------------------------------------------------- what lies before a reported Flush

  /** A Flush at that position, and it has been reported. */
  ghost predicate Reported(s: State, p: nat) {
    && p < |s.chan.enqueued| && s.chan.enqueued[p] == Control(Flush)
    && Flushes(s.chan.enqueued[..p + 1]) <= Emitted(s.sink)
  }

  /** Everything accepted before a reported Flush has been handled. */
  ghost predicate Covered(s: State) {
    forall p: nat :: Reported(s, p) ==> HandledBefore(s, p)
  }

  ghost predicate HandledBefore(s: State, p: nat)
    requires p <= |s.chan.enqueued|
  {
    forall m :: m in Mids(s.chan.enqueued[..p]) ==> HandledIn(s.work.tasks, m)
  }

  lemma HandledKept(c: Config, s: State, a: Act, m: Mid)
    requires Enabled(c, s, a) && HandledIn(s.work.tasks, m)
    ensures HandledIn(Apply(c, s, a).work.tasks, m)
  {
    var tasks' := Apply(c, s, a).work.tasks;
    var t :| 0 <= t < |s.work.tasks| && s.work.tasks[t].phase.Emitting? && m in s.work.tasks[t].mids;
    assert t < |tasks'| && tasks'[t].phase.Emitting? && tasks'[t].mids == s.work.tasks[t].mids;
  }

  lemma FlushesUpTo(items: seq<Item>, p: nat, k: nat)
    requires k <= p < |items| && items[p] == Control(Flush)
    ensures Flushes(items[..p + 1]) > Flushes(items[..k])
  {
    assert items[..p + 1] == items[..p] + [items[p]] && items[..p] == items[..k] + items[k..p];
    FlushesNext(items[..p], items[p]);
    FlushesAppend(items[..k], items[k..p]);
  }

  /** A Flush counted among the first k items stands among them. */
  lemma CountedBefore(items: seq<Item>, p: nat, k: nat)
    requires p < |items| && k <= |items| && items[p] == Control(Flush)
    requires Flushes(items[..p + 1]) <= Flushes(items[..k])
    ensures p < k
  {
    if k <= p {
      FlushesUpTo(items, p, k);
      assert false;
    }
  }

  /** No more reports than Flushes sent. */
  lemma EmittedAtMost(s: State)
    requires Tallied(s)
    ensures Emitted(s.sink) <= Flushes(s.chan.enqueued)
  {
    assert s.chan.enqueued == Received(s.chan) + s.chan.enqueued[s.chan.taken..];
    FlushesAppend(Received(s.chan), s.chan.enqueued[s.chan.taken..]);
  }

  /** The step that reports a Flush finds everything received handled. */
  lemma CoverReport(c: Config, n: nat, s: State, a: Act)
    requires Reachable(c, n, s) && Tallied(s) && Enabled(c, s, a) && EmitsFlushed(c, s, a) && FlushSafe(c)
    ensures Covered(Apply(c, s, a))
  {
    var s' := Apply(c, s, a);
    SafeFlush(c, n, s, a);
    TallyStep(c, n, s, a);
    SentGrows(c, n, s, a);
    var items, taken := s'.chan.enqueued, s'.chan.taken;
    forall p: nat | Reported(s', p)
      ensures HandledBefore(s', p)
    {
      CountedBefore(items, p, taken);
      assert items[..taken] == items[..p] + items[p..taken];
      StreamAppend(items[..p], items[p..taken]);
      QuietHandles(s');
    }
  }

  lemma QuietHandles(s: State)
    requires Quiet(s)
    ensures forall m :: m in Mids(Received(s.chan)) ==> HandledIn(s.work.tasks, m)
  {
    forall m | m in Mids(Received(s.chan))
      ensures HandledIn(s.work.tasks, m)
    {
      InFlat(s.work.tasks, m);
    }
  }

  /** Any other step reports nothing and leaves what is handled handled. */
  lemma CoverKeep(c: Config, n: nat, s: State, a: Act)
    requires Reachable(c, n, s) && Tallied(s) && Covered(s) && Enabled(c, s, a) && !EmitsFlushed(c, s, a)
    ensures Covered(Apply(c, s, a))
  {
    var s' := Apply(c, s, a);
    SentGrows(c, n, s, a);
    AcceptedKept(c, s, a);
    EmittedAtMost(s);
    var items, items' := s.chan.enqueued, s'.chan.enqueued;
    assert items'[..|items|] == items;
    forall p: nat | Reported(s', p)
      ensures HandledBefore(s', p)
    {
      CountedBefore(items', p, |items|);
      assert items'[..p + 1] == items[..p + 1] && items'[..p] == items[..p];
      assert Reported(s, p);
      forall m | m in Mids(items[..p])
        ensures HandledIn(s'.work.tasks, m)
      {
        HandledKept(c, s, a, m);
      }
    }
  }

  lemma {:induction false} ReportsRun(c: Config, n: nat, s: State, acts: seq<Act>)
    requires Reachable(c, n, s) && Tallied(s) && (FlushSafe(c) ==> Covered(s)) && Valid(c, s, acts)
    ensures Tallied(Exec(c, s, acts)) && (FlushSafe(c) ==> Covered(Exec(c, s, acts)))
    decreases |acts|
  {
    if acts != [] {
      var a := acts[0];
      TallyStep(c, n, s, a);
      if FlushSafe(c) {
        if EmitsFlushed(c, s, a) {
          CoverReport(c, n, s, a);
        } else {
          CoverKeep(c, n, s, a);
        }
      }
      ReachableStep(c, n, s, a);
      ReportsRun(c, n, Apply(c, s, a), acts[1..]);
    }
  }

  /**
   In every reachable state the reports sent, and the one in the making, are as many as the Flushes received; and
   where Flush is a barrier, what was accepted before a Flush already reported has been handled.
   */
  lemma ReportsInOrder(c: Config, n: nat, s: State)
    requires Reachable(c, n, s)
    ensures Tallied(s)
    ensures FlushSafe(c) ==> Covered(s)
  {
    var acts :| Valid(c, Start(c, n), acts) && Exec(c, Start(c, n), acts) == s;
    ReachableStart(c, n);
    assert Received(Start(c, n).chan) == [];
    ReportsRun(c, n, Start(c, n), acts);
  }

  /** The m-th Flush has a position. */
  lemma {:induction false} FindFlush(items: seq<Item>, m: nat) returns (p: nat)
    requires 0 < m <= Flushes(items)
    ensures p < |items| && items[p] == Control(Flush) && Flushes(items[..p + 1]) == m
  {
    var k := |items| - 1;
    assert items == items[..k] + [items[k]];
    if m <= Flushes(items[..k]) {
      p := FindFlush(items[..k], m);
      assert items[..k][..p + 1] == items[..p + 1];
    } else {
      p := k;
      assert items[..k + 1] == items;
    }
  }
}
