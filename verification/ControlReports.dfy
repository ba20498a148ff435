/**
 What the poller reports for Init and Sync, for all kinds alike: one Ready for each Init it receives and one
 Synchronized for each Sync.
 */
module ControlReports {
  import opened Machine
  import opened Formation
  import opened Invariant

  /** Everything the poller and the handler tasks have sent to the event loop, in order. */
  function AllEvents(k: Sink): seq<Event> {
    k.seen + k.events
  }

  /** Handler tasks send neither Ready nor Synchronized. */
  ghost predicate OnlyAnswers(tasks: seq<Task>) {
    forall t :: 0 <= t < |tasks| && tasks[t].phase.Emitting? ==>
      Ready !in tasks[t].phase.events && Synced !in tasks[t].phase.events
  }

  predicate Syncing(p: Poller) {
    p.AtSyncWait? || p.InSync?
  }

  ghost predicate Tallied(s: State) {
    && OnlyAnswers(s.work.tasks) && s.chan.taken <= |s.chan.enqueued|
    && multiset(AllEvents(s.sink))[Ready] == multiset(Received(s.chan))[Control(Init)]
    && multiset(AllEvents(s.sink))[Synced] + (if Syncing(s.work.poller) then 1 else 0)
       == multiset(Received(s.chan))[Control(Sync)]
  }

  lemma TaskEventsOnly(c: Config, mids: seq<Mid>, out: Outcome)
    ensures Ready !in TaskEvents(c, mids, out) && Synced !in TaskEvents(c, mids, out)
  {
  }

  lemma WorkOnly(c: Config, w: Work, a: WorkAct)
    requires OnlyAnswers(w.tasks) && EnabledWork(c, w, a)
    ensures OnlyAnswers(WorkStep(c, w, a).tasks)
    ensures multiset(WorkEvents(c, w, a))[Ready] == 0
    ensures multiset(WorkEvents(c, w, a))[Synced] + (if Syncing(WorkStep(c, w, a).poller) then 1 else 0)
         == if Syncing(w.poller) then 1 else 0
  {
    if a.Handle? {
      TaskEventsOnly(c, w.tasks[a.task].mids, a.out);
    }
  }

  /** New events join the end of the stream. */
  lemma StreamAfter(k: Sink, es: seq<Event>, e: Event)
    ensures multiset(AllEvents(k.(events := k.events + es)))[e] == multiset(AllEvents(k))[e] + multiset(es)[e]
  {
    assert k.seen + (k.events + es) == AllEvents(k) + es;
  }

  lemma TallyDo(c: Config, s: State, w: WorkAct)
    requires Tallied(s) && Enabled(c, s, Do(w))
    ensures Tallied(Apply(c, s, Do(w)))
  {
    WorkOnly(c, s.work, w);
    StreamAfter(s.sink, WorkEvents(c, s.work, w), Ready);
    StreamAfter(s.sink, WorkEvents(c, s.work, w), Synced);
  }

  lemma RecvOnly(c: Config, w: Work, item: Item)
    requires OnlyAnswers(w.tasks) && w.poller.AtRecv?
    ensures OnlyAnswers(RecvStep(c, w, item).tasks)
    ensures multiset(RecvEvents(c, item))[Ready] == if item == Control(Init) then 1 else 0
    ensures multiset(RecvEvents(c, item))[Synced] == 0
    ensures Syncing(RecvStep(c, w, item).poller) <==> item == Control(Sync)
  {
  }

  lemma TallyRecv(c: Config, n: nat, s: State)
    requires Reachable(c, n, s) && Tallied(s) && Enabled(c, s, Recv)
    ensures Tallied(Apply(c, s, Recv))
  {
    ReachableFormed(c, n, s);
    ReceiveStream(s.chan);
    var item := s.chan.queue[0];
    RecvOnly(c, s.work, item);
    StreamAfter(s.sink, RecvEvents(c, item), Ready);
    StreamAfter(s.sink, RecvEvents(c, item), Synced);
    assert multiset(Received(s.chan) + [item]) == multiset(Received(s.chan)) + multiset{item};
  }

  lemma TakeStream(k: Sink)
    requires k.events != []
    ensures AllEvents(TakeSink(k)) == AllEvents(k)
  {
    assert k.events == [k.events[0]] + k.events[1..];
  }

  lemma TallyStep(c: Config, n: nat, s: State, a: Act)
    requires Reachable(c, n, s) && Tallied(s) && Enabled(c, s, a)
    ensures Tallied(Apply(c, s, a))
  {
    ReachableFormed(c, n, s);
    match a {
      case Recv => TallyRecv(c, n, s);
      case Do(w) => TallyDo(c, s, w);
      case Take => TakeStream(s.sink);
      case Client(i, x) => if x.Send? { OfferStream(s.chan, s.gate.senders[i].job); }
      case Push(_) => assert Received(Apply(c, s, a).chan) == Received(s.chan);
      case Notify =>
      case Deliver =>
      case Stop =>
    }
  }

  lemma {:induction false} TallyRun(c: Config, n: nat, s: State, acts: seq<Act>)
    requires Reachable(c, n, s) && Tallied(s) && Valid(c, s, acts)
    ensures Tallied(Exec(c, s, acts))
    decreases |acts|
  {
    if acts != [] {
      TallyStep(c, n, s, acts[0]);
      ReachableStep(c, n, s, acts[0]);
      TallyRun(c, n, Apply(c, s, acts[0]), acts[1..]);
    }
  }

  /**
   For every kind, in every reachable state: the Ready events sent, whether or not the loop has taken them, are as
   many as the Inits received; the Synchronized events sent, and one in the making, as many as the Syncs received.
   */
  lemma ReadyAndSynced(c: Config, n: nat, s: State)
    requires Reachable(c, n, s)
    ensures s.chan.taken <= |s.chan.enqueued|
    ensures multiset(s.sink.seen + s.sink.events)[Ready] == multiset(s.chan.enqueued[..s.chan.taken])[Control(Init)]
    ensures multiset(s.sink.seen + s.sink.events)[Synced]
              + (if s.work.poller.AtSyncWait? || s.work.poller.InSync? then 1 else 0)
         == multiset(s.chan.enqueued[..s.chan.taken])[Control(Sync)]
  {
    var acts :| Valid(c, Start(c, n), acts) && Exec(c, Start(c, n), acts) == s;
    ReachableStart(c, n);
    assert Received(Start(c, n).chan) == [];
    TallyRun(c, n, Start(c, n), acts);
  }
}
