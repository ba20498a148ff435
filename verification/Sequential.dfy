/**
 The synchronized receiver is sequential: everything it emits is what one pass over its channel would
 produce, with the item's state threaded from one call to the next.
 */
module Sequential {
  import opened Machine
  import opened Formation
  import opened Exclusion
  import opened Invariant

  /** A handler that owns mutable state: `handle` and `sync` both take `&mut self`. */
  datatype Handler<!S> = Handler(handle: (S, Msg) -> (S, Outcome), sync: S -> S)

  function After<S>(h: Handler<S>, st: S, item: Item): S {
    match item
    case Request(_, msg) => h.handle(st, msg).0
    case Control(Sync) => h.sync(st)
    case Control(_) => st
  }

  function Output<S>(c: Config, h: Handler<S>, st: S, item: Item): seq<Event> {
    match item
    case Request(mid, msg) => TaskEvents(c, [mid], h.handle(st, msg).1)
    case Control(Init) => [Ready]
    case Control(Flush) => [Flushed]
    case Control(Sync) => [Synced]
    case Control(Close) => []
  }

  /** One pass over the items: the state reached and the events produced. */
  function FoldState<S>(h: Handler<S>, st: S, items: seq<Item>): S {
    if items == [] then st else After(h, FoldState(h, st, items[..|items| - 1]), items[|items| - 1])
  }

  function FoldEvents<S>(c: Config, h: Handler<S>, st: S, items: seq<Item>): seq<Event> {
    if items == [] then []
    else
      var before := items[..|items| - 1];
      FoldEvents(c, h, st, before) + Output(c, h, FoldState(h, st, before), items[|items| - 1])
  }

  lemma FoldNext<S>(c: Config, h: Handler<S>, st: S, items: seq<Item>, item: Item)
    ensures FoldState(h, st, items + [item]) == After(h, FoldState(h, st, items), item)
    ensures FoldEvents(c, h, st, items + [item])
         == FoldEvents(c, h, st, items) + Output(c, h, FoldState(h, st, items), item)
  {
    assert (items + [item])[..|items + [item]| - 1] == items;
  }

  // ---------------------------------------------------------------- a run with a stateful handler

  /** The handler's state after one step; it is touched only by handler calls and by `sync`. */
  function Touch<S>(h: Handler<S>, s: State, a: Act, st: S): S {
    if a.Do? && a.work.Handle? && a.work.task < |s.work.tasks| && s.work.tasks[a.work.task].msgs != [] then
      h.handle(st, s.work.tasks[a.work.task].msgs[0]).0
    else if a.Do? && a.work.SyncEnd? then h.sync(st)
    else st
  }

  /** A handler task returns what the handler, called in its present state, returns. */
  predicate Obeys<S>(h: Handler<S>, s: State, a: Act, st: S) {
    a.Do? && a.work.Handle? && a.work.task < |s.work.tasks| && s.work.tasks[a.work.task].msgs != [] ==>
      a.work.out == h.handle(st, s.work.tasks[a.work.task].msgs[0]).1
  }

  ghost predicate HandlerRun<S>(c: Config, h: Handler<S>, s: State, acts: seq<Act>, st: S)
    requires Valid(c, s, acts)
    decreases |acts|
  {
    acts == []
    || (Obeys(h, s, acts[0], st) && HandlerRun(c, h, Apply(c, s, acts[0]), acts[1..], Touch(h, s, acts[0], st)))
  }

  ghost function HandlerState<S>(c: Config, h: Handler<S>, s: State, acts: seq<Act>, st: S): S
    requires Valid(c, s, acts)
    decreases |acts|
  {
    if acts == [] then st else HandlerState(c, h, Apply(c, s, acts[0]), acts[1..], Touch(h, s, acts[0], st))
  }

  // ---------------------------------------------------------------- the invariant

  function Emitted(k: Sink): seq<Event> {
    k.seen + k.events
  }

  /** The items the poller is done with: all received, or all but the one it is working on. */
  function Settled(w: Work, received: seq<Item>): seq<Item> {
    if (w.poller.AtJoin? || w.poller.AtSyncWait? || w.poller.InSync?) && received != [] then received[..|received| - 1]
    else received
  }

  ghost predicate Working<S>(c: Config, h: Handler<S>, init: S, w: Work, emitted: seq<Event>, received: seq<Item>,
      st: S) {
    var done := Settled(w, received);
    match w.poller
    case AtJoin(i) =>
      && received != [] && received[|received| - 1].Request? && i < |w.tasks|
      && w.tasks[i].mids == [received[|received| - 1].mid] && w.tasks[i].msgs == [received[|received| - 1].msg]
      && (if w.tasks[i].phase.Emitting?
          then emitted + w.tasks[i].phase.events == FoldEvents(c, h, init, received)
              && st == FoldState(h, init, received)
          else emitted == FoldEvents(c, h, init, done) && st == FoldState(h, init, done))
    case AtSyncWait =>
      && received != [] && received[|received| - 1] == Control(Sync)
      && emitted == FoldEvents(c, h, init, done) && st == FoldState(h, init, done)
    case InSync =>
      && received != [] && received[|received| - 1] == Control(Sync)
      && emitted == FoldEvents(c, h, init, done) && st == FoldState(h, init, done)
    case _ => emitted == FoldEvents(c, h, init, received) && st == FoldState(h, init, received)
  }

  lemma RecvWorking<S>(c: Config, h: Handler<S>, init: S, w: Work, emitted: seq<Event>, received: seq<Item>, st: S,
      item: Item)
    requires c.kind.Synchronized? && w.poller.AtRecv? && Working(c, h, init, w, emitted, received, st)
    ensures Working(c, h, init, RecvStep(c, w, item), emitted + RecvEvents(c, item), received + [item], st)
  {
    FoldNext(c, h, init, received, item);
    assert (received + [item])[..|received + [item]| - 1] == received;
  }

  lemma LastFold<S>(c: Config, h: Handler<S>, init: S, received: seq<Item>)
    requires received != []
    ensures var before, last := received[..|received| - 1], received[|received| - 1];
      && FoldState(h, init, received) == After(h, FoldState(h, init, before), last)
      && FoldEvents(c, h, init, received)
          == FoldEvents(c, h, init, before) + Output(c, h, FoldState(h, init, before), last)
  {
  }

  lemma HandleWorking<S>(c: Config, h: Handler<S>, init: S, w: Work, emitted: seq<Event>, received: seq<Item>, st: S,
                         t: nat, out: Outcome)
    requires c.kind.Synchronized? && EnabledWork(c, w, Handle(t, out)) && OneByOne(c, w)
    requires Working(c, h, init, w, emitted, received, st) && w.tasks[t].msgs != []
              && out == h.handle(st, w.tasks[t].msgs[0]).1
    ensures Working(c, h, init, HandleStep(c, w, t, out), emitted, received, h.handle(st, w.tasks[t].msgs[0]).0)
  {
    LastFold(c, h, init, received);
  }

  lemma EmitWorking<S>(c: Config, h: Handler<S>, init: S, w: Work, emitted: seq<Event>, received: seq<Item>, st: S,
      t: nat)
    requires c.kind.Synchronized? && EnabledWork(c, w, Emit(t)) && OneByOne(c, w)
    requires Working(c, h, init, w, emitted, received, st)
    ensures Working(c, h, init, WorkStep(c, w, Emit(t)), emitted + WorkEvents(c, w, Emit(t)), received, st)
  {
    var out := w.tasks[t].phase.events;
    assert emitted + out == (emitted + [out[0]]) + out[1..];
  }

  lemma OtherWorking<S>(c: Config, h: Handler<S>, init: S, w: Work, emitted: seq<Event>, received: seq<Item>, st: S,
      a: WorkAct)
    requires c.kind.Synchronized? && EnabledWork(c, w, a) && OneByOne(c, w)
              && Working(c, h, init, w, emitted, received, st)
    requires a.SyncStart? || a.SyncEnd? || a.Joined? || a.Leave? || a.Lock?
    ensures Working(c, h, init, WorkStep(c, w, a), emitted + WorkEvents(c, w, a), received,
              if a.SyncEnd? then h.sync(st) else st)
  {
    if a.SyncEnd? {
      LastFold(c, h, init, received);
    } else {
      assert emitted + [] == emitted;
    }
  }

  lemma DoWorking<S>(c: Config, h: Handler<S>, init: S, s: State, emitted: seq<Event>, received: seq<Item>, st: S,
      a: WorkAct)
    requires c.kind.Synchronized? && EnabledWork(c, s.work, a) && Obeys(h, s, Do(a), st) && OneByOne(c, s.work)
    requires Working(c, h, init, s.work, emitted, received, st)
    requires !a.Acquire? && !a.Drained?
    requires a.Handle? ==> s.work.tasks[a.task].msgs != []
    ensures Working(c, h, init, WorkStep(c, s.work, a), emitted + WorkEvents(c, s.work, a), received,
              Touch(h, s, Do(a), st))
  {
    match a {
      case Handle(t, out) =>
        HandleWorking(c, h, init, s.work, emitted, received, st, t, out);
        assert emitted + [] == emitted;
      case Emit(t) => EmitWorking(c, h, init, s.work, emitted, received, st, t);
      case _ => OtherWorking(c, h, init, s.work, emitted, received, st, a);
    }
  }

  ghost predicate InStep<S>(c: Config, h: Handler<S>, init: S, s: State, st: S) {
    s.chan.taken <= |s.chan.enqueued| && Working(c, h, init, s.work, Emitted(s.sink), Received(s.chan), st)
  }

  lemma RecvInStep<S>(c: Config, n: nat, h: Handler<S>, init: S, s: State, st: S)
    requires c.kind.Synchronized? && Reachable(c, n, s) && Enabled(c, s, Recv) && InStep(c, h, init, s, st)
    ensures InStep(c, h, init, Apply(c, s, Recv), st)
  {
    var item := s.chan.queue[0];
    ReachableFormed(c, n, s);
    ReceiveStream(s.chan);
    RecvWorking(c, h, init, s.work, Emitted(s.sink), Received(s.chan), st, item);
    assert Emitted(Apply(c, s, Recv).sink) == Emitted(s.sink) + RecvEvents(c, item);
  }

  lemma DoInStep<S>(c: Config, n: nat, h: Handler<S>, init: S, s: State, st: S, w: WorkAct)
    requires c.kind.Synchronized? && Reachable(c, n, s) && Enabled(c, s, Do(w)) && InStep(c, h, init, s, st)
    requires Obeys(h, s, Do(w), st)
    ensures InStep(c, h, init, Apply(c, s, Do(w)), Touch(h, s, Do(w), st))
  {
    ReachableExclusive(c, n, s);
    ReachableShape(c, n, s);
    DoWorking(c, h, init, s, Emitted(s.sink), Received(s.chan), st, w);
    assert Emitted(Apply(c, s, Do(w)).sink) == Emitted(s.sink) + WorkEvents(c, s.work, w);
  }

  lemma ClientInStep<S>(c: Config, n: nat, h: Handler<S>, init: S, s: State, st: S, a: Act)
    requires Reachable(c, n, s) && Enabled(c, s, a) && (a.Client? || a.Push?) && InStep(c, h, init, s, st)
    ensures InStep(c, h, init, Apply(c, s, a), st)
  {
    ReachableFormed(c, n, s);
    if a.Push? {
      EnqueueStream(s.chan, Control(a.action), PushStep(s.chan, a.action));
    } else if a.client.Send? {
      OfferStream(s.chan, s.gate.senders[a.i].job);
    }
  }

  lemma TakeInStep<S>(c: Config, h: Handler<S>, init: S, s: State, st: S)
    requires Enabled(c, s, Take) && InStep(c, h, init, s, st)
    ensures InStep(c, h, init, Apply(c, s, Take), st)
  {
    assert Emitted(Apply(c, s, Take).sink) == Emitted(s.sink) by {
      assert s.sink.events == [s.sink.events[0]] + s.sink.events[1..];
    }
  }

  lemma InStepStep<S>(c: Config, n: nat, h: Handler<S>, init: S, s: State, a: Act, st: S)
    requires c.kind.Synchronized? && Reachable(c, n, s) && Enabled(c, s, a) && Obeys(h, s, a, st)
              && InStep(c, h, init, s, st)
    ensures InStep(c, h, init, Apply(c, s, a), Touch(h, s, a, st))
  {
    match a {
      case Client(_, _) => ClientInStep(c, n, h, init, s, st, a);
      case Push(_) => ClientInStep(c, n, h, init, s, st, a);
      case Recv => RecvInStep(c, n, h, init, s, st);
      case Do(w) => DoInStep(c, n, h, init, s, st, w);
      case Take => TakeInStep(c, h, init, s, st);
      case _ =>
    }
  }

  lemma {:induction false} InStepRun<S>(c: Config, n: nat, h: Handler<S>, init: S, s: State, acts: seq<Act>, st: S)
    requires c.kind.Synchronized? && Reachable(c, n, s) && Valid(c, s, acts) && HandlerRun(c, h, s, acts, st)
    requires InStep(c, h, init, s, st)
    ensures InStep(c, h, init, Exec(c, s, acts), HandlerState(c, h, s, acts, st))
    decreases |acts|
  {
    if acts != [] {
      InStepStep(c, n, h, init, s, acts[0], st);
      ReachableStep(c, n, s, acts[0]);
      InStepRun(c, n, h, init, Apply(c, s, acts[0]), acts[1..], Touch(h, s, acts[0], st));
    }
  }

  /**
   Whenever the synchronized poller is between items, the events it and its tasks have emitted, in order,
   and the state of the handler are those of one sequential pass over the items received.
   */
  lemma SequentialRefinement<S>(c: Config, n: nat, h: Handler<S>, init: S, acts: seq<Act>)
    requires c.kind.Synchronized? && Valid(c, Start(c, n), acts) && HandlerRun(c, h, Start(c, n), acts, init)
    requires var w := Exec(c, Start(c, n), acts).work; w.poller.AtRecv? || w.poller.Exited?
    ensures var s := Exec(c, Start(c, n), acts);
      && s.chan.taken <= |s.chan.enqueued|
      && s.sink.seen + s.sink.events == FoldEvents(c, h, init, Received(s.chan))
      && HandlerState(c, h, Start(c, n), acts, init) == FoldState(h, init, Received(s.chan))
  {
    ReachableStart(c, n);
    InStepRun(c, n, h, init, Start(c, n), acts, init);
  }
}
