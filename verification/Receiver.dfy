/**
 The local receiver as the object its participants share.

 `Machine` gives the steps; here are the bodies that take them: the `reserve` loop of a sender, the pollers,
 the handler tasks and the event loop, each written as the sequential code it is.  Wherever such a body can
 be interrupted it calls `Others`, which lets every other participant take any number of steps.  `history`
 records every step taken, and each body is proved to extend it to a run of the machine, so everything proved
 of runs holds between any two of its statements.
 */
module Receiver {
  import opened Wrappers
  import opened Machine
  import Invariant
  import Barrier

  /** Who takes a step. */
  datatype Party = ThePoller | TheTask(task: nat) | TheSender(sender: nat) | TheLoop

  predicate Takes(p: Party, a: Act) {
    match a
    case Client(i, _) => p == TheSender(i)
    case Push(_) => false
    case Recv => p == ThePoller
    case Do(Lock(t)) => p == TheTask(t)
    case Do(Handle(t, _)) => p == TheTask(t)
    case Do(Emit(t)) => p == TheTask(t)
    case Do(_) => p == ThePoller
    case _ => p == TheLoop
  }

  /** What the others leave alone: a participant's own part of the state; a notification may unpark a sender. */
  predicate Untouched(p: Party, s: State, s': State) {
    match p
    case ThePoller =>
      && s'.work.poller == s.work.poller && s'.work.bufferMid == s.work.bufferMid && s'.work.buffer == s.work.buffer
      && s'.chan.taken == s.chan.taken
    case TheTask(t) =>
      && (t < |s.work.tasks| ==> t < |s'.work.tasks| && s'.work.tasks[t] == s.work.tasks[t])
      && s.sink.seen + s.sink.events <= s'.sink.seen + s'.sink.events
    case TheSender(i) =>
      && |s'.gate.senders| == |s.gate.senders|
      && (i < |s.gate.senders| ==>
            || s'.gate.senders[i] == s.gate.senders[i]
            || (s.gate.senders[i].Parked? && s'.gate.senders[i] == Trying(s.gate.senders[i].job)))
    case TheLoop => s'.sink.loop == s.sink.loop && s'.sink.seen == s.sink.seen
  }

  lemma OthersWork(c: Config, w: Work, a: WorkAct)
    requires EnabledWork(c, w, a)
    ensures a.Lock? || a.Handle? || a.Emit? ==>
              WorkStep(c, w, a).poller == w.poller && WorkStep(c, w, a).bufferMid == w.bufferMid
                  && WorkStep(c, w, a).buffer == w.buffer
    ensures forall t: nat :: t < |w.tasks| && !Takes(TheTask(t), Do(a)) ==>
              t < |WorkStep(c, w, a).tasks| && WorkStep(c, w, a).tasks[t] == w.tasks[t]
  {
  }

  lemma OthersGate(c: Config, g: Gate, i: nat, a: ClientAct, asker: nat, j: nat)
    requires i < |g.senders| && EnabledClient(g.senders[i], a) && i != j && j < |g.senders|
    ensures |GateStep(c, g, i, a, asker).senders| == |g.senders|
              && GateStep(c, g, i, a, asker).senders[j] == g.senders[j]
  {
  }

  /** What was sent to the event loop stays sent. */
  lemma OthersSend(c: Config, s: State, a: Act)
    requires Enabled(c, s, a)
    ensures var s' := Apply(c, s, a); s.sink.seen + s.sink.events <= s'.sink.seen + s'.sink.events
  {
    var k, k' := s.sink, Apply(c, s, a).sink;
    if a.Take? {
      assert k'.seen + k'.events == k.seen + k.events;
    } else {
      assert k.events <= k'.events && k'.seen == k.seen;
    }
  }

  lemma LeaveUntouched(c: Config, s: State, p: Party, a: Act)
    requires Enabled(c, s, a) && !Takes(p, a)
    ensures Untouched(p, s, Apply(c, s, a))
  {
    OthersSend(c, s, a);
    match a
    case Do(w) => OthersWork(c, s.work, w);
    case Client(i, x) =>
      if p.TheSender? && p.sender < |s.gate.senders| {
        OthersGate(c, s.gate, i, x, s.desk.askers, p.sender);
      }
      assert |GateStep(c, s.gate, i, x, s.desk.askers).senders| == |s.gate.senders|;
    case Push(_) =>
    case Recv =>
    case Take =>
    case Notify =>
    case Deliver =>
    case Stop =>
  }

  /** How many of the steps p took. */
  ghost function Steps(p: Party, acts: seq<Act>): nat {
    if acts == [] then 0
    else Steps(p, acts[..|acts| - 1]) + if Takes(p, acts[|acts| - 1]) then 1 else 0
  }

  lemma StepsGrow(p: Party, acts: seq<Act>, a: Act)
    ensures Steps(p, acts + [a]) == Steps(p, acts) + if Takes(p, a) then 1 else 0
  {
    assert (acts + [a])[..|acts|] == acts;
  }

  /** The poller waits for something that has not happened yet, or has returned. */
  predicate PollerBlocked(c: Config, s: State) {
    match s.work.poller
    case AtRecv => s.chan.queue == [] && s.chan.open
    case AtAcquireFull => s.work.avail == 0
    case AtAcquire(_, _, _) => s.work.avail == 0
    case AtDrain => s.work.avail < c.Drain()
    case AtSyncWait => if c.Gated() then s.work.avail < c.Drain() else !MutexFree(s.work)
    case InSync => false
    case AtJoin(t) => t >= |s.work.tasks| || s.work.tasks[t].phase != Emitting([])
    case Exited => true
  }

  /** Blocked means that it has no step to take. */
  lemma BlockedPoller(c: Config, s: State)
    ensures PollerBlocked(c, s) <==> forall a: Act :: Takes(ThePoller, a) ==> !Enabled(c, s, a)
  {
    if !PollerBlocked(c, s) {
      var a := match s.work.poller
        case AtRecv => if s.chan.queue != [] then Recv else Do(WorkAct.Leave)
        case AtAcquireFull => Do(Acquire)
        case AtAcquire(_, _, _) => Do(Acquire)
        case AtDrain => Do(Drained)
        case AtSyncWait => Do(SyncStart)
        case InSync => Do(SyncEnd)
        case AtJoin(t) => Do(Joined)
        case Exited => Recv;
      assert Takes(ThePoller, a) && Enabled(c, s, a);
    }
  }

  /** How `try_reserve` ended, or that it was still retrying when last seen. */
  datatype Attempt = Reserved | Full | Retrying

  /**
   `ReceiverContext`: the capacity counter, the wake-up cell, the flush flag; and the senders' places in
   `reserve`.
   */
  class Context {
    var processing: int
    var stored: bool
    var parked: seq<nat>
    var senders: seq<Sender>
    var needFlush: bool

    constructor (g: Gate)
      ensures View() == g
    {
      processing, stored, parked, senders, needFlush := g.processing, g.stored, g.parked, g.senders, g.needFlush;
    }

    function View(): Gate
      reads this
    {
      Gate(processing, stored, parked, senders, needFlush)
    }

    method Become(g: Gate)
      modifies this
      ensures View() == g
    {
      processing, stored, parked, senders, needFlush := g.processing, g.stored, g.parked, g.senders, g.needFlush;
    }
  }

  /** The unbounded request channel. */
  class Requests {
    var queue: seq<Item>
    var open: bool
    var enqueued: seq<Item>
    var taken: nat
    var jobs: seq<Job>
    var refused: nat

    constructor (ch: Channel)
      ensures View() == ch
    {
      queue, open, enqueued, taken, jobs, refused := ch.queue, ch.open, ch.enqueued, ch.taken, ch.jobs, ch.refused;
    }

    function View(): Channel
      reads this
    {
      Channel(queue, open, enqueued, taken, jobs, refused)
    }

    method Become(ch: Channel)
      modifies this
      ensures View() == ch
    {
      queue, open, enqueued, taken, jobs, refused := ch.queue, ch.open, ch.enqueued, ch.taken, ch.jobs, ch.refused;
    }

    /** `tx.send`: refused once the channel is closed. */
    method Offer(job: Job)
      modifies this
      ensures View() == OfferStep(old(View()), job)
    {
      if open {
        var item := Request(MidOf(job, |jobs|), job.msg);
        queue := queue + [item];
        enqueued := enqueued + [item];
        jobs := jobs + [job];
      } else {
        refused := refused + 1;
      }
    }

    /** `rx.recv` on a channel that is not empty. */
    method Receive() returns (item: Item)
      requires queue != []
      modifies this
      ensures item == old(queue)[0] && View() == old(View()).(queue := old(queue)[1..], taken := old(taken) + 1)
    {
      item := queue[0];
      queue := queue[1..];
      taken := taken + 1;
    }

    /** `rx.close` */
    method Shut()
      modifies this
      ensures View() == old(View()).(open := false)
    {
      open := false;
    }
  }

  /** The poller's variables, the semaphore and the spawned tasks. */
  class Workshop {
    var poller: Poller
    var bufferMid: seq<Mid>
    var buffer: seq<Msg>
    var avail: nat
    var tasks: seq<Task>
    var dropped: seq<Mid>

    constructor (w: Work)
      ensures View() == w
    {
      poller, bufferMid, buffer, avail, tasks, dropped := w.poller, w.bufferMid, w.buffer, w.avail, w.tasks, w.dropped;
    }

    function View(): Work
      reads this
    {
      Work(poller, bufferMid, buffer, avail, tasks, dropped)
    }

    method Become(w: Work)
      modifies this
      ensures View() == w
    {
      poller, bufferMid, buffer, avail, tasks, dropped := w.poller, w.bufferMid, w.buffer, w.avail, w.tasks, w.dropped;
    }
  }

  /** The event channel, and the place of its loop. */
  class Events {
    var events: seq<Event>
    var loop: Loop
    var answered: seq<Event>
    var seen: seq<Event>

    constructor (k: Sink)
      ensures View() == k
    {
      events, loop, answered, seen := k.events, k.loop, k.answered, k.seen;
    }

    function View(): Sink
      reads this
    {
      Sink(events, loop, answered, seen)
    }

    method Become(k: Sink)
      modifies this
      ensures View() == k
    {
      events, loop, answered, seen := k.events, k.loop, k.answered, k.seen;
    }
  }

  /** The slab of response waiters. */
  class Waiters {
    var waiters: map<nat, nat>
    var askers: nat
    var delivered: seq<Delivery>
    var collided: bool

    constructor (d: Desk)
      ensures View() == d
    {
      waiters, askers, delivered, collided := d.waiters, d.askers, d.delivered, d.collided;
    }

    function View(): Desk
      reads this
    {
      Desk(waiters, askers, delivered, collided)
    }

    method Become(d: Desk)
      modifies this
      ensures View() == d
    {
      waiters, askers, delivered, collided := d.waiters, d.askers, d.delivered, d.collided;
    }
  }

  class LocalReceiver {
    const c: Config
    const clients: nat
    const context: Context
    const requests: Requests
    const work: Workshop
    const sink: Events
    const desk: Waiters
    ghost var history: seq<Act>

    constructor (c: Config, clients: nat)
      ensures this.c == c && this.clients == clients && history == [] && Live()
      ensures fresh(Parts())
    {
      var s := Start(c, clients);
      this.c, this.clients := c, clients;
      context := new Context(s.gate);
      requests := new Requests(s.chan);
      work := new Workshop(s.work);
      sink := new Events(s.sink);
      desk := new Waiters(s.desk);
      history := [];
    }

    ghost function Parts(): set<object> {
      {context, requests, work, sink, desk}
    }

    function View(): State
      reads context, requests, work, sink, desk
    {
      State(context.View(), requests.View(), work.View(), sink.View(), desk.View())
    }

    /** The history is a run that leads to s. */
    ghost predicate Tracks(s: State)
      reads this
    {
      Valid(c, Start(c, clients), history) && Exec(c, Start(c, clients), history) == s
    }

    ghost predicate Live()
      reads this, Parts()
    {
      Tracks(View())
    }

    /** What is proved of every reachable state holds whenever a body can be interrupted. */
    lemma LiveIsReachable()
      requires Live()
      ensures Invariant.Reachable(c, clients, View())
    {
    }

    /** The statements since the state `before` amount to the step a. */
    ghost method Record(before: State, a: Act)
      requires Tracks(before) && Enabled(c, before, a) && View() == Apply(c, before, a)
      modifies this
      ensures Live() && history == old(history) + [a]
    {
      ExecAppend(c, Start(c, clients), history, [a]);
      history := history + [a];
    }

    /** Whatever the other participants do while p waits or is preempted. */
    method Others(p: Party)
      requires Live()
      modifies this, Parts()
      ensures Live() && old(history) <= history
      ensures Steps(p, history) == old(Steps(p, history))
      ensures Untouched(p, old(View()), View())
    {
      var rounds: nat := *;
      while rounds > 0
        invariant Live() && old(history) <= history
        invariant Steps(p, history) == old(Steps(p, history))
        invariant Untouched(p, old(View()), View())
      {
        var a: Act := *;
        if Enabled(c, View(), a) && !Takes(p, a) {
          LeaveUntouched(c, View(), p, a);
          StepsGrow(p, history, a);
          Perform(a);
        }
        rounds := rounds - 1;
      }
    }

    /** One step of anybody. */
    method Perform(a: Act)
      requires Live() && Enabled(c, View(), a)
      modifies this, Parts()
      ensures View() == Apply(c, old(View()), a) && Live() && history == old(history) + [a]
    {
      ghost var before := View();
      var s := Apply(c, View(), a);
      context.Become(s.gate);
      requests.Become(s.chan);
      work.Become(s.work);
      sink.Become(s.sink);
      desk.Become(s.desk);
      Record(before, a);
    }

    // -------------------------------------------------------------- a sender

    ghost predicate SenderAt(i: nat, x: Sender)
      reads context
    {
      i < |context.senders| && context.senders[i] == x
    }

    /** The load, and the comparison with the limit. */
    method LoadCount(i: nat, job: Job) returns (below: bool, count: int)
      requires Live() && SenderAt(i, Trying(job))
      modifies this, Parts()
      ensures Live() && old(history) <= history && history[|history| - 1] == Client(i, Load)
      ensures Steps(TheSender(i), history) == old(Steps(TheSender(i), history)) + 1
      ensures count == context.processing && below == (count < c.Cap())
      ensures SenderAt(i, if below then Loaded(job, count) else Registering(job))
    {
      Others(TheSender(i));
      ghost var before := View();
      count := context.processing;
      below := count < c.Cap();
      context.senders := context.senders[i := if below then Loaded(job, count) else Registering(job)];
      StepsGrow(TheSender(i), history, Client(i, Load));
      Record(before, Client(i, Load));
    }

    /** `compare_exchange(count, count + 1)` */
    method CompareExchange(i: nat, job: Job, count: int) returns (ok: bool)
      requires Live() && SenderAt(i, Loaded(job, count))
      modifies this, Parts()
      ensures Live() && history == old(history) + [Client(i, Cas)]
      ensures Steps(TheSender(i), history) == old(Steps(TheSender(i), history)) + 1
      ensures ok == (old(context.processing) == count)
      ensures context.processing == old(context.processing) + if ok then 1 else 0
      ensures SenderAt(i, if ok then Holding(job) else Trying(job))
    {
      ghost var before := View();
      ok := context.processing == count;
      if ok {
        context.processing := count + 1;
        context.senders := context.senders[i := Holding(job)];
      } else {
        context.senders := context.senders[i := Trying(job)];
      }
      StepsGrow(TheSender(i), history, Client(i, Cas));
      Record(before, Client(i, Cas));
    }

    /**
     `try_reserve`: the compare-and-exchange loop, with the others at work between load and exchange.
     It gives up only in this model, and only after losing the race `rounds` times.
     */
    method TryReserve(i: nat, job: Job, rounds: nat) returns (r: Attempt)
      requires Live() && SenderAt(i, Trying(job))
      modifies this, Parts()
      ensures Live() && old(history) <= history
      ensures r.Reserved? ==>
                SenderAt(i, Holding(job)) && context.processing <= c.Cap() && history[|history| - 1] == Client(i, Cas)
      ensures r.Full? ==>
                SenderAt(i, Registering(job)) && context.processing >= c.Cap()
                    && history[|history| - 1] == Client(i, Load)
      ensures r.Full? ==> Steps(TheSender(i), history) > old(Steps(TheSender(i), history))
      ensures r.Retrying? ==>
                SenderAt(i, Trying(job))
                    && Steps(TheSender(i), history) == old(Steps(TheSender(i), history)) + 2 * rounds
    {
      var lost := 0;
      while lost < rounds
        invariant Live() && old(history) <= history && SenderAt(i, Trying(job)) && lost <= rounds
        invariant Steps(TheSender(i), history) == old(Steps(TheSender(i), history)) + 2 * lost
      {
        var below, count := LoadCount(i, job);
        if !below {
          return Full;
        }
        Others(TheSender(i));
        var exchanged := CompareExchange(i, job, count);
        if exchanged {
          return Reserved;
        }
        lost := lost + 1;
      }
      return Retrying;
    }

    /** `reserve_notify().notified().await`; false if the sender was still waiting when last seen. */
    method Notified(i: nat, job: Job) returns (woken: bool)
      requires Live() && SenderAt(i, Registering(job))
      modifies this, Parts()
      ensures Live() && old(history) <= history
      ensures SenderAt(i, if woken then Trying(job) else Parked(job))
      ensures Steps(TheSender(i), history) == old(Steps(TheSender(i), history)) + 1
    {
      Others(TheSender(i));
      woken := Registered(i, job);
      if !woken {
        Others(TheSender(i));
        woken := context.senders[i].Trying?;
      }
    }

    /** The first poll of `notified()`: it consumes the stored notification, or joins the line. */
    method Registered(i: nat, job: Job) returns (woken: bool)
      requires Live() && SenderAt(i, Registering(job))
      modifies this, Parts()
      ensures Live() && history == old(history) + [Client(i, Register)]
      ensures woken == old(context.stored) && !context.stored
      ensures context.parked == if woken then old(context.parked) else old(context.parked) + [i]
      ensures SenderAt(i, if woken then Trying(job) else Parked(job))
      ensures Steps(TheSender(i), history) == old(Steps(TheSender(i), history)) + 1
    {
      ghost var before := View();
      StepsGrow(TheSender(i), history, Client(i, Register));
      woken := context.stored;
      if woken {
        context.stored := false;
        context.senders := context.senders[i := Trying(job)];
      } else {
        context.senders := context.senders[i := Parked(job)];
        context.parked := context.parked + [i];
      }
      Record(before, Client(i, Register));
    }

    /**
     `reserve`: tries, and waits for a notification each time the receiver is full.  Unless it succeeds it is
     parked, or has been seen to try `rounds` times.
     */
    method Reserve(i: nat, job: Job, rounds: nat) returns (reserved: bool)
      requires Live() && SenderAt(i, Trying(job))
      modifies this, Parts()
      ensures Live() && old(history) <= history
      ensures reserved ==> SenderAt(i, Holding(job))
      ensures !reserved ==>
                || SenderAt(i, Parked(job))
                || (SenderAt(i, Trying(job))
                    && Steps(TheSender(i), history) >= old(Steps(TheSender(i), history)) + rounds)
    {
      var tries := 0;
      while tries < rounds
        invariant Live() && old(history) <= history && SenderAt(i, Trying(job)) && tries <= rounds
        invariant Steps(TheSender(i), history) >= old(Steps(TheSender(i), history)) + tries
      {
        var r := TryReserve(i, job, rounds);
        if r.Reserved? {
          return true;
        }
        if r.Retrying? {
          return false;
        }
        var woken := Notified(i, job);
        if !woken {
          return false;
        }
        tries := tries + 1;
      }
      return false;
    }

    /**
     `send`: the channel takes the message or refuses it, and the permit is fused either way; the flush flag goes
     up in a step of its own.
     */
    method Send(i: nat, job: Job)
      requires Live() && (SenderAt(i, Holding(job)) || SenderAt(i, Forcing(job)))
      modifies this, Parts()
      ensures Live() && old(history) + [Client(i, ClientAct.Send)] <= history
      ensures history[|history| - 1] == Client(i, Flag)
                && Steps(TheSender(i), history) == old(Steps(TheSender(i), history)) + 2
      ensures context.needFlush && SenderAt(i, Idle)
    {
      HandOver(i, job);
      Others(TheSender(i));
      RaiseFlag(i);
    }

    /** The first half of `send`: the slot stays counted even if the channel refuses the message. */
    method HandOver(i: nat, job: Job)
      requires Live() && (SenderAt(i, Holding(job)) || SenderAt(i, Forcing(job)))
      modifies this, Parts()
      ensures Live() && history == old(history) + [Client(i, ClientAct.Send)]
      ensures Steps(TheSender(i), history) == old(Steps(TheSender(i), history)) + 1
      ensures requests.View() == OfferStep(old(requests.View()), job)
      ensures old(requests.open) ==>
                var id := if job.Asked? then job.key + 0x8000_0000_0000_0000 else job.mid;
                var mid := Mid(id, job.Asked?, |old(requests.jobs)|);
                requests.queue == old(requests.queue) + [Request(mid, job.msg)]
      ensures !old(requests.open) ==> requests.queue == old(requests.queue)
      ensures context.processing == old(context.processing) && SenderAt(i, Flagging)
    {
      ghost var before := View();
      StepsGrow(TheSender(i), history, Client(i, ClientAct.Send));
      requests.Offer(job);
      context.senders := context.senders[i := Flagging];
      Record(before, Client(i, ClientAct.Send));
    }

    /** `set_need_flush` */
    method RaiseFlag(i: nat)
      requires Live() && SenderAt(i, Flagging)
      modifies this, Parts()
      ensures Live() && history == old(history) + [Client(i, Flag)]
      ensures Steps(TheSender(i), history) == old(Steps(TheSender(i), history)) + 1
      ensures context.needFlush && SenderAt(i, Idle)
    {
      ghost var before := View();
      StepsGrow(TheSender(i), history, Client(i, Flag));
      context.senders := context.senders[i := Idle];
      context.needFlush := true;
      Record(before, Client(i, Flag));
    }

    /** The sender has made up its mind: what `send_ext` does on one receiver, up to the flag. */
    method ReserveAndSend(i: nat, job: Job, rounds: nat) returns (sent: bool)
      requires Live() && SenderAt(i, Trying(job))
      modifies this, Parts()
      ensures Live() && old(history) <= history
      ensures sent ==> SenderAt(i, Idle) && history[|history| - 1] == Client(i, Flag)
      ensures !sent ==> SenderAt(i, Parked(job)) || SenderAt(i, Trying(job))
    {
      sent := Reserve(i, job, rounds);
      if sent {
        Send(i, job);
      }
    }

    /** `send_ext` on one receiver: reserve, then send under the id given. */
    method SendMessage(i: nat, mid: nat, msg: Msg, rounds: nat) returns (sent: bool)
      requires Live() && SenderAt(i, Idle) && mid < 2 * TOP
      modifies this, Parts()
      ensures Live() && old(history) + [Client(i, Post(mid, msg))] <= history
      ensures sent ==> SenderAt(i, Idle) && history[|history| - 1] == Client(i, Flag)
    {
      var job := StartPost(i, mid, msg);
      sent := ReserveAndSend(i, job, rounds);
    }

    /** `try_send_one` on this receiver: one attempt to reserve; a full receiver is left as it was found. */
    method TrySendMessage(i: nat, mid: nat, msg: Msg, rounds: nat) returns (r: Attempt)
      requires Live() && SenderAt(i, Idle) && mid < 2 * TOP
      modifies this, Parts()
      ensures Live() && old(history) + [Client(i, Post(mid, msg))] <= history
      ensures r.Reserved? ==> SenderAt(i, Idle) && history[|history| - 1] == Client(i, Flag)
      ensures r.Full? ==> SenderAt(i, Idle) && history[|history| - 1] == Client(i, ClientAct.GiveUp)
      ensures r.Full? ==> context.processing >= c.Cap()
      ensures r.Retrying? ==> SenderAt(i, Trying(Posted(mid, msg)))
    {
      var job := StartPost(i, mid, msg);
      r := TryReserve(i, job, rounds);
      if r.Reserved? {
        Send(i, job);
      } else if r.Full? {
        GiveUp(i, job);
      }
    }

    method StartPost(i: nat, mid: nat, msg: Msg) returns (job: Job)
      requires Live() && SenderAt(i, Idle) && mid < 2 * TOP
      modifies this, Parts()
      ensures Live() && history == old(history) + [Client(i, Post(mid, msg))]
      ensures job == Posted(mid, msg) && SenderAt(i, Trying(job))
    {
      ghost var before := View();
      job := Posted(mid, msg);
      context.senders := context.senders[i := Trying(job)];
      Record(before, Client(i, Post(mid, msg)));
    }

    /** The message goes back to the caller. */
    method GiveUp(i: nat, job: Job)
      requires Live() && SenderAt(i, Registering(job)) && job.Posted?
      modifies this, Parts()
      ensures Live() && history == old(history) + [Client(i, ClientAct.GiveUp)]
      ensures SenderAt(i, Idle) && context.processing == old(context.processing)
    {
      ghost var before := View();
      context.senders := context.senders[i := Idle];
      Record(before, Client(i, ClientAct.GiveUp));
    }

    /** `send` of an action: queued behind everything else, or refused by a closed channel. */
    method SendAction(action: Action) returns (ok: bool)
      requires Live()
      modifies this, Parts()
      ensures Live() && ok == old(requests.open)
      ensures history == if ok then old(history) + [Push(action)] else old(history)
      ensures requests.queue == if ok then old(requests.queue) + [Control(action)] else old(requests.queue)
    {
      ok := requests.open;
      if ok {
        ghost var before := View();
        requests.queue := requests.queue + [Control(action)];
        requests.enqueued := requests.enqueued + [Control(action)];
        Record(before, Push(action));
      }
    }

    /** `request`: a waiter under a vacant key first, then the message under that key with the top bit set. */
    method Ask(i: nat, key: nat, msg: Msg, rounds: nat) returns (sent: bool)
      requires Live() && SenderAt(i, Idle) && key < TOP && key !in desk.waiters
      modifies this, Parts()
      ensures Live() && old(history) + [Client(i, ClientAct.Ask(key, msg))] <= history
      ensures sent ==> SenderAt(i, Idle) && history[|history| - 1] == Client(i, Flag)
    {
      var job := AddWaiter(i, key, msg);
      Others(TheSender(i));
      sent := ReserveAndSend(i, job, rounds);
    }

    /** `add_response_waiter` */
    method AddWaiter(i: nat, key: nat, msg: Msg) returns (job: Job)
      requires Live() && SenderAt(i, Idle) && key < TOP && key !in desk.waiters
      modifies this, Parts()
      ensures Live() && history == old(history) + [Client(i, ClientAct.Ask(key, msg))]
      ensures job == Asked(key, old(desk.askers), msg) && SenderAt(i, Trying(job))
      ensures key in desk.waiters && desk.waiters == old(desk.waiters)[key := job.asker]
      ensures WireMid(job) == key + 0x8000_0000_0000_0000
    {
      ghost var before := View();
      job := Asked(key, desk.askers, msg);
      desk.waiters := desk.waiters[key := desk.askers];
      desk.askers := desk.askers + 1;
      context.senders := context.senders[i := Trying(job)];
      Record(before, Client(i, ClientAct.Ask(key, msg)));
    }

    /** `force_send`: takes a slot without looking at the limit. */
    method ForceSend(i: nat, mid: nat, msg: Msg)
      requires Live() && SenderAt(i, Idle) && mid < 2 * TOP
      modifies this, Parts()
      ensures Live() && old(history) + [Client(i, Force(mid, msg))] <= history
      ensures history[|history| - 1] == Client(i, Flag) && SenderAt(i, Idle) && context.needFlush
    {
      ghost var before := View();
      context.processing := context.processing + 1;
      context.senders := context.senders[i := Forcing(Posted(mid, msg))];
      Record(before, Client(i, Force(mid, msg)));
      Others(TheSender(i));
      Send(i, Posted(mid, msg));
    }

    /** Dropping a permit that was not fused: the slot is freed, nobody is notified. */
    method DropPermit(i: nat, job: Job)
      requires Live() && SenderAt(i, Holding(job))
      modifies this, Parts()
      ensures Live() && history == old(history) + [Client(i, ClientAct.DropPermit)]
      ensures context.processing == old(context.processing) - 1
      ensures context.stored == old(context.stored) && context.parked == old(context.parked)
    {
      ghost var before := View();
      context.processing := context.processing - 1;
      context.senders := context.senders[i := Idle];
      Record(before, Client(i, ClientAct.DropPermit));
    }

    // -------------------------------------------------------------- the pollers

    /** The item has been taken off the channel, and nothing was done about it yet. */
    ghost predicate Took(before: State, item: Item)
      reads this, Parts()
    {
      && Tracks(before) && before.work.poller.AtRecv? && before.chan.queue != [] && before.chan.queue[0] == item
      && View() == before.(chan := before.chan.(queue := before.chan.queue[1..], taken := before.chan.taken + 1))
    }

    /** `buffer_unordered_batch_poller`: it handles `rounds` items, or stops where it has to wait. */
    method PollBuffered(rounds: nat)
      requires Live() && c.kind.UnorderedBatched? && work.poller.AtRecv?
      modifies this, Parts()
      ensures Live() && old(history) <= history
      ensures requests.taken == old(requests.taken) + rounds || PollerBlocked(c, View())
    {
      var done := 0;
      while done < rounds && work.poller.AtRecv?
        invariant Live() && old(history) <= history && 0 <= done <= rounds
        invariant requests.taken == old(requests.taken) + done
        invariant work.poller.AtRecv? || PollerBlocked(c, View())
        decreases rounds - done
      {
        var next;
        ghost var before;
        next, before := NextItem();
        if next.None? {
          return;
        }
        match next.value {
          case Request(mid, msg) => BufferRequest(before, mid, msg);
          case Control(Init) => SendReady(before);
          case Control(Close) => CloseChannel(before);
          case Control(Flush) => FlushBuffer(before);
          case Control(Sync) => SyncAlone(before);
        }
        done := done + 1;
      }
    }

    /** `rx.recv().await`; nothing if the channel is empty, in which case a closed channel ends the poller. */
    method NextItem() returns (next: Option<Item>, ghost before: State)
      requires Live() && work.poller.AtRecv?
      modifies this, Parts()
      ensures old(history) <= history
      ensures next.None? ==> Live() && PollerBlocked(c, View())
      ensures next.Some? ==> Took(before, next.value) && requests.taken == old(requests.taken) + 1
    {
      Others(ThePoller);
      before := View();
      if requests.queue == [] {
        if !requests.open {
          Leave();
        }
        return None, before;
      }
      var item := requests.Receive();
      return Some(item), before;
    }

    /** The channel is closed and drained: the poller returns, and its buffers go with it. */
    method Leave()
      requires Live() && work.poller.AtRecv? && requests.queue == [] && !requests.open
      modifies this, Parts()
      ensures Live() && history == old(history) + [Do(WorkAct.Leave)] && work.poller.Exited?
    {
      ghost var before := View();
      work.dropped := work.bufferMid;
      work.bufferMid, work.buffer, work.poller := [], [], Exited;
      Record(before, Do(WorkAct.Leave));
    }

    method SendReady(ghost before: State)
      requires Took(before, Control(Init))
      modifies this, Parts()
      ensures Live() && history == old(history) + [Recv] && requests.taken == old(requests.taken) && work.poller.AtRecv?
    {
      sink.events := sink.events + [Ready];
      Record(before, Recv);
    }

    method CloseChannel(ghost before: State)
      requires Took(before, Control(Close))
      modifies this, Parts()
      ensures Live() && history == old(history) + [Recv] && requests.taken == old(requests.taken) && work.poller.AtRecv?
    {
      requests.Shut();
      Record(before, Recv);
    }

    /** A request is buffered; a full buffer goes to a task as soon as there is a permit. */
    method BufferRequest(ghost before: State, mid: Mid, msg: Msg)
      requires c.kind.UnorderedBatched? && Took(before, Request(mid, msg))
      modifies this, Parts()
      ensures Live() && old(history) + [Recv] <= history && requests.taken == old(requests.taken)
      ensures work.poller.AtRecv? || PollerBlocked(c, View())
    {
      work.bufferMid := work.bufferMid + [mid];
      work.buffer := work.buffer + [msg];
      if |work.bufferMid| < c.batchSize {
        Record(before, Recv);
        return;
      }
      work.poller := AtAcquireFull;
      Record(before, Recv);
      SpawnFull();
    }

    /** The full buffer waits for a permit and is then drained into a task. */
    method SpawnFull()
      requires Live() && work.poller.AtAcquireFull?
      modifies this, Parts()
      ensures Live() && old(history) <= history && requests.taken == old(requests.taken)
      ensures work.poller.AtRecv? || PollerBlocked(c, View())
    {
      Others(ThePoller);
      if work.avail == 0 {
        return;
      }
      ghost var waiting := View();
      work.avail := work.avail - 1;
      work.tasks := work.tasks + [Task(work.bufferMid, work.buffer, true, Running)];
      work.bufferMid, work.buffer, work.poller := [], [], AtRecv;
      Record(waiting, Do(Acquire));
    }

    /** A batch already in hand waits for a permit and goes to a task. */
    method SpawnBatch(mids: seq<Mid>, msgs: seq<Msg>, flushing: bool)
      requires Live() && work.poller == AtAcquire(mids, msgs, flushing)
      modifies this, Parts()
      ensures Live() && old(history) <= history && requests.taken == old(requests.taken)
      ensures PollerBlocked(c, View()) || work.poller == if flushing then AtDrain else AtRecv
    {
      Others(ThePoller);
      if work.avail == 0 {
        return;
      }
      ghost var waiting := View();
      work.avail := work.avail - 1;
      work.tasks := work.tasks + [Task(mids, msgs, !flushing, Running)];
      work.poller := if flushing then AtDrain else AtRecv;
      Record(waiting, Do(Acquire));
    }

    /** A Flush sends off what is in the buffer and then waits for every permit. */
    method FlushBuffer(ghost before: State)
      requires c.kind.UnorderedBatched? && Took(before, Control(Flush))
      modifies this, Parts()
      ensures Live() && old(history) + [Recv] <= history && requests.taken == old(requests.taken)
      ensures work.poller.AtRecv? || PollerBlocked(c, View())
    {
      if work.bufferMid == [] {
        work.poller := AtDrain;
        Record(before, Recv);
      } else {
        var mids, msgs := work.bufferMid, work.buffer;
        work.bufferMid, work.buffer, work.poller := [], [], AtAcquire(mids, msgs, true);
        Record(before, Recv);
        SpawnBatch(mids, msgs, true);
      }
      if work.poller.AtDrain? {
        var _ := AwaitDrained();
      }
    }

    /**
     `acquire_many(max_parallel)`, dropped at once, then Flushed.  When it is sent, every request received has
     been handled and the buffers are empty, provided the permits can be counted in 32 bits.
     */
    method AwaitDrained() returns (flushed: bool)
      requires Live() && c.Gated() && work.poller.AtDrain?
      modifies this, Parts()
      ensures Live() && old(history) <= history && requests.taken == old(requests.taken)
      ensures flushed ==> |sink.events| > 0 && sink.events[|sink.events| - 1] == Flushed && work.poller.AtRecv?
      ensures !flushed ==> PollerBlocked(c, View())
      ensures flushed && Barrier.Counts32(c) ==> Barrier.Quiet(View())
    {
      Others(ThePoller);
      if work.avail < c.Drain() {
        return false;
      }
      ghost var waiting := View();
      LiveIsReachable();
      if Barrier.Counts32(c) {
        Barrier.SafeFlush(c, clients, waiting, Do(Drained));
      }
      sink.events := sink.events + [Flushed];
      work.poller := AtRecv;
      Record(waiting, Do(Drained));
      return true;
    }

    /** Sync: every permit, or the item's mutex, is held while the handler's `sync` runs. */
    method SyncAlone(ghost before: State)
      requires Took(before, Control(Sync))
      modifies this, Parts()
      ensures Live() && old(history) + [Recv] <= history && requests.taken == old(requests.taken)
      ensures work.poller.AtRecv? || PollerBlocked(c, View())
    {
      work.poller := AtSyncWait;
      Record(before, Recv);
      var alone := StartSync();
      if alone {
        FinishSync();
      }
    }

    /** Sync waits for every permit or for the item's mutex; false if it was still waiting when last seen. */
    method StartSync() returns (alone: bool)
      requires Live() && work.poller.AtSyncWait?
      modifies this, Parts()
      ensures Live() && old(history) <= history && requests.taken == old(requests.taken)
      ensures if alone then work.poller.InSync? else PollerBlocked(c, View())
      ensures alone && (c.Gated() ==> Barrier.Counts32(c)) ==> NoneRunning(work.tasks)
    {
      Others(ThePoller);
      alone := if c.Gated() then work.avail >= c.Drain() else MutexFree(work.View());
      if alone {
        ghost var before := View();
        if c.Gated() {
          work.avail := work.avail - c.Drain();
        }
        work.poller := InSync;
        Record(before, Do(SyncStart));
        LiveIsReachable();
        Barrier.HandlersExclusive(c, clients, View());
      }
    }

    /** The handler's `sync` runs, then the permits or the mutex are released and Synchronized is sent. */
    method FinishSync()
      requires Live() && work.poller.InSync?
      modifies this, Parts()
      ensures Live() && old(history) <= history && requests.taken == old(requests.taken) && work.poller.AtRecv?
    {
      Others(ThePoller);
      ghost var before := View();
      if c.Gated() {
        work.avail := work.avail + c.Drain();
      }
      work.poller := AtRecv;
      sink.events := sink.events + [Synced];
      Record(before, Do(SyncEnd));
    }

    /** `buffer_unordered_poller` */
    method PollUnbuffered(rounds: nat)
      requires Live() && c.kind.Unordered? && work.poller.AtRecv?
      modifies this, Parts()
      ensures Live() && old(history) <= history
      ensures requests.taken == old(requests.taken) + rounds || PollerBlocked(c, View())
    {
      var done := 0;
      while done < rounds && work.poller.AtRecv?
        invariant Live() && old(history) <= history && 0 <= done <= rounds
        invariant requests.taken == old(requests.taken) + done
        invariant work.poller.AtRecv? || PollerBlocked(c, View())
        decreases rounds - done
      {
        var next;
        ghost var before;
        next, before := NextItem();
        if next.None? {
          return;
        }
        match next.value {
          case Request(mid, msg) => SpawnRequest(before, mid, msg);
          case Control(Init) => SendReady(before);
          case Control(Close) => CloseChannel(before);
          case Control(Flush) => FlushTasks(before);
          case Control(Sync) => SyncAlone(before);
        }
        done := done + 1;
      }
    }

    method FlushTasks(ghost before: State)
      requires c.kind.Unordered? && Took(before, Control(Flush))
      modifies this, Parts()
      ensures Live() && old(history) + [Recv] <= history && requests.taken == old(requests.taken)
      ensures work.poller.AtRecv? || PollerBlocked(c, View())
    {
      work.poller := AtDrain;
      Record(before, Recv);
      var _ := AwaitDrained();
    }

    method SpawnRequest(ghost before: State, mid: Mid, msg: Msg)
      requires c.kind.Unordered? && Took(before, Request(mid, msg))
      modifies this, Parts()
      ensures Live() && old(history) + [Recv] <= history && requests.taken == old(requests.taken)
      ensures work.poller.AtRecv? || PollerBlocked(c, View())
    {
      work.poller := AtAcquire([mid], [msg], false);
      Record(before, Recv);
      SpawnBatch([mid], [msg], false);
    }

    /** `batch_synchronized_poller` */
    method PollBatchSynchronized(rounds: nat)
      requires Live() && c.kind.SynchronizedBatched? && work.poller.AtRecv?
      modifies this, Parts()
      ensures Live() && old(history) <= history
      ensures requests.taken == old(requests.taken) + rounds || PollerBlocked(c, View())
    {
      var done := 0;
      while done < rounds && work.poller.AtRecv?
        invariant Live() && old(history) <= history && 0 <= done <= rounds
        invariant requests.taken == old(requests.taken) + done
        invariant work.poller.AtRecv? || PollerBlocked(c, View())
        decreases rounds - done
      {
        var next;
        ghost var before;
        next, before := NextItem();
        if next.None? {
          return;
        }
        match next.value {
          case Request(mid, msg) => BufferAndSpawn(before, mid, msg);
          case Control(Init) => SendReady(before);
          case Control(Close) => CloseChannel(before);
          case Control(Flush) => FlushUnawaited(before);
          case Control(Sync) => SyncAlone(before);
        }
        done := done + 1;
      }
    }

    method BufferAndSpawn(ghost before: State, mid: Mid, msg: Msg)
      requires c.kind.SynchronizedBatched? && Took(before, Request(mid, msg))
      modifies this, Parts()
      ensures Live() && history == old(history) + [Recv] && requests.taken == old(requests.taken) && work.poller.AtRecv?
    {
      work.bufferMid := work.bufferMid + [mid];
      work.buffer := work.buffer + [msg];
      if |work.bufferMid| >= c.batchSize {
        work.tasks := work.tasks + [Task(work.bufferMid, work.buffer, true, Waiting)];
        work.bufferMid, work.buffer := [], [];
      }
      Record(before, Recv);
    }

    /** Flushed goes out without waiting for any task. */
    method FlushUnawaited(ghost before: State)
      requires c.kind.SynchronizedBatched? && Took(before, Control(Flush))
      modifies this, Parts()
      ensures Live() && history == old(history) + [Recv] && requests.taken == old(requests.taken) && work.poller.AtRecv?
    {
      if work.bufferMid != [] {
        work.tasks := work.tasks + [Task(work.bufferMid, work.buffer, false, Waiting)];
        work.bufferMid, work.buffer := [], [];
      }
      sink.events := sink.events + [Flushed];
      Record(before, Recv);
    }

    /** `synchronized_poller`: each task is awaited before the next item is received. */
    method PollSynchronized(rounds: nat)
      requires Live() && c.kind.Synchronized? && work.poller.AtRecv?
      modifies this, Parts()
      ensures Live() && old(history) <= history
      ensures requests.taken == old(requests.taken) + rounds || PollerBlocked(c, View())
    {
      var done := 0;
      while done < rounds && work.poller.AtRecv?
        invariant Live() && old(history) <= history && 0 <= done <= rounds
        invariant requests.taken == old(requests.taken) + done
        invariant work.poller.AtRecv? || PollerBlocked(c, View())
        decreases rounds - done
      {
        var next;
        ghost var before;
        next, before := NextItem();
        if next.None? {
          return;
        }
        match next.value {
          case Request(mid, msg) => SpawnAndJoin(before, mid, msg);
          case Control(Init) => SendReady(before);
          case Control(Close) => CloseChannel(before);
          case Control(Flush) => FlushAtOnce(before);
          case Control(Sync) => SyncAlone(before);
        }
        done := done + 1;
      }
    }

    method FlushAtOnce(ghost before: State)
      requires c.kind.Synchronized? && Took(before, Control(Flush))
      modifies this, Parts()
      ensures Live() && history == old(history) + [Recv] && requests.taken == old(requests.taken) && work.poller.AtRecv?
    {
      sink.events := sink.events + [Flushed];
      Record(before, Recv);
    }

    method SpawnAndJoin(ghost before: State, mid: Mid, msg: Msg)
      requires c.kind.Synchronized? && Took(before, Request(mid, msg))
      modifies this, Parts()
      ensures Live() && old(history) + [Recv] <= history && requests.taken == old(requests.taken)
      ensures work.poller.AtRecv? || PollerBlocked(c, View())
    {
      var t := |work.tasks|;
      work.tasks := work.tasks + [Task([mid], [msg], true, Waiting)];
      work.poller := AtJoin(t);
      Record(before, Recv);
      Others(ThePoller);
      if |work.tasks| <= t || work.tasks[t].phase != Emitting([]) {
        return;
      }
      ghost var waiting := View();
      work.poller := AtRecv;
      Record(waiting, Do(Joined));
    }

    // -------------------------------------------------------------- a task

    ghost predicate TaskAt(t: nat, phase: Phase)
      reads work
    {
      t < |work.tasks| && work.tasks[t].phase == phase
    }

    /** `ut.lock().await` of the synchronized kinds; false if it was still waiting when last seen. */
    method Lock(t: nat) returns (locked: bool)
      requires Live() && TaskAt(t, Waiting)
      modifies this, Parts()
      ensures Live() && old(history) <= history
      ensures !locked ==> !MutexFree(work.View())
      ensures TaskAt(t, if locked then Running else Waiting) && work.tasks[t].mids == old(work.tasks[t].mids)
    {
      Others(TheTask(t));
      if !MutexFree(work.View()) {
        return false;
      }
      ghost var before := View();
      work.tasks := work.tasks[t := work.tasks[t].(phase := Running)];
      Record(before, Do(WorkAct.Lock(t)));
      return true;
    }

    /** The handler runs, and returns. */
    method Handled(t: nat, out: Outcome)
      requires Live() && TaskAt(t, Running) && ValidOutcome(c, out)
      modifies this, Parts()
      ensures Live() && old(history) <= history && history[|history| - 1] == Do(Handle(t, out)) && old(Sent()) <= Sent()
      ensures TaskAt(t, Emitting(TaskEvents(c, old(work.tasks[t].mids), out)))
    {
      Others(TheTask(t));
      DropTaskPermit(t, out);
    }

    /** The handler has returned: its permit is released, and none of its responses has been sent yet. */
    method DropTaskPermit(t: nat, out: Outcome)
      requires Live() && TaskAt(t, Running) && ValidOutcome(c, out)
      modifies this, Parts()
      ensures Live() && history == old(history) + [Do(Handle(t, out))]
      ensures work.avail == old(work.avail) + if c.Gated() then 1 else 0
      ensures TaskAt(t, Emitting(TaskEvents(c, old(work.tasks[t].mids), out))) && Sent() == old(Sent())
    {
      ghost var before := View();
      work.tasks := work.tasks[t := work.tasks[t].(phase := Emitting(TaskEvents(c, work.tasks[t].mids, out)))];
      if c.Gated() {
        work.avail := work.avail + 1;
      }
      Record(before, Do(Handle(t, out)));
    }

    /** Everything sent to the event loop, in order. */
    ghost function Sent(): seq<Event>
      reads sink
    {
      sink.seen + sink.events
    }

    /** The event was sent, and not among the first n. */
    ghost predicate SentSince(n: nat, e: Event)
      reads sink
    {
      exists i :: n <= i < |Sent()| && Sent()[i] == e
    }

    /** `stx.send` from a task. */
    method SendEvent(t: nat, e: Event, ghost rest: seq<Event>)
      requires Live() && TaskAt(t, Emitting([e] + rest))
      modifies this, Parts()
      ensures Live() && old(history) <= history && TaskAt(t, Emitting(rest))
      ensures old(Sent()) <= Sent() && SentSince(|old(Sent())|, e)
    {
      Others(TheTask(t));
      ghost var before := View();
      ghost var sent := Sent();
      work.tasks := work.tasks[t := work.tasks[t].(phase := Emitting(work.tasks[t].phase.events[1..]))];
      sink.events := sink.events + [e];
      assert ([e] + rest)[1..] == rest;
      Record(before, Do(Emit(t)));
      assert Sent() == sent + [e] && Sent()[|sent|] == e;
    }

    /**
     `process_batch_result`: walks the ids and the replies side by side, answers the ids left over with
     NoResponse and ignores replies left over; an error goes to every id, and once to the event loop.
     */
    method ProcessBatchResult(t: nat, mids: seq<Mid>, out: Outcome)
      requires Live() && c.Batched() && TaskAt(t, Emitting(TaskEvents(c, mids, out)))
      modifies this, Parts()
      ensures Live() && old(history) <= history && TaskAt(t, Emitting([])) && old(Sent()) <= Sent()
      ensures out.Done? ==> forall k :: 0 <= k < |mids| ==>
                if k < |out.replies| then SentSince(|old(Sent())|, Response(mids[k], Answered(out.replies[k])))
                else SentSince(|old(Sent())|, Response(mids[k], NoResponse))
      ensures out.Failed? ==>
                && (forall k :: 0 <= k < |mids| ==> SentSince(|old(Sent())|, Response(mids[k], Other(out.fault))))
                && SentSince(|old(Sent())|, BatchError(out.fault))
    {
      match out {
        case Done(replies) => AnswerBatch(t, mids, replies);
        case Failed(fault) => FailBatch(t, mids, fault);
      }
    }

    method AnswerBatch(t: nat, mids: seq<Mid>, replies: seq<Reply>)
      requires Live() && c.Batched() && TaskAt(t, Emitting(TaskEvents(c, mids, Done(replies))))
      modifies this, Parts()
      ensures Live() && old(history) <= history && TaskAt(t, Emitting([])) && old(Sent()) <= Sent()
      ensures forall k :: 0 <= k < |mids| ==>
                if k < |replies| then SentSince(|old(Sent())|, Response(mids[k], Answered(replies[k])))
                else SentSince(|old(Sent())|, Response(mids[k], NoResponse))
    {
      ghost var es := TaskEvents(c, mids, Done(replies));
      assert es[0..] == es;
      var i, r := 0, 0;
      while i < |mids|
        invariant 0 <= i <= |mids| && 0 <= r <= |replies| && (r == i || (r == |replies| && r <= i))
        invariant Live() && old(history) <= history && TaskAt(t, Emitting(es[i..])) && old(Sent()) <= Sent()
        invariant forall k :: 0 <= k < i ==>
                    if k < |replies| then SentSince(|old(Sent())|, Response(mids[k], Answered(replies[k])))
                    else SentSince(|old(Sent())|, Response(mids[k], NoResponse))
      {
        var mid := mids[i];
        assert es[i..] == [es[i]] + es[i + 1..];
        if r < |replies| {
          SendEvent(t, Response(mid, Answered(replies[r])), es[i + 1..]);
          r := r + 1;
        } else {
          SendEvent(t, Response(mid, NoResponse), es[i + 1..]);
        }
        i := i + 1;
      }
    }

    method FailBatch(t: nat, mids: seq<Mid>, fault: Fault)
      requires Live() && c.Batched() && TaskAt(t, Emitting(TaskEvents(c, mids, Failed(fault))))
      modifies this, Parts()
      ensures Live() && old(history) <= history && TaskAt(t, Emitting([])) && old(Sent()) <= Sent()
      ensures forall k :: 0 <= k < |mids| ==> SentSince(|old(Sent())|, Response(mids[k], Other(fault)))
      ensures SentSince(|old(Sent())|, BatchError(fault))
    {
      ghost var es := TaskEvents(c, mids, Failed(fault));
      assert es[0..] == es;
      var i := 0;
      while i < |mids|
        invariant 0 <= i <= |mids|
        invariant Live() && old(history) <= history && TaskAt(t, Emitting(es[i..])) && old(Sent()) <= Sent()
        invariant forall k :: 0 <= k < i ==> SentSince(|old(Sent())|, Response(mids[k], Other(fault)))
      {
        assert es[i..] == [es[i]] + es[i + 1..];
        SendEvent(t, Response(mids[i], Other(fault)), es[i + 1..]);
        i := i + 1;
      }
      assert es[i..] == [BatchError(fault)] + [];
      SendEvent(t, BatchError(fault), []);
    }

    /** A batch task from the handler's return to its last event. */
    method RunBatch(t: nat, out: Outcome)
      requires Live() && c.Batched() && TaskAt(t, Running)
      modifies this, Parts()
      ensures Live() && old(history) <= history && TaskAt(t, Emitting([])) && old(Sent()) <= Sent()
      ensures out.Done? ==> forall k :: 0 <= k < |old(work.tasks[t].mids)| ==>
                if k < |out.replies| then
                  SentSince(|old(Sent())|, Response(old(work.tasks[t].mids)[k], Answered(out.replies[k])))
                else SentSince(|old(Sent())|, Response(old(work.tasks[t].mids)[k], NoResponse))
      ensures out.Failed? ==>
                && (forall k :: 0 <= k < |old(work.tasks[t].mids)| ==>
                      SentSince(|old(Sent())|, Response(old(work.tasks[t].mids)[k], Other(out.fault))))
                && SentSince(|old(Sent())|, BatchError(out.fault))
    {
      var mids := work.tasks[t].mids;
      Handled(t, out);
      ProcessBatchResult(t, mids, out);
    }

    /** A task of the unbatched kinds: one request, one response. */
    method RunRequest(t: nat, out: Outcome)
      requires Live() && !c.Batched() && TaskAt(t, Running) && |work.tasks[t].mids| == 1
      requires out.Done? ==> |out.replies| == 1
      modifies this, Parts()
      ensures Live() && old(history) <= history && TaskAt(t, Emitting([])) && old(Sent()) <= Sent()
      ensures out.Done? ==> SentSince(|old(Sent())|, Response(old(work.tasks[t].mids[0]), Answered(out.replies[0])))
      ensures out.Failed? ==> SentSince(|old(Sent())|, Response(old(work.tasks[t].mids[0]), Other(out.fault)))
    {
      var mid := work.tasks[t].mids[0];
      Handled(t, out);
      var answer := match out case Done(replies) => Answered(replies[0]) case Failed(fault) => Other(fault);
      assert TaskEvents(c, [mid], out) == [Response(mid, answer)] + [];
      SendEvent(t, Response(mid, answer), []);
    }

    // -------------------------------------------------------------- the event loop

    /** `start_polling_events`: it handles `rounds` events, or as many as there are. */
    method PollEvents(rounds: nat)
      requires Live() && sink.loop.LoopIdle?
      modifies this, Parts()
      ensures Live() && old(history) <= history
      ensures |sink.seen| == |old(sink.seen)| + rounds || sink.events == []
    {
      var done := 0;
      while done < rounds
        invariant Live() && old(history) <= history && sink.loop.LoopIdle?
        invariant done <= rounds && |sink.seen| == |old(sink.seen)| + done
      {
        Others(TheLoop);
        if sink.events == [] {
          if work.poller.Exited? && AllDone(work.tasks) {
            ghost var before := View();
            sink.loop := LoopExited;
            Record(before, Stop);
          }
          return;
        }
        var e := TakeEvent();
        if e.Response? {
          Others(TheLoop);
          NotifyOne(e.mid, e.answer);
          Others(TheLoop);
          Respond(e.mid, e.answer);
        }
        done := done + 1;
      }
    }

    /** The next event, and what it does to the counter and the flush flag. */
    method TakeEvent() returns (e: Event)
      requires Live() && sink.loop.LoopIdle? && sink.events != []
      modifies this, Parts()
      ensures Live() && history == old(history) + [Take] && e == old(sink.events)[0]
                && sink.seen == old(sink.seen) + [e]
      ensures sink.loop == if e.Response? then OweNotify(e.mid, e.answer) else LoopIdle
      ensures context.processing == old(context.processing) - (if e.Response? then 1 else 0)
    {
      ghost var before := View();
      e := sink.events[0];
      sink.events := sink.events[1..];
      sink.seen := sink.seen + [e];
      if e.Response? {
        context.processing := context.processing - 1;
        sink.loop := OweNotify(e.mid, e.answer);
      } else if e.Flushed? {
        context.needFlush := false;
      }
      Record(before, Take);
    }

    /** `response.notify_one()` */
    method NotifyOne(mid: Mid, answer: Answer)
      requires Live() && sink.loop == OweNotify(mid, answer)
      modifies this, Parts()
      ensures Live() && history == old(history) + [Notify] && sink.loop == OweDeliver(mid, answer)
                && sink.seen == old(sink.seen)
      ensures old(context.parked) == [] ==> context.stored && context.senders == old(context.senders)
      ensures old(context.parked) != [] ==>
                context.parked == old(context.parked)[1..] && context.stored == old(context.stored)
    {
      ghost var before := View();
      if context.parked == [] {
        context.stored := true;
      } else {
        var i := context.parked[0];
        context.parked := context.parked[1..];
        if i < |context.senders| && context.senders[i].Parked? {
          context.senders := context.senders[i := Trying(context.senders[i].job)];
        }
      }
      sink.loop := OweDeliver(mid, answer);
      Record(before, Notify);
    }

    /** `response`: takes whatever waiter is live under the id, the top bit ignored, and hands it the answer. */
    method Respond(mid: Mid, answer: Answer)
      requires Live() && sink.loop == OweDeliver(mid, answer)
      modifies this, Parts()
      ensures Live() && history == old(history) + [Deliver] && sink.loop == LoopIdle && sink.seen == old(sink.seen)
    {
      ghost var before := View();
      var key := mid.mid % TOP;
      if key in desk.waiters {
        desk.delivered := desk.delivered + [Delivery(desk.waiters[key], mid, answer)];
        desk.waiters := desk.waiters - {key};
        desk.collided := desk.collided || !mid.req;
      }
      sink.answered := sink.answered + [Response(mid, answer)];
      sink.loop := LoopIdle;
      Record(before, Deliver);
    }
  }
}
