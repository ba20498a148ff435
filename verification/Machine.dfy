/**
 The local receiver as a transition system.

 One machine covers the four receiver kinds.  Its state holds everything the senders, the poller, the
 handler tasks and the event loop share: the capacity counter, the wake-up cell, the request channel, the
 two batch buffers, the semaphore, the event channel and the table of response waiters.  An
 `Act` value names one atomic step of one participant together with every choice the step makes, so a
 run is a sequence of acts and every interleaving is a run.

 Fields marked as history never influence a step.  They record what happened, so that properties of
 whole runs can be stated on a single state.
 */
module Machine {

  // ---------------------------------------------------------------- values

  /** A message, a handler's reply and a handler's error. */
  type Msg(!new, ==)
  type Reply(!new, ==)
  type Fault(!new, ==)

  /** The top bit of a 64-bit message id; the waiter table reserves it. */
  const TOP: nat := 0x8000_0000_0000_0000

  datatype Kind = Unordered | UnorderedBatched | Synchronized | SynchronizedBatched

  datatype Config = Config(kind: Kind, limit: nat, batchSize: nat, maxParallel: nat) {
    predicate Batched() { kind.UnorderedBatched? || kind.SynchronizedBatched? }

    /** The unordered kinds run handlers under a semaphore, the others under the item's mutex. */
    predicate Gated() { kind.Unordered? || kind.UnorderedBatched? }

    /** How many requests make a batch that is dispatched without a Flush. */
    function Quantum(): nat {
      if Batched() && batchSize > 1 then batchSize else 1
    }

    /** `max_parallel as u32`: how many permits Flush and Sync ask for. */
    function Drain(): nat {
      maxParallel % 0x1_0000_0000
    }

    /** `limit as i64`: a limit of 2^63 or more turns negative. */
    function Cap(): int {
      var l := limit % (2 * TOP);
      if l < TOP then l else l - 2 * TOP
    }
  }

  /**
   The casts, in figures: the limit is read as the signed 64-bit number congruent to it, Flush and Sync ask for the
   low 32 bits of the permit count, and a batch is never smaller than one.
   */
  lemma CastsMean(c: Config)
    ensures -0x8000_0000_0000_0000 <= c.Cap() < 0x8000_0000_0000_0000
    ensures (c.limit - c.Cap()) % 0x1_0000_0000_0000_0000 == 0
    ensures c.limit < 0x8000_0000_0000_0000 ==> c.Cap() == c.limit
    ensures c.Drain() < 0x1_0000_0000 && (c.maxParallel - c.Drain()) % 0x1_0000_0000 == 0
    ensures c.maxParallel < 0x1_0000_0000 ==> c.Drain() == c.maxParallel
    ensures c.Quantum() == if c.kind.UnorderedBatched? || c.kind.SynchronizedBatched? then Max(1, c.batchSize) else 1
  {
  }

  function Max(m: nat, n: nat): nat {
    if m < n then n else m
  }

  /**
   What a sender is about to deliver.  `Posted` carries an id from the bus-wide counter; `Asked` carries
   the key of the waiter registered for the response, and the serial number of the asker.
   */
  datatype Job =
    | Posted(mid: nat, msg: Msg)
    | Asked(key: nat, asker: nat, msg: Msg)

  /** The id of an accepted request; `id` is its position in the order of acceptance (history only). */
  datatype Mid = Mid(mid: nat, req: bool, id: nat)

  function WireMid(j: Job): nat {
    match j
    case Posted(mid, _) => mid
    case Asked(key, _, _) => key + TOP
  }

  function MidOf(j: Job, id: nat): Mid {
    Mid(WireMid(j), j.Asked?, id)
  }

  datatype Action = Init | Flush | Sync | Close

  datatype Item = Request(mid: Mid, msg: Msg) | Control(action: Action)

  /** What a handler returns for a batch; an unbatched handler succeeds with exactly one reply. */
  datatype Outcome = Done(replies: seq<Reply>) | Failed(fault: Fault)

  datatype Answer = Answered(reply: Reply) | NoResponse | Other(fault: Fault)

  datatype Event =
    | Response(mid: Mid, answer: Answer)
    | BatchError(fault: Fault)
    | Synced
    | Flushed
    | Ready

  // ---------------------------------------------------------------- participants

  /** The `reserve` loop followed by `send`, or `force_send`. */
  datatype Sender =
    | Idle
    | Trying(job: Job)
    | Loaded(job: Job, count: int)     // the counter was read and is below the limit
    | Registering(job: Job)            // the counter was full; about to wait
    | Parked(job: Job)
    | Holding(job: Job)                // holds an unfused permit
    | Forcing(job: Job)                // has bumped the counter unconditionally
    | Flagging                         // has handed its message over; about to raise the flush flag

  datatype Phase = Waiting | Running | Emitting(events: seq<Event>)

  /** A handler task; `full` tells a batch that filled up from one cut short by a Flush. */
  datatype Task = Task(mids: seq<Mid>, msgs: seq<Msg>, full: bool, phase: Phase)

  /** The await points of the poller. */
  datatype Poller =
    | AtRecv
    | AtAcquireFull                                                       // buffers full, not yet drained
    | AtAcquire(mids: seq<Mid>, msgs: seq<Msg>, flushing: bool)           // batch already in hand
    | AtDrain                                                             // Flush: wants every permit
    | AtSyncWait                                                          // Sync: wants the handler alone
    | InSync
    | AtJoin(task: nat)
    | Exited

  datatype Loop = LoopIdle | OweNotify(mid: Mid, answer: Answer) | OweDeliver(mid: Mid, answer: Answer) | LoopExited

  datatype Delivery = Delivery(asker: nat, mid: Mid, answer: Answer)

  /** The capacity counter, the wake-up cell `response: Notify`, and the senders. */
  datatype Gate = Gate(
    processing: int,
    stored: bool,            // the one notification `notify_one` may store
    parked: seq<nat>,        // senders waiting on it, first come first
    senders: seq<Sender>,
    needFlush: bool
  )

  /** The request channel.  All but the first two fields are history. */
  datatype Channel = Channel(
    queue: seq<Item>,
    open: bool,
    enqueued: seq<Item>,     // everything the channel accepted, in order
    taken: nat,              // how much of it the poller has received
    jobs: seq<Job>,          // the accepted requests, in order
    refused: nat             // sends refused because the channel was closed
  )

  /** The poller with its two parallel buffers, the semaphore and the handler tasks. */
  datatype Work = Work(
    poller: Poller,
    bufferMid: seq<Mid>,
    buffer: seq<Msg>,
    avail: nat,
    tasks: seq<Task>,
    dropped: seq<Mid>        // requests still in the buffer when the poller exited (history)
  )

  /** The event channel and the event loop. */
  datatype Sink = Sink(
    events: seq<Event>,
    loop: Loop,
    answered: seq<Event>,    // responses the loop has finished with (history)
    seen: seq<Event>         // everything taken off the event channel (history)
  )

  /** The waiter table: live keys, each with the serial number of its asker. */
  datatype Desk = Desk(
    waiters: map<nat, nat>,
    askers: nat,
    delivered: seq<Delivery>,
    collided: bool           // a posted message's response took a live waiter
  )

  datatype State = State(gate: Gate, chan: Channel, work: Work, sink: Sink, desk: Desk)

  function Start(c: Config, senders: nat): State {
    State(Gate(0, false, [], seq(senders, i => Idle), false),
          Channel([], true, [], 0, [], 0),
          Work(AtRecv, [], [], c.maxParallel, [], []),
          Sink([], LoopIdle, [], []),
          Desk(map[], 0, [], false))
  }

  // ---------------------------------------------------------------- handler results

  /** The answer to the k-th request of a batch: replies are matched to requests by position. */
  function AnswerAt(out: Outcome, k: nat): Answer {
    match out
    case Done(replies) => if k < |replies| then Answered(replies[k]) else NoResponse
    case Failed(fault) => Other(fault)
  }

  function Responses(mids: seq<Mid>, out: Outcome): (es: seq<Event>)
    ensures |es| == |mids|
  {
    seq(|mids|, k requires 0 <= k < |mids| => Response(mids[k], AnswerAt(out, k)))
  }

  /** Everything a task emits; a failed batch also reports the error once. */
  function TaskEvents(c: Config, mids: seq<Mid>, out: Outcome): seq<Event> {
    Responses(mids, out) + (if c.Batched() && out.Failed? then [BatchError(out.fault)] else [])
  }

  // ---------------------------------------------------------------- acts

  /** Steps of one sender. */
  datatype ClientAct =
    | Post(mid: nat, msg: Msg)
    | Ask(key: nat, msg: Msg)
    | Force(mid: nat, msg: Msg)
    | Load
    | Cas
    | Register
    | GiveUp
    | DropPermit
    | Send
    | Flag

  /** Steps of the poller after an await, and steps of handler tasks. */
  datatype WorkAct =
    | Acquire
    | Drained
    | SyncStart
    | SyncEnd
    | Joined
    | Leave
    | Lock(task: nat)
    | Handle(task: nat, out: Outcome)
    | Emit(task: nat)

  datatype Act =
    | Recv
    | Client(i: nat, client: ClientAct)
    | Push(action: Action)
    | Do(work: WorkAct)
    | Take
    | Notify
    | Deliver
    | Stop

  /** Steps of the poller, of handler tasks and of the event loop. */
  predicate Internal(a: Act) {
    !a.Client? && !a.Push?
  }

  predicate NoneRunning(tasks: seq<Task>) {
    forall t :: 0 <= t < |tasks| ==> !tasks[t].phase.Running?
  }

  predicate AllDone(tasks: seq<Task>) {
    forall t :: 0 <= t < |tasks| ==> tasks[t].phase == Emitting([])
  }

  /** The item's mutex: held by a running handler or by `sync`. */
  predicate MutexFree(w: Work) {
    NoneRunning(w.tasks) && !w.poller.InSync?
  }

  predicate ValidOutcome(c: Config, out: Outcome) {
    c.Batched() || (out.Done? ==> |out.replies| == 1)
  }

  predicate EnabledWork(c: Config, w: Work, a: WorkAct) {
    match a
    case Acquire => (w.poller.AtAcquireFull? || w.poller.AtAcquire?) && w.avail >= 1
    case Drained => w.poller.AtDrain? && w.avail >= c.Drain()
    case SyncStart => w.poller.AtSyncWait? && (if c.Gated() then w.avail >= c.Drain() else MutexFree(w))
    case SyncEnd => w.poller.InSync?
    case Joined => w.poller.AtJoin? && w.poller.task < |w.tasks| && w.tasks[w.poller.task].phase == Emitting([])
    case Leave => w.poller.AtRecv?
    case Lock(t) => t < |w.tasks| && w.tasks[t].phase.Waiting? && MutexFree(w)
    case Handle(t, out) => t < |w.tasks| && w.tasks[t].phase.Running? && ValidOutcome(c, out)
    case Emit(t) => t < |w.tasks| && w.tasks[t].phase.Emitting? && w.tasks[t].phase.events != []
  }

  predicate EnabledClient(x: Sender, a: ClientAct) {
    match a
    case Post(mid, _) => x.Idle? && mid < 2 * TOP
    case Ask(key, _) => x.Idle? && key < TOP
    case Force(mid, _) => x.Idle? && mid < 2 * TOP
    case Load => x.Trying?
    case Cas => x.Loaded?
    case Register => x.Registering?
    case GiveUp => x.Registering? && x.job.Posted?
    case DropPermit => x.Holding?
    case Send => x.Holding? || x.Forcing?
    case Flag => x.Flagging?
  }

  predicate Enabled(c: Config, s: State, a: Act) {
    match a
    case Client(i, x) =>
      i < |s.gate.senders| && EnabledClient(s.gate.senders[i], x) && (x.Ask? ==> x.key !in s.desk.waiters)
    case Push(_) => s.chan.open
    case Recv => s.work.poller.AtRecv? && s.chan.queue != []
    case Do(w) => EnabledWork(c, s.work, w) && (w.Leave? ==> s.chan.queue == [] && !s.chan.open)
    case Take => s.sink.loop.LoopIdle? && s.sink.events != []
    case Notify => s.sink.loop.OweNotify?
    case Deliver => s.sink.loop.OweDeliver?
    case Stop => s.sink.loop.LoopIdle? && s.sink.events == [] && s.work.poller.Exited? && AllDone(s.work.tasks)
  }

  // ---------------------------------------------------------------- the gate

  function SetSender(g: Gate, i: nat, x: Sender): Gate
    requires i < |g.senders|
  {
    g.(senders := g.senders[i := x])
  }

  /** The first half of `try_reserve`: read the counter and compare it with the limit. */
  function LoadStep(c: Config, g: Gate, i: nat, job: Job): Gate
    requires i < |g.senders|
  {
    SetSender(g, i, if g.processing < c.Cap() then Loaded(job, g.processing) else Registering(job))
  }

  /** The second half: compare-and-exchange, retried when another participant moved the counter. */
  function CasStep(g: Gate, i: nat, job: Job, count: int): Gate
    requires i < |g.senders|
  {
    if g.processing == count then SetSender(g, i, Holding(job)).(processing := g.processing + 1)
    else SetSender(g, i, Trying(job))
  }

  /** First poll of `notified()`: consume the stored notification or join the waiting list. */
  function RegisterStep(g: Gate, i: nat, job: Job): Gate
    requires i < |g.senders|
  {
    if g.stored then SetSender(g, i, Trying(job)).(stored := false)
    else SetSender(g, i, Parked(job)).(parked := g.parked + [i])
  }

  /** `notify_one`: wake the longest-waiting sender, or store one notification. */
  function NotifyStep(g: Gate): Gate {
    if g.parked == [] then g.(stored := true)
    else
      var i := g.parked[0];
      if i < |g.senders| && g.senders[i].Parked? then
        SetSender(g, i, Trying(g.senders[i].job)).(parked := g.parked[1..])
      else g.(parked := g.parked[1..])
  }

  function GateStep(c: Config, g: Gate, i: nat, a: ClientAct, asker: nat): Gate
    requires i < |g.senders| && EnabledClient(g.senders[i], a)
  {
    match a
    case Post(mid, msg) => SetSender(g, i, Trying(Posted(mid, msg)))
    case Ask(key, msg) => SetSender(g, i, Trying(Asked(key, asker, msg)))
    case Force(mid, msg) => SetSender(g, i, Forcing(Posted(mid, msg))).(processing := g.processing + 1)
    case Load => LoadStep(c, g, i, g.senders[i].job)
    case Cas => CasStep(g, i, g.senders[i].job, g.senders[i].count)
    case Register => RegisterStep(g, i, g.senders[i].job)
    case GiveUp => SetSender(g, i, Idle)
    case DropPermit => SetSender(g, i, Idle).(processing := g.processing - 1)
    case Send => SetSender(g, i, Flagging)
    case Flag => SetSender(g, i, Idle).(needFlush := true)
  }

  // ---------------------------------------------------------------- the request channel

  function PushStep(ch: Channel, a: Action): Channel {
    ch.(queue := ch.queue + [Control(a)], enqueued := ch.enqueued + [Control(a)])
  }

  /** A send to a closed channel is refused. */
  function OfferStep(ch: Channel, job: Job): Channel {
    if ch.open then
      var item := Request(MidOf(job, |ch.jobs|), job.msg);
      ch.(queue := ch.queue + [item], enqueued := ch.enqueued + [item], jobs := ch.jobs + [job])
    else
      ch.(refused := ch.refused + 1)
  }

  /** The poller takes the first item; on Close it closes the channel, which still drains. */
  function ReceiveStep(ch: Channel): Channel
    requires ch.queue != []
  {
    ch.(queue := ch.queue[1..], taken := ch.taken + 1, open := ch.open && ch.queue[0] != Control(Close))
  }

  // ---------------------------------------------------------------- poller and tasks

  /** Hands a batch to a new task. */
  function Spawn(w: Work, mids: seq<Mid>, msgs: seq<Msg>, full: bool, phase: Phase): Work {
    w.(tasks := w.tasks + [Task(mids, msgs, full, phase)])
  }

  /** A request enters: unbatched kinds dispatch it, batched kinds buffer it until the buffer is full. */
  function RecvRequest(c: Config, w: Work, mid: Mid, msg: Msg): Work {
    match c.kind
    case Unordered => w.(poller := AtAcquire([mid], [msg], false))
    case Synchronized => Spawn(w, [mid], [msg], true, Waiting).(poller := AtJoin(|w.tasks|))
    case UnorderedBatched =>
      var w1 := w.(bufferMid := w.bufferMid + [mid], buffer := w.buffer + [msg]);
      if |w1.bufferMid| >= c.batchSize then w1.(poller := AtAcquireFull) else w1
    case SynchronizedBatched =>
      var w1 := w.(bufferMid := w.bufferMid + [mid], buffer := w.buffer + [msg]);
      if |w1.bufferMid| >= c.batchSize then
        Spawn(w1, w1.bufferMid, w1.buffer, true, Waiting).(bufferMid := [], buffer := [])
      else w1
  }

  function RecvFlush(c: Config, w: Work): Work {
    match c.kind
    case Unordered => w.(poller := AtDrain)
    case Synchronized => w
    case UnorderedBatched =>
      if w.bufferMid != [] then w.(poller := AtAcquire(w.bufferMid, w.buffer, true), bufferMid := [], buffer := [])
      else w.(poller := AtDrain)
    case SynchronizedBatched =>
      if w.bufferMid != [] then
        Spawn(w, w.bufferMid, w.buffer, false, Waiting).(bufferMid := [], buffer := [])
      else w
  }

  function RecvStep(c: Config, w: Work, item: Item): Work {
    match item
    case Request(mid, msg) => RecvRequest(c, w, mid, msg)
    case Control(Flush) => RecvFlush(c, w)
    case Control(Sync) => w.(poller := AtSyncWait)
    case Control(_) => w
  }

  /** What the poller emits before its next await. */
  function RecvEvents(c: Config, item: Item): seq<Event> {
    match item
    case Control(Init) => [Ready]
    case Control(Flush) => if c.Gated() then [] else [Flushed]
    case _ => []
  }

  function AcquireStep(w: Work): Work
    requires (w.poller.AtAcquireFull? || w.poller.AtAcquire?) && w.avail >= 1
  {
    var w1 := w.(avail := w.avail - 1);
    match w.poller
    case AtAcquire(mids, msgs, flushing) =>
      Spawn(w1, mids, msgs, !flushing, Running).(poller := if flushing then AtDrain else AtRecv)
    case _ =>
      Spawn(w1, w.bufferMid, w.buffer, true, Running).(bufferMid := [], buffer := [], poller := AtRecv)
  }

  function SetPhase(w: Work, t: nat, p: Phase): Work
    requires t < |w.tasks|
  {
    w.(tasks := w.tasks[t := w.tasks[t].(phase := p)])
  }

  /** The handler returns; its permit is released before the first response is sent. */
  function HandleStep(c: Config, w: Work, t: nat, out: Outcome): Work
    requires t < |w.tasks|
  {
    SetPhase(w, t, Emitting(TaskEvents(c, w.tasks[t].mids, out))).(avail := if c.Gated() then w.avail + 1 else w.avail)
  }

  function WorkStep(c: Config, w: Work, a: WorkAct): Work
    requires EnabledWork(c, w, a)
  {
    match a
    case Acquire => AcquireStep(w)
    case Drained => w.(poller := AtRecv)
    case SyncStart => w.(poller := InSync, avail := if c.Gated() then w.avail - c.Drain() else w.avail)
    case SyncEnd => w.(poller := AtRecv, avail := if c.Gated() then w.avail + c.Drain() else w.avail)
    case Joined => w.(poller := AtRecv)
    case Leave => w.(poller := Exited, bufferMid := [], buffer := [], dropped := w.bufferMid)
    case Lock(t) => SetPhase(w, t, Running)
    case Handle(t, out) => HandleStep(c, w, t, out)
    case Emit(t) => SetPhase(w, t, Emitting(w.tasks[t].phase.events[1..]))
  }

  function WorkEvents(c: Config, w: Work, a: WorkAct): seq<Event>
    requires EnabledWork(c, w, a)
  {
    match a
    case Drained => [Flushed]
    case SyncEnd => [Synced]
    case Emit(t) => [w.tasks[t].phase.events[0]]
    case _ => []
  }

  // ---------------------------------------------------------------- the event loop

  function TakeSink(k: Sink): Sink
    requires k.events != []
  {
    var e := k.events[0];
    k.(events := k.events[1..], seen := k.seen + [e],
       loop := if e.Response? then OweNotify(e.mid, e.answer) else k.loop)
  }

  function TakeGate(g: Gate, e: Event): Gate {
    match e
    case Response(_, _) => g.(processing := g.processing - 1)
    case Flushed => g.(needFlush := false)
    case _ => g
  }

  function AskDesk(d: Desk, key: nat): Desk {
    d.(waiters := d.waiters[key := d.askers], askers := d.askers + 1)
  }

  /** Hands the response to whatever waiter is live under its id, the top bit ignored. */
  function DeliverDesk(d: Desk, mid: Mid, answer: Answer): Desk {
    var key := mid.mid % TOP;
    if key in d.waiters then
      d.(waiters := d.waiters - {key},
         delivered := d.delivered + [Delivery(d.waiters[key], mid, answer)],
         collided := d.collided || !mid.req)
    else d
  }

  // ---------------------------------------------------------------- one step

  function Apply(c: Config, s: State, a: Act): State
    requires Enabled(c, s, a)
  {
    match a
    case Client(i, x) =>
      s.(gate := GateStep(c, s.gate, i, x, s.desk.askers),
         chan := if x.Send? then OfferStep(s.chan, s.gate.senders[i].job) else s.chan,
         desk := if x.Ask? then AskDesk(s.desk, x.key) else s.desk)
    case Push(action) => s.(chan := PushStep(s.chan, action))
    case Recv =>
      var item := s.chan.queue[0];
      s.(chan := ReceiveStep(s.chan),
         work := RecvStep(c, s.work, item),
         sink := s.sink.(events := s.sink.events + RecvEvents(c, item)))
    case Do(w) =>
      s.(work := WorkStep(c, s.work, w), sink := s.sink.(events := s.sink.events + WorkEvents(c, s.work, w)))
    case Take => s.(gate := TakeGate(s.gate, s.sink.events[0]), sink := TakeSink(s.sink))
    case Notify =>
      s.(gate := NotifyStep(s.gate), sink := s.sink.(loop := OweDeliver(s.sink.loop.mid, s.sink.loop.answer)))
    case Deliver =>
      var mid, answer := s.sink.loop.mid, s.sink.loop.answer;
      s.(sink := s.sink.(loop := LoopIdle, answered := s.sink.answered + [Response(mid, answer)]),
         desk := DeliverDesk(s.desk, mid, answer))
    case Stop => s.(sink := s.sink.(loop := LoopExited))
  }

  // ---------------------------------------------------------------- runs

  ghost predicate Valid(c: Config, s: State, acts: seq<Act>)
    decreases |acts|
  {
    acts == [] || (Enabled(c, s, acts[0]) && Valid(c, Apply(c, s, acts[0]), acts[1..]))
  }

  ghost function Exec(c: Config, s: State, acts: seq<Act>): State
    requires Valid(c, s, acts)
    decreases |acts|
  {
    if acts == [] then s else Exec(c, Apply(c, s, acts[0]), acts[1..])
  }

  /** Runs compose. */
  lemma ExecAppend(c: Config, s: State, xs: seq<Act>, ys: seq<Act>)
    requires Valid(c, s, xs) && Valid(c, Exec(c, s, xs), ys)
    ensures Valid(c, s, xs + ys) && Exec(c, s, xs + ys) == Exec(c, Exec(c, s, xs), ys)
    decreases |xs|
  {
    if xs == [] {
      assert xs + ys == ys;
    } else {
      assert (xs + ys)[0] == xs[0] && (xs + ys)[1..] == xs[1..] + ys;
      ExecAppend(c, Apply(c, s, xs[0]), xs[1..], ys);
    }
  }

  /** No step of the poller, a task or the event loop is possible. */
  ghost predicate Stuck(c: Config, s: State) {
    forall a: Act :: Internal(a) ==> !Enabled(c, s, a)
  }
}
