/**
 The writer of the TCP relay: it drains the outgoing queue into whatever connection is up, and carries the
 item of a failed write over to the next connection.
 */
module TcpWriter {
  import opened Wrappers
  import opened Framing

  /** How an item becomes the body of a frame; an item without a packet makes the writer's task panic. */
  datatype Link<!I> = Link(pack: I -> Option<seq<byte>>)

  predicate Sendable<I>(link: Link<I>, item: I) {
    link.pack(item).Some?
  }

  function BodyOf<I>(link: Link<I>, item: I): seq<byte>
    requires Sendable(link, item)
  {
    link.pack(item).value
  }

  /** A connection: it never breaks, or the write after `good` successful ones fails with `cut` bytes through. */
  datatype Conn = Steady | Breaks(good: nat, cut: nat)

  // ---------------------------------------------------------------- what went over one connection

  datatype Cut<+I> = Cut(item: I, bytes: nat)

  /** The items written with success and, where the connection broke, the item whose write failed. */
  datatype Trace<+I> = Trace(items: seq<I>, cut: Option<Cut<I>>)

  predicate AllSendable<I>(link: Link<I>, items: seq<I>) {
    forall i :: 0 <= i < |items| ==> Sendable(link, items[i])
  }

  predicate Traced<I>(link: Link<I>, t: Trace<I>) {
    && AllSendable(link, t.items)
    && (t.cut.Some? ==> Sendable(link, t.cut.value.item))
    && (t.cut.Some? ==> t.cut.value.bytes <= |Frame(BodyOf(link, t.cut.value.item))|)
  }

  function Attempts<I>(t: Trace<I>): seq<I> {
    t.items + if t.cut.Some? then [t.cut.value.item] else []
  }

  function Chunks<I>(link: Link<I>, items: seq<I>): seq<Chunk>
    requires AllSendable(link, items)
  {
    seq(|items|, i requires 0 <= i < |items| => Framed(BodyOf(link, items[i])))
  }

  /** What the peer can read from the connection. */
  function StreamBytes<I>(link: Link<I>, t: Trace<I>): seq<byte>
    requires Traced(link, t)
  {
    Bytes(Chunks(link, t.items))
    + if t.cut.Some? then Frame(BodyOf(link, t.cut.value.item))[..t.cut.value.bytes] else []
  }

  /** The failed write had put its whole frame through. */
  predicate WholeCut<I>(link: Link<I>, t: Trace<I>)
    requires Traced(link, t)
  {
    t.cut.Some? && t.cut.value.bytes == |Frame(BodyOf(link, t.cut.value.item))|
  }

  ghost predicate LogOk<I>(link: Link<I>, log: seq<Trace<I>>) {
    forall i :: 0 <= i < |log| ==> Traced(link, log[i])
  }

  function Written<I>(log: seq<Trace<I>>): seq<I> {
    if log == [] then [] else Written(log[..|log| - 1]) + log[|log| - 1].items
  }

  /**
   The failed item is the first one tried on the next connection; until it is tried again it waits in the
   slot.
   */
  ghost predicate RetriedAt<I>(log: seq<Trace<I>>, slot: Option<I>, i: nat)
    requires i < |log| && log[i].cut.Some?
  {
    var failed := log[i].cut.value.item;
    if i + 1 < |log| && Attempts(log[i + 1]) != [] then Attempts(log[i + 1])[0] == failed
    else i + 2 >= |log| && slot == Some(failed)
  }

  ghost predicate Retried<I>(log: seq<Trace<I>>, slot: Option<I>) {
    forall i {:trigger RetriedAt(log, slot, i)} :: 0 <= i < |log| && log[i].cut.Some? ==> RetriedAt(log, slot, i)
  }

  /** Some item waits in the slot only between a failed write and its retry. */
  ghost predicate SlotOk<I>(link: Link<I>, log: seq<Trace<I>>, slot: Option<I>) {
    slot.Some? ==>
      && Sendable(link, slot.value) && log != []
      && (Last(log).cut.None? ==> Attempts(Last(log)) == [] && |log| >= 2 && log[|log| - 2].cut.Some?)
  }

  function Last<T>(xs: seq<T>): T
    requires xs != []
  {
    xs[|xs| - 1]
  }

  // ---------------------------------------------------------------- the queue

  /** The items of a queue; `None` asks the writer to close the connection. */
  function Items<I>(queue: seq<Option<I>>): seq<I> {
    if queue == [] then []
    else (if queue[0].Some? then [queue[0].value] else []) + Items(queue[1..])
  }

  ghost function Sentinels<I>(queue: seq<Option<I>>): nat {
    multiset(queue)[None]
  }

  function SteadyConns(conns: seq<Conn>): nat {
    multiset(conns)[Steady]
  }

  function AllOf<I>(incoming: seq<seq<Option<I>>>): seq<Option<I>> {
    if incoming == [] then [] else incoming[0] + AllOf(incoming[1..])
  }

  function Held<I>(slot: Option<I>): seq<I> {
    if slot.Some? then [slot.value] else []
  }

  lemma {:induction false} BytesAppend(xs: seq<Chunk>, ys: seq<Chunk>)
    ensures Bytes(xs + ys) == Bytes(xs) + Bytes(ys)
  {
    if xs == [] {
      assert xs + ys == ys;
    } else {
      assert (xs + ys)[0] == xs[0] && (xs + ys)[1..] == xs[1..] + ys;
      BytesAppend(xs[1..], ys);
    }
  }

  lemma ChunksGrow<I>(link: Link<I>, items: seq<I>, r: I)
    requires AllSendable(link, items) && Sendable(link, r)
    ensures AllSendable(link, items + [r])
    ensures Bytes(Chunks(link, items + [r])) == Bytes(Chunks(link, items)) + Frame(BodyOf(link, r))
  {
    var last := [Framed(BodyOf(link, r))];
    assert Chunks(link, items + [r]) == Chunks(link, items) + last;
    BytesAppend(Chunks(link, items), last);
    assert last[1..] == [];
  }

  // ---------------------------------------------------------------- the books

  /** Everything the writer's run has done, as values. */
  datatype Books<I> = Books(
    enqueued: seq<I>,          // all items put on the queue
    queue: seq<Option<I>>,
    slot: Option<I>,           // the item of a failed write
    poison: Option<I>,         // the item on which the writer panicked
    log: seq<Trace<I>>,        // what was written on each connection so far
    streams: seq<seq<byte>>    // the bytes each connection let through
  )

  /** Nothing is lost or reordered: written items, the item in hand and the queue are what was enqueued. */
  ghost predicate Conserved<I>(b: Books<I>) {
    b.enqueued == Written(b.log) + (Held(if b.poison.Some? then b.poison else b.slot) + Items(b.queue))
  }

  ghost predicate Recorded<I>(link: Link<I>, log: seq<Trace<I>>, streams: seq<seq<byte>>) {
    && LogOk(link, log) && |streams| == |log|
    && forall i :: 0 <= i < |log| ==> streams[i] == StreamBytes(link, log[i])
  }

  ghost predicate Kept<I>(link: Link<I>, b: Books<I>) {
    && Conserved(b) && Recorded(link, b.log, b.streams) && Retried(b.log, b.slot) && SlotOk(link, b.log, b.slot)
    && (b.poison.Some? ==> !Sendable(link, b.poison.value) && b.slot.None?)
  }

  /** A connection is up and the writer is in its inner loop. */
  ghost predicate Serving<I>(link: Link<I>, b: Books<I>) {
    Kept(link, b) && b.poison.None? && b.log != [] && Last(b.log).cut.None?
  }

  function Connected<I>(b: Books<I>): Books<I> {
    b.(log := b.log + [Trace([], None)], streams := b.streams + [[]])
  }

  /** The item in hand: from the slot, else from the queue. */
  ghost predicate Next<I>(b: Books<I>, r: I) {
    if b.slot.Some? then r == b.slot.value else b.queue != [] && b.queue[0] == Some(r)
  }

  function Fetched<I>(b: Books<I>): Books<I>
    requires b.slot.Some? || b.queue != []
  {
    if b.slot.Some? then b.(slot := None) else b.(queue := b.queue[1..])
  }

  function Wrote<I>(link: Link<I>, b: Books<I>, r: I): Books<I>
    requires (b.slot.Some? || b.queue != []) && |b.streams| == |b.log| > 0 && Sendable(link, r)
  {
    var k := |b.log| - 1;
    Fetched(b).(log := b.log[k := Trace(b.log[k].items + [r], None)],
                streams := b.streams[k := b.streams[k] + Frame(BodyOf(link, r))])
  }

  function Broke<I>(link: Link<I>, b: Books<I>, r: I, n: nat): Books<I>
    requires (b.slot.Some? || b.queue != []) && |b.streams| == |b.log| > 0
    requires Sendable(link, r) && n <= |Frame(BodyOf(link, r))|
  {
    var k := |b.log| - 1;
    Fetched(b).(log := b.log[k := Trace(b.log[k].items, Some(Cut(r, n)))],
                streams := b.streams[k := b.streams[k] + Frame(BodyOf(link, r))[..n]],
                slot := Some(r))
  }

  lemma {:induction false} WrittenGrows<I>(log: seq<Trace<I>>, t: Trace<I>)
    ensures Written(log + [t]) == Written(log) + t.items
  {
    assert (log + [t])[..|log|] == log;
  }

  lemma WrittenLast<I>(log: seq<Trace<I>>, t: Trace<I>)
    requires log != []
    ensures Written(log[|log| - 1 := t]) == Written(log[..|log| - 1]) + t.items
  {
    var k := |log| - 1;
    assert log[k := t] == log[..k] + [t];
    WrittenGrows(log[..k], t);
  }

  lemma Shift<I>(xs: seq<I>, ys: seq<I>, x: I, zs: seq<I>)
    ensures (xs + ys) + ([x] + zs) == (xs + (ys + [x])) + zs
  {
  }

  lemma ItemsFrom<I>(b: Books<I>, r: I)
    requires Next(b, r)
    ensures Held(b.slot) + Items(b.queue) == [r] + Items(Fetched(b).queue)
  {
    if b.slot.None? {
      assert b.queue[0].value == r;
      assert [] + Items(b.queue) == Items(b.queue);
    }
  }

  lemma RetriedConnect<I>(log: seq<Trace<I>>, slot: Option<I>)
    requires Retried(log, slot) && (log == [] || Last(log).cut.Some? || slot.None?)
    ensures Retried(log + [Trace([], None)], slot)
  {
    var log' := log + [Trace([], None)];
    assert Attempts(Last(log')) == [];
    forall i | 0 <= i < |log'| && log'[i].cut.Some?
      ensures RetriedAt(log', slot, i)
    {
      assert RetriedAt(log, slot, i) && log'[i] == log[i];
    }
  }

  lemma ConnectKeeps<I>(link: Link<I>, b: Books<I>)
    requires Kept(link, b) && b.poison.None? && (b.log == [] || Last(b.log).cut.Some? || b.slot.None?)
    ensures Serving(link, Connected(b))
  {
    var t := Trace([], None);
    WrittenGrows(b.log, t);
    assert Written(b.log) + [] == Written(b.log);
    RecordedMore(link, b.log, b.streams, t, []);
    RetriedConnect(b.log, b.slot);
    SlotConnect(link, b.log, b.slot);
  }

  lemma SlotConnect<I>(link: Link<I>, log: seq<Trace<I>>, slot: Option<I>)
    requires SlotOk(link, log, slot) && (log == [] || Last(log).cut.Some? || slot.None?)
    ensures SlotOk(link, log + [Trace([], None)], slot)
  {
    var log' := log + [Trace([], None)];
    assert Attempts(Last(log')) == [];
  }

  lemma RecordedMore<I>(link: Link<I>, log: seq<Trace<I>>, streams: seq<seq<byte>>, t: Trace<I>, s: seq<byte>)
    requires Recorded(link, log, streams) && Traced(link, t) && s == StreamBytes(link, t)
    ensures Recorded(link, log + [t], streams + [s])
  {
  }

  lemma RecordedLast<I>(link: Link<I>, log: seq<Trace<I>>, streams: seq<seq<byte>>, t: Trace<I>, s: seq<byte>)
    requires Recorded(link, log, streams) && log != [] && Traced(link, t) && s == StreamBytes(link, t)
    ensures Recorded(link, log[|log| - 1 := t], streams[|log| - 1 := s])
  {
  }

  lemma ConservedAfter<I>(link: Link<I>, b: Books<I>, r: I, n: nat)
    requires Serving(link, b) && Next(b, r)
    ensures Sendable(link, r) ==> Conserved(Wrote(link, b, r))
    ensures Sendable(link, r) && n <= |Frame(BodyOf(link, r))| ==> Conserved(Broke(link, b, r, n))
    ensures Conserved(Fetched(b).(poison := Some(r)))
  {
    var k := |b.log| - 1;
    var t := b.log[k];
    var rest := Items(Fetched(b).queue);
    ItemsFrom(b, r);
    WrittenLast(b.log, t);
    assert b.log[k := t] == b.log;
    if Sendable(link, r) {
      var more := Trace(t.items + [r], None);
      WrittenLast(b.log, more);
      Shift(Written(b.log[..k]), t.items, r, rest);
      assert [] + rest == rest;
      if n <= |Frame(BodyOf(link, r))| {
        WrittenLast(b.log, Trace(t.items, Some(Cut(r, n))));
      }
    }
  }

  lemma WholeTrace<I>(link: Link<I>, items: seq<I>)
    requires AllSendable(link, items)
    ensures StreamBytes(link, Trace(items, None)) == Bytes(Chunks(link, items))
  {
    var bytes := Bytes(Chunks(link, items));
    assert bytes + [] == bytes;
  }

  lemma WroteStream<I>(link: Link<I>, items: seq<I>, r: I)
    requires AllSendable(link, items) && Sendable(link, r)
    ensures Traced(link, Trace(items + [r], None))
    ensures StreamBytes(link, Trace(items, None)) + Frame(BodyOf(link, r))
              == StreamBytes(link, Trace(items + [r], None))
  {
    WholeTrace(link, items);
    WholeTrace(link, items + [r]);
    ChunksGrow(link, items, r);
  }

  lemma BrokeStream<I>(link: Link<I>, items: seq<I>, r: I, n: nat)
    requires AllSendable(link, items) && Sendable(link, r) && n <= |Frame(BodyOf(link, r))|
    ensures Traced(link, Trace(items, Some(Cut(r, n))))
    ensures StreamBytes(link, Trace(items, None)) + Frame(BodyOf(link, r))[..n]
              == StreamBytes(link, Trace(items, Some(Cut(r, n))))
  {
    WholeTrace(link, items);
  }

  lemma RetriedAfter<I>(log: seq<Trace<I>>, before: Option<I>, r: I, t: Trace<I>, slot: Option<I>)
    requires log != [] && Retried(log, before) && Last(log).cut.None? && (before.Some? ==> before.value == r)
    requires Attempts(t) == Last(log).items + [r]
    requires t.cut.Some? ==> slot == Some(t.cut.value.item)
    ensures Retried(log[|log| - 1 := t], slot)
  {
    var k := |log| - 1;
    var log' := log[k := t];
    assert Attempts(log[k]) == log[k].items;
    forall i | 0 <= i < |log'| && log'[i].cut.Some?
      ensures RetriedAt(log', slot, i)
    {
      if i < k {
        assert log'[i] == log[i] && RetriedAt(log, before, i);
        if i + 1 == k {
          assert log'[i + 1] == t && Attempts(t)[0] == if log[k].items == [] then r else log[k].items[0];
        } else {
          assert log'[i + 1] == log[i + 1];
        }
      }
    }
  }

  lemma RecordedWrote<I>(link: Link<I>, b: Books<I>, r: I)
    requires Serving(link, b) && Next(b, r) && Sendable(link, r)
    ensures Recorded(link, Wrote(link, b, r).log, Wrote(link, b, r).streams)
  {
    var t, s := Last(b.log), Last(b.streams);
    assert t == Trace(t.items, None);
    WroteStream(link, t.items, r);
    RecordedLast(link, b.log, b.streams, Trace(t.items + [r], None), s + Frame(BodyOf(link, r)));
  }

  lemma RecordedBroke<I>(link: Link<I>, b: Books<I>, r: I, n: nat)
    requires Serving(link, b) && Next(b, r) && Sendable(link, r) && n <= |Frame(BodyOf(link, r))|
    ensures Recorded(link, Broke(link, b, r, n).log, Broke(link, b, r, n).streams)
  {
    var t, s := Last(b.log), Last(b.streams);
    assert t == Trace(t.items, None);
    BrokeStream(link, t.items, r, n);
    RecordedLast(link, b.log, b.streams, Trace(t.items, Some(Cut(r, n))), s + Frame(BodyOf(link, r))[..n]);
  }

  lemma RetriedWrote<I>(link: Link<I>, b: Books<I>, r: I)
    requires Serving(link, b) && Next(b, r) && Sendable(link, r)
    ensures Retried(Wrote(link, b, r).log, None)
  {
    var items := Last(b.log).items + [r];
    assert Attempts(Trace(items, None)) == items;
    RetriedAfter(b.log, b.slot, r, Trace(items, None), None);
  }

  lemma WroteKeeps<I>(link: Link<I>, b: Books<I>, r: I)
    requires Serving(link, b) && Next(b, r) && Sendable(link, r)
    ensures Serving(link, Wrote(link, b, r))
  {
    ConservedAfter(link, b, r, 0);
    RecordedWrote(link, b, r);
    RetriedWrote(link, b, r);
  }

  lemma BrokeKeeps<I>(link: Link<I>, b: Books<I>, r: I, n: nat)
    requires Serving(link, b) && Next(b, r) && Sendable(link, r) && n <= |Frame(BodyOf(link, r))|
    ensures Kept(link, Broke(link, b, r, n))
  {
    ConservedAfter(link, b, r, n);
    RecordedBroke(link, b, r, n);
    RetriedAfter(b.log, b.slot, r, Trace(Last(b.log).items, Some(Cut(r, n))), Some(r));
  }

  /** An item without a packet: only a fresh one, since the one in the slot had a packet before. */
  lemma PoisonKeeps<I>(link: Link<I>, b: Books<I>, r: I)
    requires Serving(link, b) && Next(b, r) && !Sendable(link, r)
    ensures Kept(link, Fetched(b).(poison := Some(r)))
  {
    ConservedAfter(link, b, r, 0);
  }

  lemma CloseKeeps<I>(link: Link<I>, b: Books<I>)
    requires Serving(link, b) && b.slot.None? && b.queue != [] && b.queue[0].None?
    ensures Serving(link, Fetched(b)) && Sentinels(Fetched(b).queue) + 1 == Sentinels(b.queue)
  {
    SentinelsHead(b.queue);
    assert [] + Items(b.queue[1..]) == Items(b.queue[1..]);
  }

  lemma SentinelsHead<I>(queue: seq<Option<I>>)
    requires queue != []
    ensures Sentinels(queue) == Sentinels(queue[1..]) + if queue[0].None? then 1 else 0
  {
    assert queue == [queue[0]] + queue[1..];
  }

  lemma AllWritten<I>(b: Books<I>)
    requires Conserved(b) && b.queue == [] && b.slot.None? && b.poison.None?
    ensures Written(b.log) == b.enqueued
  {
    assert Items(b.queue) == [];
  }

  lemma SteadyNext(conns: seq<Conn>, i: nat)
    requires i < |conns|
    ensures SteadyConns(conns[..i + 1]) == SteadyConns(conns[..i]) + if conns[i].Steady? then 1 else 0
  {
    assert conns[..i + 1] == conns[..i] + [conns[i]];
  }

  lemma {:induction false} EnqueueKeeps<I>(link: Link<I>, b: Books<I>, x: Option<I>)
    requires Kept(link, b)
    ensures Kept(link, b.(queue := b.queue + [x], enqueued := b.enqueued + Held(x)))
  {
    ItemsAppend(b.queue, x);
    Regroup(Written(b.log), Held(if b.poison.Some? then b.poison else b.slot), Items(b.queue), Held(x));
  }

  lemma Regroup<I>(a: seq<I>, b: seq<I>, c: seq<I>, d: seq<I>)
    ensures (a + (b + c)) + d == a + (b + (c + d))
  {
  }

  lemma ItemsOne<I>(x: Option<I>)
    ensures Items([x]) == Held(x)
  {
    assert [x][1..] == [] && Items<I>([]) == [];
  }

  lemma ItemsAppend<I>(queue: seq<Option<I>>, x: Option<I>)
    ensures Items(queue + [x]) == Items(queue) + Held(x)
  {
    ItemsConcat(queue, [x]);
    ItemsOne(x);
  }

  lemma SplitAt<T>(xs: seq<T>, i: nat)
    requires i < |xs|
    ensures xs[..i + 1] == xs[..i] + [xs[i]]
  {
  }

  lemma Together<T>(xs: seq<T>, ys: seq<T>, zs: seq<T>)
    ensures xs + (ys + zs) == (xs + ys) + zs
  {
  }

  lemma {:induction false} ItemsConcat<I>(xs: seq<Option<I>>, ys: seq<Option<I>>)
    ensures Items(xs + ys) == Items(xs) + Items(ys)
    ensures Sentinels(xs + ys) == Sentinels(xs) + Sentinels(ys)
    decreases |xs|
  {
    if xs == [] {
      assert xs + ys == ys && [] + Items(ys) == Items(ys);
    } else {
      assert (xs + ys)[0] == xs[0] && (xs + ys)[1..] == xs[1..] + ys;
      ItemsConcat(xs[1..], ys);
    }
  }

  // ---------------------------------------------------------------- the writer

  /** How a round of the inner loop ended. */
  datatype End = Going | Broken | Closing | Waiting | Dead

  class Writer<I> {
    const link: Link<I>
    var queue: seq<Option<I>>
    var slot: Option<I>
    var poison: Option<I>
    var headerBuff: seq<byte>
    /** What each connection so far let through; the last one is in use. */
    var streams: seq<seq<byte>>
    /** What the other participants are going to enqueue before each of the next rounds. */
    var incoming: seq<seq<Option<I>>>
    ghost var enqueued: seq<I>
    ghost var log: seq<Trace<I>>

    constructor (link: Link<I>, incoming: seq<seq<Option<I>>>)
      ensures this.link == link && this.incoming == incoming
      ensures View() == Books([], [], None, None, [], []) && Kept(link, View())
    {
      this.link, this.incoming := link, incoming;
      queue, slot, poison, headerBuff, streams := [], None, None, [], [];
      enqueued, log := [], [];
    }

    ghost function View(): Books<I>
      reads this
    {
      Books(enqueued, queue, slot, poison, log, streams)
    }

    /** `item_sender.send`; `None` asks the writer to close the connection. */
    method Enqueue(x: Option<I>)
      requires Kept(link, View())
      modifies this`queue, this`enqueued
      ensures Kept(link, View()) && queue == old(queue) + [x] && enqueued == old(enqueued) + Held(x)
    {
      EnqueueKeeps(link, View(), x);
      queue := queue + [x];
      enqueued := enqueued + Held(x);
    }

    /** What is still to be written, or to be enqueued and written, with the requests to close in between. */
    ghost function Ahead(): seq<Option<I>>
      reads this
    {
      queue + AllOf(incoming)
    }

    /** What enqueued will be when everything has arrived. */
    ghost function Total(): seq<I>
      reads this
    {
      enqueued + Items(AllOf(incoming))
    }

    /** Before a round: the others enqueue what they have. */
    method Arrive()
      requires Kept(link, View())
      modifies this`queue, this`enqueued, this`incoming
      ensures Kept(link, View()) && Ahead() == old(Ahead()) && Total() == old(Total())
      ensures old(queue) <= queue && |incoming| == if old(incoming) == [] then 0 else |old(incoming)| - 1
      ensures old(incoming) == [] ==> queue == old(queue)
    {
      if incoming == [] {
        return;
      }
      var xs := incoming[0];
      EnqueueAll(xs);
      incoming := incoming[1..];
      ItemsConcat(xs, AllOf(incoming));
      Together(old(queue), xs, AllOf(incoming));
      Together(old(enqueued), Items(xs), Items(AllOf(incoming)));
    }

    method EnqueueAll(xs: seq<Option<I>>)
      requires Kept(link, View())
      modifies this`queue, this`enqueued
      ensures Kept(link, View()) && queue == old(queue) + xs && enqueued == old(enqueued) + Items(xs)
    {
      var i := 0;
      while i < |xs|
        invariant 0 <= i <= |xs| && Kept(link, View())
        invariant queue == old(queue) + xs[..i] && enqueued == old(enqueued) + Items(xs[..i])
      {
        SplitAt(xs, i);
        ItemsAppend(xs[..i], xs[i]);
        Together(old(queue), xs[..i], [xs[i]]);
        Together(old(enqueued), Items(xs[..i]), Held(xs[i]));
        Enqueue(xs[i]);
        i := i + 1;
      }
      assert xs[..i] == xs;
    }

    /** Nothing is ahead: everything that was ever to come has been written. */
    lemma AllOver()
      requires Kept(link, View()) && Ahead() == [] && slot.None? && poison.None?
      ensures Written(log) == enqueued == Total()
    {
      AllWritten(View());
      assert AllOf(incoming) == [] && enqueued + [] == enqueued;
    }

    /** Serializes and writes the item just taken.  The write fails if `fails` holds, with `cut` bytes through. */
    method Write(r: I, fails: bool, cut: nat, ghost b: Books<I>) returns (end: End)
      requires Serving(link, b) && Next(b, r) && View() == Fetched(b)
      modifies this
      ensures Kept(link, View()) && enqueued == old(enqueued) && |log| == |old(log)| && queue == old(queue)
                && incoming == old(incoming)
      ensures end.Going? ==> Serving(link, View()) && slot.None?
      ensures end.Broken? ==> fails && slot.Some? && Last(log).cut.Some?
      ensures end.Going? || end.Broken? || end.Dead?
      ensures end.Dead? <==> poison.Some?
    {
      var body := link.pack(r);
      if body.None? {
        PoisonKeeps(link, b, r);
        poison := Some(r);
        return Dead;
      }
      headerBuff := BuildFrame(headerBuff, body.value);
      if fails {
        var n := if cut < |headerBuff| then cut else |headerBuff|;
        BrokeKeeps(link, b, r, n);
        Fail(r, n, b);
        return Broken;
      }
      WroteKeeps(link, b, r);
      Succeed(r, b);
      return Going;
    }

    /** `write_all` returns an error with n bytes through: the item goes back into the slot. */
    method Fail(r: I, n: nat, ghost b: Books<I>)
      requires (b.slot.Some? || b.queue != []) && |b.streams| == |b.log| > 0 && View() == Fetched(b)
      requires Sendable(link, r) && headerBuff == Frame(BodyOf(link, r)) && n <= |headerBuff|
      modifies this`streams, this`log, this`slot
      ensures View() == Broke(link, b, r, n)
    {
      var k := |streams| - 1;
      streams := streams[k := streams[k] + headerBuff[..n]];
      log := log[k := Trace(log[k].items, Some(Cut(r, n)))];
      slot := Some(r);
    }

    method Succeed(r: I, ghost b: Books<I>)
      requires (b.slot.Some? || b.queue != []) && |b.streams| == |b.log| > 0 && View() == Fetched(b)
      requires Sendable(link, r) && headerBuff == Frame(BodyOf(link, r))
      modifies this`streams, this`log
      ensures View() == Wrote(link, b, r)
    {
      var k := |streams| - 1;
      streams := streams[k := streams[k] + headerBuff];
      log := log[k := Trace(log[k].items + [r], None)];
    }

    /** One round of the inner loop: `item.take()`, or else the next entry of the queue. */
    method WriteNext(fails: bool, cut: nat) returns (end: End)
      requires Serving(link, View())
      modifies this
      ensures Kept(link, View()) && enqueued == old(enqueued) && |log| == |old(log)| && incoming == old(incoming)
      ensures end.Going? ==> Serving(link, View()) && |queue| + |Held(slot)| < old(|queue| + |Held(slot)|)
      ensures end.Broken? ==> fails && Last(log).cut.Some?
      ensures end.Closing? || end.Waiting? ==> slot.None?
      ensures end.Waiting? ==> queue == [] && View() == old(View())
      ensures Sentinels(queue) + (if end.Closing? then 1 else 0) == Sentinels(old(queue))
      ensures end.Dead? <==> poison.Some?
    {
      ghost var b := View();
      var r;
      if slot.Some? {
        r, slot := slot.value, None;
      } else if queue == [] {
        return Waiting;
      } else {
        SentinelsHead(queue);
        var next := queue[0];
        queue := queue[1..];
        if next.None? {
          CloseKeeps(link, b);
          return Closing;
        }
        r := next.value;
      }
      end := Write(r, fails, cut, b);
    }

    /** One round of the outer loop: a connection comes up and is used until it breaks or is closed. */
    method Serve(conn: Conn) returns (end: End)
      requires Kept(link, View()) && poison.None? && (log == [] || Last(log).cut.Some? || slot.None?)
      modifies this
      ensures Kept(link, View()) && Total() == old(Total()) && |log| == |old(log)| + 1
      ensures !end.Going? && (end.Broken? ==> conn.Breaks? && Last(log).cut.Some?)
      ensures end.Closing? || end.Waiting? ==> slot.None?
      ensures end.Waiting? ==> Ahead() == []
      ensures Sentinels(Ahead()) + (if end.Closing? then 1 else 0) == Sentinels(old(Ahead()))
      ensures end.Dead? <==> poison.Some?
    {
      ConnectKeeps(link, View());
      streams := streams + [[]];
      log := log + [Trace([], None)];
      var writes := 0;
      end := Going;
      while end.Going?
        invariant Kept(link, View()) && Total() == old(Total()) && |log| == |old(log)| + 1
        invariant end.Going? ==> Serving(link, View())
        invariant end.Broken? ==> conn.Breaks? && Last(log).cut.Some?
        invariant end.Closing? || end.Waiting? ==> slot.None?
        invariant end.Waiting? ==> Ahead() == []
        invariant Sentinels(Ahead()) + (if end.Closing? then 1 else 0) == Sentinels(old(Ahead()))
        invariant end.Dead? <==> poison.Some?
        decreases end.Going?, |incoming|, |queue| + |Held(slot)|
      {
        end := Round(conn.Breaks? && writes == conn.good, if conn.Breaks? then conn.cut else 0);
        writes := writes + 1;
      }
    }

    /** The others enqueue, then the inner loop goes round once; with an empty queue it waits for more to arrive. */
    method Round(fails: bool, cut: nat) returns (end: End)
      requires Serving(link, View())
      modifies this
      ensures Kept(link, View()) && Total() == old(Total()) && |log| == |old(log)|
      ensures end.Going? ==> Serving(link, View())
      ensures end.Going? ==>
                || |incoming| < |old(incoming)|
                || (incoming == old(incoming) && |queue| + |Held(slot)| < old(|queue| + |Held(slot)|))
      ensures end.Broken? ==> fails && Last(log).cut.Some?
      ensures end.Closing? || end.Waiting? ==> slot.None?
      ensures end.Waiting? ==> Ahead() == []
      ensures Sentinels(Ahead()) + (if end.Closing? then 1 else 0) == Sentinels(old(Ahead()))
      ensures end.Dead? <==> poison.Some?
    {
      Arrive();
      ItemsConcat(queue, AllOf(incoming));
      end := WriteNext(fails, cut);
      ItemsConcat(queue, AllOf(incoming));
      if end.Waiting? && incoming != [] {
        end := Going;
      }
    }

    /**
     The outer loop over the connections that come up.  As long as steady ones keep coming, more than there are
     requests to close, everything enqueued before or meanwhile is written.
     */
    method Run(conns: seq<Conn>) returns (waiting: bool)
      requires Kept(link, View()) && poison.None? && (log == [] || Last(log).cut.Some? || slot.None?)
      modifies this
      ensures Kept(link, View()) && Total() == old(Total())
      ensures waiting ==> Ahead() == [] && slot.None? && poison.None? && Written(log) == enqueued == old(Total())
      ensures poison.None? && multiset(conns)[Steady] > multiset(old(Ahead()))[None] ==> waiting
    {
      var i := 0;
      while i < |conns|
        invariant 0 <= i <= |conns|
        invariant Kept(link, View()) && Total() == old(Total()) && poison.None?
        invariant log == [] || Last(log).cut.Some? || slot.None?
        invariant SteadyConns(conns[..i]) + Sentinels(Ahead()) <= Sentinels(old(Ahead()))
      {
        SteadyNext(conns, i);
        var end := Serve(conns[i]);
        if end.Waiting? {
          AllOver();
          return true;
        }
        if end.Dead? {
          return false;
        }
        i := i + 1;
      }
      assert conns[..i] == conns;
      return false;
    }
  }
}
