/**
 What the peer reads from the connections of the TCP writer: the writer, the framing, the reader and the
 packet codec together.
 */
module Delivery {
  import opened Wrappers
  import opened Framing
  import opened TcpWriter
  import Proto

  /** The bodies of these items fit the size field of a frame. */
  predicate Fits<I>(link: Link<I>, items: seq<I>) {
    forall i :: 0 <= i < |items| && Sendable(link, items[i]) ==> |BodyOf(link, items[i])| < MAX_BODY
  }

  /** So do the bodies of all items tried on any connection. */
  ghost predicate FitsAll<I>(link: Link<I>, log: seq<Trace<I>>) {
    forall i :: 0 <= i < |log| ==> Fits(link, Attempts(log[i]))
  }

  function BodiesOf<I>(link: Link<I>, items: seq<I>): (bs: seq<seq<byte>>)
    requires AllSendable(link, items)
    ensures |bs| == |items|
  {
    seq(|items|, i requires 0 <= i < |items| => BodyOf(link, items[i]))
  }

  /** The items whose frames went over the connection whole. */
  function Arrived<I>(link: Link<I>, t: Trace<I>): seq<I>
    requires Traced(link, t)
  {
    t.items + if WholeCut(link, t) then [t.cut.value.item] else []
  }

  lemma ArrivedSendable<I>(link: Link<I>, t: Trace<I>)
    requires Traced(link, t)
    ensures AllSendable(link, Arrived(link, t)) && AllSendable(link, Attempts(t))
  {
  }

  lemma {:induction false} BodiesOfChunks<I>(link: Link<I>, items: seq<I>)
    requires AllSendable(link, items)
    ensures Bodies(Chunks(link, items)) == BodiesOf(link, items)
    decreases |items|
  {
    if items != [] {
      var chunks := Chunks(link, items);
      assert chunks[1..] == Chunks(link, items[1..]);
      BodiesOfChunks(link, items[1..]);
      assert BodiesOf(link, items) == [BodyOf(link, items[0])] + BodiesOf(link, items[1..]);
    }
  }

  /** A connection's bytes are a prefix of the frames tried on it. */
  lemma StreamIsPrefix<I>(link: Link<I>, t: Trace<I>)
    requires Traced(link, t)
    ensures AllSendable(link, Attempts(t))
    ensures StreamBytes(link, t) <= Bytes(Chunks(link, Attempts(t)))
  {
    if t.cut.Some? {
      ChunksGrow(link, t.items, t.cut.value.item);
    } else {
      WholeTrace(link, t.items);
      assert Attempts(t) == t.items;
    }
  }

  /** The number of frames that lie within the first n bytes. */
  function WholeFrames(chunks: seq<Chunk>, n: nat): (k: nat)
    requires n <= |Bytes(chunks)|
    ensures Within(chunks, n, k)
  {
    if chunks == [] then 0
    else
      var first := |ChunkBytes(chunks[0])|;
      assert chunks[..1] == [chunks[0]] && Bytes(chunks[..1]) == ChunkBytes(chunks[0]);
      if n < first then 0
      else
        var k := WholeFrames(chunks[1..], n - first);
        assert chunks[..k + 1][1..] == chunks[1..][..k];
        assert k + 1 < |chunks| ==> chunks[..k + 2][1..] == chunks[1..][..k + 1];
        k + 1
  }

  /**
   However much of a connection's bytes the peer gets to read, it decodes the bodies of the first items tried
   on that connection, in order: none is invented, torn, skipped or swapped.
   */
  lemma ReadsInOrder<I>(link: Link<I>, t: Trace<I>, n: nat)
    requires Traced(link, t) && Fits(link, Attempts(t)) && n <= |StreamBytes(link, t)|
    ensures AllSendable(link, Attempts(t))
    ensures exists k :: 0 <= k <= |Attempts(t)|
                        && Decode(StreamBytes(link, t)[..n]) == Reading(BodiesOf(link, Attempts(t))[..k], false)
  {
    StreamIsPrefix(link, t);
    var items := Attempts(t);
    var chunks := Chunks(link, items);
    var k := WholeFrames(chunks, n);
    assert StreamBytes(link, t)[..n] == Bytes(chunks)[..n];
    DecodePrefix(chunks, n, k);
    assert chunks[..k] == Chunks(link, items[..k]);
    BodiesOfChunks(link, items[..k]);
    assert BodiesOf(link, items[..k]) == BodiesOf(link, items)[..k];
  }

  /** Read to its end, a connection yields exactly the items whose frames went over whole. */
  lemma DecodeStream<I>(link: Link<I>, t: Trace<I>)
    requires Traced(link, t) && Fits(link, Attempts(t))
    ensures AllSendable(link, Arrived(link, t))
    ensures Decode(StreamBytes(link, t)) == Reading(BodiesOf(link, Arrived(link, t)), false)
  {
    var items := Arrived(link, t);
    var tried := Attempts(t);
    var all := Chunks(link, tried);
    var whole := |items|;
    StreamIsPrefix(link, t);
    var bytes := StreamBytes(link, t);
    if t.cut.Some? {
      ChunksGrow(link, t.items, t.cut.value.item);
      assert all[..|t.items|] == Chunks(link, t.items);
      assert all[..|tried|] == all;
    } else {
      WholeTrace(link, t.items);
      assert tried == t.items && all[..|tried|] == all;
    }
    DecodePrefix(all, |bytes|, whole);
    assert bytes == Bytes(all)[..|bytes|];
    assert items == tried[..whole] && all[..whole] == Chunks(link, items);
    BodiesOfChunks(link, items);
  }

  // ---------------------------------------------------------------- all connections together

  /** What the peer decodes, connection after connection. */
  function DecodeEach(streams: seq<seq<byte>>): seq<seq<byte>> {
    if streams == [] then []
    else DecodeEach(streams[..|streams| - 1]) + Decode(streams[|streams| - 1]).bodies
  }

  ghost function ArrivedAll<I>(link: Link<I>, log: seq<Trace<I>>): seq<I>
    requires LogOk(link, log)
  {
    if log == [] then []
    else ArrivedAll(link, log[..|log| - 1]) + Arrived(link, log[|log| - 1])
  }

  lemma {:induction false} WrittenSendable<I>(link: Link<I>, log: seq<Trace<I>>)
    requires LogOk(link, log)
    ensures AllSendable(link, Written(log))
  {
    if log != [] {
      WrittenSendable(link, log[..|log| - 1]);
    }
  }

  lemma BodiesOfAppend<I>(link: Link<I>, xs: seq<I>, ys: seq<I>)
    requires AllSendable(link, xs) && AllSendable(link, ys)
    ensures AllSendable(link, xs + ys) && BodiesOf(link, xs + ys) == BodiesOf(link, xs) + BodiesOf(link, ys)
  {
  }

  lemma {:induction false} DecodeEachIs<I>(link: Link<I>, log: seq<Trace<I>>, streams: seq<seq<byte>>)
    requires FitsAll(link, log) && LogOk(link, log) && |streams| == |log|
    requires forall i :: 0 <= i < |log| ==> streams[i] == StreamBytes(link, log[i])
    ensures AllSendable(link, ArrivedAll(link, log))
    ensures DecodeEach(streams) == BodiesOf(link, ArrivedAll(link, log))
    decreases |log|
  {
    if log != [] {
      var k := |log| - 1;
      DecodeEachIs(link, log[..k], streams[..k]);
      DecodeStream(link, log[k]);
      BodiesOfAppend(link, ArrivedAll(link, log[..k]), Arrived(link, log[k]));
    }
  }

  /** How often a failed write had put its whole frame through. */
  ghost function Repeats<I>(link: Link<I>, log: seq<Trace<I>>): nat
    requires LogOk(link, log)
  {
    if log == [] then 0
    else Repeats(link, log[..|log| - 1]) + if WholeCut(link, log[|log| - 1]) then 1 else 0
  }

  lemma {:induction false} RepeatsCount<I>(link: Link<I>, log: seq<Trace<I>>)
    requires LogOk(link, log)
    ensures |ArrivedAll(link, log)| == |Written(log)| + Repeats(link, log)
    ensures Repeats(link, log) == 0 ==> ArrivedAll(link, log) == Written(log)
    ensures Repeats(link, log) == 0 <==> forall i :: 0 <= i < |log| ==> !WholeCut(link, log[i])
  {
    if log != [] {
      var k := |log| - 1;
      RepeatsCount(link, log[..k]);
      assert forall i :: 0 <= i < k ==> log[..k][i] == log[i];
      assert !WholeCut(link, log[k]) ==> Arrived(link, log[k]) == log[k].items;
    }
  }

  /** Every failed write stopped short of the end of its frame. */
  ghost predicate ProperCuts<I>(link: Link<I>, log: seq<Trace<I>>)
    requires LogOk(link, log)
  {
    forall i :: 0 <= i < |log| ==> !WholeCut(link, log[i])
  }

  /**
   The frames decoded over all connections are the items written, exactly once and in order, if and only if
   every failed write delivered a proper prefix of its frame.
   */
  lemma ExactlyOnce<I>(link: Link<I>, b: Books<I>)
    requires Kept(link, b) && FitsAll(link, b.log)
    ensures AllSendable(link, Written(b.log))
    ensures DecodeEach(b.streams) == BodiesOf(link, Written(b.log)) <==> ProperCuts(link, b.log)
  {
    WrittenSendable(link, b.log);
    DecodeEachIs(link, b.log, b.streams);
    RepeatsCount(link, b.log);
  }

  // ---------------------------------------------------------------- at least once

  /** `ds` is `ws` with some elements repeated on the spot. */
  ghost predicate Stutters<I>(ds: seq<I>, ws: seq<I>) {
    if ds == [] then ws == []
    else
      var d, w := |ds| - 1, |ws| - 1;
      ws != [] && ds[d] == ws[w] && (Stutters(ds[..d], ws[..w]) || Stutters(ds[..d], ws))
  }

  lemma {:induction false} StuttersAppend<I>(ds: seq<I>, ws: seq<I>, xs: seq<I>)
    requires Stutters(ds, ws)
    ensures Stutters(ds + xs, ws + xs)
    decreases |xs|
  {
    if xs == [] {
      assert ds + xs == ds && ws + xs == ws;
    } else {
      var k := |xs| - 1;
      StuttersAppend(ds, ws, xs[..k]);
      assert (ds + xs)[..|ds + xs| - 1] == ds + xs[..k] && (ws + xs)[..|ws + xs| - 1] == ws + xs[..k];
    }
  }

  lemma {:induction false} StuttersAgain<I>(ds: seq<I>, ws: seq<I>, x: I, xs: seq<I>)
    requires Stutters(ds, ws + [x]) && xs != [] && xs[0] == x
    ensures Stutters(ds + xs, ws + xs)
    decreases |xs|
  {
    assert [x] + xs[1..] == xs;
    assert (ds + [x])[..|ds|] == ds && (ds + [x])[|ds|] == x;
    assert Stutters(ds + [x], ws + [x]);
    StuttersAppend(ds + [x], ws + [x], xs[1..]);
    assert (ds + [x]) + xs[1..] == ds + xs && (ws + [x]) + xs[1..] == ws + xs;
  }

  /** The item of the last failed write, unless it has been tried again. */
  ghost function Left<I>(log: seq<Trace<I>>): Option<I> {
    if log == [] then None
    else if Last(log).cut.Some? then Some(Last(log).cut.value.item)
    else if Attempts(Last(log)) == [] && |log| >= 2 && log[|log| - 2].cut.Some? then Some(log[|log| - 2].cut.value.item)
    else None
  }

  ghost predicate AtLeastOnce<I>(ds: seq<I>, ws: seq<I>, left: Option<I>) {
    Stutters(ds, ws) || (left.Some? && Stutters(ds, ws + [left.value]))
  }

  ghost predicate ChainedAt<I>(log: seq<Trace<I>>, i: nat)
    requires i + 1 < |log| && log[i].cut.Some?
  {
    if Attempts(log[i + 1]) == [] then i + 2 == |log| else Attempts(log[i + 1])[0] == log[i].cut.value.item
  }

  ghost predicate Chained<I>(log: seq<Trace<I>>) {
    forall i {:trigger ChainedAt(log, i)} :: 0 <= i < |log| - 1 && log[i].cut.Some? ==> ChainedAt(log, i)
  }

  lemma ChainedBefore<I>(log: seq<Trace<I>>)
    requires log != [] && Chained(log)
    ensures Chained(log[..|log| - 1])
    ensures var k := |log| - 1; k > 0 && log[k - 1].cut.Some? ==> ChainedAt(log, k - 1)
    ensures var k := |log| - 1; k > 1 && log[k - 2].cut.Some? ==> Attempts(log[k - 1]) != []
  {
    var k := |log| - 1;
    forall i | 0 <= i < k - 1 && log[..k][i].cut.Some?
      ensures ChainedAt(log[..k], i)
    {
      assert ChainedAt(log, i);
    }
    if k > 1 && log[k - 2].cut.Some? {
      assert ChainedAt(log, k - 2);
    }
  }

  lemma OneMoreConnection<I>(link: Link<I>, ds: seq<I>, ws: seq<I>, left: Option<I>, t: Trace<I>, left': Option<I>)
    requires Traced(link, t) && AtLeastOnce(ds, ws, left)
    requires left.Some? && Attempts(t) != [] ==> Attempts(t)[0] == left.value
    requires if t.cut.Some? then left' == Some(t.cut.value.item) else Attempts(t) == [] ==> left' == left
    ensures AtLeastOnce(ds + Arrived(link, t), ws + t.items, left')
  {
    var xs := Arrived(link, t);
    if Stutters(ds, ws) {
      StuttersAppend(ds, ws, xs);
    } else if xs != [] {
      assert Attempts(t)[0] == xs[0];
      StuttersAgain(ds, ws, left.value, xs);
    }
    if xs == [] {
      assert ds + xs == ds && ws + t.items == ws && ws + xs == ws;
    } else if WholeCut(link, t) {
      assert ws + xs == (ws + t.items) + [t.cut.value.item];
    } else {
      assert xs == t.items;
    }
  }

  lemma {:induction false} StuttersAlong<I>(link: Link<I>, log: seq<Trace<I>>)
    requires LogOk(link, log) && Chained(log)
    ensures AtLeastOnce(ArrivedAll(link, log), Written(log), Left(log))
    decreases |log|
  {
    if log != [] {
      var k := |log| - 1;
      ChainedBefore(log);
      StuttersAlong(link, log[..k]);
      OneMoreConnection(link, ArrivedAll(link, log[..k]), Written(log[..k]), Left(log[..k]), log[k], Left(log));
    }
  }

  lemma KeptChained<I>(link: Link<I>, b: Books<I>)
    requires Kept(link, b)
    ensures Chained(b.log)
  {
    forall i | 0 <= i < |b.log| - 1 && b.log[i].cut.Some?
      ensures ChainedAt(b.log, i)
    {
      assert RetriedAt(b.log, b.slot, i);
    }
  }

  lemma LeftInSlot<I>(link: Link<I>, b: Books<I>)
    requires Kept(link, b) && Left(b.log).Some?
    ensures b.slot == Left(b.log)
  {
    if Last(b.log).cut.Some? {
      assert RetriedAt(b.log, b.slot, |b.log| - 1);
    } else {
      assert RetriedAt(b.log, b.slot, |b.log| - 2);
    }
  }

  /**
   With no assumption on failed writes, every item written arrives at least once and in order; an item may
   arrive again right behind itself, and the item waiting for a retry may have arrived already.
   */
  lemma NoneLost<I>(link: Link<I>, b: Books<I>)
    requires Kept(link, b) && FitsAll(link, b.log)
    ensures AllSendable(link, ArrivedAll(link, b.log))
    ensures DecodeEach(b.streams) == BodiesOf(link, ArrivedAll(link, b.log))
    ensures AtLeastOnce(ArrivedAll(link, b.log), Written(b.log), b.slot)
  {
    DecodeEachIs(link, b.log, b.streams);
    KeptChained(link, b);
    StuttersAlong(link, b.log);
    if Left(b.log).Some? {
      LeftInSlot(link, b);
    }
  }

  // ---------------------------------------------------------------- protocol items end to end

  /** Packets as bytes: the packet itself is CBOR. */
  datatype Packing = Packing(
    codec: Proto.Codec,
    pack: Proto.Packet -> seq<byte>,
    unpack: seq<byte> -> Option<Proto.Packet>
  )

  ghost predicate Faithful(p: Packing) {
    && Proto.Inverts(p.codec)
    && forall x: Proto.Packet :: p.unpack(p.pack(x)) == Some(x)
  }

  function PackItem(p: Packing, item: Proto.Item): Option<seq<byte>> {
    match Proto.Packed(p.codec, item, Proto.Cbor)
    case Done(packet) => Some(p.pack(packet))
    case _ => None
  }

  function LinkOf(p: Packing): Link<Proto.Item> {
    Link(item => PackItem(p, item))
  }

  /** What the reader makes of a frame's body; `None` where the packet does not parse. */
  function ReadBody(p: Packing, body: seq<byte>): Option<Proto.Outcome<Proto.Item>> {
    match p.unpack(body)
    case Some(packet) => Some(Proto.Deserialize(p.codec, packet))
    case None => None
  }

  /**
   End to end: if every failed write delivered a proper prefix of its frame, then reading all connections gives,
   item by item, the arrivals of exactly the items written.
   */
  lemma EndToEnd(p: Packing, b: Books<Proto.Item>)
    requires Faithful(p) && Kept(LinkOf(p), b) && FitsAll(LinkOf(p), b.log) && ProperCuts(LinkOf(p), b.log)
    ensures |DecodeEach(b.streams)| == |Written(b.log)|
    ensures forall i :: 0 <= i < |Written(b.log)| ==>
              ReadBody(p, DecodeEach(b.streams)[i]) == Some(Proto.Arrival(p.codec, Written(b.log)[i]))
  {
    var link := LinkOf(p);
    ExactlyOnce(link, b);
    forall i | 0 <= i < |Written(b.log)|
      ensures ReadBody(p, DecodeEach(b.streams)[i]) == Some(Proto.Arrival(p.codec, Written(b.log)[i]))
    {
      assert Sendable(link, Written(b.log)[i]);
      Proto.RoundTrip(p.codec, Written(b.log)[i], Proto.Cbor);
    }
  }

  // ---------------------------------------------------------------- when the whole frame went through

  /** The write of the only item fails with n bytes through. */
  lemma FirstTry<I>(link: Link<I>, x: I, n: nat) returns (b: Books<I>)
    requires Sendable(link, x) && n <= |Frame(BodyOf(link, x))|
    ensures Kept(link, b) && b.enqueued == [x] && b.poison.None? && b.slot == Some(x) && |b.streams| == 1
    ensures b.log == [Trace([], Some(Cut(x, n)))]
  {
    b := Books([x], [Some(x)], None, None, [], []);
    assert b.queue[1..] == [];
    assert Kept(link, b);
    ConnectKeeps(link, b);
    b := Connected(b);
    BrokeKeeps(link, b, x, n);
    b := Broke(link, b, x, n);
  }

  /** It is retried on the next connection, with success. */
  lemma SecondTry<I>(link: Link<I>, x: I, b0: Books<I>) returns (b: Books<I>)
    requires Kept(link, b0) && b0.poison.None? && b0.slot == Some(x) && |b0.log| == |b0.streams| == 1
              && Last(b0.log).cut.Some?
    requires Sendable(link, x)
    ensures Kept(link, b) && b.enqueued == b0.enqueued && |b.streams| == 2
    ensures b.log == [b0.log[0], Trace([x], None)]
  {
    ConnectKeeps(link, b0);
    b := Connected(b0);
    WroteKeeps(link, b, x);
    assert Last(b.log).items + [x] == [x];
    b := Wrote(link, b, x);
  }

  /** A write that fails after its last byte: the item is written once and read twice. */
  lemma RepeatedItem<I>(link: Link<I>, x: I) returns (b: Books<I>)
    requires Sendable(link, x) && |BodyOf(link, x)| < MAX_BODY
    ensures Kept(link, b) && b.enqueued == Written(b.log) == [x]
    ensures DecodeEach(b.streams) == [BodyOf(link, x), BodyOf(link, x)]
  {
    var b0 := FirstTry(link, x, |Frame(BodyOf(link, x))|);
    b := SecondTry(link, x, b0);
    DecodedTwice(link, x, b);
  }

  lemma DecodedTwice<I>(link: Link<I>, x: I, b: Books<I>)
    requires Sendable(link, x) && |BodyOf(link, x)| < MAX_BODY && Kept(link, b)
    requires b.log == [Trace([], Some(Cut(x, |Frame(BodyOf(link, x))|))), Trace([x], None)]
    ensures Written(b.log) == [x] && DecodeEach(b.streams) == [BodyOf(link, x), BodyOf(link, x)]
  {
    NoneLost(link, b);
    ArrivedTwice(link, x, b.log);
    TwoBodies(link, x, ArrivedAll(link, b.log));
  }

  lemma TwoBodies<I>(link: Link<I>, x: I, items: seq<I>)
    requires Sendable(link, x) && items == [x, x]
    ensures AllSendable(link, items) && BodiesOf(link, items) == [BodyOf(link, x), BodyOf(link, x)]
  {
  }

  lemma ArrivedTwice<I>(link: Link<I>, x: I, log: seq<Trace<I>>)
    requires LogOk(link, log) && Sendable(link, x)
    requires log == [Trace([], Some(Cut(x, |Frame(BodyOf(link, x))|))), Trace([x], None)]
    ensures ArrivedAll(link, log) == [x, x] && Written(log) == [x]
  {
    var t, u := log[0], log[1];
    assert log[..1] == [t] && [t][..0] == [];
    assert WholeCut(link, t) && Arrived(link, t) == [x] && Arrived(link, u) == [x];
    WrittenGrows([], t);
    WrittenGrows([t], u);
    assert [] + [t] == [t] && [t] + [u] == log;
    assert ArrivedAll(link, [t][..0]) == [] && ArrivedAll(link, [t]) == [x];
  }
}
