/**
 One packing that can be written down: it shows that what `Delivery` asks of a packing can be met, by protocol
 items and by a run with a failed write.

 Packets become fixed bytes for kind, body type, flags and argument, followed by the tag and the body, each
 byte of which is preceded by a mark.
 */
module PlainPacking {
  import opened Wrappers
  import opened Framing
  import opened TcpWriter
  import opened Proto
  import opened Delivery

  // ---------------------------------------------------------------- byte strings with an end

  function Marked(bs: seq<byte>): (s: seq<byte>)
    ensures |s| == 2 * |bs| + 1
  {
    if bs == [] then [0] else [1, bs[0]] + Marked(bs[1..])
  }

  datatype Reads<+T> = Fail | Read(value: T, rest: seq<byte>)

  function ReadMarked(s: seq<byte>): Reads<seq<byte>> {
    if s == [] then Fail
    else if s[0] == 0 then Read([], s[1..])
    else if |s| < 2 then Fail
    else
      match ReadMarked(s[2..])
      case Read(bs, rest) => Read([s[1]] + bs, rest)
      case Fail => Fail
  }

  lemma {:induction false} MarkedReads(bs: seq<byte>, rest: seq<byte>)
    ensures ReadMarked(Marked(bs) + rest) == Read(bs, rest)
  {
    var s := Marked(bs) + rest;
    if bs == [] {
      assert s[1..] == rest;
    } else {
      assert s[0] == 1 && s[1] == bs[0] && s[2..] == Marked(bs[1..]) + rest;
      MarkedReads(bs[1..], rest);
      assert [bs[0]] + bs[1..] == bs;
    }
  }

  function MarkedOption(o: Option<seq<byte>>): seq<byte> {
    if o.None? then [0] else [1] + Marked(o.value)
  }

  function ReadOption(s: seq<byte>): Reads<Option<seq<byte>>> {
    if s == [] then Fail
    else if s[0] == 0 then Read(None, s[1..])
    else
      match ReadMarked(s[1..])
      case Read(bs, rest) => Read(Some(bs), rest)
      case Fail => Fail
  }

  lemma OptionReads(o: Option<seq<byte>>, rest: seq<byte>)
    ensures ReadOption(MarkedOption(o) + rest) == Read(o, rest)
  {
    var s := MarkedOption(o) + rest;
    if o.None? {
      assert s[1..] == rest;
    } else {
      assert s[1..] == Marked(o.value) + rest;
      MarkedReads(o.value, rest);
    }
  }

  // ---------------------------------------------------------------- packets

  const KINDS: seq<Kind> := [
    Kind.Nop, Kind.Error, Kind.Send, Kind.Response, Kind.BatchComplete, Kind.Flush, Kind.Flushed, Kind.Synchronize,
    Kind.Synchronized, Kind.Close, Kind.Exited, Kind.Initialize, Kind.Ready, Kind.Pause
  ]

  const BODY_TYPES: seq<BodyType> := [NoBody, Utf8, Cbor, MessagePack, Json, Bson]

  function KindByte(k: Kind): (n: byte)
    ensures n < 14 && KINDS[n] == k
  {
    match k
    case Nop => 0
    case Error => 1
    case Send => 2
    case Response => 3
    case BatchComplete => 4
    case Flush => 5
    case Flushed => 6
    case Synchronize => 7
    case Synchronized => 8
    case Close => 9
    case Exited => 10
    case Initialize => 11
    case Ready => 12
    case Pause => 13
  }

  function BodyTypeByte(k: BodyType): (n: byte)
    ensures n < 6 && BODY_TYPES[n] == k
  {
    match k
    case NoBody => 0
    case Utf8 => 1
    case Cbor => 2
    case MessagePack => 3
    case Json => 4
    case Bson => 5
  }

  function FlagBytes(flags: set<Flag>): (bs: seq<byte>)
    ensures |bs| == 4
  {
    [if TypeTag in flags then 1 else 0, if Body in flags then 1 else 0,
     if Failure in flags then 1 else 0, if Argument in flags then 1 else 0]
  }

  function FlagsOf(bs: seq<byte>): set<Flag>
    requires |bs| == 4
  {
    (if bs[0] == 1 then {TypeTag} else {}) + (if bs[1] == 1 then {Body} else {})
    + (if bs[2] == 1 then {Failure} else {}) + (if bs[3] == 1 then {Argument} else {})
  }

  lemma FlagsRead(flags: set<Flag>)
    ensures FlagsOf(FlagBytes(flags)) == flags
  {
    forall f: Flag
      ensures f in FlagsOf(FlagBytes(flags)) <==> f in flags
    {
      match f
      case TypeTag =>
      case Body =>
      case Failure =>
      case Argument =>
    }
  }

  /** The fixed part: fourteen bytes. */
  function Fixed(h: Header): (bs: seq<byte>)
    ensures |bs| == 14
  {
    [KindByte(h.kind), BodyTypeByte(h.bodyType)] + FlagBytes(h.flags) + Be(h.argument as nat, 8)
  }

  function Pack(p: Packet): seq<byte> {
    Fixed(p.header) + (MarkedOption(p.header.tag) + MarkedOption(p.body))
  }

  function Argument64(n: nat): u64 {
    if n < MAX_BODY then n as u64 else 0
  }

  function Unpack(s: seq<byte>): Option<Packet> {
    if |s| < 14 || s[0] as nat >= |KINDS| || s[1] as nat >= |BODY_TYPES| then None
    else
      match ReadOption(s[14..])
      case Fail => None
      case Read(tag, rest) =>
        match ReadOption(rest)
        case Fail => None
        case Read(body, _) =>
          Some(Packet(Header(KINDS[s[0]], tag, FlagsOf(s[2..6]), BODY_TYPES[s[1]], Argument64(Num(s[6..14]))), body))
  }

  lemma FixedReads(h: Header)
    ensures var s := Fixed(h);
            && s[0] == KindByte(h.kind) && s[1] == BodyTypeByte(h.bodyType)
            && FlagsOf(s[2..6]) == h.flags && Argument64(Num(s[6..14])) == h.argument
  {
    var s := Fixed(h);
    assert s[2..6] == FlagBytes(h.flags) && s[6..14] == Be(h.argument as nat, 8);
    FlagsRead(h.flags);
    SizeFits();
    NumBe(h.argument as nat, 8);
  }

  lemma UnpackPack(p: Packet)
    ensures Unpack(Pack(p)) == Some(p)
  {
    var s, fixed := Pack(p), Fixed(p.header);
    var tag, body := MarkedOption(p.header.tag), MarkedOption(p.body);
    FixedReads(p.header);
    assert s[2..6] == fixed[2..6] && s[6..14] == fixed[6..14];
    assert s[14..] == tag + body;
    OptionReads(p.header.tag, body);
    OptionReads(p.body, []);
    assert body + [] == body;
  }

  // ---------------------------------------------------------------- text

  function CharOf(n: nat): char {
    if n < 0xD800 || 0xE000 <= n < 0x11_0000 then n as char else '?'
  }

  function TextBytes(s: string): (bs: seq<byte>)
    ensures |bs| == 3 * |s|
  {
    if s == "" then [] else Be(s[0] as nat, 3) + TextBytes(s[1..])
  }

  function TextOf(bs: seq<byte>): string {
    if |bs| < 3 then "" else [CharOf(Num(bs[..3]))] + TextOf(bs[3..])
  }

  lemma {:induction false} TextReads(s: string)
    ensures TextOf(TextBytes(s)) == s
  {
    if s != "" {
      var bs := TextBytes(s);
      assert bs[..3] == Be(s[0] as nat, 3) && bs[3..] == TextBytes(s[1..]);
      assert Pow256(3) == 0x100_0000;
      NumBe(s[0] as nat, 3);
      TextReads(s[1..]);
    }
  }

  // ---------------------------------------------------------------- the packing, and a run over it

  /** A codec for a world with one message. */
  function PlainCodec(m: Message): Codec {
    Codec(x => true, x => "M", tag => tag == "M",
          (k, x) => if x == m then Ok([]) else Err("unknown message"),
          (k, tag, bytes) => if tag == "M" then Ok(m) else Err(TypeTagNotRegistered(tag)),
          TextBytes, TextOf)
  }

  function Plain(m: Message): Packing {
    Packing(PlainCodec(m), Pack, Unpack)
  }

  lemma PlainFaithful(m: Message)
    ensures Faithful(Plain(m))
  {
    var codec := PlainCodec(m);
    forall s: string ensures codec.text(codec.utf8(s)) == s {
      TextReads(s);
    }
    assert Inverts(codec);
    forall x: Packet ensures Unpack(Pack(x)) == Some(x) {
      UnpackPack(x);
    }
  }

  /** A request for the message, under an id. */
  function Asking(m: Message, mid: u64): Item {
    Item.Send(mid, m, true)
  }

  lemma AskingFits(m: Message, mid: u64)
    ensures var link := LinkOf(Plain(m)); Sendable(link, Asking(m, mid)) && |BodyOf(link, Asking(m, mid))| == 24
  {
    var x := Asking(m, mid);
    var packed := Packed(PlainCodec(m), x, Cbor);
    assert packed.Done? && |packed.value.header.tag.value| == 3 && packed.value.body == Some([]);
    assert PackItem(Plain(m), x) == Some(Pack(packed.value));
  }

  /** A write fails with n bytes through, short of the whole frame, and is then repeated. */
  lemma RetriedRun<I>(link: Link<I>, x: I, n: nat) returns (b: Books<I>)
    requires Sendable(link, x) && |BodyOf(link, x)| < MAX_BODY && n < |Frame(BodyOf(link, x))|
    ensures Kept(link, b) && FitsAll(link, b.log) && ProperCuts(link, b.log)
    ensures b.enqueued == Written(b.log) == [x] && |b.log| == 2 && b.log[0].cut == Some(Cut(x, n))
  {
    var b0 := FirstTry(link, x, n);
    b := SecondTry(link, x, b0);
    RetriedLog(link, x, n, b.log);
  }

  lemma RetriedLog<I>(link: Link<I>, x: I, n: nat, log: seq<Trace<I>>)
    requires Sendable(link, x) && |BodyOf(link, x)| < MAX_BODY && n < |Frame(BodyOf(link, x))|
    requires LogOk(link, log) && log == [Trace([], Some(Cut(x, n))), Trace([x], None)]
    ensures FitsAll(link, log) && ProperCuts(link, log) && Written(log) == [x]
  {
    RetriedWritten(x, n, log);
    forall i | 0 <= i < |log|
      ensures Fits(link, Attempts(log[i])) && !WholeCut(link, log[i])
    {
      assert i == 0 || i == 1;
    }
  }

  lemma RetriedWritten<I>(x: I, n: nat, log: seq<Trace<I>>)
    requires log == [Trace([], Some(Cut(x, n))), Trace([x], None)]
    ensures Written(log) == [x] && Attempts(log[0]) == [x] && Attempts(log[1]) == [x]
  {
    WrittenGrows([], log[0]);
    WrittenGrows([log[0]], log[1]);
    assert [] + [log[0]] == [log[0]] && [log[0]] + [log[1]] == log;
  }

  /**
   What `EndToEnd` asks for can be had: a faithful packing, and a run that writes a request after a first write
   of it failed in the middle of its frame.
   */
  lemma EndToEndApplies(m: Message, mid: u64) returns (p: Packing, b: Books<Item>)
    ensures Faithful(p) && Kept(LinkOf(p), b) && FitsAll(LinkOf(p), b.log) && ProperCuts(LinkOf(p), b.log)
    ensures b.enqueued == Written(b.log) == [Asking(m, mid)] && |b.log| == 2 && b.log[0].cut.Some?
    ensures |DecodeEach(b.streams)| == 1 && ReadBody(p, DecodeEach(b.streams)[0]) == Some(Done(Asking(m, mid)))
  {
    p := Plain(m);
    PlainFaithful(m);
    AskingFits(m, mid);
    b := RetriedRun(LinkOf(p), Asking(m, mid), 7);
    EndToEnd(p, b);
    AskingArrives(m, mid);
  }

  lemma AskingArrives(m: Message, mid: u64)
    ensures Arrival(Plain(m).codec, Asking(m, mid)) == Done(Asking(m, mid))
  {
  }
}
