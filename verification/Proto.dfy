/**
 Packets of the remote protocol: how events, actions and messages become packets, and how the peer reads
 them back.
 */
module Proto {
  import opened Wrappers
  import opened Framing

  newtype u64 = x: int | 0 <= x < 0x1_0000_0000_0000_0000

  /** A boxed message of some registered type. */
  type Message(!new, ==)

  // ---------------------------------------------------------------- errors

  datatype GenericError = GenericError(tag: string, description: string)

  datatype Error =
    | Closed
    | Full
    | TryAgain
    | NoResponse
    | NoReceivers
    | AddListenerError
    | MessageCastError
    | NotReady
    | Other(other: GenericError)
    | Serialization(text: string)
    | OtherBoxed(text: string)
    | WrongMessageType
    | TypeTagNotRegistered(tag: string)
    | Unknown(text: string)

  function DisplayGeneric(e: GenericError): string {
    "GenericError(" + e.tag + "): " + e.description
  }

  function Display(e: Error): string {
    match e
    case Closed => "Message Send Error: Closed"
    case Full => "Message Send Error: Full"
    case TryAgain => "Message receiver dropped " + "try again another receiver"
    case NoResponse => "NoResponse"
    case NoReceivers => "NoReceivers"
    case AddListenerError => "AddListenerError"
    case MessageCastError => "MessageCastError"
    case NotReady => "Not Ready"
    case Other(other) => "Other(" + DisplayGeneric(other) + ")"
    case Serialization(text) => "Serialization(" + text + ")"
    case OtherBoxed(text) => "Other(" + text + ")"
    case WrongMessageType => "WrongMessageType()"
    case TypeTagNotRegistered(tag) => "TypeTagNotRegistered(" + tag + ")"
    case Unknown(text) => "Unknown Error: " + text
  }

  // ---------------------------------------------------------------- items and packets

  datatype Action = Init(id: u64) | Flush | Sync | Close | Stats

  datatype Event =
    | Response(mid: u64, result: Result<Message, Error>)
    | Synchronized(error: Option<Error>)
    | BatchComplete(tag: string, count: u64)
    | Error(err: Error)
    | InitFailed(err: Error)
    | Stats
    | Flushed
    | Exited
    | Ready
    | Pause

  datatype Item =
    | Nop
    | Event(event: Event)
    | Action(action: Action)
    | Send(mid: u64, msg: Message, req: bool)

  datatype Kind =
    | Nop
    | Error
    | Send
    | Response
    | BatchComplete
    | Flush
    | Flushed
    | Synchronize
    | Synchronized
    | Close
    | Exited
    | Initialize
    | Ready
    | Pause

  datatype BodyType = NoBody | Utf8 | Cbor | MessagePack | Json | Bson

  datatype Flag = TypeTag | Body | Failure | Argument

  datatype Header = Header(kind: Kind, tag: Option<seq<byte>>, flags: set<Flag>, bodyType: BodyType, argument: u64)

  datatype Packet = Packet(header: Header, body: Option<seq<byte>>)

  datatype Fault = UnknownCodec | SerdeErased(text: string) | NoBodyGiven | ArgumentExpected | BodyExpected

  datatype Panic = NoTypeTag | Unimplemented | Unreachable

  datatype Outcome<+T> = Done(value: T) | Failed(fault: Fault) | Panicked(panic: Panic)

  /** The libraries underneath: message (de)serializers, the type registry and text encoding. */
  datatype Codec = Codec(
    shared: Message -> bool,
    tag: Message -> string,
    registered: string -> bool,
    encode: (BodyType, Message) -> Result<seq<byte>, string>,
    decode: (BodyType, string, seq<byte>) -> Result<Message, Error>,
    utf8: string -> seq<byte>,
    text: seq<byte> -> string
  )

  /** The codec inverts itself on registered types, refuses the others, and text survives. */
  ghost predicate Inverts(codec: Codec) {
    && (forall s: string :: codec.text(codec.utf8(s)) == s)
    && forall k: BodyType, m: Message | codec.encode(k, m).Ok? ::
         codec.decode(k, codec.tag(m), codec.encode(k, m).value)
         == if codec.registered(codec.tag(m)) then Ok(m) else Err(TypeTagNotRegistered(codec.tag(m)))
  }

  // ---------------------------------------------------------------- serialize

  predicate Known(k: BodyType) {
    k.Cbor? || k.Json?
  }

  function GenericSerialize(codec: Codec, k: BodyType, msg: Message): Outcome<seq<byte>> {
    if !Known(k) then Failed(UnknownCodec)
    else
      match codec.encode(k, msg)
      case Ok(bytes) => Done(bytes)
      case Err(text) => Failed(SerdeErased(text))
  }

  function Bare(kind: Kind, k: BodyType): Packet {
    Packet(Header(kind, None, {}, k, 0), None)
  }

  /** An error travels as its text under the tag "GenericError". */
  function ErrorPacket(codec: Codec, kind: Kind, flags: set<Flag>, argument: u64, e: Error): Packet {
    Packet(Header(kind, Some(codec.utf8("GenericError")), flags + {Failure, Body, TypeTag}, Utf8, argument),
           Some(codec.utf8(Display(e))))
  }

  function MessagePacket(codec: Codec, kind: Kind, flags: set<Flag>, k: BodyType, mid: u64,
      msg: Message): Outcome<Packet> {
    if !codec.shared(msg) then Failed(UnknownCodec)
    else
      match GenericSerialize(codec, k, msg)
      case Done(bytes) =>
        Done(Packet(Header(kind, Some(codec.utf8(codec.tag(msg))), flags + {Body, TypeTag}, k, mid), Some(bytes)))
      case Failed(fault) => Failed(fault)
      case Panicked(panic) => Panicked(panic)
  }

  function PackedAction(a: Action, k: BodyType): Outcome<Packet> {
    match a
    case Init(_) => Done(Bare(Kind.Initialize, k))
    case Flush => Done(Bare(Kind.Flush, k))
    case Sync => Done(Bare(Kind.Synchronize, k))
    case Close => Done(Bare(Kind.Close, k))
    case Stats => Panicked(Unimplemented)
  }

  function PackedEvent(codec: Codec, ev: Event, k: BodyType): Outcome<Packet> {
    match ev
    case Response(mid, Ok(msg)) => MessagePacket(codec, Kind.Response, {Argument}, k, mid, msg)
    case Response(mid, Err(e)) => Done(ErrorPacket(codec, Kind.Response, {Argument}, mid, e))
    case Synchronized(None) => Done(Bare(Kind.Synchronized, k))
    case Synchronized(Some(e)) => Done(ErrorPacket(codec, Kind.Synchronized, {}, 0, e))
    case BatchComplete(tag, n) =>
      Done(Packet(Header(Kind.BatchComplete, Some(codec.utf8(tag)), {TypeTag, Argument}, k, n), None))
    case Error(e) => Done(ErrorPacket(codec, Kind.Error, {}, 0, e))
    case InitFailed(e) => Done(ErrorPacket(codec, Kind.Ready, {}, 0, e))
    case Stats => Panicked(Unimplemented)
    case Flushed => Done(Bare(Kind.Flushed, k))
    case Exited => Done(Bare(Kind.Exited, k))
    case Ready => Done(Bare(Kind.Ready, k))
    case Pause => Done(Bare(Kind.Pause, k))
  }

  /** The packet of an item. */
  function Packed(codec: Codec, item: Item, k: BodyType): Outcome<Packet> {
    match item
    case Nop => Done(Bare(Kind.Nop, k))
    case Action(a) => PackedAction(a, k)
    case Send(mid, msg, req) => MessagePacket(codec, Kind.Send, if req then {Argument} else {}, k, mid, msg)
    case Event(ev) => PackedEvent(codec, ev, k)
  }

  /** The error an item carries. */
  function Carried(item: Item): Option<Error> {
    match item
    case Event(Response(_, Err(e))) => Some(e)
    case Event(Synchronized(Some(e))) => Some(e)
    case Event(Error(e)) => Some(e)
    case Event(InitFailed(e)) => Some(e)
    case _ => None
  }

  /** The message an item carries. */
  function MessageIn(item: Item): Option<Message> {
    match item
    case Send(_, msg, _) => Some(msg)
    case Event(Response(_, Ok(msg))) => Some(msg)
    case _ => None
  }

  /** The kind under which an item travels; a failed initialization travels as Ready with an error. */
  predicate TravelsAs(item: Item, kind: Kind) {
    match kind
    case Nop => item.Nop?
    case Error => item.Event? && item.event.Error?
    case Send => item.Send?
    case Response => item.Event? && item.event.Response?
    case BatchComplete => item.Event? && item.event.BatchComplete?
    case Flush => item == Action(Action.Flush)
    case Flushed => item == Event(Event.Flushed)
    case Synchronize => item == Action(Action.Sync)
    case Synchronized => item.Event? && item.event.Synchronized?
    case Close => item == Action(Action.Close)
    case Exited => item == Event(Event.Exited)
    case Initialize => item.Action? && item.action.Init?
    case Ready => item == Event(Event.Ready) || (item.Event? && item.event.InitFailed?)
    case Pause => item == Event(Event.Pause)
  }

  lemma PackedKind(codec: Codec, item: Item, k: BodyType)
    requires Packed(codec, item, k).Done?
    ensures TravelsAs(item, Packed(codec, item, k).value.header.kind)
  {
  }

  /**
   The flags of a packet say what it holds: a type tag, a body, an error in place of the body, and an argument for
   responses, batch reports and messages that ask for a response.
   */
  lemma FlagsMean(codec: Codec, item: Item, k: BodyType)
    requires Packed(codec, item, k).Done?
    ensures var p := Packed(codec, item, k).value; var h := p.header;
      && (TypeTag in h.flags <==> h.tag.Some?) && (Body in h.flags <==> p.body.Some?)
      && (Failure in h.flags <==> Carried(item).Some?)
      && (Argument in h.flags <==>
            || (item.Event? && (item.event.Response? || item.event.BatchComplete?)) || (item.Send? && item.req))
      && h.bodyType == (if Carried(item).Some? then Utf8 else k)
  {
    match item
    case Event(ev) => EventFlagsMean(codec, ev, k);
    case _ =>
  }

  lemma EventFlagsMean(codec: Codec, ev: Event, k: BodyType)
    requires PackedEvent(codec, ev, k).Done?
    ensures var p := PackedEvent(codec, ev, k).value; var h := p.header;
      && (TypeTag in h.flags <==> h.tag.Some?) && (Body in h.flags <==> p.body.Some?)
      && (Failure in h.flags <==> Carried(Event(ev)).Some?)
      && (Argument in h.flags <==> ev.Response? || ev.BatchComplete?)
      && h.bodyType == (if Carried(Event(ev)).Some? then Utf8 else k)
  {
  }

  /** What stands in the tag, the body and the argument. */
  lemma FieldsMean(codec: Codec, item: Item, k: BodyType)
    requires Packed(codec, item, k).Done?
    ensures var p := Packed(codec, item, k).value; var h := p.header;
      && h.argument == (if item.Send? then item.mid
                        else if item.Event? && item.event.Response? then item.event.mid
                        else if item.Event? && item.event.BatchComplete? then item.event.count
                        else 0)
      && h.tag == (if Carried(item).Some? then Some(codec.utf8("GenericError"))
                   else if MessageIn(item).Some? then Some(codec.utf8(codec.tag(MessageIn(item).value)))
                   else if item.Event? && item.event.BatchComplete? then Some(codec.utf8(item.event.tag))
                   else None)
      && (Carried(item).Some? ==> p.body == Some(codec.utf8(Display(Carried(item).value))))
      && (MessageIn(item).Some? ==>
            codec.encode(k, MessageIn(item).value).Ok? && p.body == Some(codec.encode(k, MessageIn(item).value).value))
  {
  }

  /** `flags.set(flag, on)` */
  function SetFlag(flags: set<Flag>, flag: Flag, on: bool): set<Flag> {
    if on then flags + {flag} else flags - {flag}
  }

  method Serialize(codec: Codec, item: Item, preferred: BodyType) returns (r: Outcome<Packet>)
    ensures r == Packed(codec, item, preferred)
  {
    var bodyType := preferred;
    var argument: u64 := 0;
    var tag: Option<string> := None;
    var body: Option<seq<byte>> := None;
    var flags: set<Flag> := {};
    var kind: Kind;
    match item {
      case Nop => kind := Kind.Nop;
      case Action(Close) => kind := Kind.Close;
      case Action(Flush) => kind := Kind.Flush;
      case Action(Init(_)) => kind := Kind.Initialize;
      case Action(Sync) => kind := Kind.Synchronize;
      case Action(Stats) => return Panicked(Unimplemented);
      case Send(mid, msg, req) =>
        if !codec.shared(msg) {
          return Failed(UnknownCodec);
        }
        argument := mid;
        flags := SetFlag(flags, Argument, req);
        flags := SetFlag(flags, Body, true);
        flags := SetFlag(flags, TypeTag, true);
        tag := Some(codec.tag(msg));
        var bytes := GenericSerialize(codec, bodyType, msg);
        if !bytes.Done? {
          return Failed(bytes.fault);
        }
        body := Some(bytes.value);
        kind := Kind.Send;
      case Event(Response(mid, res)) =>
        argument := mid;
        flags := SetFlag(flags, Argument, true);
        flags := SetFlag(flags, Body, true);
        flags := SetFlag(flags, TypeTag, true);
        match res {
          case Ok(msg) =>
            if !codec.shared(msg) {
              return Failed(UnknownCodec);
            }
            tag := Some(codec.tag(msg));
            var bytes := GenericSerialize(codec, bodyType, msg);
            if !bytes.Done? {
              return Failed(bytes.fault);
            }
            body := Some(bytes.value);
          case Err(e) =>
            flags := SetFlag(flags, Failure, true);
            tag, bodyType, body := Some("GenericError"), Utf8, Some(codec.utf8(Display(e)));
        }
        kind := Kind.Response;
      case Event(Error(e)) =>
        flags := SetFlag(flags, Failure, true);
        flags := SetFlag(flags, Body, true);
        flags := SetFlag(flags, TypeTag, true);
        tag, bodyType, body := Some("GenericError"), Utf8, Some(codec.utf8(Display(e)));
        kind := Kind.Error;
      case Event(BatchComplete(tt, n)) =>
        argument := n;
        tag := Some(tt);
        flags := SetFlag(flags, TypeTag, true);
        flags := SetFlag(flags, Argument, true);
        kind := Kind.BatchComplete;
      case Event(Synchronized(res)) =>
        match res {
          case None =>
          case Some(e) =>
            flags := SetFlag(flags, Body, true);
            flags := SetFlag(flags, Failure, true);
            flags := SetFlag(flags, TypeTag, true);
            tag, bodyType, body := Some("GenericError"), Utf8, Some(codec.utf8(Display(e)));
        }
        kind := Kind.Synchronized;
      case Event(InitFailed(e)) =>
        flags := SetFlag(flags, Body, true);
        flags := SetFlag(flags, Failure, true);
        flags := SetFlag(flags, TypeTag, true);
        tag, bodyType, body := Some("GenericError"), Utf8, Some(codec.utf8(Display(e)));
        kind := Kind.Ready;
      case Event(Ready) => kind := Kind.Ready;
      case Event(Pause) => kind := Kind.Pause;
      case Event(Exited) => kind := Kind.Exited;
      case Event(Flushed) => kind := Kind.Flushed;
      case Event(Stats) => return Panicked(Unimplemented);
    }
    var tagBytes := if tag.Some? then Some(codec.utf8(tag.value)) else None;
    assert flags == Packed(codec, item, preferred).value.header.flags;
    return Done(Packet(Header(kind, tagBytes, flags, bodyType, argument), body));
  }

  // ---------------------------------------------------------------- deserialize

  function ReadTag(codec: Codec, h: Header): Option<string> {
    if TypeTag in h.flags && h.tag.Some? then Some(codec.text(h.tag.value)) else None
  }

  datatype Contents = Contents(body: Option<Message>, error: Option<Error>)

  function ReadContents(codec: Codec, p: Packet): Outcome<Contents> {
    var tag := ReadTag(codec, p.header);
    if Failure in p.header.flags then
      if tag.None? then Panicked(NoTypeTag)
      else Done(Contents(None,
          Some(Other(GenericError(tag.value, if p.body.Some? then codec.text(p.body.value) else "")))))
    else if TypeTag in p.header.flags && Body in p.header.flags then
      if p.body.None? then Failed(NoBodyGiven)
      else if !Known(p.header.bodyType) then Failed(UnknownCodec)
      else if tag.None? then Panicked(NoTypeTag)
      else
        match codec.decode(p.header.bodyType, tag.value, p.body.value)
        case Ok(msg) => Done(Contents(Some(msg), None))
        case Err(e) => Done(Contents(None, Some(e)))
    else Done(Contents(None, None))
  }

  /** The kinds left over once the event kinds are taken out. */
  function ReadAction(h: Header, c: Contents): Outcome<Item> {
    match h.kind
    case Initialize => Done(Action(Init(h.argument)))
    case Close => Done(Action(Action.Close))
    case Flush => Done(Action(Action.Flush))
    case Synchronize => Done(Action(Sync))
    case Send =>
      if c.body.None? then Failed(BodyExpected)
      else Done(Item.Send(h.argument, c.body.value, Argument in h.flags))
    case Nop => Done(Item.Nop)
    case _ => Panicked(Unreachable)
  }

  function ReadItem(h: Header, tag: Option<string>, c: Contents): Outcome<Item> {
    match h.kind
    case Response =>
      if Argument !in h.flags then Failed(ArgumentExpected)
      else if c.error.Some? then Done(Event(Event.Response(h.argument, Err(c.error.value))))
      else if c.body.Some? then Done(Event(Event.Response(h.argument, Ok(c.body.value))))
      else Failed(BodyExpected)
    case Synchronized => Done(Event(Event.Synchronized(c.error)))
    case Error => if c.error.None? then Failed(BodyExpected) else Done(Event(Event.Error(c.error.value)))
    case BatchComplete =>
      if tag.None? then Panicked(NoTypeTag) else Done(Event(Event.BatchComplete(tag.value, h.argument)))
    case Flushed => Done(Event(Event.Flushed))
    case Exited => Done(Event(Event.Exited))
    case Ready => Done(Event(Event.Ready))
    case Pause => Done(Event(Event.Pause))
    case _ => ReadAction(h, c)
  }

  function Deserialize(codec: Codec, p: Packet): Outcome<Item> {
    match ReadContents(codec, p)
    case Done(c) => ReadItem(p.header, ReadTag(codec, p.header), c)
    case Failed(fault) => Failed(fault)
    case Panicked(panic) => Panicked(panic)
  }

  // ---------------------------------------------------------------- what survives a hop

  /** How an error looks on the other side. */
  function Flattened(e: Error): Error {
    Other(GenericError("GenericError", Display(e)))
  }

  function ArrivalOfEvent(codec: Codec, ev: Event): Outcome<Item> {
    match ev
    case Response(mid, Ok(msg)) =>
      var tag := codec.tag(msg);
      Done(Event(Event.Response(mid, if codec.registered(tag) then Ok(msg) else Err(TypeTagNotRegistered(tag)))))
    case Response(mid, Err(e)) => Done(Event(Event.Response(mid, Err(Flattened(e)))))
    case Synchronized(Some(e)) => Done(Event(Event.Synchronized(Some(Flattened(e)))))
    case Error(e) => Done(Event(Event.Error(Flattened(e))))
    case InitFailed(_) => Done(Event(Event.Ready))
    case _ => Done(Event(ev))
  }

  /** What the peer gets out of an item. */
  function Arrival(codec: Codec, item: Item): Outcome<Item> {
    match item
    case Action(Init(_)) => Done(Action(Init(0)))
    case Send(_, msg, _) => if codec.registered(codec.tag(msg)) then Done(item) else Failed(BodyExpected)
    case Event(ev) => ArrivalOfEvent(codec, ev)
    case _ => Done(item)
  }

  lemma ErrorArrives(codec: Codec, kind: Kind, flags: set<Flag>, argument: u64, e: Error)
    requires Inverts(codec)
    ensures var p := ErrorPacket(codec, kind, flags, argument, e);
            Deserialize(codec, p) == ReadItem(p.header, Some("GenericError"), Contents(None, Some(Flattened(e))))
  {
  }

  lemma MessageArrives(codec: Codec, kind: Kind, flags: set<Flag>, k: BodyType, mid: u64, msg: Message)
    requires Inverts(codec) && Failure !in flags && MessagePacket(codec, kind, flags, k, mid, msg).Done?
    ensures var p := MessagePacket(codec, kind, flags, k, mid, msg).value;
            var tag := codec.tag(msg);
            Deserialize(codec, p)
            == ReadItem(p.header, Some(tag),
                        if codec.registered(tag) then Contents(Some(msg), None)
                            else Contents(None, Some(TypeTagNotRegistered(tag))))
  {
  }

  lemma ResponseArrives(codec: Codec, mid: u64, r: Result<Message, Error>, k: BodyType)
    requires Inverts(codec) && PackedEvent(codec, Event.Response(mid, r), k).Done?
    ensures Deserialize(codec, PackedEvent(codec, Event.Response(mid, r), k).value)
         == ArrivalOfEvent(codec, Event.Response(mid, r))
  {
    match r
    case Ok(msg) => MessageArrives(codec, Kind.Response, {Argument}, k, mid, msg);
    case Err(e) => ErrorArrives(codec, Kind.Response, {Argument}, mid, e);
  }

  lemma EventArrives(codec: Codec, ev: Event, k: BodyType)
    requires Inverts(codec) && PackedEvent(codec, ev, k).Done?
    ensures Deserialize(codec, PackedEvent(codec, ev, k).value) == ArrivalOfEvent(codec, ev)
  {
    match ev
    case Response(mid, r) => ResponseArrives(codec, mid, r, k);
    case Synchronized(Some(e)) => ErrorArrives(codec, Kind.Synchronized, {}, 0, e);
    case Error(e) => ErrorArrives(codec, Kind.Error, {}, 0, e);
    case InitFailed(e) => ErrorArrives(codec, Kind.Ready, {}, 0, e);
    case _ =>
  }

  /** Reading back a serialized item gives its arrival: no error besides, and never a panic. */
  lemma RoundTrip(codec: Codec, item: Item, k: BodyType)
    requires Inverts(codec) && Packed(codec, item, k).Done?
    ensures Deserialize(codec, Packed(codec, item, k).value) == Arrival(codec, item)
  {
    match item
    case Send(mid, msg, req) => MessageArrives(codec, Kind.Send, if req then {Argument} else {}, k, mid, msg);
    case Event(ev) => EventArrives(codec, ev, k);
    case _ =>
  }

  /** Which items have a packet at all. */
  lemma Serializable(codec: Codec, item: Item, k: BodyType)
    ensures Packed(codec, item, k).Done? <==>
            && item != Action(Action.Stats) && item != Event(Event.Stats)
            && (MessageIn(item).Some? ==>
                  && codec.shared(MessageIn(item).value) && (k.Cbor? || k.Json?)
                  && codec.encode(k, MessageIn(item).value).Ok?)
  {
  }

  /** Displaying an error that came over the wire always adds to its text. */
  lemma DisplayGrows(e: Error)
    ensures Flattened(e) != e
  {
    if e.Other? && e.other.tag == "GenericError" {
      assert |Display(e)| > |e.other.description|;
    }
  }

  /** The normal form of an item is the item itself exactly under these conditions. */
  lemma ArrivesUnchanged(codec: Codec, item: Item)
    ensures Arrival(codec, item) == Done(item) <==>
            && Carried(item).None?
            && (MessageIn(item).Some? ==> codec.registered(codec.tag(MessageIn(item).value)))
            && (item.Action? && item.action.Init? ==> item.action.id == 0)
  {
    if Carried(item).Some? {
      DisplayGrows(Carried(item).value);
    }
  }

  /** The item can be serialized, and what the peer reads is the item itself. */
  ghost predicate Survives(codec: Codec, item: Item, k: BodyType) {
    Packed(codec, item, k).Done? && Deserialize(codec, Packed(codec, item, k).value) == Done(item)
  }

  predicate IsStats(item: Item) {
    item == Action(Action.Stats) || item == Event(Event.Stats)
  }

  /**
   An item gets across unchanged exactly if it is no Stats item, carries no error, is no Init with an id other than
   0, and any message it carries is shared, has a known codec that can encode it, and is of a type registered with
   the peer.
   */
  lemma SurvivesExactly(codec: Codec, item: Item, k: BodyType)
    requires Inverts(codec)
    ensures Survives(codec, item, k) <==>
            && !IsStats(item) && Carried(item).None? && (item.Action? && item.action.Init? ==> item.action.id == 0)
            && (MessageIn(item).Some? ==>
                  var msg := MessageIn(item).value;
                  && codec.shared(msg) && (k.Cbor? || k.Json?)
                  && codec.encode(k, msg).Ok? && codec.registered(codec.tag(msg)))
  {
    Serializable(codec, item, k);
    ArrivesUnchanged(codec, item);
    if Packed(codec, item, k).Done? {
      RoundTrip(codec, item, k);
    }
  }

  /** A second hop changes what arrived only where it carries an error, whose text then grows again. */
  lemma SecondHop(codec: Codec, item: Item)
    requires Arrival(codec, item).Done?
    ensures var there := Arrival(codec, item).value;
            Arrival(codec, there) == Done(there) <==> Carried(there).None?
  {
    ArrivesUnchanged(codec, Arrival(codec, item).value);
  }

  // ---------------------------------------------------------------- packets from anywhere

  /** On which packets `deserialize` unwraps a missing type tag. */
  predicate TagMissing(p: Packet) {
    var h := p.header;
    && (TypeTag !in h.flags || h.tag.None?)
    && (|| Failure in h.flags
        || (if TypeTag in h.flags && Body in h.flags then p.body.Some? && (h.bodyType.Cbor? || h.bodyType.Json?)
           else h.kind.BatchComplete?))
  }

  /** Of all packets, well formed or not, exactly these make the reader panic; the unreachable arm is unreachable. */
  lemma PanicsExactly(codec: Codec, p: Packet)
    ensures Deserialize(codec, p).Panicked? <==> TagMissing(p)
    ensures Deserialize(codec, p) != Panicked(Unreachable) && Deserialize(codec, p) != Panicked(Unimplemented)
  {
  }

  /** The packet carries content that can be read: an error under a tag, or a tagged body in a known codec. */
  predicate Readable(p: Packet) {
    var h := p.header;
    && TypeTag in h.flags && h.tag.Some?
    && (Failure in h.flags || (Body in h.flags && p.body.Some? && (h.bodyType.Cbor? || h.bodyType.Json?)))
  }

  /**
   Of all packets, exactly those are read as a response that are marked as one, announce an argument and carry
   readable content; the result is the error sent, or what the body decodes to under the tag.
   */
  lemma ReadAsResponse(codec: Codec, p: Packet)
    ensures
      (exists mid, r :: Deserialize(codec, p) == Done(Event(Event.Response(mid, r))))
      <==> p.header.kind.Response? && Argument in p.header.flags && Readable(p)
    ensures forall mid, r :: Deserialize(codec, p) == Done(Event(Event.Response(mid, r))) ==>
      && mid == p.header.argument
      && (if Failure in p.header.flags then
            var text := if p.body.Some? then codec.text(p.body.value) else "";
            r == Err(Other(GenericError(codec.text(p.header.tag.value), text)))
          else r == codec.decode(p.header.bodyType, codec.text(p.header.tag.value), p.body.value))
  {
    if p.header.kind.Response? && Argument in p.header.flags && Readable(p) {
      var item := Deserialize(codec, p).value;
      assert Deserialize(codec, p) == Done(Event(Event.Response(item.event.mid, item.event.result)));
    }
  }

  // ---------------------------------------------------------------- what the text of an error tells

  /** The text inside "Other(...)", which two sorts of errors share. */
  function OtherText(e: Error): Option<string> {
    match e
    case Other(other) => Some("GenericError(" + other.tag + "): " + other.description)
    case OtherBoxed(text) => Some(text)
    case _ => None
  }

  /** The sort of an error, up to its payload. */
  function Sort(e: Error): nat {
    match e
    case Closed => 0
    case Full => 1
    case TryAgain => 2
    case NoResponse => 3
    case NoReceivers => 4
    case AddListenerError => 5
    case MessageCastError => 6
    case NotReady => 7
    case Serialization(_) => 8
    case WrongMessageType => 9
    case TypeTagNotRegistered(_) => 10
    case Unknown(_) => 11
    case Other(_) => 12
    case OtherBoxed(_) => 12
  }

  /** The sort read off the text. */
  function SortOf(s: string): nat
    requires |s| >= 7
  {
    match s[0]
    case 'A' => 5
    case 'S' => 8
    case 'W' => 9
    case 'T' => 10
    case 'U' => 11
    case 'O' => 12
    case 'N' => if s[2] == 't' then 7 else if s[4] == 's' then 3 else 4
    case _ =>
      if |s| < 21 then 6
      else if s[8] == 'r' then 2
      else if s[20] == 'C' then 0
      else 1
  }

  lemma SortShows(e: Error)
    ensures |Display(e)| >= 7 && SortOf(Display(e)) == Sort(e)
  {
    match e
    case Serialization(text) => Begins("Serialization(", text + ")", Display(e));
    case TypeTagNotRegistered(tag) => Begins("TypeTagNotRegistered(", tag + ")", Display(e));
    case Unknown(text) => Begins("Unknown Error: ", text, Display(e));
    case Other(_) => Begins("Other(", OtherText(e).value + ")", Display(e));
    case OtherBoxed(_) => Begins("Other(", OtherText(e).value + ")", Display(e));
    case _ =>
  }

  lemma Begins(front: string, back: string, s: string)
    requires front != "" && (s == front + back || exists a, b :: back == a + b && s == front + a + b)
    ensures |s| >= |front| && s[0] == front[0]
  {
  }

  lemma Enclosed(front: string, a: string, b: string, back: string)
    requires front + a + back == front + b + back
    ensures a == b
  {
    assert (front + a + back)[|front|..|front| + |a|] == a;
    assert |a| == |b| && (front + b + back)[|front|..|front| + |b|] == b;
  }

  /** Of the errors of one sort the text tells the payload. */
  lemma PayloadShows(e: Error, f: Error)
    requires Sort(e) == Sort(f) && Display(e) == Display(f)
    ensures e == f || (OtherText(e).Some? && OtherText(e) == OtherText(f))
  {
    match e
    case Serialization(text) => Enclosed("Serialization(", text, f.text, ")");
    case TypeTagNotRegistered(tag) => Enclosed("TypeTagNotRegistered(", tag, f.tag, ")");
    case Unknown(text) =>
      assert "Unknown Error: " + text + "" == Display(e) && "Unknown Error: " + f.text + "" == Display(f);
      Enclosed("Unknown Error: ", text, f.text, "");
    case Other(_) => Enclosed("Other(", OtherText(e).value, OtherText(f).value, ")");
    case OtherBoxed(_) => Enclosed("Other(", OtherText(e).value, OtherText(f).value, ")");
    case _ =>
  }

  /**
   An error crosses the wire as its text.  Two errors look alike on the other side exactly if they are the same, or
   both are of the sorts shown as "Other(...)" with the same text inside.
   */
  lemma TextTells(e: Error, f: Error)
    ensures Flattened(e) == Flattened(f) <==> e == f || (OtherText(e).Some? && OtherText(e) == OtherText(f))
  {
    if Display(e) == Display(f) {
      SortShows(e);
      SortShows(f);
      PayloadShows(e, f);
    } else {
      SameText(e, f);
    }
  }

  lemma SameText(e: Error, f: Error)
    requires Display(e) != Display(f)
    ensures e != f && !(OtherText(e).Some? && OtherText(e) == OtherText(f))
  {
  }
}
