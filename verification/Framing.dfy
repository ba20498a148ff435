/**
 The framing of the TCP relay: "MBUS", a version, a content type, a body size and the body, with "PING"
 words in between.
 */
module Framing {

  newtype byte = x: int | 0 <= x < 256

  const MBUS: seq<byte> := [0x4D, 0x42, 0x55, 0x53]
  const PING: seq<byte> := [0x50, 0x49, 0x4E, 0x47]
  const VERSION: nat := 1
  const CBOR: nat := 0
  const MAX_BODY: nat := 0x1_0000_0000_0000_0000

  // ---------------------------------------------------------------- big-endian numbers

  /** The low `width` bytes of n, most significant first. */
  function Be(n: nat, width: nat): (bs: seq<byte>)
    ensures |bs| == width
  {
    if width == 0 then [] else Be(n / 256, width - 1) + [(n % 256) as byte]
  }

  function Num(bs: seq<byte>): nat {
    if bs == [] then 0 else 256 * Num(bs[..|bs| - 1]) + bs[|bs| - 1] as nat
  }

  function Pow256(width: nat): (p: nat)
    ensures p > 0
  {
    if width == 0 then 1 else 256 * Pow256(width - 1)
  }

  lemma {:induction false} NumBe(n: nat, width: nat)
    requires n < Pow256(width)
    ensures Num(Be(n, width)) == n
  {
    if width > 0 {
      NumBe(n / 256, width - 1);
      assert Be(n, width)[..width - 1] == Be(n / 256, width - 1);
    }
  }

  lemma SizeFits()
    ensures Pow256(8) == MAX_BODY
  {
    assert Pow256(4) == 0x1_0000_0000;
    assert Pow256(8) == 256 * (256 * (256 * (256 * Pow256(4))));
  }

  // ---------------------------------------------------------------- writing

  function Header(size: nat): (h: seq<byte>)
    ensures |h| == 16
  {
    MBUS + Be(VERSION, 2) + Be(CBOR, 2) + Be(size, 8)
  }

  /** The header byte by byte: the marker, version 1, content type 0, and the size with its highest byte first. */
  lemma HeaderLayout(size: nat, i: nat)
    requires i < 8
    ensures Header(size)[..8] == [0x4D, 0x42, 0x55, 0x53, 0, 1, 0, 0]
    ensures Header(size)[8 + i] as nat == size / Pow256(7 - i) % 256
  {
    var h := Header(size);
    assert Be(VERSION, 2) == Be(0, 1) + [1] == [0, 1] && Be(CBOR, 2) == Be(0, 1) + [0] == [0, 0];
    assert h[..8] == MBUS + Be(VERSION, 2) + Be(CBOR, 2);
    assert h[8..16] == Be(size, 8) && h[8 + i] == h[8..16][i];
    BeDigit(size, 8, i);
  }

  /** Digit i of a number written with so many digits, counted from the highest. */
  lemma {:induction false} BeDigit(n: nat, width: nat, i: nat)
    requires i < width
    ensures Be(n, width)[i] as nat == n / Pow256(width - 1 - i) % 256
  {
    if i < width - 1 {
      BeDigit(n / 256, width - 1, i);
      DivDiv(n, Pow256(width - 2 - i));
    }
  }

  lemma DivDiv(n: nat, p: nat)
    requires p > 0
    ensures 256 * p > 0 && n / 256 / p == n / (256 * p)
  {
    var q, r := n / 256 / p, n / 256 % p;
    assert n / 256 == q * p + r;
    assert n == 256 * (q * p + r) + n % 256;
    assert n == q * (256 * p) + (256 * r + n % 256);
    assert 0 <= 256 * r + n % 256 < 256 * p;
    DivIs(n, 256 * p, q, 256 * r + n % 256);
  }

  lemma DivIs(n: nat, d: nat, q: nat, r: nat)
    requires d > 0 && n == q * d + r && r < d
    ensures n / d == q
  {
    if n / d < q {
      MulLess(n / d, q, d);
      assert false;
    } else if q < n / d {
      MulLess(q, n / d, d);
      assert false;
    }
  }

  lemma MulLess(a: nat, b: nat, d: nat)
    requires a < b
    ensures a * d + d <= b * d
  {
    assert (a + 1) * d == a * d + d;
  }

  function Frame(body: seq<byte>): seq<byte> {
    Header(|body|) + body
  }

  /** `Vec::resize`: cuts the buffer or pads it with zeros. */
  function Resize(buff: seq<byte>, n: nat): (r: seq<byte>)
    ensures |r| == n
  {
    if n <= |buff| then buff[..n] else buff + seq(n - |buff|, i => 0)
  }

  /** The writer's reused buffer: whatever it held before, it ends up as one frame. */
  method BuildFrame(headerBuff: seq<byte>, body: seq<byte>) returns (buff: seq<byte>)
    ensures buff == Frame(body)
  {
    buff := Resize(headerBuff, 16);
    buff := buff + body;
    var bodySize := |buff| - 16;
    var head := MBUS;
    head := head + Be(VERSION, 2);
    head := head + Be(CBOR, 2);
    head := head + Be(bodySize, 8);
    buff := head + buff[16..];
  }

  // ---------------------------------------------------------------- reading

  /** The bodies read, and whether the reader stopped at a content type it does not implement. */
  datatype Reading = Reading(bodies: seq<seq<byte>>, unimplemented: bool)

  function Decode(s: seq<byte>): Reading
    decreases |s|
  {
    if |s| < 4 then Reading([], false)
    else if s[..4] != MBUS then Decode(s[4..])
    else if |s| < 16 then Reading([], false)
    else
      var size := Num(s[8..16]);
      if |s| < 16 + size then Reading([], false)
      else if Num(s[6..8]) != CBOR then Reading([], true)
      else
        var r := Decode(s[16 + size..]);
        r.(bodies := [s[16..16 + size]] + r.bodies)
  }

  lemma HeaderParts(s: seq<byte>)
    requires |s| >= 16
    ensures s[4..][..12][2..4] == s[6..8] && s[4..][..12][4..12] == s[8..16] && s[4..][12..] == s[16..]
  {
  }

  lemma BodyParts(s: seq<byte>, size: nat)
    requires |s| >= 16 + size
    ensures s[16..][..size] == s[16..16 + size] && s[16..][size..] == s[16 + size..]
  {
  }

  /** How one round of the reader loop ends. */
  datatype Step = Ended | Again | GotBody(body: seq<byte>) | UnknownType

  /** The receiving half of a connection that has ended: the bytes not yet read. */
  class Incoming {
    var rest: seq<byte>

    constructor (s: seq<byte>)
      ensures rest == s
    {
      rest := s;
    }

    /** `read_exact`: a short read consumes what there is and fails. */
    method ReadExact(n: nat) returns (ok: bool, buff: seq<byte>)
      modifies this
      ensures ok == (n <= |old(rest)|)
      ensures if ok then buff == old(rest)[..n] && rest == old(rest)[n..] else rest == []
    {
      if n <= |rest| {
        ok, buff, rest := true, rest[..n], rest[n..];
      } else {
        ok, buff, rest := false, rest, [];
      }
    }

    /** One round of the reader loop.  A frame cut short sends it back to the top, where it finds the end. */
    method ReadFrame() returns (r: Step)
      modifies this
      ensures var rest' := Decode(rest);
              match r
              case Ended => Decode(old(rest)) == Reading([], false)
              case Again => Decode(old(rest)) == rest' && |rest| < |old(rest)|
              case GotBody(bs) => Decode(old(rest)) == rest'.(bodies := [bs] + rest'.bodies) && |rest| < |old(rest)|
              case UnknownType => Decode(old(rest)) == Reading([], true)
    {
      ghost var s := rest;
      var ok, buff := ReadExact(4);
      if !ok {
        return Ended;
      }
      if buff == PING {
        return Again;
      }
      if buff != MBUS {
        return Again;
      }
      ok, buff := ReadExact(12);
      if !ok {
        return Again;
      }
      HeaderParts(s);
      var contentType := Num(buff[2..4]);
      var bodySize := Num(buff[4..12]);
      ok, buff := ReadExact(bodySize);
      if !ok {
        return Again;
      }
      BodyParts(s, bodySize);
      return if contentType == CBOR then GotBody(buff) else UnknownType;
    }

    /** The reader loop. */
    method ReadFrames() returns (r: Reading)
      modifies this
      ensures r == Decode(old(rest))
    {
      var bodies: seq<seq<byte>> := [];
      while true
        invariant Decode(old(rest)) == Reading(bodies + Decode(rest).bodies, Decode(rest).unimplemented)
        decreases |rest|
      {
        var round := ReadFrame();
        match round {
          case Again =>
          case GotBody(body) =>
            assert bodies + ([body] + Decode(rest).bodies) == (bodies + [body]) + Decode(rest).bodies;
            bodies := bodies + [body];
          case Ended =>
            assert bodies + [] == bodies;
            return Reading(bodies, false);
          case UnknownType =>
            assert bodies + [] == bodies;
            return Reading(bodies, true);
        }
      }
    }
  }

  // ---------------------------------------------------------------- round trip

  /** What a peer may put on a connection: a frame, or a four-byte word that is not "MBUS". */
  datatype Chunk = Framed(body: seq<byte>) | Word(word: seq<byte>)

  predicate WellSized(c: Chunk) {
    match c
    case Framed(body) => |body| < MAX_BODY
    case Word(word) => |word| == 4 && word != MBUS
  }

  function ChunkBytes(c: Chunk): seq<byte> {
    match c
    case Framed(body) => Frame(body)
    case Word(word) => word
  }

  function Bytes(chunks: seq<Chunk>): seq<byte> {
    if chunks == [] then [] else ChunkBytes(chunks[0]) + Bytes(chunks[1..])
  }

  function Bodies(chunks: seq<Chunk>): seq<seq<byte>> {
    if chunks == [] then []
    else (if chunks[0].Framed? then [chunks[0].body] else []) + Bodies(chunks[1..])
  }

  /** The header announces the size and the content type. */
  lemma HeaderReads(size: nat)
    requires size < MAX_BODY
    ensures Header(size)[..4] == MBUS && Num(Header(size)[6..8]) == CBOR && Num(Header(size)[8..16]) == size
  {
    var h := Header(size);
    SizeFits();
    NumBe(size, 8);
    NumBe(CBOR, 2);
    assert h[6..8] == Be(CBOR, 2) && h[8..16] == Be(size, 8);
  }

  lemma DecodeFrame(body: seq<byte>, rest: seq<byte>)
    requires |body| < MAX_BODY
    ensures Decode(Frame(body) + rest) == Decode(rest).(bodies := [body] + Decode(rest).bodies)
  {
    var s := Frame(body) + rest;
    var h := Header(|body|);
    HeaderReads(|body|);
    assert s[..4] == h[..4] && s[6..8] == h[6..8] && s[8..16] == h[8..16];
    assert s[16..16 + |body|] == body && s[16 + |body|..] == rest;
  }

  lemma SkipWord(word: seq<byte>, rest: seq<byte>)
    requires |word| == 4 && word != MBUS
    ensures Decode(word + rest) == Decode(rest)
  {
    var s := word + rest;
    assert s[..4] == word && s[4..] == rest;
  }

  lemma SliceOf(a: seq<byte>, b: seq<byte>, n: nat, i: nat, j: nat)
    requires i <= j <= |a| && j <= n <= |a + b|
    ensures (a + b)[..n][i..j] == a[i..j]
  {
  }

  /** A frame cut anywhere yields nothing. */
  lemma DecodeCut(body: seq<byte>, n: nat)
    requires |body| < MAX_BODY && n < |Frame(body)|
    ensures Decode(Frame(body)[..n]) == Reading([], false)
  {
    var s := Frame(body)[..n];
    var h := Header(|body|);
    HeaderReads(|body|);
    if n >= 4 {
      SliceOf(h, body, n, 0, 4);
    }
    if n >= 16 {
      SliceOf(h, body, n, 8, 16);
    }
  }

  /** The first k chunks are the ones that lie within the first n bytes. */
  predicate Within(chunks: seq<Chunk>, n: nat, k: nat) {
    && k <= |chunks| && |Bytes(chunks[..k])| <= n <= |Bytes(chunks)|
    && (k < |chunks| ==> n < |Bytes(chunks[..k + 1])|)
  }

  lemma WithinRest(chunks: seq<Chunk>, n: nat, k: nat)
    requires Within(chunks, n, k) && k > 0
    ensures |ChunkBytes(chunks[0])| <= n && Within(chunks[1..], n - |ChunkBytes(chunks[0])|, k - 1)
  {
    assert chunks[..k][1..] == chunks[1..][..k - 1];
    if k < |chunks| {
      assert chunks[..k + 1][1..] == chunks[1..][..k];
    }
  }

  /** Any prefix of the byte stream yields, in order, exactly the bodies whose frames are complete. */
  lemma {:induction false} DecodePrefix(chunks: seq<Chunk>, n: nat, k: nat)
    requires (forall c <- chunks :: WellSized(c)) && Within(chunks, n, k)
    ensures Decode(Bytes(chunks)[..n]) == Reading(Bodies(chunks[..k]), false)
    decreases |chunks|
  {
    if chunks != [] {
      var first, rest := ChunkBytes(chunks[0]), Bytes(chunks[1..]);
      assert chunks[0] in chunks;
      if k == 0 {
        assert chunks[..1] == [chunks[0]] && Bytes(chunks[..1]) == first;
        assert (first + rest)[..n] == first[..n];
        if chunks[0].Framed? {
          DecodeCut(chunks[0].body, n);
        }
      } else {
        WithinRest(chunks, n, k);
        DecodePrefix(chunks[1..], n - |first|, k - 1);
        assert (first + rest)[..n] == first + rest[..n - |first|];
        assert chunks[..k][1..] == chunks[1..][..k - 1];
        if chunks[0].Framed? {
          DecodeFrame(chunks[0].body, rest[..n - |first|]);
        } else {
          SkipWord(first, rest[..n - |first|]);
        }
      }
    }
  }

  lemma DecodeAll(chunks: seq<Chunk>)
    requires forall c <- chunks :: WellSized(c)
    ensures Decode(Bytes(chunks)) == Reading(Bodies(chunks), false)
  {
    assert chunks[..|chunks|] == chunks && Bytes(chunks)[..|Bytes(chunks)|] == Bytes(chunks);
    DecodePrefix(chunks, |Bytes(chunks)|, |chunks|);
  }

  // ---------------------------------------------------------------- stray bytes

  /** None of the four-byte words the reader would look at is "MBUS". */
  ghost predicate NoMarker(junk: seq<byte>) {
    forall i :: 0 <= i && 4 * i + 4 <= |junk| ==> junk[4 * i..4 * i + 4] != MBUS
  }

  lemma NoMarkerRest(junk: seq<byte>)
    requires NoMarker(junk) && |junk| >= 4
    ensures junk[..4] != MBUS && NoMarker(junk[4..])
  {
    assert junk[4 * 0..4 * 0 + 4] == junk[..4];
    forall i | 0 <= i && 4 * i + 4 <= |junk[4..]|
      ensures junk[4..][4 * i..4 * i + 4] != MBUS
    {
      assert junk[4..][4 * i..4 * i + 4] == junk[4 * (i + 1)..4 * (i + 1) + 4];
    }
  }

  /** Sixteen bytes of every stream go to the header of each body read from it. */
  lemma {:induction false} BodiesAreShort(s: seq<byte>, body: seq<byte>)
    requires body in Decode(s).bodies
    ensures |body| + 16 <= |s|
    decreases |s|
  {
    if s[..4] != MBUS {
      BodiesAreShort(s[4..], body);
    } else {
      var size := Num(s[8..16]);
      if body != s[16..16 + size] {
        BodiesAreShort(s[16 + size..], body);
      }
    }
  }

  /** The word in which junk and frame meet is not "MBUS": the frame's "M" stands where "MBUS" has another letter. */
  lemma StraddlingWord(junk: seq<byte>, frame: seq<byte>)
    requires 0 < |junk| < 4 <= |frame| && frame[..4] == MBUS
    ensures (junk + frame)[..4] != MBUS
  {
    assert (junk + frame)[..4][|junk|] == frame[..4][0] == 0x4D;
  }

  lemma Straddled(junk: seq<byte>, frame: seq<byte>, body: seq<byte>)
    requires 0 < |junk| < 4 && |frame| == 16 + |body| && frame[..4] == MBUS
    ensures body !in Decode(junk + frame).bodies
  {
    var s := junk + frame;
    StraddlingWord(junk, frame);
    SkipWord(s[..4], s[4..]);
    assert s[..4] + s[4..] == s;
    if body in Decode(s[4..]).bodies {
      BodiesAreShort(s[4..], body);
      assert false;
    }
  }

  lemma SkipFirst(junk: seq<byte>, frame: seq<byte>)
    requires |junk| >= 4 && junk[..4] != MBUS
    ensures Decode(junk + frame) == Decode(junk[4..] + frame)
  {
    SkipWord(junk[..4], junk[4..] + frame);
    assert junk + frame == junk[..4] + (junk[4..] + frame);
  }

  lemma {:induction false} SkipWords(junk: seq<byte>, frame: seq<byte>, k: nat)
    requires NoMarker(junk) && 4 * k <= |junk|
    ensures Decode(junk + frame) == Decode(junk[4 * k..] + frame)
    decreases k
  {
    if k > 0 {
      NoMarkerRest(junk);
      SkipFirst(junk, frame);
      SkipWords(junk[4..], frame, k - 1);
      assert junk[4..][4 * (k - 1)..] == junk[4 * k..];
    }
  }

  lemma StrayCases(junk: seq<byte>, frame: seq<byte>, body: seq<byte>, k: nat)
    requires NoMarker(junk) && 4 * k <= |junk| < 4 * k + 4
    requires Decode(frame) == Reading([body], false) && |frame| == 16 + |body| && frame[..4] == MBUS
    ensures |junk| == 4 * k ==> Decode(junk + frame) == Reading([body], false)
    ensures |junk| != 4 * k ==> body !in Decode(junk + frame).bodies
  {
    var left := junk[4 * k..];
    SkipWords(junk, frame, k);
    if left == [] {
      assert left + frame == frame;
    } else {
      Straddled(left, frame, body);
    }
  }

  lemma FrameReads(body: seq<byte>)
    requires |body| < MAX_BODY
    ensures Decode(Frame(body)) == Reading([body], false) && |Frame(body)| == 16 + |body| && Frame(body)[..4] == MBUS
  {
    assert Frame(body) + [] == Frame(body);
    DecodeFrame(body, []);
    HeaderReads(|body|);
    assert Frame(body)[..4] == Header(|body|)[..4];
  }

  /**
   The reader looks for "MBUS" at every fourth byte only: behind stray bytes, in which it does not read "MBUS"
   itself, a frame is found exactly if their number is a multiple of four.
   */
  lemma StrayBytes(junk: seq<byte>, body: seq<byte>)
    requires NoMarker(junk) && |body| < MAX_BODY
    ensures body in Decode(junk + Frame(body)).bodies <==> |junk| % 4 == 0
    ensures |junk| % 4 == 0 ==> Decode(junk + Frame(body)) == Reading([body], false)
  {
    FrameReads(body);
    StrayCases(junk, Frame(body), body, |junk| / 4);
  }
}
