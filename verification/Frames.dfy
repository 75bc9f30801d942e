/**
 The wire format: a 12-byte head of three little-endian 32-bit integers, then meta, then body;
 and the read loop of both sides, which alternates a head read with a meta+body read.
 */
module Frames {
  type Byte = b: int | 0 <= b < 256
  type Int32 = x: int | -0x8000_0000 <= x < 0x8000_0000
  type Bytes = seq<Byte>

  const HEAD_SIZE := 12

  // ---------------------------------------------------------------- integers

  /** The value of four bytes, lowest first. */
  function Unsigned(b0: int, b1: int, b2: int, b3: int): int {
    b0 + 256 * (b1 + 256 * (b2 + 256 * b3))
  }

  function EncodeInt(x: Int32): (b: Bytes)
    ensures |b| == 4
  {
    var u: int := if x < 0 then x + 0x1_0000_0000 else x;
    var v := u / 256;
    var w := v / 256;
    [u % 256, v % 256, w % 256, w / 256 % 256]
  }

  function DecodeInt(b: Bytes): Int32
    requires |b| == 4
  {
    var u := Unsigned(b[0], b[1], b[2], b[3]);
    if u >= 0x8000_0000 then u - 0x1_0000_0000 else u
  }

  lemma IntRoundTrip(x: Int32)
    ensures DecodeInt(EncodeInt(x)) == x
  {
    var u: int := if x < 0 then x + 0x1_0000_0000 else x;
    var v := u / 256;
    var w := v / 256;
    assert u == u % 256 + 256 * v && v == v % 256 + 256 * w && w == w % 256 + 256 * (w / 256);
    assert w / 256 % 256 == w / 256;
  }

  lemma IntBytes(b: Bytes)
    requires |b| == 4
    ensures EncodeInt(DecodeInt(b)) == b
  {
    var w: int := b[2] + 256 * (b[3] as int);
    var v: int := b[1] + 256 * w;
    var u: int := b[0] + 256 * v;
    assert u / 256 == v && u % 256 == b[0];
    assert v / 256 == w && v % 256 == b[1];
    assert w / 256 == b[3] && w % 256 == b[2];
  }

  // ---------------------------------------------------------------- heads

  /** RPC_MSG_HEAD. */
  datatype Head = Head(reqId: Int32, bodyLen: Int32, metaLen: Int32)

  function EncodeHead(h: Head): (b: Bytes)
    ensures |b| == HEAD_SIZE
  {
    EncodeInt(h.reqId) + EncodeInt(h.bodyLen) + EncodeInt(h.metaLen)
  }

  function DecodeHead(b: Bytes): Head
    requires |b| == HEAD_SIZE
  {
    Head(DecodeInt(b[0..4]), DecodeInt(b[4..8]), DecodeInt(b[8..12]))
  }

  lemma HeadRoundTrip(h: Head)
    ensures DecodeHead(EncodeHead(h)) == h
  {
    var b := EncodeHead(h);
    assert b[0..4] == EncodeInt(h.reqId) && b[4..8] == EncodeInt(h.bodyLen) && b[8..12] == EncodeInt(h.metaLen);
    IntRoundTrip(h.reqId);
    IntRoundTrip(h.bodyLen);
    IntRoundTrip(h.metaLen);
  }

  lemma HeadBytes(b: Bytes)
    requires |b| == HEAD_SIZE
    ensures EncodeHead(DecodeHead(b)) == b
  {
    IntBytes(b[0..4]);
    IntBytes(b[4..8]);
    IntBytes(b[8..12]);
    assert b == b[0..4] + b[4..8] + b[8..12];
  }

  /** The int in bytes i to i + 3 of b, lowest byte first, is x modulo 2^32. */
  ghost predicate IntAt(b: Bytes, i: nat, x: Int32)
    requires i + 4 <= |b|
  {
    var b0: int, b1: int, b2: int, b3: int := b[i], b[i + 1], b[i + 2], b[i + 3];
    (b0 + 256 * b1 + 65536 * b2 + 16777216 * b3 - x) % 4294967296 == 0
  }

  lemma IntWire(x: Int32)
    ensures IntAt(EncodeInt(x), 0, x)
  {
    var u: int := if x < 0 then x + 0x1_0000_0000 else x;
    var v := u / 256;
    var w := v / 256;
    assert u == u % 256 + 256 * v && v == v % 256 + 256 * w && w == w % 256 + 256 * (w / 256);
    assert w / 256 % 256 == w / 256;
    assert u % 256 + 256 * (v % 256) + 65536 * (w % 256) + 16777216 * (w / 256) == u;
  }

  lemma WireInt(b: Bytes)
    requires |b| == 4
    ensures IntAt(b, 0, DecodeInt(b))
  {
    var b0: int, b1: int, b2: int, b3: int := b[0], b[1], b[2], b[3];
    assert Unsigned(b0, b1, b2, b3) == b0 + 256 * b1 + 65536 * b2 + 16777216 * b3;
  }

  /** The wire head, byte by byte: req_id, body_size and meta_size in this order, little-endian. */
  lemma HeadWire(h: Head)
    ensures |EncodeHead(h)| == 12
    ensures IntAt(EncodeHead(h), 0, h.reqId) && IntAt(EncodeHead(h), 4, h.bodyLen) && IntAt(EncodeHead(h), 8, h.metaLen)
  {
    IntWire(h.reqId);
    IntWire(h.bodyLen);
    IntWire(h.metaLen);
  }

  /** ... and the head that twelve bytes are read as. */
  lemma WireHead(b: Bytes)
    requires |b| == 12
    ensures var h := DecodeHead(b); IntAt(b, 0, h.reqId) && IntAt(b, 4, h.bodyLen) && IntAt(b, 8, h.metaLen)
  {
    WireInt(b[0..4]);
    WireInt(b[4..8]);
    WireInt(b[8..12]);
  }

  /** recv_msg_len() can be read: both lengths are non-negative and their sum is an int. */
  predicate Readable(h: Head) {
    h.bodyLen >= 0 && h.metaLen >= 0 && h.bodyLen + h.metaLen < 0x8000_0000
  }

  // ---------------------------------------------------------------- frames

  datatype Frame = Frame(reqId: Int32, meta: Bytes, body: Bytes)

  ghost predicate ValidFrame(f: Frame) {
    |f.meta| + |f.body| < 0x8000_0000
  }

  function HeadOf(f: Frame): Head
    requires ValidFrame(f)
  {
    Head(f.reqId, |f.body|, |f.meta|)
  }

  function Encode(f: Frame): (b: Bytes)
    requires ValidFrame(f)
    ensures |b| == HEAD_SIZE + |f.meta| + |f.body|
  {
    EncodeHead(HeadOf(f)) + f.meta + f.body
  }

  /** The wire frame: twelve bytes of head, then the meta, then the body. */
  lemma FrameWire(f: Frame)
    requires ValidFrame(f)
    ensures var b := Encode(f);
            && |b| == 12 + |f.meta| + |f.body|
            && IntAt(b, 0, f.reqId) && IntAt(b, 4, |f.body|) && IntAt(b, 8, |f.meta|)
            && b[12..12 + |f.meta|] == f.meta && b[12 + |f.meta|..] == f.body
  {
    HeadWire(HeadOf(f));
  }

  ghost predicate ValidFrames(fs: seq<Frame>) {
    forall i | 0 <= i < |fs| :: ValidFrame(fs[i])
  }

  function EncodeAll(fs: seq<Frame>): Bytes
    requires ValidFrames(fs)
  {
    if fs == [] then [] else Encode(fs[0]) + EncodeAll(fs[1..])
  }

  /** The first frame of b is complete. */
  predicate Complete(b: Bytes) {
    |b| >= HEAD_SIZE &&
    var h := DecodeHead(b[..HEAD_SIZE]);
    Readable(h) && |b| >= HEAD_SIZE + h.metaLen + h.bodyLen
  }

  function FirstLen(b: Bytes): (n: nat)
    requires Complete(b)
    ensures HEAD_SIZE <= n <= |b|
  {
    var h := DecodeHead(b[..HEAD_SIZE]);
    HEAD_SIZE + h.metaLen + h.bodyLen
  }

  function First(b: Bytes): (f: Frame)
    requires Complete(b)
    ensures ValidFrame(f)
  {
    var h := DecodeHead(b[..HEAD_SIZE]);
    Frame(h.reqId, b[HEAD_SIZE..HEAD_SIZE + h.metaLen], b[HEAD_SIZE + h.metaLen..HEAD_SIZE + h.metaLen + h.bodyLen])
  }

  /** The frames the read loop delivers from a byte stream, and the bytes of the frame it is waiting for. */
  function Decode(b: Bytes): (r: (seq<Frame>, Bytes))
    ensures ValidFrames(r.0)
    decreases |b|
  {
    if !Complete(b) then ([], b)
    else
      var (fs, rest) := Decode(b[FirstLen(b)..]);
      ([First(b)] + fs, rest)
  }

  /** One turn of the read loop on the unread bytes. */
  lemma ReadTurn(stream: Bytes, frames: seq<Frame>, unread: Bytes)
    requires frames + Decode(unread).0 == Decode(stream).0 && Decode(unread).1 == Decode(stream).1
    requires Complete(unread)
    ensures frames + [First(unread)] + Decode(unread[FirstLen(unread)..]).0 == Decode(stream).0
    ensures Decode(unread[FirstLen(unread)..]).1 == Decode(stream).1
  {
    var gs := Decode(unread[FirstLen(unread)..]).0;
    assert Decode(unread).0 == [First(unread)] + gs;
    assert frames + [First(unread)] + gs == frames + ([First(unread)] + gs);
  }

  /** do_read_head / handle_read_header / do_read_msg / handle_read_msg over the bytes of one connection:
      a head read of 12 bytes, a read of meta_len + body_len bytes, and round again. */
  method ReadLoop(stream: Bytes) returns (frames: seq<Frame>, unread: Bytes)
    ensures frames == Decode(stream).0 && unread == Decode(stream).1
  {
    frames, unread := [], stream;
    while Complete(unread)
      invariant frames + Decode(unread).0 == Decode(stream).0 && Decode(unread).1 == Decode(stream).1
      decreases |unread|
    {
      ReadTurn(stream, frames, unread);
      var head := DecodeHead(unread[..HEAD_SIZE]);
      var body := HEAD_SIZE + head.metaLen;
      frames := frames + [Frame(head.reqId, unread[HEAD_SIZE..body], unread[body..body + head.bodyLen])];
      unread := unread[body + head.bodyLen..];
    }
    assert frames + [] == frames;
  }

  // ---------------------------------------------------------------- round trips

  lemma FirstOfEncode(f: Frame, b: Bytes)
    requires ValidFrame(f)
    ensures Complete(Encode(f) + b) && First(Encode(f) + b) == f
    ensures FirstLen(Encode(f) + b) == |Encode(f)| && (Encode(f) + b)[|Encode(f)|..] == b
  {
    var e := Encode(f) + b;
    assert e[..HEAD_SIZE] == EncodeHead(HeadOf(f));
    HeadRoundTrip(HeadOf(f));
  }

  lemma EncodeOfFirst(b: Bytes)
    requires Complete(b)
    ensures Encode(First(b)) == b[..FirstLen(b)]
  {
    HeadBytes(b[..HEAD_SIZE]);
    var h := DecodeHead(b[..HEAD_SIZE]);
    assert b[..FirstLen(b)] == b[..HEAD_SIZE] + b[HEAD_SIZE..HEAD_SIZE + h.metaLen] + b[HEAD_SIZE +
      h.metaLen..FirstLen(b)];
  }

  /** More bytes do not change a frame that is complete. */
  lemma FirstAppend(a: Bytes, b: Bytes)
    requires Complete(a)
    ensures Complete(a + b) && FirstLen(a + b) == FirstLen(a) && First(a + b) == First(a)
    ensures (a + b)[FirstLen(a)..] == a[FirstLen(a)..] + b
  {
    assert (a + b)[..HEAD_SIZE] == a[..HEAD_SIZE];
  }

  lemma Assoc(f: Frame, fs: seq<Frame>, gs: seq<Frame>)
    ensures [f] + fs + gs == [f] + (fs + gs)
  {
  }

  /** However a stream is cut, decoding what has arrived and then the rest is decoding the whole. */
  lemma {:induction false} DecodeAppend(a: Bytes, b: Bytes)
    ensures Decode(a + b).0 == Decode(a).0 + Decode(Decode(a).1 + b).0
    ensures Decode(a + b).1 == Decode(Decode(a).1 + b).1
    decreases |a|
  {
    if Complete(a) {
      var a' := a[FirstLen(a)..];
      FirstAppend(a, b);
      DecodeAppend(a', b);
      Assoc(First(a), Decode(a').0, Decode(Decode(a').1 + b).0);
    }
  }

  lemma Joins(b: Bytes, n: nat, x: Bytes, y: Bytes)
    requires n <= |b| && x + y == b[n..]
    ensures b[..n] + x + y == b
  {
    assert b[..n] + x + y == b[..n] + (x + y);
  }

  lemma EncodeCons(f: Frame, fs: seq<Frame>)
    requires ValidFrame(f) && ValidFrames(fs)
    ensures ValidFrames([f] + fs) && EncodeAll([f] + fs) == Encode(f) + EncodeAll(fs)
  {
    assert ([f] + fs)[1..] == fs;
  }

  lemma {:induction false} EncodeAllAppend(fs: seq<Frame>, gs: seq<Frame>)
    requires ValidFrames(fs) && ValidFrames(gs)
    ensures EncodeAll(fs + gs) == EncodeAll(fs) + EncodeAll(gs)
  {
    if fs == [] {
      assert fs + gs == gs;
    } else {
      assert (fs + gs)[1..] == fs[1..] + gs;
      EncodeAllAppend(fs[1..], gs);
    }
  }

  /** Reading the concatenated encodings recovers exactly the frames. */
  lemma {:induction false} RoundTrip(fs: seq<Frame>)
    requires ValidFrames(fs)
    ensures Decode(EncodeAll(fs)) == (fs, [])
  {
    if fs != [] {
      FirstOfEncode(fs[0], EncodeAll(fs[1..]));
      RoundTrip(fs[1..]);
      assert fs == [fs[0]] + fs[1..];
    }
  }

  /** No byte is lost or made up: on every stream whatsoever the delivered frames, encoded again,
      followed by the bytes left over are the stream. */
  lemma {:induction false} Lossless(b: Bytes)
    ensures EncodeAll(Decode(b).0) + Decode(b).1 == b
    decreases |b|
  {
    if Complete(b) {
      var n := FirstLen(b);
      var fs, rest := Decode(b[n..]).0, Decode(b[n..]).1;
      Lossless(b[n..]);
      EncodeOfFirst(b);
      EncodeCons(First(b), fs);
      Joins(b, n, EncodeAll(fs), rest);
    }
  }

  /** A proper prefix of one encoding delivers nothing. */
  lemma Incomplete(f: Frame, p: nat)
    requires ValidFrame(f) && p < |Encode(f)|
    ensures Decode(Encode(f)[..p]) == ([], Encode(f)[..p])
  {
    if p >= HEAD_SIZE {
      assert Encode(f)[..p][..HEAD_SIZE] == EncodeHead(HeadOf(f));
      HeadRoundTrip(HeadOf(f));
    }
  }

  lemma CutAt(fs: seq<Frame>, k: nat, p: nat)
    requires ValidFrames(fs) && k < |fs| && p < |Encode(fs[k])|
    ensures |EncodeAll(fs[..k])| + p <= |EncodeAll(fs)|
    ensures EncodeAll(fs)[..|EncodeAll(fs[..k])| + p] == EncodeAll(fs[..k]) + Encode(fs[k])[..p]
  {
    assert fs == fs[..k] + fs[k..];
    EncodeAllAppend(fs[..k], fs[k..]);
    assert EncodeAll(fs[k..]) == Encode(fs[k]) + EncodeAll(fs[k..][1..]);
  }

  lemma DecodeCut(fs: seq<Frame>, f: Frame, p: nat)
    requires ValidFrames(fs) && ValidFrame(f) && p < |Encode(f)|
    ensures Decode(EncodeAll(fs) + Encode(f)[..p]) == (fs, Encode(f)[..p])
  {
    RoundTrip(fs);
    Incomplete(f, p);
    DecodePart(EncodeAll(fs), fs, Encode(f)[..p]);
  }

  lemma DecodePart(b: Bytes, fs: seq<Frame>, part: Bytes)
    requires Decode(b) == (fs, []) && Decode(part) == ([], part)
    ensures Decode(b + part) == (fs, part)
  {
    DecodeAppend(b, part);
    assert [] + part == part;
    assert fs + [] == fs;
  }

  /** A stream cut anywhere yields exactly its complete frames: after k whole frames and a proper part
      of the next, the first k frames are delivered and the part is kept. */
  lemma Truncated(fs: seq<Frame>, k: nat, p: nat)
    requires ValidFrames(fs) && k < |fs| && p < |Encode(fs[k])|
    ensures |EncodeAll(fs[..k])| + p <= |EncodeAll(fs)|
    ensures Decode(EncodeAll(fs)[..|EncodeAll(fs[..k])| + p]) == (fs[..k], Encode(fs[k])[..p])
  {
    CutAt(fs, k, p);
    DecodeCut(fs[..k], fs[k], p);
  }
}
