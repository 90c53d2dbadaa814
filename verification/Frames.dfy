/** The DERP frame codec of the hybrid relay: one kind byte, a big-endian 32-bit
    length and the payload. Encode/Parse specify writeFrame/readFrame; the methods
    at the end work on byte buffers in place and are proved equal to them. */
module Frames {
  import opened Basics

  type Byte = b: int | 0 <= b < 256
  type Bytes = seq<Byte>
  type Key = k: Bytes | |k| == 32 witness seq(32, i => 0)

  const SERVER_KEY: Byte := 0x01
  const CLIENT_INFO: Byte := 0x02
  const SERVER_INFO: Byte := 0x03
  const SEND_PACKET: Byte := 0x04
  const RECV_PACKET: Byte := 0x05
  const KEEP_ALIVE: Byte := 0x06
  const PING: Byte := 0x12
  const PONG: Byte := 0x13

  const MAGIC: Bytes := [0x44, 0x45, 0x52, 0x50, 0xf0, 0x9f, 0x94, 0x91]
  const PUB_KEY_LEN := 32
  const MAX_FRAME_SIZE := 65535 + 64

  /** Largest UDP payload: the 16-bit Length field of RFC 768 counts its own 8-byte header. */
  const MAX_DATAGRAM := 65535 - 8

  const TWO_32 := 0x1_0000_0000

  datatype Frame = Frame(kind: Byte, payload: Bytes)

  /** End of input before the first byte asked for, in the middle of it, or an oversized length. */
  datatype ReadError = EOF | UnexpectedEOF | TooLarge

  datatype Parsed = Good(frame: Frame, rest: Bytes) | Bad(error: ReadError)

  predicate Fits(f: Frame) {
    |f.payload| <= MAX_FRAME_SIZE
  }

  predicate AllFit(fs: seq<Frame>) {
    forall i :: 0 <= i < |fs| ==> Fits(fs[i])
  }

  function PutUint32(n: nat): (b: Bytes)
    requires n < TWO_32
    ensures |b| == 4 && Uint32(b) == n
  {
    var high, low := n / 0x1_0000, n % 0x1_0000;
    [high / 0x100, high % 0x100, low / 0x100, low % 0x100]
  }

  function Uint32(b: Bytes): (n: nat)
    requires |b| == 4
    ensures n < TWO_32
  {
    var b0: int, b1: int, b2: int := b[0], b[1], b[2];
    (b0 * 0x100 + b1) * 0x1_0000 + (b2 * 0x100 + b[3])
  }

  lemma Uint32Canonical(b: Bytes)
    requires |b| == 4
    ensures PutUint32(Uint32(b)) == b
  {
    var n := Uint32(b);
    var b0: int, b2: int := b[0], b[2];
    assert n / 0x1_0000 == b0 * 0x100 + b[1] && n % 0x1_0000 == b2 * 0x100 + b[3];
  }

  /** The length goes through a 32-bit conversion, which wraps. */
  function Header(f: Frame): (h: Bytes)
    ensures |h| == 5 && h[0] == f.kind && Uint32(h[1..5]) == |f.payload| % TWO_32
  {
    var h := [f.kind] + PutUint32(|f.payload| % TWO_32);
    assert h[1..5] == PutUint32(|f.payload| % TWO_32);
    h
  }

  function Encode(f: Frame): Bytes {
    Header(f) + f.payload
  }

  function Parse(s: Bytes): Parsed {
    if |s| == 0 then Bad(EOF)
    else if |s| < 5 then Bad(UnexpectedEOF)
    else
      var n := Uint32(s[1..5]);
      if n > MAX_FRAME_SIZE then Bad(TooLarge)
      else if |s| < 5 + n then Bad(if |s| == 5 then EOF else UnexpectedEOF)
      else Good(Frame(s[0], s[5..5 + n]), s[5 + n..])
  }

  /** The bytes on the wire: the kind, the length with its most significant byte first, the payload. */
  lemma BytesOfFrame(f: Frame)
    requires Fits(f)
    ensures var n := |f.payload|;
      Encode(f)
      == [f.kind] + [n / 0x100_0000 % 0x100, n / 0x1_0000 % 0x100, n / 0x100 % 0x100, n % 0x100] + f.payload
  {
    HeaderLength(f);
    LengthBytes(|f.payload|);
  }

  lemma HeaderLength(f: Frame)
    requires Fits(f)
    ensures Header(f) == [f.kind] + PutUint32(|f.payload|)
  {
    assert |f.payload| % TWO_32 == |f.payload|;
  }

  lemma LengthBytes(n: nat)
    requires n <= MAX_FRAME_SIZE
    ensures PutUint32(n) == [n / 0x100_0000 % 0x100, n / 0x1_0000 % 0x100, n / 0x100 % 0x100, n % 0x100]
  {
    var high, low := n / 0x1_0000, n % 0x1_0000;
    assert n == high * 0x1_0000 + low && high <= 1;
    assert n / 0x100 == high * 0x100 + low / 0x100;
  }

  function EncodeAll(fs: seq<Frame>): Bytes {
    if fs == [] then [] else Encode(fs[0]) + EncodeAll(fs[1..])
  }

  datatype Decoded = Decoded(frames: seq<Frame>, error: ReadError)

  /** What a loop around readFrame sees until its first error. */
  function DecodeAll(s: Bytes): Decoded {
    match Parse(s)
    case Bad(e) => Decoded([], e)
    case Good(f, rest) =>
      var d := DecodeAll(rest);
      Decoded([f] + d.frames, d.error)
  }

  /** A frame survives the wire exactly when its payload is within the limit. */
  lemma ParseEncode(f: Frame, rest: Bytes)
    ensures Parse(Encode(f) + rest) == Good(f, rest) <==> Fits(f)
  {
    var s := Encode(f) + rest;
    assert s[1..5] == Header(f)[1..5];
    var n := |f.payload| % TWO_32;
    if Fits(f) {
      assert s[5..5 + n] == f.payload && s[5 + n..] == rest;
    }
  }

  /** The accepted byte strings are exactly the encodings. */
  lemma ParseCanonical(s: Bytes)
    requires Parse(s).Good?
    ensures var p := Parse(s); Fits(p.frame) && s == Encode(p.frame) + p.rest
  {
    Uint32Canonical(s[1..5]);
    HeaderOf(s);
    Slices(s, 5, 5 + Uint32(s[1..5]));
  }

  lemma HeaderOf(s: Bytes)
    requires Parse(s).Good?
    ensures Header(Parse(s).frame) == s[..5]
  {
    Uint32Canonical(s[1..5]);
    assert |Parse(s).frame.payload| % TWO_32 == Uint32(s[1..5]);
    assert [s[0]] + s[1..5] == s[..5];
  }

  lemma {:induction false} EncodeAllConcat(a: seq<Frame>, b: seq<Frame>)
    ensures EncodeAll(a + b) == EncodeAll(a) + EncodeAll(b)
  {
    if a == [] {
      assert a + b == b;
    } else {
      EncodeAllConcat(a[1..], b);
      assert (a + b)[1..] == a[1..] + b;
      Assoc(Encode(a[0]), EncodeAll(a[1..]), EncodeAll(b));
    }
  }

  lemma EncodeAllSnoc(a: seq<Frame>, f: Frame)
    ensures EncodeAll(a + [f]) == EncodeAll(a) + Encode(f)
  {
    EncodeAllConcat(a, [f]);
    assert EncodeAll([f]) == Encode(f) + EncodeAll([f][1..]);
  }

  lemma DecodeStep(f: Frame, rest: Bytes, s: Bytes)
    requires Fits(f) && s == Encode(f) + rest
    ensures DecodeAll(s) == Decoded([f] + DecodeAll(rest).frames, DecodeAll(rest).error)
  {
    ParseEncode(f, rest);
  }

  /** Whatever follows them, whole frames in front are read first and unchanged. */
  lemma {:induction false} DecodeConcat(fs: seq<Frame>, tail: Bytes)
    requires AllFit(fs)
    ensures DecodeAll(EncodeAll(fs) + tail) == Decoded(fs + DecodeAll(tail).frames, DecodeAll(tail).error)
  {
    if fs == [] {
      assert EncodeAll(fs) + tail == tail;
    } else {
      var rest := EncodeAll(fs[1..]) + tail;
      Assoc(Encode(fs[0]), EncodeAll(fs[1..]), tail);
      DecodeStep(fs[0], rest, EncodeAll(fs) + tail);
      DecodeConcat(fs[1..], tail);
      ConsAppend(fs, DecodeAll(tail).frames);
    }
  }

  lemma RoundTrip(fs: seq<Frame>)
    requires AllFit(fs)
    ensures DecodeAll(EncodeAll(fs)) == Decoded(fs, EOF)
  {
    DecodeConcat(fs, []);
    assert EncodeAll(fs) + [] == EncodeAll(fs);
  }

  /** How many of the frames lie entirely within the first k bytes of their encoding. */
  function Whole(fs: seq<Frame>, k: nat): (m: nat)
    ensures m <= |fs|
  {
    if fs == [] || k < |Encode(fs[0])| then 0 else 1 + Whole(fs[1..], k - |Encode(fs[0])|)
  }

  lemma {:induction false} WholeIsMaximal(fs: seq<Frame>, k: nat)
    requires k <= |EncodeAll(fs)|
    ensures var m := Whole(fs, k);
      |EncodeAll(fs[..m])| <= k && (m < |fs| ==> k < |EncodeAll(fs[..m + 1])|)
  {
    var m := Whole(fs, k);
    if fs == [] {
    } else if k < |Encode(fs[0])| {
      assert fs[..1] == [fs[0]];
    } else {
      WholeIsMaximal(fs[1..], k - |Encode(fs[0])|);
      assert fs[..m][1..] == fs[1..][..m - 1];
      if m < |fs| {
        assert fs[..m + 1][1..] == fs[1..][..m];
      }
    }
  }

  /** A strict prefix of one encoding yields no frame and an end-of-input error. */
  lemma ParseTruncated(f: Frame, k: nat)
    requires Fits(f) && k < |Encode(f)|
    ensures Parse(Encode(f)[..k]) == Bad(if k == 0 || k == 5 then EOF else UnexpectedEOF)
  {
    var s := Encode(f)[..k];
    assert |s| == k;
    if 5 <= k {
      assert s[1..5] == Header(f)[1..5];
      assert Uint32(s[1..5]) == |f.payload|;
    }
  }

  lemma CutInFirst(fs: seq<Frame>, k: nat)
    requires fs != [] && k < |Encode(fs[0])| && Fits(fs[0])
    ensures var d := DecodeAll(EncodeAll(fs)[..k]); d.frames == [] && d.error != TooLarge
  {
    assert EncodeAll(fs)[..k] == Encode(fs[0])[..k];
    ParseTruncated(fs[0], k);
  }

  /** Cutting a stream anywhere loses exactly the frames that are not whole. */
  lemma {:induction false} TruncatedStream(fs: seq<Frame>, k: nat)
    requires AllFit(fs) && k <= |EncodeAll(fs)|
    ensures var d := DecodeAll(EncodeAll(fs)[..k]); d.frames == fs[..Whole(fs, k)] && d.error != TooLarge
  {
    var s := EncodeAll(fs);
    if fs == [] {
    } else if k < |Encode(fs[0])| {
      CutInFirst(fs, k);
    } else {
      var j := k - |Encode(fs[0])|;
      var rest := EncodeAll(fs[1..])[..j];
      assert s[..k] == Encode(fs[0]) + rest;
      TruncatedStream(fs[1..], j);
      DecodeStep(fs[0], rest, s[..k]);
      assert fs[..Whole(fs, k)] == [fs[0]] + fs[1..][..Whole(fs[1..], j)];
    }
  }

  /** The frame that hands a packet to its receiver: the sender's key, then the data. */
  function RecvPacket(src: Key, data: Bytes): (f: Frame)
    ensures |f.payload| == PUB_KEY_LEN + |data|
  {
    Frame(RECV_PACKET, src + data)
  }

  predicate IsSendPacket(f: Frame) {
    f.kind == SEND_PACKET && |f.payload| >= PUB_KEY_LEN
  }

  function Destination(f: Frame): Key
    requires IsSendPacket(f)
  {
    f.payload[..PUB_KEY_LEN]
  }

  function Data(f: Frame): Bytes
    requires IsSendPacket(f)
  {
    f.payload[PUB_KEY_LEN..]
  }

  /** Relaying an accepted packet, or any datagram RFC 768 allows, stays within the limit. */
  lemma SizeClosure(src: Key, s: Bytes, datagram: Bytes)
    ensures Parse(s).Good? && IsSendPacket(Parse(s).frame) ==> Fits(RecvPacket(src, Data(Parse(s).frame)))
    ensures |datagram| <= MAX_DATAGRAM ==> Fits(RecvPacket(src, datagram)) && |datagram| <= MAX_FRAME_SIZE
  {
    if Parse(s).Good? {
      ParseCanonical(s);
    }
  }

  /** The unread part of a connection, as the buffered reader presents it. */
  class Stream {
    var unread: Bytes

    constructor (input: Bytes)
      ensures unread == input
    {
      unread := input;
    }

    /** io.ReadFull: fills buf or fails, telling an empty read from a partial one. */
    method ReadFull(buf: array<Byte>) returns (ok: bool, error: ReadError)
      modifies this, buf
      ensures ok == (buf.Length <= |old(unread)|)
      ensures ok ==> buf[..] == old(unread)[..buf.Length] && unread == old(unread)[buf.Length..]
      ensures !ok ==> unread == [] && error == if old(unread) == [] then EOF else UnexpectedEOF
    {
      var n := 0;
      while n < buf.Length && n < |unread|
        invariant 0 <= n <= buf.Length && n <= |unread|
        invariant unread == old(unread)
        invariant buf[..n] == unread[..n]
      {
        buf[n] := unread[n];
        n := n + 1;
      }
      ok := n == buf.Length;
      error := if n == 0 then EOF else UnexpectedEOF;
      unread := unread[n..];
    }
  }

  /** readFrame: header into a 5-byte buffer, then the payload into one of the announced size. */
  method ReadFrame(r: Stream) returns (p: Parsed)
    modifies r
    ensures match Parse(old(r.unread))
            case Good(f, rest) => p == Good(f, rest) && r.unread == rest
            case Bad(e) => p == Bad(e) && r.unread == if e == TooLarge then old(r.unread)[5..] else []
  {
    var hdr := new Byte[5];
    var ok, error := r.ReadFull(hdr);
    if !ok {
      return Bad(error);
    }
    ghost var s := old(r.unread);
    assert hdr[1..5] == s[1..5];
    var frameLen := Uint32(hdr[1..5]);
    if frameLen > MAX_FRAME_SIZE {
      return Bad(TooLarge);
    }
    var payload := new Byte[frameLen];
    ok, error := r.ReadFull(payload);
    if !ok {
      return Bad(error);
    }
    assert s[5..][frameLen..] == s[5 + frameLen..];
    assert payload[..] == s[5..5 + frameLen];
    p := Good(Frame(hdr[0], payload[..]), r.unread);
  }
}
