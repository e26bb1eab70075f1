/** Frame layout and the streaming frame codec (frame.rs). */
module Frames {
  import opened Bytes
  import opened Common

  datatype FrameType =
    | Hello | HelloAck
    | PairReq | PairAck | PairConfirm
    | ClipPush | ClipAck | StageListReq | StageList | StageGet | StageItem
    | Ping | Pong | ErrorFrame

  /** A frame over any payload type: raw bytes here, symbolic payloads in the protocol model. */
  datatype Frame<P> = Frame(ty: FrameType, payload: P)

  type WireFrame = Frame<seq<byte>>

  const MAGIC: seq<byte> := [0x41, 0x43, 0x50, 0x31]
  const HEADER_LEN := 9

  function Code(t: FrameType): byte {
    match t
    case Hello => 0x01 case HelloAck => 0x02
    case PairReq => 0x10 case PairAck => 0x11 case PairConfirm => 0x12
    case ClipPush => 0x20 case ClipAck => 0x21 case StageListReq => 0x22
    case StageList => 0x23 case StageGet => 0x24 case StageItem => 0x25
    case Ping => 0x30 case Pong => 0x31 case ErrorFrame => 0x3F
  }

  function TypeOf(code: byte): (r: Result<FrameType>)
    ensures r.Ok? ==> Code(r.value) == code
    ensures r.Err? ==> forall t: FrameType :: Code(t) != code
    ensures r.Err? ==> r.error == UnknownFrameType(code)
  {
    if code == 0x01 then Ok(Hello) else if code == 0x02 then Ok(HelloAck)
    else if code == 0x10 then Ok(PairReq) else if code == 0x11 then Ok(PairAck)
    else if code == 0x12 then Ok(PairConfirm) else if code == 0x20 then Ok(ClipPush)
    else if code == 0x21 then Ok(ClipAck) else if code == 0x22 then Ok(StageListReq)
    else if code == 0x23 then Ok(StageList) else if code == 0x24 then Ok(StageGet)
    else if code == 0x25 then Ok(StageItem) else if code == 0x30 then Ok(Ping)
    else if code == 0x31 then Ok(Pong) else if code == 0x3F then Ok(ErrorFrame)
    else Err(UnknownFrameType(code))
  }

  predicate IsEncrypted(t: FrameType) {
    Code(t) >= 0x20
  }

  /** `(len as u32).to_le_bytes()`. */
  function LengthBytes(len: nat): (s: seq<byte>)
    ensures |s| == 4
  {
    LittleEndian(len % 0x1_0000_0000, 4)
  }

  /** `Frame::encode`.  The length is cast to `u32`, so it wraps for absurd payloads. */
  function Encode(f: WireFrame): (s: seq<byte>)
    ensures |s| == HEADER_LEN + |f.payload|
  {
    MAGIC + [Code(f.ty)] + LengthBytes(|f.payload|) + f.payload
  }

  /** What the first nine bytes say: a frame type and a length, or a fatal error. */
  function Header(buf: seq<byte>): (r: Result<(FrameType, nat)>)
    requires |buf| >= HEADER_LEN
    ensures r.Ok? ==> r.value.1 <= MAX_FRAME_LEN
  {
    if buf[..4] != MAGIC then Err(BadMagic) else
    var ty :- TypeOf(buf[4]);
    Pow256Values();
    var len := FromLittleEndian(buf[5..9]);
    if len > MAX_FRAME_LEN then Err(FrameTooLarge(len)) else Ok((ty, len))
  }

  /** `Frame::decode`: one frame and the bytes it used, or "need more". */
  function Decode(buf: seq<byte>): (r: Result<Option<(WireFrame, nat)>>)
    ensures r.Ok? && r.value.Some? ==> HEADER_LEN <= r.value.value.1 <= |buf|
  {
    if |buf| < HEADER_LEN then Ok(None) else
    var (ty, len) :- Header(buf);
    var total := HEADER_LEN + len;
    if |buf| < total then Ok(None) else Ok(Some((Frame(ty, buf[HEADER_LEN..total]), total)))
  }

  lemma HeaderOfEncoded(f: WireFrame, t: seq<byte>)
    ensures Header(Encode(f) + t) ==
      var n := |f.payload| % 0x1_0000_0000;
      if n > MAX_FRAME_LEN then Err(FrameTooLarge(n)) else Ok((f.ty, n))
  {
    Pow256Values();
    var n := |f.payload| % 0x1_0000_0000;
    var buf := Encode(f) + t;
    LittleEndianRoundTrip(n, 4);
    assert buf[..4] == MAGIC;
    assert buf[5..9] == LittleEndian(n, 4);
    assert TypeOf(Code(f.ty)) == Ok(f.ty);
  }

  /** Decoding an encoded frame, whatever follows, gives the frame back exactly when its payload is
      within the limit. */
  lemma EncodeDecode(f: WireFrame, t: seq<byte>)
    ensures Decode(Encode(f) + t) == Ok(Some((f, HEADER_LEN + |f.payload|))) <==> |f.payload| <= MAX_FRAME_LEN
  {
    HeaderOfEncoded(f, t);
    var buf := Encode(f) + t;
    if |f.payload| <= MAX_FRAME_LEN {
      assert buf[HEADER_LEN..HEADER_LEN + |f.payload|] == f.payload;
    }
  }

  /** An accepted frame re-encodes to exactly the bytes it consumed. */
  lemma DecodeEncode(buf: seq<byte>)
    requires Decode(buf).Ok? && Decode(buf).value.Some?
    ensures var (f, used) := Decode(buf).value.value; Encode(f) == buf[..used]
  {
    var (f, used) := Decode(buf).value.value;
    var len := used - HEADER_LEN;
    assert |f.payload| == len == FromLittleEndian(buf[5..9]) && buf[..4] == MAGIC && buf[4] == Code(f.ty);
    LengthOfBytes(buf[5..9]);
    HeaderBytes(buf, used);
  }

  lemma LengthOfBytes(s: seq<byte>)
    requires |s| == 4
    ensures LengthBytes(FromLittleEndian(s)) == s
  {
    var n := FromLittleEndian(s);
    assert n < 0x1_0000_0000 by { Pow256Values(); }
    assert n % 0x1_0000_0000 == n;
    LittleEndianOfBytes(s);
  }

  lemma HeaderBytes(buf: seq<byte>, used: nat)
    requires HEADER_LEN <= used <= |buf|
    ensures buf[..used] == buf[..4] + [buf[4]] + buf[5..9] + buf[HEADER_LEN..used]
  {
  }

  // ------------------------------------------------------------------
  // Streams
  // ------------------------------------------------------------------

  /** Everything a reader gets from a stream: the frames, then the error that ended it or the
      bytes that do not yet make a frame. */
  datatype Drained = Drained(frames: seq<WireFrame>, stop: Result<seq<byte>>)

  /** Repeated one-shot decoding of a whole byte string: the reference. */
  function DrainAll(buf: seq<byte>): Drained
    decreases |buf|
  {
    match Decode(buf)
    case Err(e) => Drained([], Err(e))
    case Ok(None) => Drained([], Ok(buf))
    case Ok(Some((f, used))) => Prepend(f, DrainAll(buf[used..]))
  }

  function Prepend(f: WireFrame, d: Drained): Drained {
    Drained([f] + d.frames, d.stop)
  }

  /** A decision about a buffer is not changed by bytes that arrive later. */
  lemma DecodeStable(buf: seq<byte>, more: seq<byte>)
    requires Decode(buf) != Ok(None)
    ensures Decode(buf + more) == Decode(buf)
  {
    assert (buf + more)[..4] == buf[..4];
    assert (buf + more)[5..9] == buf[5..9];
    if Decode(buf).Ok? {
      var (f, used) := Decode(buf).value.value;
      assert (buf + more)[HEADER_LEN..used] == buf[HEADER_LEN..used];
    }
  }

  /** Draining a buffer and then its extension is draining the whole. */
  lemma {:induction false} DrainAppend(buf: seq<byte>, more: seq<byte>)
    ensures DrainAll(buf + more) == Continue(DrainAll(buf), more)
    decreases |buf|
  {
    if Decode(buf) != Ok(None) {
      DecodeStable(buf, more);
      if Decode(buf).Ok? {
        var (f, used) := Decode(buf).value.value;
        DrainAppend(buf[used..], more);
        assert (buf + more)[used..] == buf[used..] + more;
        ContinuePrepend(f, DrainAll(buf[used..]), more);
      }
    }
  }

  lemma ContinuePrepend(f: WireFrame, d: Drained, more: seq<byte>)
    ensures Continue(Prepend(f, d), more) == Prepend(f, Continue(d, more))
  {
    if d.stop.Ok? {
      var next := DrainAll(d.stop.value + more).frames;
      assert ([f] + d.frames) + next == [f] + (d.frames + next);
    }
  }

  /** Resume a drained stream with more bytes; an error is final. */
  function Continue(d: Drained, more: seq<byte>): Drained {
    if d.stop.Err? then d else
    var next := DrainAll(d.stop.value + more);
    Drained(d.frames + next.frames, next.stop)
  }

  function Concat(chunks: seq<seq<byte>>): seq<byte> {
    if chunks == [] then [] else Concat(chunks[..|chunks| - 1]) + chunks[|chunks| - 1]
  }

  /** The codec's decoder with the buffer the transport keeps for it. */
  class FrameCodec {
    var src: seq<byte>

    constructor ()
      ensures src == []
    {
      src := [];
    }

    /** `Decoder::decode`: consumes a frame from the front of the buffer, or nothing. */
    method DecodeNext() returns (r: Result<Option<WireFrame>>)
      modifies this
      ensures match Decode(old(src)) {
        case Err(e) => r == Err(e) && src == old(src)
        case Ok(None) => r == Ok(None) && src == old(src)
        case Ok(Some((f, used))) => r == Ok(Some(f)) && src == old(src)[used..]
      }
    {
      if |src| < HEADER_LEN {
        return Ok(None);
      }
      if src[..4] != MAGIC {
        return Err(BadMagic);
      }
      var ty := TypeOf(src[4]);
      if ty.Err? {
        return Err(ty.error);
      }
      Pow256Values();
      var len := FromLittleEndian(src[5..9]);
      if len > MAX_FRAME_LEN {
        return Err(FrameTooLarge(len));
      }
      if |src| < HEADER_LEN + len {
        return Ok(None);
      }
      assert src[HEADER_LEN..HEADER_LEN + len] == src[HEADER_LEN..][..len];
      assert src[HEADER_LEN..][len..] == src[HEADER_LEN + len..];
      src := src[HEADER_LEN..];
      var payload := src[..len];
      src := src[len..];
      return Ok(Some(Frame(ty.value, payload)));
    }

    /** Read everything the buffer holds, as the framed transport does after each read. */
    method Drain() returns (d: Drained)
      modifies this
      ensures d == DrainAll(old(src))
      ensures d.stop.Ok? ==> src == d.stop.value
    {
      var frames: seq<WireFrame> := [];
      ghost var start := src;
      while true
        invariant var d := DrainAll(src); DrainAll(start) == Drained(frames + d.frames, d.stop)
        decreases |src|
      {
        var r := DecodeNext();
        if r.Err? {
          return Drained(frames, Err(r.error));
        }
        if r.value.None? {
          return Drained(frames, Ok(src));
        }
        frames := frames + [r.value.value];
      }
    }

    /** Feed a stream chunk by chunk, draining after each chunk and stopping at the first error:
        the outcome depends only on the bytes, not on how they were split. */
    method Feed(chunks: seq<seq<byte>>) returns (d: Drained)
      requires src == []
      modifies this
      ensures d == DrainAll(Concat(chunks))
    {
      var frames: seq<WireFrame> := [];
      var i := 0;
      while i < |chunks|
        invariant 0 <= i <= |chunks|
        invariant DrainAll(Concat(chunks[..i])) == Drained(frames, Ok(src))
      {
        ghost var before := Concat(chunks[..i]);
        assert chunks[..i + 1][..i] == chunks[..i];
        DrainAppend(before, chunks[i]);
        src := src + chunks[i];
        var next := Drain();
        frames := frames + next.frames;
        i := i + 1;
        if next.stop.Err? {
          ghost var rest := Suffix(chunks, i);
          DrainAppend(Concat(chunks[..i]), rest);
          return Drained(frames, next.stop);
        }
      }
      assert chunks[..i] == chunks;
      return Drained(frames, Ok(src));
    }

    /** `Encoder::encode`: appends the frame, or refuses it and leaves the buffer alone. */
    method EncodeNext(item: WireFrame) returns (r: Result<()>)
      modifies this
      ensures r.Ok? <==> |item.payload| <= MAX_FRAME_LEN
      ensures src == if r.Ok? then old(src) + Encode(item) else old(src)
    {
      var len := |item.payload|;
      if len > MAX_FRAME_LEN {
        return Err(FrameTooLarge(len % 0x1_0000_0000));
      }
      ghost var before := src;
      src := src + MAGIC;
      src := src + [Code(item.ty)];
      src := src + LengthBytes(len);
      src := src + item.payload;
      Appended(before, MAGIC, [Code(item.ty)], LengthBytes(len), item.payload);
      return Ok(());
    }
  }

  lemma Appended(s: seq<byte>, a: seq<byte>, b: seq<byte>, c: seq<byte>, d: seq<byte>)
    ensures s + a + b + c + d == s + (a + b + c + d)
  {
  }

  /** The bytes of the chunks from `i` on. */
  lemma {:induction false} Suffix(chunks: seq<seq<byte>>, i: nat) returns (s: seq<byte>)
    requires i <= |chunks|
    ensures Concat(chunks) == Concat(chunks[..i]) + s
  {
    if i == |chunks| {
      s := [];
      assert chunks[..i] == chunks;
    } else {
      var last := |chunks| - 1;
      var s' := Suffix(chunks[..last], i);
      assert chunks[..last][..i] == chunks[..i];
      s := s' + chunks[last];
    }
  }

  function EncodeAll(fs: seq<WireFrame>): seq<byte> {
    if fs == [] then [] else Encode(fs[0]) + EncodeAll(fs[1..])
  }

  /** Accounting for a whole stream: the delivered frames re-encode to exactly the bytes that were
      consumed, so nothing is invented, lost or reordered, and every frame cost at least nine bytes. */
  lemma {:induction false} DrainAccounts(buf: seq<byte>)
    ensures EncodeAll(DrainAll(buf).frames) <= buf
    ensures HEADER_LEN * |DrainAll(buf).frames| <= |buf|
    ensures DrainAll(buf).stop.Ok? ==> buf == EncodeAll(DrainAll(buf).frames) + DrainAll(buf).stop.value
    decreases |buf|
  {
    if Decode(buf).Ok? && Decode(buf).value.Some? {
      var (f, used) := Decode(buf).value.value;
      DecodeEncode(buf);
      DrainAccounts(buf[used..]);
      var fs := DrainAll(buf[used..]).frames;
      assert DrainAll(buf).frames == [f] + fs;
      EncodeAllCons(f, fs);
      PrefixAppend(buf, used, EncodeAll(fs));
    }
  }

  lemma EncodeAllCons(f: WireFrame, fs: seq<WireFrame>)
    ensures EncodeAll([f] + fs) == Encode(f) + EncodeAll(fs)
  {
    assert ([f] + fs)[1..] == fs;
  }

  lemma PrefixAppend(buf: seq<byte>, n: nat, s: seq<byte>)
    requires n <= |buf| && s <= buf[n..]
    ensures buf[..n] + s <= buf
    ensures forall r :: buf[n..] == s + r ==> buf == buf[..n] + s + r
  {
    assert buf == buf[..n] + buf[n..];
    forall r | buf[n..] == s + r ensures buf == buf[..n] + s + r {
      assert buf[..n] + (s + r) == buf[..n] + s + r;
    }
  }

  /** A stream of encoded frames is read back as the frames that were written. */
  lemma {:induction false} StreamRoundTrip(fs: seq<WireFrame>)
    requires forall i :: 0 <= i < |fs| ==> |fs[i].payload| <= MAX_FRAME_LEN
    ensures DrainAll(EncodeAll(fs)) == Drained(fs, Ok([]))
  {
    if fs != [] {
      var t := EncodeAll(fs[1..]);
      EncodeDecode(fs[0], t);
      StreamRoundTrip(fs[1..]);
      assert (Encode(fs[0]) + t)[|Encode(fs[0])|..] == t;
      assert fs == [fs[0]] + fs[1..];
    }
  }
}
