/** How long encodings are, and why everything the PC sends fits a frame. */
module Sizes {
  import opened Bytes
  import opened Common
  import F = Frames
  import opened Cbor
  import opened Stage
  import opened Messages
  import Utf8

  // ------------------------------------------------------------------
  // Encoded sizes
  // ------------------------------------------------------------------

  function Size(v: WireValue): nat {
    match v
    case Int(n) => HeadLen(if n >= 0 then n else -1 - n)
    case Bytes(b) => HeadLen(|b|) + |b|
    case Text(s) => HeadLen(|Utf8.Encode(s)|) + |Utf8.Encode(s)|
    case Array(items) => HeadLen(|items|) + SizeItems(items)
    case Map(es) => HeadLen(|es|) + SizeEntries(es)
  }

  function SizeItems(items: seq<WireValue>): nat {
    if items == [] then 0 else Size(items[0]) + SizeItems(items[1..])
  }

  function SizeEntries(es: Entries): nat {
    if es == [] then 0 else SizeEntry(es[0]) + SizeEntries(es[1..])
  }

  function SizeEntry(e: Entry<seq<byte>>): nat { Size(e.key) + Size(e.val) }

  /** The size function tells the length of the encoding. */
  lemma {:induction false} EncodedSize(v: WireValue)
    requires Encodable(v)
    ensures |Encode(v)| == Size(v)
  {
    match v
    case Int(_) =>
    case Bytes(_) =>
    case Text(_) =>
    case Array(items) => ItemsSize(items);
    case Map(es) => EntriesSize(es);
  }

  lemma {:induction false} ItemsSize(items: seq<WireValue>)
    requires forall i :: 0 <= i < |items| ==> Encodable(items[i])
    ensures |EncodeItems(items)| == SizeItems(items)
  {
    if items != [] {
      EncodedSize(items[0]);
      ItemsSize(items[1..]);
    }
  }

  lemma {:induction false} EntriesSize(es: Entries)
    requires forall i :: 0 <= i < |es| ==> Encodable(es[i].key) && Encodable(es[i].val)
    ensures |EncodeEntries(es)| == SizeEntries(es)
  {
    if es != [] {
      EntrySize(es[0]);
      EntriesSize(es[1..]);
    }
  }

  lemma {:induction false} EntrySize(e: Entry<seq<byte>>)
    requires Encodable(e.key) && Encodable(e.val)
    ensures |EncodeEntry(e)| == SizeEntry(e)
  {
    EncodedSize(e.key);
    EncodedSize(e.val);
  }

  type E = Entry<seq<byte>>

  lemma Size1(a: E) ensures SizeEntries([a]) == SizeEntry(a) {
    assert [a][1..] == [];
  }

  lemma Size3(a: E, b: E, c: E) ensures SizeEntries([a, b, c]) == SizeEntry(a) + SizeEntry(b) + SizeEntry(c) {
    assert [a, b, c][1..] == [b, c] && [b, c][1..] == [c];
    Size1(c);
    assert SizeEntries([b, c]) == SizeEntry(b) + SizeEntry(c);
  }

  lemma Size4(a: E, b: E, c: E, d: E)
    ensures SizeEntries([a, b, c, d]) == SizeEntry(a) + SizeEntry(b) + SizeEntry(c) + SizeEntry(d)
  {
    assert [a, b, c, d][1..] == [b, c, d];
    Size3(b, c, d);
  }

  lemma Size5(a: E, b: E, c: E, d: E, e: E)
    ensures SizeEntries([a, b, c, d, e]) == SizeEntry(a) + SizeEntry(b) + SizeEntry(c) + SizeEntry(d) + SizeEntry(e)
  {
    assert [a, b, c, d, e][1..] == [b, c, d, e];
    Size4(b, c, d, e);
  }

  // ------------------------------------------------------------------
  // Frames
  // ------------------------------------------------------------------

  /** Counter prefix and tag. */
  const SEAL_OVERHEAD := 24

  /** The frame encoder takes the sealed form of this plaintext. */
  predicate FitsFrame(plain: seq<byte>) { |plain| + SEAL_OVERHEAD <= MAX_FRAME_LEN }

  lemma MetaSize(m: StageMeta)
    requires |m.stageId| == 8 && |m.preview| <= PREVIEW_CHARS
    ensures Size(Map(MetaFields(m))) <= 600 && Encodable(Map(MetaFields(m)))
  {
    Utf8.EncodeBound(m.preview);
    var es := MetaFields(m);
    Size5(es[0], es[1], es[2], es[3], es[4]);
    assert es == [es[0], es[1], es[2], es[3], es[4]];
    assert SizeEntry(es[0]) == 10 && SizeEntry(es[1]) == 2 && SizeEntry(es[2]) <= 484;
    assert SizeEntry(es[3]) <= 10 && SizeEntry(es[4]) <= 10;
    assert forall i | 0 <= i < |es| :: Encodable(es[i].key) && Encodable(es[i].val);
  }

  lemma {:induction false} MetasSize(ms: seq<StageMeta>, vs: seq<WireValue>)
    requires |vs| == |ms| && forall i :: 0 <= i < |ms| ==>
      |ms[i].stageId| == 8 && |ms[i].preview| <= PREVIEW_CHARS && vs[i] == Map(MetaFields(ms[i]))
    ensures SizeItems(vs) <= 600 * |vs| && forall i :: 0 <= i < |vs| ==> Encodable(vs[i])
  {
    if vs != [] {
      MetaSize(ms[0]);
      MetasSize(ms[1..], vs[1..]);
      assert forall i :: 1 <= i < |vs| ==> vs[i] == vs[1..][i - 1];
    }
  }

  /** The 8 counter bytes and the ciphertext with its 16-byte tag: what `seal` returns. */
  function SealedPayload(ctr: u64, ciphertext: seq<byte>): seq<byte> { LittleEndian(ctr, 8) + ciphertext }

  /** The frame encoder takes a sealed plaintext, and the decoder gives it back, exactly when the
      plaintext fits. */
  lemma SealedFrameFits(ty: F.FrameType, ctr: u64, plain: seq<byte>, ciphertext: seq<byte>, t: seq<byte>)
    requires |ciphertext| == |plain| + 16
    ensures var f := F.Frame(ty, SealedPayload(ctr, ciphertext));
      (|f.payload| <= MAX_FRAME_LEN <==> FitsFrame(plain)) &&
      (F.Decode(F.Encode(f) + t) == Ok(Some((f, F.HEADER_LEN + |f.payload|))) <==> FitsFrame(plain))
  {
    F.EncodeDecode(F.Frame(ty, SealedPayload(ctr, ciphertext)), t);
  }

  /** Writing a sealed payload: appended whole, or refused with the buffer left alone. */
  method WriteSealed(codec: F.FrameCodec, ty: F.FrameType, ctr: u64, ghost plain: seq<byte>, ciphertext: seq<byte>)
    returns (r: Result<()>)
    requires |ciphertext| == |plain| + 16
    modifies codec
    ensures r.Ok? <==> FitsFrame(plain)
    ensures codec.src == old(codec.src) +
      if r.Ok? then F.Encode(F.Frame(ty, SealedPayload(ctr, ciphertext))) else []
  {
    r := codec.EncodeNext(F.Frame(ty, SealedPayload(ctr, ciphertext)));
  }

  /** Every list of a ring encodes: its length is a `usize`. */
  lemma ListEncodes(items: seq<StagedClip>)
    requires |items| < 0x1_0000_0000_0000_0000 && forall i :: 0 <= i < |items| ==> |items[i].stageId| == 8
    ensures WriteList(List(items)).Ok?
    ensures SizeItems(MetaValues(List(items))) <= 600 * |items|
    ensures Encodable(Array(MetaValues(List(items))))
  {
    var ms := List(items);
    var vs := MetaValues(ms);
    forall i | 0 <= i < |ms|
      ensures |ms[i].stageId| == 8 && |ms[i].preview| <= PREVIEW_CHARS && vs[i] == Map(MetaFields(ms[i]))
    {
      assert ms[i] == MetaOf(items[|items| - 1 - i]);
    }
    MetasSize(ms, vs);
    var es: Entries := [ArrayField(1, vs)];
    assert Encodable(Array(vs)) && Encodable(es[0].key) && Encodable(es[0].val);
    assert Encodable(Map(es));
  }

  /** A STAGE_GET always fits. */
  lemma GetFits(id: seq<byte>)
    requires |id| == 8
    ensures WriteGet(id).Ok? && FitsFrame(WriteGet(id).value)
  {
    var es := GetFields(id);
    assert forall k | 0 <= k < |es| :: Encodable(es[k].key) && Encodable(es[k].val);
    assert Encodable(Map(es));
    EncodedSize(Map(es));
    Size1(es[0]);
    assert SizeEntry(es[0]) == 10;
  }

  /** Every STAGE_LIST made from a ring of the default depth encodes and fits a frame. */
  lemma StageListFits(items: seq<StagedClip>)
    requires |items| <= STAGE_DEPTH && forall i :: 0 <= i < |items| ==> |items[i].stageId| == 8
    ensures WriteList(List(items)).Ok? && FitsFrame(WriteList(List(items)).value)
  {
    ListEncodes(items);
    var vs := MetaValues(List(items));
    var es: Entries := [ArrayField(1, vs)];
    assert Encodable(Map(es));
    EncodedSize(Map(es));
    Size1(es[0]);
    assert SizeEntry(es[0]) == 1 + (HeadLen(|vs|) + SizeItems(vs));
  }

  /** Every STAGE_ITEM made from a clip the ring accepts encodes and fits a frame. */
  lemma StageItemFits(c: StagedClip)
    requires Stage.Fits(c) && |c.stageId| == 8
    ensures var i := Item(c.stageId, c.contentType, c.body); WriteItem(i).Ok? && FitsFrame(WriteItem(i).value)
  {
    var i := Item(c.stageId, c.contentType, c.body);
    var es := ItemFields(i);
    assert forall k | 0 <= k < |es| :: Encodable(es[k].key) && Encodable(es[k].val);
    assert Encodable(Map(es));
    EncodedSize(Map(es));
    Size3(es[0], es[1], es[2]);
    assert es == [es[0], es[1], es[2]];
    assert SizeEntry(es[0]) == 10 && SizeEntry(es[1]) == 2 && SizeEntry(es[2]) <= 6 + MAX_TEXT_CLIP;
  }

  /** The CBOR bytes of a CLIP_PUSH besides the body and the name. */
  function ClipOverhead(c: Clip): nat {
    15 + HeadLen(c.kind) + HeadLen(|c.body|) + HeadLen(c.createdAt) + HeadLen(|Utf8.Encode(c.sourceName)|)
  }

  /** A CLIP_PUSH fits a frame exactly when body and source name together leave room for the overhead.
      The sender bounds the body but not the name, so the name is what can make it too long. */
  lemma ClipFitsIff(c: Clip)
    requires |c.id| == 8 && WriteClip(c).Ok?
    ensures FitsFrame(WriteClip(c).value) <==>
      |c.body| + |Utf8.Encode(c.sourceName)| + ClipOverhead(c) + SEAL_OVERHEAD <= MAX_FRAME_LEN
  {
    var es := ClipFields(c);
    EncodedSize(Map(es));
    Size5(es[0], es[1], es[2], es[3], es[4]);
    assert es == [es[0], es[1], es[2], es[3], es[4]];
    assert SizeEntry(es[0]) == 10 && SizeEntry(es[1]) == 1 + HeadLen(c.kind);
    assert SizeEntry(es[2]) == 1 + HeadLen(|c.body|) + |c.body| && SizeEntry(es[3]) == 1 + HeadLen(c.createdAt);
    assert SizeEntry(es[4]) == 1 + HeadLen(|Utf8.Encode(c.sourceName)|) + |Utf8.Encode(c.sourceName)|;
  }

  /** In particular every clip within the clip limit fits if its name is at most 786,000 bytes. */
  lemma ClipFits(c: Clip)
    requires |c.id| == 8 && |c.body| <= MAX_TEXT_CLIP && |Utf8.Encode(c.sourceName)| <= 786_000
    ensures WriteClip(c).Ok? && FitsFrame(WriteClip(c).value)
  {
    var es := ClipFields(c);
    assert forall k | 0 <= k < |es| :: Encodable(es[k].key) && Encodable(es[k].val);
    assert Encodable(Map(es));
    ClipFitsIff(c);
  }

  /** A name as long as a frame never fits, although the clip encodes. */
  lemma LongNameOverflows(c: Clip)
    requires |c.id| == 8 && |c.body| <= MAX_TEXT_CLIP
    requires MAX_FRAME_LEN <= |Utf8.Encode(c.sourceName)| < 0x1_0000_0000_0000_0000
    ensures WriteClip(c).Ok? && !FitsFrame(WriteClip(c).value)
  {
    var es := ClipFields(c);
    assert forall k | 0 <= k < |es| :: Encodable(es[k].key) && Encodable(es[k].val);
    assert Encodable(Map(es));
    ClipFitsIff(c);
  }

  /** Such a clip: everything about it is within the bounds the sender checks. */
  lemma ClipThatDoesNotFit() returns (c: Clip)
    ensures |c.id| == 8 && ContentOfCode(c.kind).Some? && |c.body| <= MAX_TEXT_CLIP
    ensures WriteClip(c).Ok? && !FitsFrame(WriteClip(c).value)
  {
    var name := seq(MAX_FRAME_LEN, _ => 'a');
    Utf8.EncodeBound(name);
    c := Clip([0, 0, 0, 0, 0, 0, 0, 0], 1, [], 0, name);
    LongNameOverflows(c);
  }
}
