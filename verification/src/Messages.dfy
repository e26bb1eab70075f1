/** The plaintexts carried by encrypted frames: CBOR maps written by one side of a session and read
    by the other (session.rs, PROTOCOL.md sections 8 and 9). */
module Messages {
  import opened Bytes
  import opened Common
  import opened Cbor
  import opened Stage
  import Utf8

  /** How far reading a message got: the bytes are not a readable map, a field is missing or of the
      wrong kind, or all is well. */
  datatype Parse<+T> = BadMap | BadFields | BadType | Good(value: T)

  type Read = Result<Reader<seq<byte>>>

  // ------------------------------------------------------------------
  // CLIP_PUSH and CLIP_ACK
  // ------------------------------------------------------------------

  datatype Clip = Clip(id: seq<byte>, kind: u64, body: seq<byte>, createdAt: u64, sourceName: string)

  function ClipFields(c: Clip): Entries {
    [BytesField(1, c.id), U64Field(2, c.kind), BytesField(3, c.body), U64Field(4, c.createdAt),
     TextField(5, c.sourceName)]
  }

  function WriteClip(c: Clip): Result<seq<byte>> { ToVec(Map(ClipFields(c))) }

  function ReadClip(plain: seq<byte>): Parse<Clip> { ClipOf(FromSlice(plain)) }

  function ClipOf(m: Read): (p: Parse<Clip>)
    ensures p.Good? ==> |p.value.id| == 8
  {
    if m.Err? then BadMap else
    var r := m.value;
    var id, kind, body := GetByteArray(r, 1, 8), GetU64(r, 2), GetBytes(r, 3);
    if id.Err? || kind.Err? || body.Err? then BadFields else
    var at, name := GetU64(r, 4), GetText(r, 5);
    Good(Clip(id.value, kind.value, body.value,
              if at.Ok? then at.value else 0, if name.Ok? then name.value else ""))
  }

  lemma ClipRoundTrip(c: Clip)
    requires |c.id| == 8 && WriteClip(c).Ok?
    ensures ReadClip(WriteClip(c).value) == Good(c)
  {
    FlatMapReadsBack(ClipFields(c));
    ClipFieldsRead(FromSlice(WriteClip(c).value), c);
  }

  lemma ClipFieldsRead(m: Read, c: Clip)
    requires |c.id| == 8 && m.Ok? && Holds(m.value, ClipFields(c))
    ensures ClipOf(m) == Good(c)
  {
    var es := ClipFields(c);
    assert es[0] == BytesField(1, c.id) && es[1] == U64Field(2, c.kind) && es[2] == BytesField(3, c.body);
    assert es[3] == U64Field(4, c.createdAt) && es[4] == TextField(5, c.sourceName);
  }

  function AckFields(id: seq<byte>, status: byte): Entries { [BytesField(1, id), U64Field(2, status)] }

  function WriteAck(id: seq<byte>): Result<seq<byte>> { ToVec(Map(AckFields(id, 0))) }

  /** Clip id and status; the status is cast to a byte, so it wraps. */
  function ReadAck(plain: seq<byte>): Parse<(seq<byte>, byte)> { AckOf(FromSlice(plain)) }

  function AckOf(m: Read): Parse<(seq<byte>, byte)> {
    if m.Err? then BadMap else
    var id, st := GetByteArray(m.value, 1, 8), GetU64(m.value, 2);
    if id.Err? then BadFields else Good((id.value, if st.Ok? then st.value % 0x100 else 0))
  }

  lemma AckRoundTrip(id: seq<byte>)
    requires |id| == 8
    ensures WriteAck(id).Ok? && ReadAck(WriteAck(id).value) == Good((id, 0))
  {
    var es := AckFields(id, 0);
    assert forall i | 0 <= i < |es| :: Encodable(es[i].key) && Encodable(es[i].val);
    FlatMapReadsBack(es);
    AckFieldsRead(FromSlice(WriteAck(id).value), id);
  }

  lemma AckFieldsRead(m: Read, id: seq<byte>)
    requires |id| == 8 && m.Ok? && Holds(m.value, AckFields(id, 0))
    ensures AckOf(m) == Good((id, 0))
  {
    var es := AckFields(id, 0);
    assert es[0] == BytesField(1, id) && es[1] == U64Field(2, 0);
  }

  // ------------------------------------------------------------------
  // STAGE_LIST_REQ, STAGE_GET, STAGE_ITEM and STAGE_LIST
  // ------------------------------------------------------------------

  function WriteListReq(): Result<seq<byte>> { ToVec(Map([])) }

  function GetFields(id: seq<byte>): Entries { [BytesField(1, id)] }

  function WriteGet(id: seq<byte>): Result<seq<byte>> { ToVec(Map(GetFields(id))) }

  function ReadGet(plain: seq<byte>): Parse<seq<byte>> { GetOf(FromSlice(plain)) }

  function GetOf(m: Read): Parse<seq<byte>> {
    if m.Err? then BadMap else
    var id := GetByteArray(m.value, 1, 8);
    if id.Err? then BadFields else Good(id.value)
  }

  lemma GetRoundTrip(id: seq<byte>)
    requires |id| == 8
    ensures WriteGet(id).Ok? && ReadGet(WriteGet(id).value) == Good(id)
  {
    var es := GetFields(id);
    assert forall i | 0 <= i < |es| :: Encodable(es[i].key) && Encodable(es[i].val);
    FlatMapReadsBack(es);
    assert es[0] == BytesField(1, id);
  }

  datatype Item = Item(id: seq<byte>, contentType: ContentType, body: seq<byte>)

  function ItemFields(i: Item): Entries {
    [BytesField(1, i.id), U64Field(2, ContentCode(i.contentType)), BytesField(3, i.body)]
  }

  function WriteItem(i: Item): Result<seq<byte>> { ToVec(Map(ItemFields(i))) }

  function ReadItem(plain: seq<byte>): Parse<Item> { ItemOf(FromSlice(plain)) }

  function ItemOf(m: Read): Parse<Item> {
    if m.Err? then BadMap else
    var id, kind, body := GetByteArray(m.value, 1, 8), GetU64(m.value, 2), GetBytes(m.value, 3);
    if id.Err? || kind.Err? || body.Err? then BadFields else
    match ContentOfCode(kind.value)
    case None => BadType
    case Some(t) => Good(Item(id.value, t, body.value))
  }

  lemma ItemRoundTrip(i: Item)
    requires |i.id| == 8 && WriteItem(i).Ok?
    ensures ReadItem(WriteItem(i).value) == Good(i)
  {
    assert forall j | 0 <= j < 3 :: Scalar(ItemFields(i)[j].val);
    FlatMapReadsBack(ItemFields(i));
    ItemFieldsRead(FromSlice(WriteItem(i).value), i);
  }

  lemma ItemFieldsRead(m: Read, i: Item)
    requires |i.id| == 8 && m.Ok? && Holds(m.value, ItemFields(i))
    ensures ItemOf(m) == Good(i)
  {
    var es := ItemFields(i);
    assert es[0] == BytesField(1, i.id) && es[2] == BytesField(3, i.body);
    assert es[1] == U64Field(2, ContentCode(i.contentType));
  }

  function MetaFields(m: StageMeta): Entries {
    [BytesField(1, m.stageId), U64Field(2, ContentCode(m.contentType)), TextField(3, m.preview),
     U64Field(4, m.size), U64Field(5, m.copiedAt)]
  }

  function MetaValues(ms: seq<StageMeta>): (vs: seq<WireValue>)
    ensures |vs| == |ms|
  {
    seq(|ms|, i requires 0 <= i < |ms| => Map(MetaFields(ms[i])))
  }

  function WriteList(ms: seq<StageMeta>): Result<seq<byte>> {
    ToVec(Map([ArrayField(1, MetaValues(ms))]))
  }

  /** One entry of a STAGE_LIST; the size is cast to `u32`, so it wraps. */
  function ReadMeta(v: WireValue): Parse<StageMeta> { MetaFrom(FromValue(v)) }

  function MetaFrom(m: Read): Parse<StageMeta> {
    if m.Err? then BadMap else
    var r := m.value;
    var id, kind, preview, size, at :=
      GetByteArray(r, 1, 8), GetU64(r, 2), GetText(r, 3), GetU64(r, 4), GetU64(r, 5);
    if id.Err? || kind.Err? || preview.Err? || size.Err? || at.Err? then BadFields else
    match ContentOfCode(kind.value)
    case None => BadType
    case Some(t) => Good(StageMeta(id.value, t, preview.value, size.value % 0x1_0000_0000, at.value))
  }

  /** The first `n` entries of a STAGE_LIST, or what is wrong with the first bad one. */
  function ReadMetas(vs: seq<WireValue>, n: nat): Parse<seq<StageMeta>>
    requires n <= |vs|
  {
    if n == 0 then Good([]) else Snoc(ReadMetas(vs, n - 1), ReadMeta(vs[n - 1]))
  }

  /** The entry loop of `on_stage_list`: gives up at the first bad entry. */
  method ReadEntries(vs: seq<WireValue>) returns (r: Parse<seq<StageMeta>>)
    ensures r == ReadMetas(vs, |vs|)
  {
    var out: seq<StageMeta> := [];
    var i := 0;
    while i < |vs|
      invariant 0 <= i <= |vs|
      invariant ReadMetas(vs, i) == Good(out)
    {
      var e := ReadMeta(vs[i]);
      if !e.Good? {
        BadEntrySticks(vs, i + 1, |vs|);
        return if e.BadMap? then BadMap else if e.BadFields? then BadFields else BadType;
      }
      out := out + [e.value];
      i := i + 1;
    }
    return Good(out);
  }

  lemma {:induction false} BadEntrySticks(vs: seq<WireValue>, m: nat, n: nat)
    requires m <= n <= |vs| && !ReadMetas(vs, m).Good?
    ensures ReadMetas(vs, n) == ReadMetas(vs, m)
  {
    if m < n { BadEntrySticks(vs, m, n - 1); }
  }

  function Snoc<T>(ts: Parse<seq<T>>, t: Parse<T>): Parse<seq<T>> {
    match ts
    case BadMap => BadMap
    case BadFields => BadFields
    case BadType => BadType
    case Good(ms) =>
      match t
      case BadMap => BadMap
      case BadFields => BadFields
      case BadType => BadType
      case Good(m) => Good(ms + [m])
  }

  /** The array of a STAGE_LIST. */
  function ReadListItems(plain: seq<byte>): Parse<seq<WireValue>> { ListOf(FromSlice(plain)) }

  function ListOf(m: Read): Parse<seq<WireValue>> {
    if m.Err? then BadMap else
    var items := GetArray(m.value, 1);
    if items.Err? then BadFields else Good(items.value)
  }

  lemma MetaRoundTrip(m: StageMeta)
    requires |m.stageId| == 8
    ensures ReadMeta(Map(MetaFields(m))) == Good(m)
  {
    MapReads(MetaFields(m));
    MetaFieldsRead(FromValue(Map(MetaFields(m))), m);
  }

  lemma MetaFieldsRead(r: Read, m: StageMeta)
    requires |m.stageId| == 8 && r.Ok? && Holds(r.value, MetaFields(m))
    ensures MetaFrom(r) == Good(m)
  {
    var es := MetaFields(m);
    assert es[0] == BytesField(1, m.stageId) && es[1] == U64Field(2, ContentCode(m.contentType));
    assert es[2] == TextField(3, m.preview) && es[3] == U64Field(4, m.size) && es[4] == U64Field(5, m.copiedAt);
  }

  lemma {:induction false} MetasRoundTrip(ms: seq<StageMeta>, n: nat)
    requires n <= |ms| && forall i :: 0 <= i < |ms| ==> |ms[i].stageId| == 8
    ensures ReadMetas(MetaValues(ms), n) == Good(ms[..n])
  {
    if n > 0 {
      MetasRoundTrip(ms, n - 1);
      MetaRoundTrip(ms[n - 1]);
      assert ms[..n] == ms[..n - 1] + [ms[n - 1]];
      OneMoreMeta(MetaValues(ms), n, ms[..n - 1], ms[n - 1]);
    }
  }

  lemma OneMoreMeta(vs: seq<WireValue>, n: nat, before: seq<StageMeta>, m: StageMeta)
    requires 0 < n <= |vs| && ReadMetas(vs, n - 1) == Good(before) && ReadMeta(vs[n - 1]) == Good(m)
    ensures ReadMetas(vs, n) == Good(before + [m])
  {
  }

  lemma ListRoundTrip(ms: seq<StageMeta>)
    requires WriteList(ms).Ok?
    requires forall i :: 0 <= i < |ms| ==> |ms[i].stageId| == 8
    ensures ReadListItems(WriteList(ms).value) == Good(MetaValues(ms))
    ensures ReadMetas(MetaValues(ms), |ms|) == Good(ms)
  {
    var vs := MetaValues(ms);
    var es: Entries := [ArrayField(1, vs)];
    forall i | 0 <= i < |vs| ensures Shallow(NESTING_LIMIT - 2, vs[i]) {
      MetaShallow(ms[i], NESTING_LIMIT - 2);
    }
    assert Shallow(NESTING_LIMIT - 1, Array(vs));
    assert Shallow(NESTING_LIMIT, Map(es));
    WrittenMapReadsBack(es, []);
    assert Encode(Map(es)) + [] == Encode(Map(es));
    assert es[0] == ArrayField(1, vs);
    MetasRoundTrip(ms, |ms|);
    assert ms[..|ms|] == ms;
  }

  lemma MetaShallow(m: StageMeta, limit: nat)
    requires limit > 0
    ensures Shallow(limit, Map(MetaFields(m)))
  {
    var es := MetaFields(m);
    forall i | 0 <= i < |es| ensures Shallow(limit - 1, es[i].key) && Shallow(limit - 1, es[i].val) {
    }
  }

  // ------------------------------------------------------------------
  // ERROR
  // ------------------------------------------------------------------

  function ErrorFields(code: u16, msg: string): Entries { [U64Field(1, code), TextField(2, msg)] }

  /** `to_vec().unwrap_or_default()`. */
  function WriteError(code: u16, msg: string): seq<byte> {
    var r := ToVec(Map(ErrorFields(code, msg)));
    if r.Ok? then r.value else []
  }

  /** Code and text, with defaults for whatever cannot be read; the code is cast to `u16`. */
  function ReadError(plain: seq<byte>): (u16, string) { ErrorOf(FromSlice(plain)) }

  function ErrorOf(m: Read): (u16, string) {
    if m.Err? then (0, "") else
    var code, msg := GetU64(m.value, 1), GetText(m.value, 2);
    (if code.Ok? then code.value % 0x1_0000 else 0, if msg.Ok? then msg.value else "")
  }

  lemma ErrorRoundTrip(code: u16, msg: string)
    requires |Utf8.Encode(msg)| < 0x1_0000_0000_0000_0000
    ensures ReadError(WriteError(code, msg)) == (code, msg)
  {
    ErrorEncodes(code, msg);
    ErrorFieldsRead(FromSlice(WriteError(code, msg)), code, msg);
  }

  lemma ErrorEncodes(code: u16, msg: string)
    requires |Utf8.Encode(msg)| < 0x1_0000_0000_0000_0000
    ensures FromSlice(WriteError(code, msg)).Ok?
    ensures Holds(FromSlice(WriteError(code, msg)).value, ErrorFields(code, msg))
  {
    var es := ErrorFields(code, msg);
    assert Encodable(Text(msg));
    assert forall i | 0 <= i < |es| :: Encodable(es[i].key) && Encodable(es[i].val);
    assert ToVec(Map(es)).Ok?;
    FlatMapReadsBack(es);
  }

  lemma ErrorFieldsRead(m: Read, code: u16, msg: string)
    requires m.Ok? && Holds(m.value, ErrorFields(code, msg))
    ensures ErrorOf(m) == (code, msg)
  {
    var es := ErrorFields(code, msg);
    assert es[0] == U64Field(1, code) && es[1] == TextField(2, msg);
  }
}
