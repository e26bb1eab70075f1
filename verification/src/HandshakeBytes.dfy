/** Handshake and pairing payloads as bytes.  The protocol model reads their fields symbolically; here
    each symbolic byte string is given any bytes of its width, and the receiver of the encoded map
    reads, field by field, the bytes of what the model reads. */
module HandshakeBytes {
  import opened Bytes
  import opened Common
  import opened Crypto
  import opened Cbor
  import opened Sessions

  /** The bytes each symbolic string stands for. */
  type Rendering = Blob -> seq<byte>

  ghost predicate Faithful(f: Rendering) { forall b: Blob :: |f(b)| == Width(b) }

  predicate Plain(v: Value<Blob>) { v.Int? || v.Bytes? || v.Text? }

  ghost predicate FlatMap(es: seq<Entry<Blob>>) {
    DistinctIntKeys(es) && forall i :: 0 <= i < |es| ==> Plain(es[i].val)
  }

  function Render(f: Rendering, v: Value<Blob>): WireValue
    requires Plain(v)
  {
    match v
    case Int(n) => Int(n)
    case Text(s) => Text(s)
    case Bytes(b) => Bytes(f(b))
  }

  function RenderAll(f: Rendering, es: seq<Entry<Blob>>): (r: Entries)
    requires forall i :: 0 <= i < |es| ==> es[i].key.Int? && Plain(es[i].val)
    ensures |r| == |es|
  {
    seq(|es|, i requires 0 <= i < |es| => Entry(Int(es[i].key.n), Render(f, es[i].val)))
  }

  /** The wire reader binds a key exactly when the symbolic one does, to the rendered value. */
  ghost predicate Matches(f: Rendering, r: Reader<seq<byte>>, q: Reader<Blob>) {
    r.Keys == q.Keys && forall k :: k in q ==> Plain(q[k]) && r[k] == Render(f, q[k])
  }

  lemma HoldsMatch(f: Rendering, es: seq<Entry<Blob>>, r: Reader<seq<byte>>, q: Reader<Blob>)
    requires FlatMap(es) && Holds(q, es) && Holds(r, RenderAll(f, es))
    ensures Matches(f, r, q)
  {
    var ws := RenderAll(f, es);
    forall k | k in q ensures k in r && Plain(q[k]) && r[k] == Render(f, q[k]) {
      var i :| 0 <= i < |es| && es[i] == Entry(Int(k), q[k]);
      assert ws[i].key == Int(k);
    }
    forall k | k in r ensures k in q {
      var i :| 0 <= i < |ws| && ws[i] == Entry(Int(k), r[k]);
      assert es[i].key == Int(k);
    }
  }

  /** Reading the encoded, rendered map is reading the symbolic map. */
  lemma WireAgrees(f: Rendering, es: seq<Entry<Blob>>)
    requires FlatMap(es) && ToVec(Map(RenderAll(f, es))).Ok?
    ensures FromValue(Map(es)).Ok? && FromSlice(ToVec(Map(RenderAll(f, es))).value).Ok?
    ensures Matches(f, FromSlice(ToVec(Map(RenderAll(f, es))).value).value, FromValue(Map(es)).value)
  {
    var ws := RenderAll(f, es);
    MapReads(es);
    FlatMapReadsBack(ws);
    HoldsMatch(f, es, FromSlice(ToVec(Map(ws)).value).value, FromValue(Map(es)).value);
  }

  /** Every typed accessor then agrees, errors included. */
  lemma AccessorsAgree(f: Rendering, r: Reader<seq<byte>>, q: Reader<Blob>, key: u64, width: nat)
    requires Faithful(f) && Matches(f, r, q)
    ensures GetU64(r, key) == GetU64(q, key) && GetText(r, key) == GetText(q, key)
    ensures var b := GetBlob(q, key, width);
      GetByteArray(r, key, width) == if b.Ok? then Ok(f(b.value)) else Err(b.error)
  {
    if key in q {
      assert r[key] == Render(f, q[key]);
    }
  }

  /** A HELLO on the wire: every field arrives as the bytes the phone put in. */
  lemma HelloOnTheWire(f: Rendering, m: HelloMsg)
    requires Faithful(f) && Width(m.id) == 16 && Width(m.ephI) == 32 && Width(m.mac) == 32
    ensures ToVec(Map(RenderAll(f, HelloFields(m)))).Ok?
    ensures var r := FromSlice(ToVec(Map(RenderAll(f, HelloFields(m)))).value);
      r.Ok? && GetU64(r.value, 1) == Ok(m.version) && GetByteArray(r.value, 2, 16) == Ok(f(m.id)) &&
      GetByteArray(r.value, 3, 32) == Ok(f(m.ephI)) && GetU64(r.value, 4) == Ok(m.ts) &&
      GetByteArray(r.value, 5, 32) == Ok(f(m.mac))
  {
    var ws := RenderAll(f, HelloFields(m));
    assert forall i | 0 <= i < |ws| :: Encodable(ws[i].key) && Encodable(ws[i].val);
    FlatMapReadsBack(ws);
    HelloFieldBytes(f, m, FromSlice(ToVec(Map(ws)).value).value);
  }

  lemma HelloFieldBytes(f: Rendering, m: HelloMsg, r: Reader<seq<byte>>)
    requires Faithful(f) && Width(m.id) == 16 && Width(m.ephI) == 32 && Width(m.mac) == 32
    requires Holds(r, RenderAll(f, HelloFields(m)))
    ensures GetU64(r, 1) == Ok(m.version) && GetByteArray(r, 2, 16) == Ok(f(m.id))
    ensures GetByteArray(r, 3, 32) == Ok(f(m.ephI)) && GetU64(r, 4) == Ok(m.ts)
    ensures GetByteArray(r, 5, 32) == Ok(f(m.mac))
  {
    var ws := RenderAll(f, HelloFields(m));
    assert ws[0] == U64Field(1, m.version) && ws[1] == BytesField(2, f(m.id)) && ws[2] == BytesField(3, f(m.ephI));
    assert ws[3] == U64Field(4, m.ts) && ws[4] == BytesField(5, f(m.mac));
  }
}
