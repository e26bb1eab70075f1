/** The byte strings behind the symbolic MAC and key-derivation inputs: they determine their fields
    and are never confused with one another. */
module MacBases {
  import opened Bytes
  import opened Common
  import opened Cbor
  import opened Sizes

  /** A MAC input on the wire level, with fixed-width fields as their Rust types have it. */
  datatype Basis =
    | HelloBytes(id: seq<byte>, ephI: seq<byte>, ts: u64)
    | AckBytes(ephR: seq<byte>, ephI: seq<byte>)
    | SasBytes(ssEph: seq<byte>, pkPhone: seq<byte>, pkPc: seq<byte>, token: seq<byte>)

  predicate Widths(b: Basis) {
    match b
    case HelloBytes(id, e, _) => |id| == 16 && |e| == 32
    case AckBytes(r, e) => |r| == 32 && |e| == 32
    case SasBytes(s, p, c, t) => |s| == 32 && |p| == 32 && |c| == 32 && |t| == 16
  }

  function HelloEntries(id: seq<byte>, ephI: seq<byte>, ts: u64): Entries {
    [U64Field(1, PROTOCOL_VERSION), BytesField(2, id), BytesField(3, ephI), U64Field(4, ts)]
  }

  lemma HelloEncodable(id: seq<byte>, ephI: seq<byte>, ts: u64)
    requires |id| == 16 && |ephI| == 32
    ensures Encodable(Map(HelloEntries(id, ephI, ts)))
  {
    var es := HelloEntries(id, ephI, ts);
    assert forall i | 0 <= i < |es| :: Encodable(es[i].key) && Encodable(es[i].val);
  }

  /** `hello_mac_basis`: the CBOR map of keys 1 to 4 in ascending order. */
  function HelloBasisBytes(id: seq<byte>, ephI: seq<byte>, ts: u64): seq<byte>
    requires |id| == 16 && |ephI| == 32
  {
    HelloEncodable(id, ephI, ts);
    Encode(Map(HelloEntries(id, ephI, ts)))
  }

  function BasisBytes(b: Basis): seq<byte>
    requires Widths(b)
  {
    match b
    case HelloBytes(id, e, ts) => HelloBasisBytes(id, e, ts)
    case AckBytes(r, e) => r + e
    case SasBytes(s, p, c, t) => s + p + c + t
  }

  lemma HelloLength(id: seq<byte>, ephI: seq<byte>, ts: u64)
    requires |id| == 16 && |ephI| == 32
    ensures |HelloBasisBytes(id, ephI, ts)| == 57 + HeadLen(ts)
  {
    HelloEncodable(id, ephI, ts);
    var es := HelloEntries(id, ephI, ts);
    EncodedSize(Map(es));
    Size4(es[0], es[1], es[2], es[3]);
    assert es == [es[0], es[1], es[2], es[3]];
    assert SizeEntry(es[0]) == 2 && SizeEntry(es[1]) == 18 && SizeEntry(es[2]) == 35 &&
      SizeEntry(es[3]) == 1 + HeadLen(ts);
  }

  /** The three kinds have lengths 58, 59, 60, 62 or 66; 64; and 112. */
  lemma BasisLength(b: Basis)
    requires Widths(b)
    ensures b.HelloBytes? ==> |BasisBytes(b)| in {58, 59, 60, 62, 66}
    ensures b.AckBytes? ==> |BasisBytes(b)| == 64
    ensures b.SasBytes? ==> |BasisBytes(b)| == 112
  {
    if b.HelloBytes? { HelloLength(b.id, b.ephI, b.ts); }
  }

  lemma HelloDetermines(a: Basis, b: Basis)
    requires a.HelloBytes? && b.HelloBytes? && Widths(a) && Widths(b) && BasisBytes(a) == BasisBytes(b)
    ensures a == b
  {
    HelloEncodable(a.id, a.ephI, a.ts);
    HelloEncodable(b.id, b.ephI, b.ts);
    var x, y := HelloEntries(a.id, a.ephI, a.ts), HelloEntries(b.id, b.ephI, b.ts);
    FlatIsShallow(NESTING_LIMIT, x);
    FlatIsShallow(NESTING_LIMIT, y);
    RoundTrip(NESTING_LIMIT, Map(x), []);
    RoundTrip(NESTING_LIMIT, Map(y), []);
    assert x == y;
    assert x[1] == y[1] && x[2] == y[2] && x[3] == y[3];
  }

  /** Equal bytes under the static secret mean the same kind of message with the same fields: what
      lets the symbolic MAC inputs be constructors. */
  lemma BasisDetermines(a: Basis, b: Basis)
    requires Widths(a) && Widths(b) && BasisBytes(a) == BasisBytes(b)
    ensures a == b
  {
    BasisLength(a);
    BasisLength(b);
    match a
    case HelloBytes(_, _, _) => HelloDetermines(a, b);
    case AckBytes(r, e) =>
      assert r == BasisBytes(a)[..32] && e == BasisBytes(a)[32..];
      assert b.ephR == BasisBytes(b)[..32] && b.ephI == BasisBytes(b)[32..];
    case SasBytes(_, _, _, _) => SasDetermines(a, b);
  }

  lemma SasDetermines(a: Basis, b: Basis)
    requires a.SasBytes? && b.SasBytes? && Widths(a) && Widths(b) && BasisBytes(a) == BasisBytes(b)
    ensures a == b
  {
    var x := BasisBytes(a);
    assert x[..32] == a.ssEph && x[32..64] == a.pkPhone && x[64..96] == a.pkPc && x[96..] == a.token;
    var y := BasisBytes(b);
    assert y[..32] == b.ssEph && y[32..64] == b.pkPhone && y[64..96] == b.pkPc && y[96..] == b.token;
  }

  // ------------------------------------------------------------------
  // Key derivation
  // ------------------------------------------------------------------

  const KDF_SALT_PREFIX: seq<byte> := [0x61, 0x69, 0x72, 0x63, 0x6C, 0x69, 0x70, 0x2D, 0x76, 0x31]

  datatype KdfInput = KdfInput(ssEe: seq<byte>, ssSi: seq<byte>, ssStatic: seq<byte>, idPhone: seq<byte>,
                               idPc: seq<byte>)

  predicate KdfWidths(k: KdfInput) {
    |k.ssEe| == 32 && |k.ssSi| == 32 && |k.ssStatic| == 32 && |k.idPhone| == 16 && |k.idPc| == 16
  }

  function Ikm(k: KdfInput): seq<byte> { k.ssEe + k.ssSi + k.ssStatic }

  function Salt(k: KdfInput): seq<byte> { KDF_SALT_PREFIX + k.idPhone + k.idPc }

  /** Keying material and salt together determine all five inputs of the key derivation. */
  lemma KdfDetermines(a: KdfInput, b: KdfInput)
    requires KdfWidths(a) && KdfWidths(b) && Ikm(a) == Ikm(b) && Salt(a) == Salt(b)
    ensures a == b
  {
    assert Ikm(a)[..32] == a.ssEe && Ikm(a)[32..64] == a.ssSi && Ikm(a)[64..] == a.ssStatic;
    assert Ikm(b)[..32] == b.ssEe && Ikm(b)[32..64] == b.ssSi && Ikm(b)[64..] == b.ssStatic;
    assert Salt(a)[10..26] == a.idPhone && Salt(a)[26..] == a.idPc;
    assert Salt(b)[10..26] == b.idPhone && Salt(b)[26..] == b.idPc;
  }
}
