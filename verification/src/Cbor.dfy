/** Integer-keyed CBOR maps (cbor.rs) over the subset of RFC 8949 the protocol uses: integers,
    byte strings, text, arrays and maps.

    `Value` is generic in the type of byte strings.  On the wire byte strings are `seq<byte>`;
    the handshake and pairing models instantiate it with symbolic byte strings. */
module Cbor {
  import opened Bytes
  import opened Common
  import Utf8

  datatype Value<B> =
    | Int(n: int)
    | Bytes(b: B)
    | Text(s: string)
    | Array(items: seq<Value<B>>)
    | Map(entries: seq<Entry<B>>)

  datatype Entry<B> = Entry(key: Value<B>, val: Value<B>)

  type WireValue = Value<seq<byte>>
  type Entries = seq<Entry<seq<byte>>>

  // ------------------------------------------------------------------
  // Encoding (section 3 of RFC 8949, shortest heads as section 4.2.1 asks)
  // ------------------------------------------------------------------

  /** An item head: major type and argument in the shortest of the five forms. */
  function Head(major: nat, n: nat): (s: seq<byte>)
    requires major < 8 && n < 0x1_0000_0000_0000_0000
    ensures |s| == HeadLen(n)
  {
    if n < 24 then [32 * major + n] else [32 * major + HeadInfo(n)] + BigEndian(n, HeadLen(n) - 1)
  }

  /** The additional information that announces 1, 2, 4 or 8 bytes of argument. */
  function HeadInfo(n: nat): (i: nat)
    ensures 24 <= i < 28
  {
    if n < 0x100 then 24 else if n < 0x1_0000 then 25 else if n < 0x1_0000_0000 then 26 else 27
  }

  function HeadLen(n: nat): nat {
    if n < 24 then 1 else if n < 0x100 then 2 else if n < 0x1_0000 then 3
    else if n < 0x1_0000_0000 then 5 else 9
  }

  /** What the wire format can carry: 64-bit integers (with CBOR's negatives) and lengths. */
  predicate Encodable(v: WireValue) {
    match v
    case Int(n) => -0x1_0000_0000_0000_0000 <= n < 0x1_0000_0000_0000_0000
    case Bytes(b) => |b| < 0x1_0000_0000_0000_0000
    case Text(s) => |Utf8.Encode(s)| < 0x1_0000_0000_0000_0000
    case Array(items) =>
      |items| < 0x1_0000_0000_0000_0000 && forall i :: 0 <= i < |items| ==> Encodable(items[i])
    case Map(es) =>
      |es| < 0x1_0000_0000_0000_0000 &&
      forall i :: 0 <= i < |es| ==> Encodable(es[i].key) && Encodable(es[i].val)
  }

  function Encode(v: WireValue): (s: seq<byte>)
    requires Encodable(v)
    ensures |s| >= 1
  {
    match v
    case Int(n) => if n >= 0 then Head(0, n) else Head(1, -1 - n)
    case Bytes(b) => Head(2, |b|) + b
    case Text(s) => Head(3, |Utf8.Encode(s)|) + Utf8.Encode(s)
    case Array(items) => Head(4, |items|) + EncodeItems(items)
    case Map(es) => Head(5, |es|) + EncodeEntries(es)
  }

  function EncodeItems(items: seq<WireValue>): seq<byte>
    requires forall i :: 0 <= i < |items| ==> Encodable(items[i])
  {
    if items == [] then [] else Encode(items[0]) + EncodeItems(items[1..])
  }

  function EncodeEntries(es: Entries): seq<byte>
    requires forall i :: 0 <= i < |es| ==> Encodable(es[i].key) && Encodable(es[i].val)
  {
    if es == [] then [] else EncodeEntry(es[0]) + EncodeEntries(es[1..])
  }

  function EncodeEntry(e: Entry<seq<byte>>): seq<byte>
    requires Encodable(e.key) && Encodable(e.val)
  {
    Encode(e.key) + Encode(e.val)
  }

  // ------------------------------------------------------------------
  // Decoding.  `limit` is the decoder's remaining container nesting.
  // ------------------------------------------------------------------

  /** The library's nesting limit. */
  const NESTING_LIMIT: nat := 256

  type Parsed<T> = Option<(T, seq<byte>)>

  function DecodeArg(info: nat, s: seq<byte>): Parsed<nat> {
    if info < 24 then Some((info, s))
    else
      var w := if info == 24 then 1 else if info == 25 then 2 else if info == 26 then 4 else 8;
      if info > 27 || |s| < w then None else Some((FromBigEndian(s[..w]), s[w..]))
  }

  function Decode(limit: nat, s: seq<byte>): Parsed<WireValue>
    decreases limit, 0
  {
    if s == [] then None else
    var major := s[0] / 32;
    match DecodeArg(s[0] % 32, s[1..])
    case None => None
    case Some((n, rest)) =>
      if major == 0 then Some((Int(n), rest))
      else if major == 1 then Some((Int(-1 - n), rest))
      else if major == 2 then
        if |rest| < n then None else Some((Bytes(rest[..n]), rest[n..]))
      else if major == 3 then
        if |rest| < n then None else
        match Utf8.Decode(rest[..n])
        case None => None
        case Some(text) => Some((Text(text), rest[n..]))
      else if limit == 0 then None
      else if major == 4 then
        match DecodeItems(limit - 1, n, rest)
        case None => None
        case Some((items, r)) => Some((Array(items), r))
      else if major == 5 then
        match DecodeEntries(limit - 1, n, rest)
        case None => None
        case Some((es, r)) => Some((Map(es), r))
      else None
  }

  function DecodeItems(limit: nat, n: nat, s: seq<byte>): Parsed<seq<WireValue>>
    decreases limit, n + 1
  {
    if n == 0 then Some(([], s)) else
    match Decode(limit, s)
    case None => None
    case Some((v, r)) =>
      match DecodeItems(limit, n - 1, r)
      case None => None
      case Some((vs, r')) => Some(([v] + vs, r'))
  }

  function DecodeEntries(limit: nat, n: nat, s: seq<byte>): Parsed<Entries>
    decreases limit, n + 1
  {
    if n == 0 then Some(([], s)) else
    match Decode(limit, s)
    case None => None
    case Some((k, r)) =>
      match Decode(limit, r)
      case None => None
      case Some((v, r')) =>
        match DecodeEntries(limit, n - 1, r')
        case None => None
        case Some((es, r'')) => Some(([Entry(k, v)] + es, r''))
  }

  /** Container nesting no deeper than `limit`. */
  predicate Shallow(limit: nat, v: WireValue) {
    match v
    case Array(items) => limit > 0 && forall i :: 0 <= i < |items| ==> Shallow(limit - 1, items[i])
    case Map(es) =>
      limit > 0 && forall i :: 0 <= i < |es| ==> Shallow(limit - 1, es[i].key) && Shallow(limit - 1, es[i].val)
    case _ => true
  }

  lemma HeadRoundTrip(major: nat, n: nat, t: seq<byte>)
    requires major < 8 && n < 0x1_0000_0000_0000_0000
    ensures var s := Head(major, n) + t;
      s[0] / 32 == major && DecodeArg(s[0] % 32, s[1..]) == Some((n, t))
  {
    var s := Head(major, n) + t;
    if n < 24 {
      assert s[1..] == t;
    } else {
      ArgRoundTrip(n, t);
      assert s[1..] == BigEndian(n, HeadLen(n) - 1) + t;
    }
  }

  lemma ArgRoundTrip(n: nat, t: seq<byte>)
    requires 24 <= n < 0x1_0000_0000_0000_0000
    ensures DecodeArg(HeadInfo(n), BigEndian(n, HeadLen(n) - 1) + t) == Some((n, t))
  {
    var w := HeadLen(n) - 1;
    assert n < Pow256(w) by { Pow256Values(); }
    BigEndianRoundTrip(n, w);
    var s := BigEndian(n, w) + t;
    assert s[..w] == BigEndian(n, w) && s[w..] == t;
  }

  predicate ShallowItems(limit: nat, items: seq<WireValue>) {
    forall i :: 0 <= i < |items| ==> Shallow(limit, items[i])
  }

  predicate ShallowEntries(limit: nat, es: Entries) {
    forall i :: 0 <= i < |es| ==> Shallow(limit, es[i].key) && Shallow(limit, es[i].val)
  }

  /** Decoding what was encoded, whatever follows it, gives the value and the remainder back,
      exactly when the value is no deeper than the decoder's limit. */
  lemma {:induction false} RoundTrip(limit: nat, v: WireValue, t: seq<byte>)
    requires Encodable(v)
    ensures Decode(limit, Encode(v) + t) == if Shallow(limit, v) then Some((v, t)) else None
  {
    match v
    case Int(n) => IntRoundTrip(limit, n, t);
    case Bytes(b) => BytesRoundTrip(limit, b, t);
    case Text(s) => TextRoundTrip(limit, s, t);
    case Array(items) =>
      if limit > 0 { ItemsRoundTrip(limit - 1, items, t); }
      ArrayRoundTrip(limit, items, t);
    case Map(es) =>
      if limit > 0 { EntriesRoundTrip(limit - 1, es, t); }
      MapRoundTrip(limit, es, t);
  }

  /** `n` arrays, one inside the other. */
  function Nested(n: nat): WireValue {
    if n == 0 then Int(0) else Array([Nested(n - 1)])
  }

  lemma {:induction false} NestedDepth(limit: nat, n: nat)
    ensures Encodable(Nested(n)) && (Shallow(limit, Nested(n)) <==> n <= limit)
    decreases n
  {
    if n > 0 {
      var items := [Nested(n - 1)];
      assert Nested(n) == Array(items);
      NestedDepth(if limit > 0 then limit - 1 else 0, n - 1);
      assert items[0] == Nested(n - 1);
    }
  }

  /** Arrays nested deeper than the limit are written, but what was written is not read. */
  lemma TooDeepToRead(n: nat, t: seq<byte>)
    ensures Encodable(Nested(n)) && (Decode(NESTING_LIMIT, Encode(Nested(n)) + t) == None <==> n > NESTING_LIMIT)
  {
    var limit := NESTING_LIMIT;
    NestedDepth(limit, n);
    RoundTrip(limit, Nested(n), t);
  }

  /** How a container is decoded once its head is read. */
  lemma DecodeContainer(limit: nat, s: seq<byte>, n: nat, rest: seq<byte>)
    requires s != [] && s[0] / 32 in {4, 5} && DecodeArg(s[0] % 32, s[1..]) == Some((n, rest))
    ensures limit == 0 ==> Decode(limit, s) == None
    ensures limit > 0 && s[0] / 32 == 4 ==>
      var r := DecodeItems(limit - 1, n, rest);
      Decode(limit, s) == if r.None? then None else Some((Array(r.value.0), r.value.1))
    ensures limit > 0 && s[0] / 32 == 5 ==>
      var r := DecodeEntries(limit - 1, n, rest);
      Decode(limit, s) == if r.None? then None else Some((Map(r.value.0), r.value.1))
  {
  }

  lemma DecodeText(limit: nat, s: seq<byte>, u: seq<byte>, t: seq<byte>)
    requires s != [] && s[0] / 32 == 3 && DecodeArg(s[0] % 32, s[1..]) == Some((|u|, u + t)) && Utf8.Decode(u).Some?
    ensures Decode(limit, s) == Some((Text(Utf8.Decode(u).value), t))
  {
    assert (u + t)[..|u|] == u && (u + t)[|u|..] == t;
  }

  lemma Associates(a: seq<byte>, b: seq<byte>, c: seq<byte>)
    ensures a + b + c == a + (b + c)
  {
  }

  lemma ArrayRoundTrip(limit: nat, items: seq<WireValue>, t: seq<byte>)
    requires Encodable(Array(items))
    requires limit > 0 ==>
      DecodeItems(limit - 1, |items|, EncodeItems(items) + t) ==
        if ShallowItems(limit - 1, items) then Some((items, t)) else None
    ensures Decode(limit, Encode(Array(items)) + t) ==
      if Shallow(limit, Array(items)) then Some((Array(items), t)) else None
  {
    var u := EncodeItems(items);
    HeadRoundTrip(4, |items|, u + t);
    Associates(Head(4, |items|), u, t);
    DecodeContainer(limit, Head(4, |items|) + (u + t), |items|, u + t);
  }

  lemma MapRoundTrip(limit: nat, es: Entries, t: seq<byte>)
    requires Encodable(Map(es))
    requires limit > 0 ==>
      DecodeEntries(limit - 1, |es|, EncodeEntries(es) + t) ==
        if ShallowEntries(limit - 1, es) then Some((es, t)) else None
    ensures Decode(limit, Encode(Map(es)) + t) ==
      if Shallow(limit, Map(es)) then Some((Map(es), t)) else None
  {
    var u := EncodeEntries(es);
    HeadRoundTrip(5, |es|, u + t);
    Associates(Head(5, |es|), u, t);
    DecodeContainer(limit, Head(5, |es|) + (u + t), |es|, u + t);
  }

  lemma IntRoundTrip(limit: nat, n: int, t: seq<byte>)
    requires Encodable(Int(n))
    ensures Decode(limit, Encode(Int(n)) + t) == Some((Int(n), t))
  {
    if n >= 0 { HeadRoundTrip(0, n, t); } else { HeadRoundTrip(1, -1 - n, t); }
  }

  lemma BytesRoundTrip(limit: nat, b: seq<byte>, t: seq<byte>)
    requires Encodable(Bytes(b))
    ensures Decode(limit, Encode(Bytes(b)) + t) == Some((Bytes(b), t))
  {
    HeadRoundTrip(2, |b|, b + t);
    Associates(Head(2, |b|), b, t);
    assert (b + t)[..|b|] == b && (b + t)[|b|..] == t;
  }

  lemma TextRoundTrip(limit: nat, s: string, t: seq<byte>)
    requires Encodable(Text(s))
    ensures Decode(limit, Encode(Text(s)) + t) == Some((Text(s), t))
  {
    var u := Utf8.Encode(s);
    HeadRoundTrip(3, |u|, u + t);
    Associates(Head(3, |u|), u, t);
    Utf8.RoundTrip(s);
    DecodeText(limit, Head(3, |u|) + (u + t), u, t);
  }

  lemma {:induction false} ItemsRoundTrip(limit: nat, items: seq<WireValue>, t: seq<byte>)
    requires forall i :: 0 <= i < |items| ==> Encodable(items[i])
    ensures DecodeItems(limit, |items|, EncodeItems(items) + t) ==
      if ShallowItems(limit, items) then Some((items, t)) else None
  {
    if items == [] {
      assert EncodeItems(items) + t == t;
    } else {
      var rest := EncodeItems(items[1..]) + t;
      assert EncodeItems(items) + t == Encode(items[0]) + rest;
      RoundTrip(limit, items[0], rest);
      ItemsRoundTrip(limit, items[1..], t);
      ShallowItemsSplit(limit, items);
      assert items == [items[0]] + items[1..];
    }
  }

  lemma ShallowItemsSplit(limit: nat, items: seq<WireValue>)
    requires items != []
    ensures ShallowItems(limit, items) <==> Shallow(limit, items[0]) && ShallowItems(limit, items[1..])
  {
    if Shallow(limit, items[0]) && ShallowItems(limit, items[1..]) {
      forall i | 0 <= i < |items| ensures Shallow(limit, items[i]) {
        assert i > 0 ==> items[i] == items[1..][i - 1];
      }
    }
  }

  lemma {:induction false} EntryRoundTrip(limit: nat, e: Entry<seq<byte>>, t: seq<byte>)
    requires Encodable(e.key) && Encodable(e.val)
    ensures Decode(limit, Encode(e.key) + (Encode(e.val) + t)) ==
      if Shallow(limit, e.key) then Some((e.key, Encode(e.val) + t)) else None
    ensures Decode(limit, Encode(e.val) + t) == if Shallow(limit, e.val) then Some((e.val, t)) else None
  {
    RoundTrip(limit, e.key, Encode(e.val) + t);
    RoundTrip(limit, e.val, t);
  }

  lemma {:induction false} EntriesRoundTrip(limit: nat, es: Entries, t: seq<byte>)
    requires forall i :: 0 <= i < |es| ==> Encodable(es[i].key) && Encodable(es[i].val)
    ensures DecodeEntries(limit, |es|, EncodeEntries(es) + t) ==
      if ShallowEntries(limit, es) then Some((es, t)) else None
  {
    if es == [] {
      assert EncodeEntries(es) + t == t;
    } else {
      var e := es[0];
      var rest := EncodeEntries(es[1..]) + t;
      assert EncodeEntries(es) + t == Encode(e.key) + (Encode(e.val) + rest);
      EntryRoundTrip(limit, e, rest);
      EntriesRoundTrip(limit, es[1..], t);
      ShallowEntriesSplit(limit, es);
      assert es == [e] + es[1..];
      EntryFirst(limit, |es|, Encode(e.key) + (Encode(e.val) + rest));
    }
  }

  /** One entry of a map unrolled. */
  lemma EntryFirst(limit: nat, n: nat, s: seq<byte>)
    requires n > 0
    ensures var k := Decode(limit, s);
      if k.None? then DecodeEntries(limit, n, s) == None
      else
        var v := Decode(limit, k.value.1);
        if v.None? then DecodeEntries(limit, n, s) == None
        else
          var r := DecodeEntries(limit, n - 1, v.value.1);
          DecodeEntries(limit, n, s) ==
            if r.None? then None else Some(([Entry(k.value.0, v.value.0)] + r.value.0, r.value.1))
  {
  }

  lemma ShallowEntriesSplit(limit: nat, es: Entries)
    requires es != []
    ensures ShallowEntries(limit, es) <==>
      Shallow(limit, es[0].key) && Shallow(limit, es[0].val) && ShallowEntries(limit, es[1..])
  {
    if Shallow(limit, es[0].key) && Shallow(limit, es[0].val) && ShallowEntries(limit, es[1..]) {
      forall i | 0 <= i < |es| ensures Shallow(limit, es[i].key) && Shallow(limit, es[i].val) {
        assert i > 0 ==> es[i] == es[1..][i - 1];
      }
    }
  }

  // ------------------------------------------------------------------
  // MapReader
  // ------------------------------------------------------------------

  type Reader<B> = map<int, Value<B>>

  /** What the reader holds after inserting `es[..n]`, if every key so far was a new integer. */
  function Inserted<B>(es: seq<Entry<B>>, n: nat): Result<Reader<B>>
    requires n <= |es|
  {
    if n == 0 then Ok(map[]) else
    var r :- Inserted(es, n - 1);
    var Entry(k, v) := es[n - 1];
    if !k.Int? then Err(Error.Cbor(KeyNotInteger))
    else if k.n in r then Err(Error.Cbor(DuplicateKey))
    else Ok(r[k.n := v])
  }

  function FromValue<B>(v: Value<B>): Result<Reader<B>> {
    if v.Map? then Inserted(v.entries, |v.entries|) else Err(Error.Cbor(ExpectedMap))
  }

  /** `MapReader::from_value`: the insertion loop. */
  method ReadMap<B>(v: Value<B>) returns (r: Result<Reader<B>>)
    ensures r == FromValue(v)
  {
    if !v.Map? {
      return Err(Error.Cbor(ExpectedMap));
    }
    var entries: Reader<B> := map[];
    var i := 0;
    while i < |v.entries|
      invariant 0 <= i <= |v.entries|
      invariant Inserted(v.entries, i) == Ok(entries)
    {
      var Entry(k, val) := v.entries[i];
      if !k.Int? || k.n in entries {
        r := Err(Error.Cbor(if k.Int? then DuplicateKey else KeyNotInteger));
        FailureSticks(v.entries, i + 1, |v.entries|);
        return;
      }
      entries := entries[k.n := val];
      i := i + 1;
    }
    r := Ok(entries);
  }

  lemma {:induction false} FailureSticks<B>(es: seq<Entry<B>>, m: nat, n: nat)
    requires m <= n <= |es| && Inserted(es, m).Err?
    ensures Inserted(es, n) == Inserted(es, m)
  {
    if m < n { FailureSticks(es, m, n - 1); }
  }

  /** `ciborium::from_reader` on a slice: one item, trailing bytes ignored. */
  function FromSlice(s: seq<byte>): Result<Reader<seq<byte>>> {
    match Decode(NESTING_LIMIT, s)
    case None => Err(Error.Cbor(Malformed))
    case Some((v, _)) => FromValue(v)
  }

  function Get<B>(r: Reader<B>, key: u64): Result<Value<B>> {
    if key in r then Ok(r[key]) else Err(Error.Cbor(MissingKey(key)))
  }

  function GetBytes<B>(r: Reader<B>, key: u64): Result<B> {
    var v :- Get(r, key);
    if v.Bytes? then Ok(v.b) else Err(Error.Cbor(WrongType(key)))
  }

  function GetText<B>(r: Reader<B>, key: u64): Result<string> {
    var v :- Get(r, key);
    if v.Text? then Ok(v.s) else Err(Error.Cbor(WrongType(key)))
  }

  function GetU64<B>(r: Reader<B>, key: u64): Result<u64> {
    var v :- Get(r, key);
    if !v.Int? then Err(Error.Cbor(WrongType(key)))
    else if 0 <= v.n <= U64_MAX then Ok(v.n) else Err(Error.Cbor(OutOfRange(key)))
  }

  function GetArray<B>(r: Reader<B>, key: u64): Result<seq<Value<B>>> {
    var v :- Get(r, key);
    if v.Array? then Ok(v.items) else Err(Error.Cbor(WrongType(key)))
  }

  /** `byte_array::<N>` on the wire. */
  function GetByteArray(r: Reader<seq<byte>>, key: u64, width: nat): (a: Result<seq<byte>>)
    ensures a.Ok? <==> key in r && r[key].Bytes? && |r[key].b| == width
    ensures a.Ok? ==> r[key] == Bytes(a.value)
  {
    var b :- GetBytes(r, key);
    if |b| == width then Ok(b) else Err(Error.Cbor(WrongWidth(key, width)))
  }

  // ------------------------------------------------------------------
  // MapBuilder
  // ------------------------------------------------------------------

  function BytesField<B>(key: u64, b: B): Entry<B> { Entry(Int(key), Bytes(b)) }
  function TextField<B>(key: u64, s: string): Entry<B> { Entry(Int(key), Text(s)) }
  function U64Field<B>(key: u64, n: u64): Entry<B> { Entry(Int(key), Int(n)) }
  function ArrayField<B>(key: u64, items: seq<Value<B>>): Entry<B> { Entry(Int(key), Array(items)) }

  /** `MapBuilder::to_vec`; the writer refuses only lengths and integers beyond 64 bits. */
  function ToVec(v: WireValue): (r: Result<seq<byte>>)
    ensures r.Ok? <==> Encodable(v)
  {
    if Encodable(v) then Ok(Encode(v)) else Err(Error.Cbor(Malformed))
  }

  /** The builder: fields in the order they are pushed. */
  class MapBuilder {
    var entries: Entries

    constructor ()
      ensures entries == []
    {
      entries := [];
    }

    method PushBytes(key: u64, v: seq<byte>)
      modifies this
      ensures entries == old(entries) + [BytesField(key, v)]
    {
      entries := entries + [Entry(Int(key), Bytes(v))];
    }

    method PushText(key: u64, v: string)
      modifies this
      ensures entries == old(entries) + [TextField(key, v)]
    {
      entries := entries + [Entry(Int(key), Text(v))];
    }

    method PushU64(key: u64, v: u64)
      modifies this
      ensures entries == old(entries) + [U64Field(key, v)]
    {
      entries := entries + [Entry(Int(key), Int(v))];
    }

    method PushArray(key: u64, v: seq<WireValue>)
      modifies this
      ensures entries == old(entries) + [ArrayField(key, v)]
    {
      entries := entries + [Entry(Int(key), Array(v))];
    }

    /** With distinct keys, what is written is read back by `FromSlice` as precisely the fields that
        were pushed, whatever bytes follow. */
    method Finish() returns (r: Result<seq<byte>>)
      ensures r == ToVec(Map(entries))
      ensures r.Ok? && DistinctIntKeys(entries) && Shallow(NESTING_LIMIT, Map(entries)) ==>
        forall t :: FromSlice(r.value + t).Ok? && Holds(FromSlice(r.value + t).value, entries)
    {
      r := ToVec(Map(entries));
      if r.Ok? && DistinctIntKeys(entries) && Shallow(NESTING_LIMIT, Map(entries)) {
        forall t ensures FromSlice(r.value + t).Ok? && Holds(FromSlice(r.value + t).value, entries) {
          WrittenMapReadsBack(entries, t);
        }
      }
    }
  }

  /** A written map with distinct keys reads back as its entries. */
  lemma WrittenMapReadsBack(es: Entries, t: seq<byte>)
    requires Encodable(Map(es)) && DistinctIntKeys(es) && Shallow(NESTING_LIMIT, Map(es))
    ensures FromSlice(Encode(Map(es)) + t) == FromValue(Map(es))
    ensures FromSlice(Encode(Map(es)) + t).Ok? && Holds(FromSlice(Encode(Map(es)) + t).value, es)
  {
    RoundTrip(NESTING_LIMIT, Map(es), t);
    MapReads(es);
  }

  predicate Scalar(v: WireValue) { v.Int? || v.Bytes? || v.Text? }

  /** A written map of scalar fields with distinct keys reads back as its entries. */
  lemma FlatMapReadsBack(es: Entries)
    requires ToVec(Map(es)).Ok? && DistinctIntKeys(es)
    requires forall i :: 0 <= i < |es| ==> Scalar(es[i].val)
    ensures FromSlice(ToVec(Map(es)).value).Ok? && Holds(FromSlice(ToVec(Map(es)).value).value, es)
  {
    FlatIsShallow(NESTING_LIMIT, es);
    WrittenMapReadsBack(es, []);
    assert Encode(Map(es)) + [] == Encode(Map(es));
  }

  lemma FlatIsShallow(limit: nat, es: Entries)
    requires limit > 0 && forall i :: 0 <= i < |es| ==> es[i].key.Int? && Scalar(es[i].val)
    ensures Shallow(limit, Map(es))
  {
    forall i | 0 <= i < |es| ensures Shallow(limit - 1, es[i].key) && Shallow(limit - 1, es[i].val) {
    }
  }

  lemma MapReads<B>(es: seq<Entry<B>>)
    requires DistinctIntKeys(es)
    ensures FromValue(Map(es)).Ok? && Holds(FromValue(Map(es)).value, es)
  {
    ReaderContents(es, |es|);
    assert es[..|es|] == es;
  }

  // ------------------------------------------------------------------
  // Reading is insensitive to the order of entries
  // ------------------------------------------------------------------

  /** All keys are integers and no two are equal: exactly what the reader accepts. */
  ghost predicate DistinctIntKeys<B>(es: seq<Entry<B>>) {
    (forall i :: 0 <= i < |es| ==> es[i].key.Int?) &&
    (forall i, j :: 0 <= i < j < |es| ==> es[i].key != es[j].key)
  }

  /** Every binding of `r` is an entry of `es`, and every entry is a binding of `r`. */
  ghost predicate Holds<B>(r: Reader<B>, es: seq<Entry<B>>) {
    (forall k :: k in r ==> Entry(Int(k), r[k]) in es) &&
    (forall i :: 0 <= i < |es| ==> es[i].key.Int? && es[i].key.n in r && r[es[i].key.n] == es[i].val)
  }

  /** The reader accepts a map exactly when its keys are distinct integers, and then it holds
      precisely the entries. */
  lemma {:induction false} ReaderContents<B>(es: seq<Entry<B>>, n: nat)
    requires n <= |es|
    ensures Inserted(es, n).Ok? <==> DistinctIntKeys(es[..n])
    ensures Inserted(es, n).Ok? ==> Holds(Inserted(es, n).value, es[..n])
  {
    if n > 0 {
      ReaderContents(es, n - 1);
      assert es[..n] == es[..n - 1] + [es[n - 1]];
      var r := Inserted(es, n - 1);
      if r.Err? {
        DistinctBefore(es[..n - 1], es[n - 1]);
      } else {
        EntryAdded(es[..n - 1], es[n - 1], r.value);
      }
    }
  }

  lemma DistinctBefore<B>(before: seq<Entry<B>>, e: Entry<B>)
    ensures DistinctIntKeys(before + [e]) ==> DistinctIntKeys(before)
  {
    assert forall i :: 0 <= i < |before| ==> (before + [e])[i] == before[i];
  }

  /** One more entry: its key must be a new integer, and then the reader holds it too. */
  lemma EntryAdded<B>(before: seq<Entry<B>>, e: Entry<B>, r: Reader<B>)
    requires DistinctIntKeys(before) && Holds(r, before)
    ensures DistinctIntKeys(before + [e]) <==> e.key.Int? && e.key.n !in r
    ensures e.key.Int? && e.key.n !in r ==> Holds(r[e.key.n := e.val], before + [e])
  {
    var now, n := before + [e], |before|;
    assert now[n] == e;
    if e.key.Int? && e.key.n in r {
      var i :| 0 <= i < n && before[i] == Entry(Int(e.key.n), r[e.key.n]);
      assert now[i].key == now[n].key;
    }
  }

  /** Two entry lists with the same entries in any order read alike: both are refused, or both
      give the same reader. */
  lemma PermutedEntriesReadAlike<B>(es: seq<Entry<B>>, fs: seq<Entry<B>>)
    requires multiset(es) == multiset(fs)
    ensures FromValue(Map(es)).Ok? <==> FromValue(Map(fs)).Ok?
    ensures FromValue(Map(es)).Ok? ==> FromValue(Map(es)) == FromValue(Map(fs))
  {
    ReaderContents(es, |es|);
    ReaderContents(fs, |fs|);
    assert es[..|es|] == es && fs[..|fs|] == fs;
    if DistinctIntKeys(es) { PermutationKeepsDistinctKeys(es, fs); }
    if DistinctIntKeys(fs) { PermutationKeepsDistinctKeys(fs, es); }
    if DistinctIntKeys(es) {
      var r, q := Inserted(es, |es|).value, Inserted(fs, |fs|).value;
      SameHolds(r, q, es, fs);
    }
  }

  lemma SameHolds<B>(r: Reader<B>, q: Reader<B>, es: seq<Entry<B>>, fs: seq<Entry<B>>)
    requires Holds(r, es) && Holds(q, fs) && multiset(es) == multiset(fs)
    ensures r == q
  {
    forall k | k in r ensures k in q && q[k] == r[k] {
      assert Entry(Int(k), r[k]) in multiset(es);
      var i :| 0 <= i < |fs| && fs[i] == Entry(Int(k), r[k]);
    }
    forall k | k in q ensures k in r {
      assert Entry(Int(k), q[k]) in multiset(fs);
      var i :| 0 <= i < |es| && es[i] == Entry(Int(k), q[k]);
    }
  }

  lemma PermutationKeepsDistinctKeys<B>(es: seq<Entry<B>>, fs: seq<Entry<B>>)
    requires multiset(es) == multiset(fs) && DistinctIntKeys(es)
    ensures DistinctIntKeys(fs)
  {
    forall i | 0 <= i < |fs| ensures fs[i].key.Int? {
      assert fs[i] in multiset(es);
    }
    forall i, j | 0 <= i < j < |fs| ensures fs[i].key != fs[j].key {
      if fs[i].key == fs[j].key {
        assert fs[i] in multiset(es) && fs[j] in multiset(es);
        if fs[i] == fs[j] {
          assert fs == fs[..i] + [fs[i]] + fs[i + 1..j] + [fs[j]] + fs[j + 1..];
          assert multiset(fs)[fs[i]] >= 2;
          OnceInDistinct(es, fs[i]);
        }
      }
    }
  }

  lemma {:induction false} OnceInDistinct<B>(es: seq<Entry<B>>, e: Entry<B>)
    requires DistinctIntKeys(es)
    ensures multiset(es)[e] <= 1
  {
    if es != [] {
      OnceInDistinct(es[1..], e);
      assert es == [es[0]] + es[1..];
      assert es[0] !in es[1..];
    }
  }
}
