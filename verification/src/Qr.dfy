/** The pairing QR code and the stored pairing record (pairing.rs).  `idOf` stands for
    `device_id_from_pk`, the truncated BLAKE3 hash of a public key. */
module Qr {
  import opened Bytes
  import opened Common
  import opened TextCodings
  import Utf8

  type Id = bs: seq<byte> | |bs| == 16 witness seq(16, _ => 0)
  type Key = bs: seq<byte> | |bs| == 32 witness seq(32, _ => 0)
  type Hash = Key -> Id

  datatype QrPayload = QrPayload(
    version: byte, deviceId: Id, publicKey: Key, displayName: string, hosts: seq<string>, token: Id)

  datatype QrError =
    | BadUrl | BadId | BadKey | BadToken | MissingVersion | UnsupportedVersion | MissingId | MissingKey
    | MissingToken | IdMismatch

  datatype Outcome<+T> = Fine(value: T) | Bad(error: QrError)

  const PREFIX := "airclip://pair?"

  // ------------------------------------------------------------------
  // Printing
  // ------------------------------------------------------------------

  function Param(name: string, value: string): string { name + ['='] + value }

  function Params(q: QrPayload): seq<string> {
    [Param("v", Decimal(q.version)), Param("id", HexEncode(q.deviceId)),
     Param("pk", Base64Encode(q.publicKey)), Param("nm", Percent(Utf8.Encode(q.displayName))),
     Param("hosts", Percent(Utf8.Encode(Join(q.hosts, ',')))), Param("tok", Base64Encode(q.token))]
  }

  function ToUrl(q: QrPayload): string { PREFIX + Join(Params(q), '&') }

  // ------------------------------------------------------------------
  // Parsing
  // ------------------------------------------------------------------

  type Pair = (string, string)

  /** One `name=value` piece, form-decoded; without `=` the value is empty. */
  function PairOf(piece: string): Pair {
    var i := IndexOf(piece, '=');
    (FormText(piece[..i]), if i < |piece| then FormText(piece[i + 1..]) else "")
  }

  function PairsOf(pieces: seq<string>): (ps: seq<Pair>)
    ensures |ps| == |pieces|
  {
    seq(|pieces|, i requires 0 <= i < |pieces| => PairOf(pieces[i]))
  }

  /** `query_pairs`: empty pieces are skipped. */
  function QueryPairs(query: string): seq<Pair> { PairsOf(NonEmpty(Split(query, '&'))) }

  datatype Draft = Draft(
    version: Option<byte>, deviceId: Option<Id>, publicKey: Option<Key>, displayName: string,
    hosts: seq<string>, token: Option<Id>)

  const EMPTY := Draft(None, None, None, "", [], None)

  function HostsOf(v: string): seq<string> { NonEmpty(Split(v, ',')) }

  /** What one parameter does to the fields read so far: the last occurrence wins, an unreadable
      version is forgotten, other unreadable values end the parse, unknown names do nothing. */
  function Absorb(d: Draft, p: Pair): Outcome<Draft> {
    var (k, v) := p;
    if k == "v" then Fine(d.(version := ParseByte(v)))
    else if k == "id" then
      var raw := HexDecode(v);
      if raw.Some? && |raw.value| == 16 then Fine(d.(deviceId := Some(raw.value))) else Bad(BadId)
    else if k == "pk" then
      var raw := Base64Decode(v);
      if raw.Some? && |raw.value| == 32 then Fine(d.(publicKey := Some(raw.value))) else Bad(BadKey)
    else if k == "nm" then Fine(d.(displayName := v))
    else if k == "hosts" then Fine(d.(hosts := HostsOf(v)))
    else if k == "tok" then
      var raw := Base64Decode(v);
      if raw.Some? && |raw.value| == 16 then Fine(d.(token := Some(raw.value))) else Bad(BadToken)
    else Fine(d)
  }

  /** The parameters taken in order. */
  function AbsorbAll(d: Draft, ps: seq<Pair>): Outcome<Draft>
    decreases |ps|
  {
    if ps == [] then Fine(d) else
    var next := Absorb(d, ps[0]);
    if next.Bad? then next else AbsorbAll(next.value, ps[1..])
  }

  function Finish(d: Draft, idOf: Hash): Outcome<QrPayload> {
    if d.version.None? then Bad(MissingVersion)
    else if d.version.value != PROTOCOL_VERSION then Bad(UnsupportedVersion)
    else if d.deviceId.None? then Bad(MissingId)
    else if d.publicKey.None? then Bad(QrError.MissingKey)
    else if d.token.None? then Bad(MissingToken)
    else if idOf(d.publicKey.value) != d.deviceId.value then Bad(IdMismatch)
    else Fine(QrPayload(d.version.value, d.deviceId.value, d.publicKey.value, d.displayName, d.hosts, d.token.value))
  }

  function Finished(d: Outcome<Draft>, idOf: Hash): Outcome<QrPayload> {
    if d.Bad? then Bad(d.error) else Finish(d.value, idOf)
  }

  function Parse(url: string, idOf: Hash): Outcome<QrPayload> {
    if !(PREFIX <= url) then Bad(BadUrl)
    else Finished(AbsorbAll(EMPTY, QueryPairs(url[|PREFIX|..])), idOf)
  }

  /** `QrPayload::parse`: the loop over the parameters, a variable per field. */
  method ParseUrl(url: string, idOf: Hash) returns (r: Outcome<QrPayload>)
    ensures r == Parse(url, idOf)
  {
    if !(PREFIX <= url) {
      return Bad(BadUrl);
    }
    var ps := QueryPairs(url[|PREFIX|..]);
    var version: Option<byte>, deviceId: Option<Id>, publicKey: Option<Key> := None, None, None;
    var displayName, hosts, token: Option<Id> := "", [], None;
    var i := 0;
    while i < |ps|
      invariant 0 <= i <= |ps|
      invariant AbsorbAll(EMPTY, ps) ==
        AbsorbAll(Draft(version, deviceId, publicKey, displayName, hosts, token), ps[i..])
    {
      var (k, v) := ps[i];
      match k {
        case "v" => version := ParseByte(v);
        case "id" =>
          var raw := HexDecode(v);
          if raw.None? || |raw.value| != 16 { return Bad(BadId); }
          deviceId := Some(raw.value);
        case "pk" =>
          var raw := Base64Decode(v);
          if raw.None? || |raw.value| != 32 { return Bad(BadKey); }
          publicKey := Some(raw.value);
        case "nm" => displayName := v;
        case "hosts" => hosts := HostsOf(v);
        case "tok" =>
          var raw := Base64Decode(v);
          if raw.None? || |raw.value| != 16 { return Bad(BadToken); }
          token := Some(raw.value);
        case _ =>
      }
      assert ps[i..][1..] == ps[i + 1..];
      i := i + 1;
    }
    r := Finish(Draft(version, deviceId, publicKey, displayName, hosts, token), idOf);
  }

  // ------------------------------------------------------------------
  // Printing, then parsing
  // ------------------------------------------------------------------

  predicate GoodHosts(hosts: seq<string>) {
    Without(hosts, ',') && forall i :: 0 <= i < |hosts| ==> hosts[i] != []
  }

  /** The payloads a QR code can carry faithfully. */
  predicate Printable(q: QrPayload, idOf: Hash) {
    q.version == PROTOCOL_VERSION && idOf(q.publicKey) == q.deviceId && GoodHosts(q.hosts)
  }

  lemma ParamReads(name: string, value: string)
    requires Plain(name)
    ensures PairOf(Param(name, value)) == (name, FormText(value))
  {
    var piece := Param(name, value);
    assert '=' !in name;
    IndexOfFirst(name, '=', value);
    assert piece[..|name|] == name && piece[|name| + 1..] == value;
    PlainFormText(name);
  }

  lemma PlainParam(name: string, value: string)
    requires Plain(name) && Plain(value)
    ensures PairOf(Param(name, value)) == (name, value) && '&' !in Param(name, value)
  {
    ParamReads(name, value);
    PlainFormText(value);
  }

  lemma PercentParam(name: string, text: string)
    requires Plain(name)
    ensures var p := Param(name, Percent(Utf8.Encode(text))); PairOf(p) == (name, text) && '&' !in p
  {
    var bs := Utf8.Encode(text);
    ParamReads(name, Percent(bs));
    PercentRoundTrip(bs);
    Utf8.RoundTrip(text);
  }

  /** The parameters a printed URL is read back as. */
  function Fields(q: QrPayload): seq<Pair> {
    [("v", Decimal(q.version)), ("id", HexEncode(q.deviceId)), ("pk", Base64Encode(q.publicKey)),
     ("nm", q.displayName), ("hosts", Join(q.hosts, ',')), ("tok", Base64Encode(q.token))]
  }

  /** A piece that is not lost in the query and is read as `p`. */
  predicate ReadsAs(piece: string, p: Pair) { PairOf(piece) == p && '&' !in piece }

  lemma ParamsRead(q: QrPayload)
    ensures Without(Params(q), '&') && PairsOf(Params(q)) == Fields(q)
  {
    var ps, fs := Params(q), Fields(q);
    forall i | 0 <= i < |ps| ensures ReadsAs(ps[i], fs[i]) {
      if i == 0 { VersionRead(q); } else if i == 1 { IdRead(q); }
      else if i == 3 || i == 4 { TextParamRead(q, i); } else { KeyParamRead(q, i); }
    }
    AllRead(ps, fs);
  }

  lemma AllRead(ps: seq<string>, fs: seq<Pair>)
    requires |ps| == |fs| && forall i :: 0 <= i < |ps| ==> ReadsAs(ps[i], fs[i])
    ensures Without(ps, '&') && PairsOf(ps) == fs
  {
  }

  lemma VersionRead(q: QrPayload)
    ensures ReadsAs(Params(q)[0], Fields(q)[0])
  {
    ByteRoundTrip(q.version);
    PlainParam("v", Decimal(q.version));
  }

  lemma IdRead(q: QrPayload)
    ensures ReadsAs(Params(q)[1], Fields(q)[1])
  {
    HexRoundTrip(q.deviceId);
    PlainParam("id", HexEncode(q.deviceId));
  }

  lemma KeyParamRead(q: QrPayload, i: nat)
    requires i == 2 || i == 5
    ensures ReadsAs(Params(q)[i], Fields(q)[i])
  {
    if i == 2 {
      Base64RoundTrip(q.publicKey);
      PlainParam("pk", Base64Encode(q.publicKey));
    } else {
      Base64RoundTrip(q.token);
      PlainParam("tok", Base64Encode(q.token));
    }
  }

  lemma TextParamRead(q: QrPayload, i: nat)
    requires i == 3 || i == 4
    ensures ReadsAs(Params(q)[i], Fields(q)[i])
  {
    if i == 3 {
      PercentParam("nm", q.displayName);
    } else {
      PercentParam("hosts", Join(q.hosts, ','));
    }
  }

  lemma PrintedPairs(q: QrPayload)
    ensures QueryPairs(Join(Params(q), '&')) == Fields(q)
  {
    ParamsRead(q);
    SplitJoin(Params(q), '&');
    NonEmptyKeeps(Params(q));
  }

  lemma FieldsAbsorbed(q: QrPayload)
    ensures AbsorbAll(EMPTY, Fields(q)) ==
      Fine(Draft(Some(q.version), Some(q.deviceId), Some(q.publicKey), q.displayName,
                 HostsOf(Join(q.hosts, ',')), Some(q.token)))
  {
    ByteRoundTrip(q.version);
    HexRoundTrip(q.deviceId);
    Base64RoundTrip(q.publicKey);
    Base64RoundTrip(q.token);
    var d1 := EMPTY.(version := Some(q.version));
    var d2 := d1.(deviceId := Some(q.deviceId));
    var d3 := d2.(publicKey := Some(q.publicKey));
    var d4 := d3.(displayName := q.displayName);
    var d5 := d4.(hosts := HostsOf(Join(q.hosts, ',')));
    var d6 := d5.(token := Some(q.token));
    var ps := Fields(q);
    AbsorbOne(d5, ps, 5, d6);
    AbsorbOne(d4, ps, 4, d5);
    AbsorbOne(d3, ps, 3, d4);
    AbsorbOne(d2, ps, 2, d3);
    AbsorbOne(d1, ps, 1, d2);
    AbsorbOne(EMPTY, ps, 0, d1);
    assert ps[6..] == [] && ps[0..] == ps;
  }

  lemma AbsorbOne(d: Draft, ps: seq<Pair>, i: nat, e: Draft)
    requires i < |ps| && Absorb(d, ps[i]) == Fine(e)
    ensures AbsorbAll(d, ps[i..]) == AbsorbAll(e, ps[i + 1..])
  {
    assert ps[i..][1..] == ps[i + 1..];
  }

  /** What parsing makes of any printed payload. */
  lemma PrintedParses(q: QrPayload, idOf: Hash)
    ensures Parse(ToUrl(q), idOf) ==
      if q.version != PROTOCOL_VERSION then Bad(UnsupportedVersion)
      else if idOf(q.publicKey) != q.deviceId then Bad(IdMismatch)
      else Fine(q.(hosts := HostsOf(Join(q.hosts, ','))))
  {
    PrintedPairs(q);
    FieldsAbsorbed(q);
    assert ToUrl(q)[|PREFIX|..] == Join(Params(q), '&');
  }

  /** A printed payload comes back unchanged exactly when it is version 1, its id matches its key and
      its hosts are non-empty and comma-free. */
  lemma QrRoundTrip(q: QrPayload, idOf: Hash)
    ensures Parse(ToUrl(q), idOf) == Fine(q) <==> Printable(q, idOf)
  {
    PrintedParses(q, idOf);
    ListRoundTrip(q.hosts, ',');
  }

  /** A payload whose host contains a comma: it is printed and accepted, but as another payload. */
  lemma CommaSplitsHost(pk: Key, token: Id, idOf: Hash) returns (q: QrPayload)
    ensures q.version == PROTOCOL_VERSION && idOf(q.publicKey) == q.deviceId && q.hosts == ["a,b"]
    ensures Parse(ToUrl(q), idOf).Fine? && Parse(ToUrl(q), idOf).value != q
  {
    q := QrPayload(PROTOCOL_VERSION, idOf(pk), pk, "PC", ["a,b"], token);
    assert q.hosts[0][1] == ',';
    QrRoundTrip(q, idOf);
    PrintedParses(q, idOf);
  }

  /** Drafts hold usable hosts from the first parameter to the last. */
  lemma {:induction false} HostsStayGood(d: Draft, ps: seq<Pair>)
    requires GoodHosts(d.hosts) && AbsorbAll(d, ps).Fine?
    ensures GoodHosts(AbsorbAll(d, ps).value.hosts)
    decreases |ps|
  {
    if ps != [] {
      var e := Absorb(d, ps[0]).value;
      if ps[0].0 == "hosts" {
        HostsGood(ps[0].1);
      }
      HostsStayGood(e, ps[1..]);
    }
  }

  lemma HostsGood(v: string)
    ensures GoodHosts(HostsOf(v))
  {
    var hosts := HostsOf(v);
    forall i | 0 <= i < |hosts| ensures ',' !in hosts[i] && hosts[i] != [] {
      assert hosts[i] in hosts;
    }
  }

  /** Whatever URL was accepted, its payload is consistent, and printing it gives a URL with the same
      meaning. */
  lemma ParsedIsPrintable(url: string, idOf: Hash)
    requires Parse(url, idOf).Fine?
    ensures Printable(Parse(url, idOf).value, idOf)
    ensures Parse(ToUrl(Parse(url, idOf).value), idOf) == Parse(url, idOf)
  {
    ParsedIsConsistent(url, idOf);
    QrRoundTrip(Parse(url, idOf).value, idOf);
  }

  lemma ParsedIsConsistent(url: string, idOf: Hash)
    requires Parse(url, idOf).Fine?
    ensures Printable(Parse(url, idOf).value, idOf)
  {
    FinishedIsConsistent(QueryPairs(url[|PREFIX|..]), idOf);
  }

  lemma FinishedIsConsistent(ps: seq<Pair>, idOf: Hash)
    requires Finished(AbsorbAll(EMPTY, ps), idOf).Fine?
    ensures Printable(Finished(AbsorbAll(EMPTY, ps), idOf).value, idOf)
  {
    HostsStayGood(EMPTY, ps);
  }

  predicate KnownName(k: string) { k in {"v", "id", "pk", "nm", "hosts", "tok"} }

  /** Parameters with unknown names may be added anywhere. */
  lemma {:induction false} UnknownParamsIgnored(d: Draft, ps: seq<Pair>, extra: Pair, qs: seq<Pair>)
    requires !KnownName(extra.0)
    ensures AbsorbAll(d, ps + [extra] + qs) == AbsorbAll(d, ps + qs)
    decreases |ps|
  {
    var with, without := ps + [extra] + qs, ps + qs;
    if ps == [] {
      assert with[1..] == qs && without == qs && with[0] == extra;
      assert Absorb(d, extra) == Fine(d);
    } else {
      assert with[0] == ps[0] && without[0] == ps[0];
      assert with[1..] == ps[1..] + [extra] + qs && without[1..] == ps[1..] + qs;
      var next := Absorb(d, ps[0]);
      if next.Fine? {
        UnknownParamsIgnored(next.value, ps[1..], extra, qs);
      }
    }
  }

  // ------------------------------------------------------------------
  // Pairing records
  // ------------------------------------------------------------------

  /** `PairingRecord`, with its textual id and key. */
  datatype StoredPairing =
    StoredPairing(deviceId: string, publicKey: string, displayName: string, createdAt: u64, lastSeen: u64)

  function Store(id: Id, pk: Key, name: string, now: u64): StoredPairing {
    StoredPairing(HexEncode(id), Base64Encode(pk), name, now, now)
  }

  function PublicKeyBytes(r: StoredPairing): Option<Key> {
    var raw := Base64Decode(r.publicKey);
    if raw.Some? && |raw.value| == 32 then Some(raw.value) else None
  }

  function DeviceIdBytes(r: StoredPairing): Option<Id> {
    var raw := HexDecode(r.deviceId);
    if raw.Some? && |raw.value| == 16 then Some(raw.value) else None
  }

  lemma RecordRoundTrip(id: Id, pk: Key, name: string, now: u64)
    ensures DeviceIdBytes(Store(id, pk, name, now)) == Some(id)
    ensures PublicKeyBytes(Store(id, pk, name, now)) == Some(pk)
    ensures |Store(id, pk, name, now).deviceId| == 32
  {
    HexRoundTrip(id);
    Base64RoundTrip(pk);
  }

  /** Two records with readable keys hold the same key exactly when they spell it alike. */
  lemma RecordKeysCanonical(r: StoredPairing, s: StoredPairing)
    requires PublicKeyBytes(r).Some? && PublicKeyBytes(s).Some?
    ensures PublicKeyBytes(r) == PublicKeyBytes(s) <==> r.publicKey == s.publicKey
  {
    Base64Canonical(r.publicKey);
    Base64Canonical(s.publicKey);
    var a :| r.publicKey == Base64Encode(a);
    var b :| s.publicKey == Base64Encode(b);
    Base64RoundTrip(a);
    Base64RoundTrip(b);
  }
}
