/** The two pairing machines (pairing.rs): state and step functions. */
module Pairing {
  import opened Bytes
  import opened Common
  import opened Frames
  import opened Crypto
  import opened Cbor
  import opened Messages
  import opened Sessions
  import opened Sas

  const PAIR_TOKEN_TTL_MS := 600_000

  /** A completed pairing: who the peer is. */
  datatype Record = Record(deviceId: Blob, publicKey: Blob, displayName: string, createdAt: u64, lastSeen: u64)

  function NewRecord(deviceId: Blob, pk: Blob, name: string, now: u64): Record {
    Record(deviceId, pk, name, now, now)
  }

  datatype PairReason =
    | UnexpectedPairFrame
    | MalformedReq | MalformedReqFields | BadToken | TokenUsed | TokenExpired | IdMismatch | NoKeygen
    | MalformedConfirm | MalformedConfirmMac | ConfirmWithoutRequest | ConfirmMacMismatch
    | MalformedAckMsg | MalformedAckKey
    | ConfirmBeforeSas | ConfirmWithoutSas | UserRejected

  datatype PairAction =
    | SendPair(frame: SFrame)
    | ShowSas(emoji: Emoji4)
    | Completed(record: Record)
    | PairFailed(why: PairReason)

  /** BLAKE3 of a SAS input, cut to 32 bits: any function. */
  type SasDigest = MacInput -> u32

  // ------------------------------------------------------------------
  // Messages
  // ------------------------------------------------------------------

  datatype ReqMsg = ReqMsg(token: Blob, id: Blob, pk: Blob, name: string, ephI: Blob)

  function ReqFields(m: ReqMsg): seq<Entry<Blob>> {
    [BytesField(1, m.token), BytesField(2, m.id), BytesField(3, m.pk), TextField(4, m.name), BytesField(5, m.ephI)]
  }

  function ReqOf(m: Result<Reader<Blob>>): Parse<ReqMsg> {
    if m.Err? then BadMap else
    var r := m.value;
    var token, id, pk, ephI := GetBlob(r, 1, 16), GetBlob(r, 2, 16), GetBlob(r, 3, 32), GetBlob(r, 5, 32);
    if token.Err? || id.Err? || pk.Err? || ephI.Err? then BadFields else
    var name := GetText(r, 4);
    Good(ReqMsg(token.value, id.value, pk.value, if name.Ok? then name.value else "iPhone", ephI.value))
  }

  function ReadReq(p: Payload): Parse<ReqMsg> {
    if p.Clear? then ReqOf(FromValue(p.v)) else BadMap
  }

  /** PAIR_ACK and PAIR_CONFIRM carry one 32-byte field under key 1. */
  function OneField(b: Blob): seq<Entry<Blob>> { [BytesField(1, b)] }

  function OneOf(m: Result<Reader<Blob>>): Parse<Blob> {
    if m.Err? then BadMap else
    var b := GetBlob(m.value, 1, 32);
    if b.Err? then BadFields else Good(b.value)
  }

  function ReadOne(p: Payload): Parse<Blob> {
    if p.Clear? then OneOf(FromValue(p.v)) else BadMap
  }

  lemma ReqRoundTrip(m: ReqMsg)
    requires Width(m.token) == 16 && Width(m.id) == 16 && Width(m.pk) == 32 && Width(m.ephI) == 32
    ensures ReadReq(Clear(Map(ReqFields(m)))) == Good(m)
  {
    MapReads(ReqFields(m));
    ReqFieldsRead(FromValue(Map(ReqFields(m))), m);
  }

  lemma ReqFieldsRead(r: Result<Reader<Blob>>, m: ReqMsg)
    requires Width(m.token) == 16 && Width(m.id) == 16 && Width(m.pk) == 32 && Width(m.ephI) == 32
    requires r.Ok? && Holds(r.value, ReqFields(m))
    ensures ReqOf(r) == Good(m)
  {
    var es := ReqFields(m);
    assert es[0] == BytesField(1, m.token) && es[1] == BytesField(2, m.id) && es[2] == BytesField(3, m.pk);
    assert es[3] == TextField(4, m.name) && es[4] == BytesField(5, m.ephI);
  }

  lemma OneRoundTrip(b: Blob)
    requires Width(b) == 32
    ensures ReadOne(Clear(Map(OneField(b)))) == Good(b)
  {
    var es := OneField(b);
    MapReads(es);
    assert es[0] == BytesField(1, b);
  }

  // ------------------------------------------------------------------
  // The PC
  // ------------------------------------------------------------------

  datatype PcPhase = AwaitingReq | AwaitingConfirm | PcDone | PcFailed

  datatype PcPeer = PcPeer(deviceId: Blob, pk: Blob, name: string)

  datatype PcState = PcState(
    identity: Secret, token: Blob, issued: u64, tokenUsed: bool, phase: PcPhase,
    eph: Option<Secret>, peer: Option<PcPeer>, sasInput: Option<MacInput>)

  datatype PcStep = PcStep(s: PcState, acts: seq<PairAction>)

  function NewPcPairing(identity: Secret, token: Blob, issued: u64): PcState {
    PcState(identity, token, issued, false, AwaitingReq, None, None, None)
  }

  function PcFail(s: PcState, why: PairReason): PcStep {
    PcStep(s.(phase := PcFailed), [PairFailed(why)])
  }

  /** Why a presented token is refused, if it is.  The age is a saturating difference. */
  function TokenRefusal(s: PcState, presented: Blob, now: u64): Option<PairReason> {
    if presented != s.token then Some(BadToken)
    else if s.tokenUsed then Some(TokenUsed)
    else if now > s.issued + PAIR_TOKEN_TTL_MS then Some(TokenExpired)
    else None
  }

  function OnPairReq(s: PcState, p: Payload, now: u64, newEph: Option<Secret>, digest: SasDigest): PcStep {
    match ReadReq(p)
    case BadMap => PcFail(s, MalformedReq)
    case BadFields => PcFail(s, MalformedReqFields)
    case BadType => PcFail(s, MalformedReqFields)
    case Good(m) =>
      match TokenRefusal(s, m.token, now)
      case Some(why) => PcFail(s, why)
      case None =>
        if DeviceId(m.pk) != m.id then PcFail(s, IdMismatch) else
        var s1 := s.(tokenUsed := true);
        if newEph.None? then PcFail(s1, NoKeygen) else
        var sas := SasBasis(Diffie(newEph.value, m.ephI), m.pk, Pub(s.identity), s.token);
        PcStep(s1.(eph := newEph, peer := Some(PcPeer(m.id, m.pk, m.name)), sasInput := Some(sas),
                   phase := AwaitingConfirm),
               [SendPair(Frame(PairAck, Clear(Map(OneField(Pub(newEph.value)))))), ShowSas(SasEmoji(digest(sas)))])
  }

  function OnConfirm(s: PcState, p: Payload, now: u64): PcStep {
    match ReadOne(p)
    case BadMap => PcFail(s, MalformedConfirm)
    case BadFields => PcFail(s, MalformedConfirmMac)
    case BadType => PcFail(s, MalformedConfirmMac)
    case Good(mac) =>
      if s.peer.None? || s.sasInput.None? then PcFail(s, ConfirmWithoutRequest)
      else if !VerifyMac(Diffie(s.identity, s.peer.value.pk), s.sasInput.value, mac)
      then PcFail(s, ConfirmMacMismatch)
      else
        var peer := s.peer.value;
        PcStep(s.(phase := PcDone), [Completed(NewRecord(peer.deviceId, peer.pk, peer.name, now))])
  }

  function PcOnFrame(s: PcState, f: SFrame, now: u64, newEph: Option<Secret>, digest: SasDigest): PcStep {
    if s.phase == AwaitingReq && f.ty == PairReq then OnPairReq(s, f.payload, now, newEph, digest)
    else if s.phase == AwaitingConfirm && f.ty == PairConfirm then OnConfirm(s, f.payload, now)
    else PcFail(s, UnexpectedPairFrame)
  }

  // ------------------------------------------------------------------
  // The phone
  // ------------------------------------------------------------------

  datatype PhonePhase = AwaitingAck | AwaitingUser | PhoneDone | PhoneFailed

  /** What the phone keeps of a scanned QR code. */
  datatype Scan = Scan(deviceId: Blob, publicKey: Blob, displayName: string, token: Blob)

  /** `QrPayload`: what a PC puts on its screen. */
  datatype Code = Code(version: byte, scan: Scan, hosts: seq<string>)

  function CodeFor(pc: Secret, name: string, hosts: seq<string>, token: Blob): Code {
    Code(PROTOCOL_VERSION, Scan(DeviceId(Pub(pc)), Pub(pc), name, token), hosts)
  }

  datatype PhoneState = PhoneState(
    identity: Secret, displayName: string, qr: Scan, eph: Secret, phase: PhonePhase, sasInput: Option<MacInput>)

  datatype PhoneStep = PhoneStep(s: PhoneState, acts: seq<PairAction>)

  function StartPairing(identity: Secret, name: string, qr: Scan, eph: Secret): (PhoneState, SFrame) {
    (PhoneState(identity, name, qr, eph, AwaitingAck, None),
     Frame(PairReq, Clear(Map(ReqFields(ReqMsg(qr.token, DeviceId(Pub(identity)), Pub(identity), name, Pub(eph)))))))
  }

  function PhoneFail(s: PhoneState, why: PairReason): PhoneStep {
    PhoneStep(s.(phase := PhoneFailed), [PairFailed(why)])
  }

  function PhoneOnFrame(s: PhoneState, f: SFrame, digest: SasDigest): PhoneStep {
    if s.phase != AwaitingAck || f.ty != PairAck then PhoneFail(s, UnexpectedPairFrame)
    else match ReadOne(f.payload)
      case BadMap => PhoneFail(s, MalformedAckMsg)
      case BadFields => PhoneFail(s, MalformedAckKey)
      case BadType => PhoneFail(s, MalformedAckKey)
      case Good(ephR) =>
        var sas := SasBasis(Diffie(s.eph, ephR), Pub(s.identity), s.qr.publicKey, s.qr.token);
        PhoneStep(s.(sasInput := Some(sas), phase := AwaitingUser), [ShowSas(SasEmoji(digest(sas)))])
  }

  /** The user says the emoji match.  Out of turn this reports failure and changes nothing. */
  function ConfirmSas(s: PhoneState, now: u64): PhoneStep {
    if s.phase != AwaitingUser then PhoneStep(s, [PairFailed(ConfirmBeforeSas)])
    else if s.sasInput.None? then PhoneStep(s, [PairFailed(ConfirmWithoutSas)])
    else
      var mac := Mac(Diffie(s.identity, s.qr.publicKey), s.sasInput.value);
      PhoneStep(s.(phase := PhoneDone),
                [SendPair(Frame(PairConfirm, Clear(Map(OneField(mac))))),
                 Completed(NewRecord(s.qr.deviceId, s.qr.publicKey, s.qr.displayName, now))])
  }

  /** The user says they differ. */
  function RejectSas(s: PhoneState): PhoneStep {
    PhoneFail(s, UserRejected)
  }
}
