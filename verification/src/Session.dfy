/** One connection's protocol state and its step functions: the handshake and the encrypted traffic
    (session.rs).  `SessionObject` has the object whose methods compute exactly these steps. */
module Sessions {
  import opened Bytes
  import opened Common
  import opened Frames
  import opened Crypto
  import opened Cbor
  import opened Messages
  import opened Stage

  const HELLO_TS_WINDOW_MS := 120_000

  datatype PeerKey = PeerKey(deviceId: Blob, publicKey: Blob)

  datatype Event =
    | Established(peer: Blob)
    | ClipArrived(clipId: seq<byte>, contentType: ContentType, body: seq<byte>, sourceName: string, createdAt: u64)
    | ClipAcked(clipId: seq<byte>, status: byte)
    | StageListRequested
    | StageItemRequested(stageId: seq<byte>)
    | StageListed(metas: seq<StageMeta>)
    | StageFetched(item: Item)
    | PeerError(code: u16, msg: string)

  datatype Reason =
    | FrameAfterClose | UnexpectedFrame
    | MalformedHello | MalformedHelloFields | UnsupportedVersion | StaleTimestamp | UnpairedDevice
    | HelloMacMismatch | KeygenFailed
    | MalformedHelloAck | MalformedHelloAckFields | NoPendingHandshake | HelloAckMacMismatch
    | BeforeHandshake | AeadOpenFailed | Unhandled
    | MalformedBody(ty: FrameType) | MalformedFields(ty: FrameType) | UnknownContent(ty: FrameType)
    | MalformedEntry | MalformedEntryFields
    | BeamingPaused | ClipTooLarge | EncodeFailed(ty: FrameType) | SealFailed(ty: FrameType)
    | PeerSentError

  /** The payload of a frame: a plaintext CBOR item of the handshake, or anything else. */
  datatype Payload = Clear(v: Value<Blob>) | Coded(c: Cipher)

  type SFrame = Frame<Payload>

  datatype Action = Send(frame: SFrame) | Emit(event: Event) | Close(why: Reason)

  datatype Phase = AwaitingHelloAck | AwaitingHello | Open | Closed

  datatype State = State(
    role: Role, identity: Secret, phase: Phase, knownPeers: seq<PeerKey>, peer: Option<PeerKey>,
    eph: Option<Secret>, ephPkI: Option<Blob>, channel: Option<Channel>, lastActivity: u64, paused: bool)

  datatype Step = Step(s: State, acts: seq<Action>)

  // ------------------------------------------------------------------
  // Handshake messages
  // ------------------------------------------------------------------

  function GetBlob(r: Reader<Blob>, key: u64, width: nat): (b: Result<Blob>)
    ensures b.Ok? ==> Width(b.value) == width
  {
    var v :- GetBytes(r, key);
    if Width(v) == width then Ok(v) else Err(Error.Cbor(WrongWidth(key, width)))
  }

  datatype HelloMsg = HelloMsg(version: u64, id: Blob, ephI: Blob, ts: u64, mac: Blob)

  function HelloFields(m: HelloMsg): seq<Entry<Blob>> {
    [U64Field(1, m.version), BytesField(2, m.id), BytesField(3, m.ephI), U64Field(4, m.ts), BytesField(5, m.mac)]
  }

  function HelloOf(m: Result<Reader<Blob>>): Parse<HelloMsg> {
    if m.Err? then BadMap else
    var r := m.value;
    var version, id, ephI, ts, mac :=
      GetU64(r, 1), GetBlob(r, 2, 16), GetBlob(r, 3, 32), GetU64(r, 4), GetBlob(r, 5, 32);
    if version.Err? || id.Err? || ephI.Err? || ts.Err? || mac.Err? then BadFields
    else Good(HelloMsg(version.value, id.value, ephI.value, ts.value, mac.value))
  }

  function ReadHello(p: Payload): Parse<HelloMsg> {
    if p.Clear? then HelloOf(FromValue(p.v)) else BadMap
  }

  datatype AckMsg = AckMsg(ephR: Blob, mac: Blob)

  function HelloAckFields(m: AckMsg): seq<Entry<Blob>> { [BytesField(1, m.ephR), BytesField(2, m.mac)] }

  function HelloAckOf(m: Result<Reader<Blob>>): Parse<AckMsg> {
    if m.Err? then BadMap else
    var ephR, mac := GetBlob(m.value, 1, 32), GetBlob(m.value, 2, 32);
    if ephR.Err? || mac.Err? then BadFields else Good(AckMsg(ephR.value, mac.value))
  }

  function ReadHelloAck(p: Payload): Parse<AckMsg> {
    if p.Clear? then HelloAckOf(FromValue(p.v)) else BadMap
  }

  lemma HelloRoundTrip(m: HelloMsg)
    requires Width(m.id) == 16 && Width(m.ephI) == 32 && Width(m.mac) == 32
    ensures ReadHello(Clear(Map(HelloFields(m)))) == Good(m)
  {
    MapReads(HelloFields(m));
    HelloFieldsRead(FromValue(Map(HelloFields(m))), m);
  }

  lemma HelloFieldsRead(r: Result<Reader<Blob>>, m: HelloMsg)
    requires Width(m.id) == 16 && Width(m.ephI) == 32 && Width(m.mac) == 32
    requires r.Ok? && Holds(r.value, HelloFields(m))
    ensures HelloOf(r) == Good(m)
  {
    var es := HelloFields(m);
    assert es[0] == U64Field(1, m.version) && es[1] == BytesField(2, m.id) && es[2] == BytesField(3, m.ephI);
    assert es[3] == U64Field(4, m.ts) && es[4] == BytesField(5, m.mac);
  }

  lemma HelloAckRoundTrip(m: AckMsg)
    requires Width(m.ephR) == 32 && Width(m.mac) == 32
    ensures ReadHelloAck(Clear(Map(HelloAckFields(m)))) == Good(m)
  {
    var es := HelloAckFields(m);
    MapReads(es);
    assert es[0] == BytesField(1, m.ephR) && es[1] == BytesField(2, m.mac);
  }

  // ------------------------------------------------------------------
  // Openings
  // ------------------------------------------------------------------

  /** The HELLO a phone with this identity sends to this peer. */
  function HelloFor(identity: Secret, peer: PeerKey, now: u64, eph: Secret): HelloMsg {
    var id := DeviceId(Pub(identity));
    var mac := Mac(Diffie(identity, peer.publicKey), HelloBasis(id, Pub(eph), now));
    HelloMsg(PROTOCOL_VERSION, id, Pub(eph), now, mac)
  }

  function StartPhone(identity: Secret, peer: PeerKey, now: u64, eph: Secret): (State, SFrame) {
    (State(Phone, identity, AwaitingHelloAck, [peer], Some(peer), Some(eph), Some(Pub(eph)), None, now, false),
     Frame(Hello, Clear(Map(HelloFields(HelloFor(identity, peer, now, eph))))))
  }

  function NewPc(identity: Secret, knownPeers: seq<PeerKey>, now: u64): State {
    State(Pc, identity, AwaitingHello, knownPeers, None, None, None, None, now, false)
  }

  // ------------------------------------------------------------------
  // Inbound steps
  // ------------------------------------------------------------------

  function Fail(s: State, why: Reason): Step { Step(s.(phase := Closed), [Close(why)]) }

  function WireCode(why: Reason): u16 {
    if why == UnsupportedVersion then 1 else if why == ClipTooLarge then 4 else 5
  }

  function WireText(why: Reason): string {
    if why == UnsupportedVersion then "unsupported version"
    else if why == ClipTooLarge then "clip exceeds MAX_TEXT_CLIP" else "beaming paused"
  }

  /** Close, after an ERROR frame if there is a channel to carry one. */
  function WireError(s: State, why: Reason): Step {
    if s.channel.None? then Fail(s, why) else
    var (ch, r) := Seal(s.channel.value, ErrorFrame, WriteError(WireCode(why), WireText(why)));
    var closed := s.(phase := Closed, channel := Some(ch));
    if r.Err? then Step(closed, [Close(why)])
    else Step(closed, [Send(Frame(ErrorFrame, Coded(r.value))), Close(why)])
  }

  function SealFrame(s: State, ty: FrameType, plain: seq<byte>): (State, Result<SFrame>) {
    if s.channel.None? then (s, Err(Error.Crypto)) else
    var (ch, r) := Seal(s.channel.value, ty, plain);
    (s.(channel := Some(ch)), if r.Err? then Err(r.error) else Ok(Frame(ty, Coded(r.value))))
  }

  function FindPeer(peers: seq<PeerKey>, id: Blob): (p: Option<PeerKey>)
    ensures p.Some? ==> p.value in peers && p.value.deviceId == id
    ensures p.None? ==> Unknown(peers, id)
  {
    if peers == [] then None
    else if peers[0].deviceId == id then Some(peers[0]) else FindPeer(peers[1..], id)
  }

  /** No peer has that id. */
  predicate Unknown(peers: seq<PeerKey>, id: Blob) {
    forall i :: 0 <= i < |peers| ==> peers[i].deviceId != id
  }

  /** It is the first one, and there is none exactly when no peer has the id. */
  lemma {:induction false} FindsFirst(peers: seq<PeerKey>, id: Blob)
    ensures FindPeer(peers, id).None? <==> Unknown(peers, id)
    ensures FindPeer(peers, id).Some? ==>
      exists i :: 0 <= i < |peers| && peers[i] == FindPeer(peers, id).value && Unknown(peers[..i], id)
  {
    if peers != [] && peers[0].deviceId == id {
      assert peers[0] == FindPeer(peers, id).value && Unknown(peers[..0], id);
    } else if peers != [] {
      var rest := peers[1..];
      FindsFirst(rest, id);
      if FindPeer(peers, id).Some? {
        var i :| 0 <= i < |rest| && rest[i] == FindPeer(rest, id).value && Unknown(rest[..i], id);
        assert peers[i + 1] == rest[i] && peers[..i + 1] == [peers[0]] + rest[..i];
        assert Unknown(peers[..i + 1], id);
      }
    }
  }

  function AbsDiff(a: u64, b: u64): nat { if a < b then b - a else a - b }

  /** The keys the PC derives when it accepts a HELLO with a fresh ephemeral `r`. */
  function PcKeys(identity: Secret, peer: PeerKey, initiator: Blob, ephI: Blob, r: Secret): SessionKeys {
    DeriveSessionKeys(Diffie(r, ephI), Diffie(r, peer.publicKey), Diffie(identity, peer.publicKey),
                      initiator, DeviceId(Pub(identity)))
  }

  /** The HELLO_ACK the PC answers with. */
  function AckFor(identity: Secret, peer: PeerKey, ephI: Blob, r: Secret): AckMsg {
    AckMsg(Pub(r), Mac(Diffie(identity, peer.publicKey), AckBasis(Pub(r), ephI)))
  }

  /** What the checks of `on_hello` decide: the peer, or why the HELLO is refused. */
  datatype Verdict = Accept(peer: PeerKey) | Refuse(why: Reason)

  function JudgeHello(s: State, m: HelloMsg, now: u64): Verdict {
    if m.version != PROTOCOL_VERSION then Refuse(UnsupportedVersion)
    else if AbsDiff(m.ts, now) > HELLO_TS_WINDOW_MS then Refuse(StaleTimestamp)
    else match FindPeer(s.knownPeers, m.id)
      case None => Refuse(UnpairedDevice)
      case Some(peer) =>
        if VerifyMac(Diffie(s.identity, peer.publicKey), HelloBasis(m.id, m.ephI, m.ts), m.mac)
        then Accept(peer) else Refuse(HelloMacMismatch)
  }

  function OnHello(s: State, p: Payload, now: u64, newEph: Option<Secret>): Step {
    match ReadHello(p)
    case BadMap => Fail(s, MalformedHello)
    case BadFields => Fail(s, MalformedHelloFields)
    case BadType => Fail(s, MalformedHelloFields)
    case Good(m) =>
      match JudgeHello(s, m, now)
      case Refuse(why) => if why == UnsupportedVersion then WireError(s, why) else Fail(s, why)
      case Accept(peer) =>
        if newEph.None? then Fail(s, KeygenFailed) else
        var keys := PcKeys(s.identity, peer, m.id, m.ephI, newEph.value);
        Step(s.(channel := Some(NewChannel(keys.c2p, keys.p2c)), peer := Some(peer), eph := newEph, phase := Open),
             [Send(Frame(HelloAck, Clear(Map(HelloAckFields(AckFor(s.identity, peer, m.ephI, newEph.value)))))),
              Emit(Established(m.id))])
  }

  /** The keys the phone derives from an authenticated HELLO_ACK. */
  function PhoneKeys(identity: Secret, peer: PeerKey, eph: Secret, ephR: Blob): SessionKeys {
    DeriveSessionKeys(Diffie(eph, ephR), Diffie(identity, ephR), Diffie(identity, peer.publicKey),
                      DeviceId(Pub(identity)), peer.deviceId)
  }

  function OnHelloAck(s: State, p: Payload): Step {
    match ReadHelloAck(p)
    case BadMap => Fail(s, MalformedHelloAck)
    case BadFields => Fail(s, MalformedHelloAckFields)
    case BadType => Fail(s, MalformedHelloAckFields)
    case Good(m) =>
      if s.peer.None? || s.eph.None? || s.ephPkI.None? then Fail(s, NoPendingHandshake)
      else
        var peer := s.peer.value;
        if !VerifyMac(Diffie(s.identity, peer.publicKey), AckBasis(m.ephR, s.ephPkI.value), m.mac)
        then Fail(s, HelloAckMacMismatch)
        else
          var keys := PhoneKeys(s.identity, peer, s.eph.value, m.ephR);
          Step(s.(channel := Some(NewChannel(keys.p2c, keys.c2p)), phase := Open),
               [Emit(Established(peer.deviceId))])
  }

  function AsCipher(p: Payload): Cipher { if p.Coded? then p.c else Garbage([]) }

  function OnEncrypted(s: State, f: SFrame): Step {
    if s.channel.None? then Fail(s, BeforeHandshake) else
    var (ch, r) := Crypto.Open(s.channel.value, f.ty, AsCipher(f.payload));
    if r.Err? then Fail(s, AeadOpenFailed)
    else OnPlain(s.(channel := Some(ch)), f.ty, r.value)
  }

  function OnPlain(s: State, ty: FrameType, plain: seq<byte>): Step {
    match ty
    case ClipPush => OnClipPush(s, plain)
    case ClipAck => OnClipAck(s, plain)
    case StageListReq => Step(s, [Emit(StageListRequested)])
    case StageList => OnStageList(s, plain)
    case StageGet => OnStageGet(s, plain)
    case StageItem => OnStageItem(s, plain)
    case Ping =>
      var (s', r) := SealFrame(s, Pong, []);
      if r.Ok? then Step(s', [Send(r.value)]) else Fail(s', SealFailed(Pong))
    case Pong => Step(s, [])
    case ErrorFrame => OnError(s, plain)
    case _ => Fail(s, Unhandled)
  }

  function OnClipPush(s: State, plain: seq<byte>): Step {
    match ReadClip(plain)
    case BadMap => Fail(s, MalformedBody(ClipPush))
    case BadFields => Fail(s, MalformedFields(ClipPush))
    case BadType => Fail(s, MalformedFields(ClipPush))
    case Good(c) =>
      if s.paused then WireError(s, BeamingPaused)
      else if |c.body| > MAX_TEXT_CLIP then WireError(s, ClipTooLarge)
      else match ContentOfCode(c.kind)
        case None => Fail(s, UnknownContent(ClipPush))
        case Some(t) => TakeClip(s, c, t)
  }

  /** The clip is taken: acknowledge it and report it. */
  function TakeClip(s: State, c: Clip, t: ContentType): Step {
    var ack := WriteAck(c.id);
    if ack.Err? then Fail(s, EncodeFailed(ClipAck)) else
    var (s', r) := SealFrame(s, ClipAck, ack.value);
    if r.Err? then Fail(s', SealFailed(ClipAck))
    else Step(s', [Emit(ClipArrived(c.id, t, c.body, c.sourceName, c.createdAt)), Send(r.value)])
  }

  function OnClipAck(s: State, plain: seq<byte>): Step {
    match ReadAck(plain)
    case BadMap => Fail(s, MalformedBody(ClipAck))
    case BadFields => Fail(s, MalformedFields(ClipAck))
    case BadType => Fail(s, MalformedFields(ClipAck))
    case Good((id, status)) => Step(s, [Emit(ClipAcked(id, status))])
  }

  function OnStageGet(s: State, plain: seq<byte>): Step {
    match ReadGet(plain)
    case BadMap => Fail(s, MalformedBody(StageGet))
    case BadFields => Fail(s, MalformedFields(StageGet))
    case BadType => Fail(s, MalformedFields(StageGet))
    case Good(id) => Step(s, [Emit(StageItemRequested(id))])
  }

  function OnStageItem(s: State, plain: seq<byte>): Step {
    match ReadItem(plain)
    case BadMap => Fail(s, MalformedBody(StageItem))
    case BadFields => Fail(s, MalformedFields(StageItem))
    case BadType => Fail(s, UnknownContent(StageItem))
    case Good(i) => Step(s, [Emit(StageFetched(i))])
  }

  function OnStageList(s: State, plain: seq<byte>): Step {
    match ReadListItems(plain)
    case BadMap => Fail(s, MalformedBody(StageList))
    case BadFields => Fail(s, MalformedFields(StageList))
    case BadType => Fail(s, MalformedFields(StageList))
    case Good(vs) => Listed(s, ReadMetas(vs, |vs|))
  }

  function Listed(s: State, ms: Parse<seq<StageMeta>>): Step {
    match ms
    case BadMap => Fail(s, MalformedEntry)
    case BadFields => Fail(s, MalformedEntryFields)
    case BadType => Fail(s, UnknownContent(StageList))
    case Good(metas) => Step(s, [Emit(StageListed(metas))])
  }

  function OnError(s: State, plain: seq<byte>): Step {
    var (code, msg) := ReadError(plain);
    Step(s.(phase := Closed), [Emit(PeerError(code, msg)), Close(PeerSentError)])
  }

  /** `on_frame`.  `newEph` is the ephemeral the PC would generate, if generation succeeds. */
  function OnFrame(s: State, f: SFrame, now: u64, newEph: Option<Secret>): Step {
    if s.phase == Closed then Step(s, [Close(FrameAfterClose)]) else
    var s1 := s.(lastActivity := now);
    if s.phase == AwaitingHello && f.ty == Hello then OnHello(s1, f.payload, now, newEph)
    else if s.phase == AwaitingHelloAck && f.ty == HelloAck then OnHelloAck(s1, f.payload)
    else if s.phase == Open && IsEncrypted(f.ty) then OnEncrypted(s1, f)
    else Fail(s1, UnexpectedFrame)
  }

  // ------------------------------------------------------------------
  // Outbound steps
  // ------------------------------------------------------------------

  /** What the application may ask a session to send. */
  datatype Request =
    | PushClip(clip: Clip)
    | AskList
    | AskItem(stageId: seq<byte>)
    | SendList(metas: seq<StageMeta>)
    | SendItem(item: Item)
    | SendPing

  function RequestType(q: Request): FrameType {
    match q
    case PushClip(_) => ClipPush
    case AskList => StageListReq
    case AskItem(_) => StageGet
    case SendList(_) => StageList
    case SendItem(_) => StageItem
    case SendPing => Ping
  }

  function RequestPlain(q: Request): Result<seq<byte>> {
    match q
    case PushClip(c) => WriteClip(c)
    case AskList => WriteListReq()
    case AskItem(id) => WriteGet(id)
    case SendList(ms) => WriteList(ms)
    case SendItem(i) => WriteItem(i)
    case SendPing => Ok([])
  }

  /** Encode, then seal: `push_clip_with_id`, `request_stage_list`, `request_stage_item`,
      `send_stage_list`, `send_stage_item` and `ping`. */
  function Ask(s: State, q: Request): (State, Result<SFrame>) {
    var plain := RequestPlain(q);
    if plain.Err? then (s, Err(plain.error)) else SealFrame(s, RequestType(q), plain.value)
  }
}
