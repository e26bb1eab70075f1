/** The `Session` object of session.rs: fields updated in place, method by method, each proved to do
    exactly what the step functions of `Sessions` say. */
module SessionObject {
  import opened Bytes
  import opened Common
  import opened Frames
  import opened Crypto
  import opened Cbor
  import opened Messages
  import S = Sessions
  import opened Sessions

  class Session {
    const role: Role
    const identity: Secret
    var phase: Phase
    const knownPeers: seq<PeerKey>
    var peer: Option<PeerKey>
    var eph: Option<Secret>
    const ephPkI: Option<Blob>
    var channel: AeadChannel?
    var lastActivity: u64
    var paused: bool

    /** The state the object represents. */
    ghost function Model(): State
      reads this, channel
    {
      State(role, identity, phase, knownPeers, peer, eph, ephPkI,
            if channel == null then None else Some(channel.Model()), lastActivity, paused)
    }

    constructor StartPhone(identity: Secret, peer: PeerKey, now: u64, eph: Secret)
      ensures Model() == S.StartPhone(identity, peer, now, eph).0
    {
      this.role := Phone;
      this.identity := identity;
      this.phase := AwaitingHelloAck;
      this.knownPeers := [peer];
      this.peer := Some(peer);
      this.eph := Some(eph);
      this.ephPkI := Some(Pub(eph));
      this.channel := null;
      this.lastActivity := now;
      this.paused := false;
    }

    constructor NewPc(identity: Secret, knownPeers: seq<PeerKey>, now: u64)
      ensures Model() == S.NewPc(identity, knownPeers, now)
    {
      this.role := Pc;
      this.identity := identity;
      this.phase := AwaitingHello;
      this.knownPeers := knownPeers;
      this.peer := None;
      this.eph := None;
      this.ephPkI := None;
      this.channel := null;
      this.lastActivity := now;
      this.paused := false;
    }

    method SetPaused(p: bool)
      modifies this`paused
      ensures Model() == old(Model()).(paused := p)
    {
      paused := p;
    }

    method OnFrame(f: SFrame, now: u64, newEph: Option<Secret>) returns (acts: seq<Action>)
      modifies this, channel
      ensures Step(Model(), acts) == S.OnFrame(old(Model()), f, now, newEph)
      ensures channel == old(channel) || fresh(channel)
    {
      if phase == Closed {
        return [Close(FrameAfterClose)];
      }
      lastActivity := now;
      if phase == AwaitingHello && f.ty == Hello {
        acts := OnHello(f.payload, now, newEph);
      } else if phase == AwaitingHelloAck && f.ty == HelloAck {
        acts := OnHelloAck(f.payload);
      } else if phase == Phase.Open && IsEncrypted(f.ty) {
        acts := OnEncrypted(f);
      } else {
        acts := Fail(UnexpectedFrame);
      }
    }

    method Fail(why: Reason) returns (acts: seq<Action>)
      modifies this`phase
      ensures Step(Model(), acts) == S.Fail(old(Model()), why)
    {
      phase := Closed;
      return [Close(why)];
    }

    method WireError(why: Reason) returns (acts: seq<Action>)
      modifies this`phase, channel
      ensures Step(Model(), acts) == S.WireError(old(Model()), why)
    {
      acts := [];
      if channel != null {
        var sealed := channel.SealNext(ErrorFrame, WriteError(WireCode(why), WireText(why)));
        if sealed.Ok? {
          acts := acts + [Send(Frame(ErrorFrame, Coded(sealed.value)))];
        }
      }
      phase := Closed;
      acts := acts + [Close(why)];
    }

    method OnHello(p: Payload, now: u64, newEph: Option<Secret>) returns (acts: seq<Action>)
      modifies this, channel
      ensures Step(Model(), acts) == S.OnHello(old(Model()), p, now, newEph)
      ensures channel == old(channel) || fresh(channel)
    {
      var m := ReadHello(p);
      if !m.Good? {
        acts := Fail(if m.BadMap? then MalformedHello else MalformedHelloFields);
        return;
      }
      var HelloMsg(version, id, ephI, ts, mac) := m.value;
      if version != PROTOCOL_VERSION {
        acts := WireError(UnsupportedVersion);
        return;
      }
      if AbsDiff(ts, now) > HELLO_TS_WINDOW_MS {
        acts := Fail(StaleTimestamp);
        return;
      }
      var found := FindPeer(knownPeers, id);
      if found.None? {
        acts := Fail(UnpairedDevice);
        return;
      }
      var ssStatic := Diffie(identity, found.value.publicKey);
      if !VerifyMac(ssStatic, HelloBasis(id, ephI, ts), mac) {
        acts := Fail(HelloMacMismatch);
        return;
      }
      if newEph.None? {
        acts := Fail(KeygenFailed);
        return;
      }
      acts := AcceptHello(found.value, id, ephI, newEph.value);
    }

    /** The tail of `on_hello`: keys, HELLO_ACK and Established. */
    method AcceptHello(p: PeerKey, id: Blob, ephI: Blob, r: Secret) returns (acts: seq<Action>)
      modifies this
      ensures var keys := PcKeys(identity, p, id, ephI, r);
        Model() == old(Model()).(channel := Some(NewChannel(keys.c2p, keys.p2c)), peer := Some(p), eph := Some(r),
                                 phase := Phase.Open)
      ensures acts == [Send(Frame(HelloAck, Clear(Map(HelloAckFields(AckFor(identity, p, ephI, r)))))),
        Emit(Established(id))]
      ensures fresh(channel)
    {
      var ssStatic := Diffie(identity, p.publicKey);
      var ackMac := Mac(ssStatic, AckBasis(Pub(r), ephI));
      var keys := DeriveSessionKeys(Diffie(r, ephI), Diffie(r, p.publicKey), ssStatic, id, DeviceId(Pub(identity)));
      channel := new AeadChannel(keys.c2p, keys.p2c);
      peer := Some(p);
      eph := Some(r);
      phase := Phase.Open;
      acts := [Send(Frame(HelloAck, Clear(Map(HelloAckFields(AckMsg(Pub(r), ackMac)))))), Emit(Established(id))];
    }

    method OnHelloAck(p: Payload) returns (acts: seq<Action>)
      modifies this
      ensures Step(Model(), acts) == S.OnHelloAck(old(Model()), p)
      ensures channel == old(channel) || fresh(channel)
    {
      var m := ReadHelloAck(p);
      if !m.Good? {
        acts := Fail(if m.BadMap? then MalformedHelloAck else MalformedHelloAckFields);
        return;
      }
      var AckMsg(ephR, mac) := m.value;
      if peer.None? || eph.None? || ephPkI.None? {
        acts := Fail(NoPendingHandshake);
        return;
      }
      var ssStatic := Diffie(identity, peer.value.publicKey);
      if !VerifyMac(ssStatic, AckBasis(ephR, ephPkI.value), mac) {
        acts := Fail(HelloAckMacMismatch);
        return;
      }
      var keys := DeriveSessionKeys(Diffie(eph.value, ephR), Diffie(identity, ephR), ssStatic,
                                    DeviceId(Pub(identity)), peer.value.deviceId);
      channel := new AeadChannel(keys.p2c, keys.c2p);
      phase := Phase.Open;
      acts := [Emit(Established(peer.value.deviceId))];
    }

    method OnEncrypted(f: SFrame) returns (acts: seq<Action>)
      modifies this`phase, channel
      ensures Step(Model(), acts) == S.OnEncrypted(old(Model()), f)
    {
      if channel == null {
        acts := Fail(BeforeHandshake);
        return;
      }
      var plain := channel.OpenNext(f.ty, AsCipher(f.payload));
      if plain.Err? {
        acts := Fail(AeadOpenFailed);
        return;
      }
      match f.ty
      case ClipPush => acts := OnClipPush(plain.value);
      case ClipAck => acts := OnClipAck(plain.value);
      case StageListReq => acts := [Emit(StageListRequested)];
      case StageList => acts := OnStageList(plain.value);
      case StageGet => acts := OnStageGet(plain.value);
      case StageItem => acts := OnStageItem(plain.value);
      case Ping =>
        var pong := SealFrame(Pong, []);
        if pong.Ok? { acts := [Send(pong.value)]; } else { acts := Fail(SealFailed(Pong)); }
      case Pong => acts := [];
      case ErrorFrame => acts := OnError(plain.value);
      case _ => acts := Fail(Unhandled);
    }

    method OnClipPush(plain: seq<byte>) returns (acts: seq<Action>)
      modifies this`phase, channel
      ensures Step(Model(), acts) == S.OnClipPush(old(Model()), plain)
    {
      var m := ReadClip(plain);
      if !m.Good? {
        acts := Fail(if m.BadMap? then MalformedBody(ClipPush) else MalformedFields(ClipPush));
        return;
      }
      var Clip(id, kind, body, createdAt, sourceName) := m.value;
      if paused {
        acts := WireError(BeamingPaused);
        return;
      }
      if |body| > MAX_TEXT_CLIP {
        acts := WireError(ClipTooLarge);
        return;
      }
      var contentType := ContentOfCode(kind);
      if contentType.None? {
        acts := Fail(UnknownContent(ClipPush));
        return;
      }
      var ack := WriteAck(id);
      if ack.Err? {
        acts := Fail(EncodeFailed(ClipAck));
        return;
      }
      var ackFrame := SealFrame(ClipAck, ack.value);
      if ackFrame.Err? {
        acts := Fail(SealFailed(ClipAck));
        return;
      }
      acts := [Emit(ClipArrived(id, contentType.value, body, sourceName, createdAt)), Send(ackFrame.value)];
    }

    method OnClipAck(plain: seq<byte>) returns (acts: seq<Action>)
      modifies this`phase
      ensures Step(Model(), acts) == S.OnClipAck(old(Model()), plain)
    {
      var m := ReadAck(plain);
      if !m.Good? {
        acts := Fail(if m.BadMap? then MalformedBody(ClipAck) else MalformedFields(ClipAck));
        return;
      }
      acts := [Emit(ClipAcked(m.value.0, m.value.1))];
    }

    method OnStageGet(plain: seq<byte>) returns (acts: seq<Action>)
      modifies this`phase
      ensures Step(Model(), acts) == S.OnStageGet(old(Model()), plain)
    {
      var m := ReadGet(plain);
      if !m.Good? {
        acts := Fail(if m.BadMap? then MalformedBody(StageGet) else MalformedFields(StageGet));
        return;
      }
      acts := [Emit(StageItemRequested(m.value))];
    }

    method OnStageList(plain: seq<byte>) returns (acts: seq<Action>)
      modifies this`phase
      ensures Step(Model(), acts) == S.OnStageList(old(Model()), plain)
    {
      var m := ReadListItems(plain);
      if !m.Good? {
        acts := Fail(if m.BadMap? then MalformedBody(StageList) else MalformedFields(StageList));
        return;
      }
      var ms := ReadEntries(m.value);
      if !ms.Good? {
        acts := Fail(if ms.BadMap? then MalformedEntry
                     else if ms.BadFields? then MalformedEntryFields else UnknownContent(StageList));
        return;
      }
      acts := [Emit(StageListed(ms.value))];
    }

    method OnStageItem(plain: seq<byte>) returns (acts: seq<Action>)
      modifies this`phase
      ensures Step(Model(), acts) == S.OnStageItem(old(Model()), plain)
    {
      var m := ReadItem(plain);
      if !m.Good? {
        acts := Fail(if m.BadMap? then MalformedBody(StageItem)
                     else if m.BadFields? then MalformedFields(StageItem) else UnknownContent(StageItem));
        return;
      }
      acts := [Emit(StageFetched(m.value))];
    }

    method OnError(plain: seq<byte>) returns (acts: seq<Action>)
      modifies this`phase
      ensures Step(Model(), acts) == S.OnError(old(Model()), plain)
    {
      var (code, msg) := ReadError(plain);
      phase := Closed;
      acts := [Emit(PeerError(code, msg)), Close(PeerSentError)];
    }

    method SealFrame(ty: FrameType, plain: seq<byte>) returns (r: Result<SFrame>)
      modifies channel
      ensures (Model(), r) == S.SealFrame(old(Model()), ty, plain)
    {
      if channel == null {
        return Err(Error.Crypto);
      }
      var sealed := channel.SealNext(ty, plain);
      if sealed.Err? {
        return Err(sealed.error);
      }
      return Ok(Frame(ty, Coded(sealed.value)));
    }

    /** `push_clip_with_id`, `request_stage_list`, `request_stage_item`, `send_stage_list`,
        `send_stage_item` and `ping`. */
    method Ask(q: Request) returns (r: Result<SFrame>)
      modifies channel
      ensures (Model(), r) == S.Ask(old(Model()), q)
    {
      var plain := RequestPlain(q);
      if plain.Err? {
        return Err(plain.error);
      }
      r := SealFrame(RequestType(q), plain.value);
    }

    /** `push_clip`: oversize bodies are refused before anything is sealed. */
    method PushClip(id: seq<byte>, contentType: ContentType, body: seq<byte>, name: string, now: u64)
      returns (r: Result<SFrame>)
      modifies channel
      ensures if |body| > MAX_TEXT_CLIP then r == Err(FrameTooLarge(|body| % 0x1_0000_0000)) && Model() == old(Model())
        else (Model(), r) == S.Ask(old(Model()), Request.PushClip(Clip(id, ContentCode(contentType), body, now, name)))
    {
      if |body| > MAX_TEXT_CLIP {
        return Err(FrameTooLarge(|body| % 0x1_0000_0000));
      }
      r := Ask(Request.PushClip(Clip(id, ContentCode(contentType), body, now, name)));
    }
  }

  /** The opening of a phone session: the object and the HELLO it sends. */
  method OpenPhone(identity: Secret, peer: PeerKey, now: u64, eph: Secret) returns (s: Session, hello: SFrame)
    ensures fresh(s) && (s.Model(), hello) == S.StartPhone(identity, peer, now, eph)
  {
    var ssStatic := Diffie(identity, peer.publicKey);
    var id := DeviceId(Pub(identity));
    var mac := Mac(ssStatic, HelloBasis(id, Pub(eph), now));
    hello := Frame(Hello, Clear(Map(HelloFields(HelloMsg(PROTOCOL_VERSION, id, Pub(eph), now, mac)))));
    s := new Session.StartPhone(identity, peer, now, eph);
  }
}
