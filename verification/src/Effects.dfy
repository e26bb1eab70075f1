/** What one step of a session can do, seen from outside: it stays quiet, it completes a handshake, or
    it opens one box and answers with at most one sealed frame. */
module Effects {
  import opened Bytes
  import opened Common
  import opened Frames
  import opened Crypto
  import opened Cbor
  import opened Messages
  import opened Sessions
  import opened Network

  type Sealing = Option<(FrameType, seq<byte>)>

  /** Fields no inbound step touches. */
  predicate SameCore(s: State, t: State) {
    t.role == s.role && t.identity == s.identity && t.knownPeers == s.knownPeers && t.ephPkI == s.ephPkI
  }

  predicate SameLink(s: State, t: State) {
    SameCore(s, t) && t.peer == s.peer && t.eph == s.eph
  }

  /** From `s` to `t` the channel sealed exactly `q`, and `fs` is what goes out. */
  predicate Sealed1(s: State, t: State, fs: seq<SFrame>, q: Sealing) {
    s.channel.Some? && SameLink(s, t) &&
    if q.None? then t.channel == s.channel && fs == []
    else
      var (ch, r) := Seal(s.channel.value, q.value.0, q.value.1);
      r.Ok? && t.channel == Some(ch) && fs == [Frame(q.value.0, Coded(r.value))]
  }

  /** The event tells what the CLIP_PUSH said. */
  predicate ArrivedFrom(e: Event, plain: seq<byte>) {
    var p := ReadClip(plain);
    e.ClipArrived? && p.Good? && e.clipId == p.value.id && ContentOfCode(p.value.kind) == Some(e.contentType) &&
    e.body == p.value.body && e.sourceName == p.value.sourceName && e.createdAt == p.value.createdAt
  }

  predicate AckedFrom(e: Event, plain: seq<byte>) {
    e.ClipAcked? && ReadAck(plain) == Good((e.clipId, e.status))
  }

  /** The events and the reply answer the opened plaintext: clips arrive and are acknowledged only on
      a CLIP_PUSH and a CLIP_ACK, an acknowledgement is sealed only together with the arrival it
      acknowledges, and nothing pushes a clip on its own. */
  predicate Answers(ty: FrameType, plain: seq<byte>, evs: seq<Event>, q: Sealing) {
    (forall i :: 0 <= i < |evs| ==>
      (evs[i].ClipArrived? ==> ty == ClipPush && ArrivedFrom(evs[i], plain)) &&
      (evs[i].ClipAcked? ==> ty == ClipAck && AckedFrom(evs[i], plain)) && !evs[i].Established?) &&
    (q.Some? && q.value.0 == ClipAck ==>
      |evs| == 1 && evs[0].ClipArrived? && |evs[0].clipId| == 8 && WriteAck(evs[0].clipId) == Ok(q.value.1)) &&
    (q.Some? ==> q.value.0 in {ClipAck, Pong, ErrorFrame})
  }

  lemma ShortLists()
    ensures Sends([]) == [] && Emits([]) == []
    ensures forall a :: Sends([a]) == if a.Send? then [a.frame] else []
    ensures forall a :: Emits([a]) == if a.Emit? then [a.event] else []
    ensures forall a, b :: Sends([a, b]) == (if a.Send? then [a.frame] else []) + if b.Send? then [b.frame] else []
    ensures forall a, b :: Emits([a, b]) == (if a.Emit? then [a.event] else []) + if b.Emit? then [b.event] else []
  {
    forall a ensures Sends([a]) == if a.Send? then [a.frame] else [] {
      assert [a][1..] == [];
    }
    forall a ensures Emits([a]) == if a.Emit? then [a.event] else [] {
      assert [a][1..] == [];
    }
    forall a, b ensures Sends([a, b]) == (if a.Send? then [a.frame] else []) + if b.Send? then [b.frame] else [] {
      assert [a, b][1..] == [b];
    }
    forall a, b ensures Emits([a, b]) == (if a.Emit? then [a.event] else []) + if b.Emit? then [b.event] else [] {
      assert [a, b][1..] == [b];
    }
  }

  ghost predicate PlainOutcome(s: State, ty: FrameType, plain: seq<byte>, st: Step, q: Sealing) {
    Sealed1(s, st.s, Sends(st.acts), q) && Answers(ty, plain, Emits(st.acts), q) &&
    st.s.phase in {s.phase, Closed}
  }

  lemma WireErrorOutcome(s: State, why: Reason, ty: FrameType, plain: seq<byte>) returns (q: Sealing)
    requires s.channel.Some?
    ensures PlainOutcome(s, ty, plain, WireError(s, why), q)
  {
    ShortLists();
    var p := WriteError(WireCode(why), WireText(why));
    q := if Seal(s.channel.value, ErrorFrame, p).1.Ok? then Some((ErrorFrame, p)) else None;
  }

  lemma FailOutcome(s: State, why: Reason, ty: FrameType, plain: seq<byte>)
    requires s.channel.Some?
    ensures PlainOutcome(s, ty, plain, Fail(s, why), None)
  {
    ShortLists();
  }

  lemma ClipPushOutcome(s: State, plain: seq<byte>) returns (q: Sealing)
    requires s.channel.Some?
    ensures PlainOutcome(s, ClipPush, plain, OnClipPush(s, plain), q)
  {
    q := None;
    match ReadClip(plain)
    case BadMap => FailOutcome(s, MalformedBody(ClipPush), ClipPush, plain);
    case BadFields => FailOutcome(s, MalformedFields(ClipPush), ClipPush, plain);
    case BadType => FailOutcome(s, MalformedFields(ClipPush), ClipPush, plain);
    case Good(c) =>
      if s.paused { q := WireErrorOutcome(s, BeamingPaused, ClipPush, plain); }
      else if |c.body| > MAX_TEXT_CLIP { q := WireErrorOutcome(s, ClipTooLarge, ClipPush, plain); }
      else if ContentOfCode(c.kind).None? { FailOutcome(s, UnknownContent(ClipPush), ClipPush, plain); }
      else if WriteAck(c.id).Err? { FailOutcome(s, EncodeFailed(ClipAck), ClipPush, plain); }
      else if SealFrame(s, ClipAck, WriteAck(c.id).value).1.Err? {
        FailOutcome(s, SealFailed(ClipAck), ClipPush, plain);
      } else {
        ShortLists();
        q := Some((ClipAck, WriteAck(c.id).value));
      }
  }

  lemma EventOutcome(s: State, e: Event, ty: FrameType, plain: seq<byte>)
    requires s.channel.Some? && !e.ClipArrived? && !e.Established?
    requires e.ClipAcked? ==> ty == ClipAck && AckedFrom(e, plain)
    ensures PlainOutcome(s, ty, plain, Step(s, [Emit(e)]), None)
  {
    ShortLists();
  }

  lemma ClipAckOutcome(s: State, plain: seq<byte>)
    requires s.channel.Some?
    ensures PlainOutcome(s, ClipAck, plain, OnClipAck(s, plain), None)
  {
    match ReadAck(plain)
    case BadMap => FailOutcome(s, MalformedBody(ClipAck), ClipAck, plain);
    case BadFields => FailOutcome(s, MalformedFields(ClipAck), ClipAck, plain);
    case BadType => FailOutcome(s, MalformedFields(ClipAck), ClipAck, plain);
    case Good((id, status)) => EventOutcome(s, ClipAcked(id, status), ClipAck, plain);
  }

  lemma StageGetOutcome(s: State, plain: seq<byte>)
    requires s.channel.Some?
    ensures PlainOutcome(s, StageGet, plain, OnStageGet(s, plain), None)
  {
    match ReadGet(plain)
    case BadMap => FailOutcome(s, MalformedBody(StageGet), StageGet, plain);
    case BadFields => FailOutcome(s, MalformedFields(StageGet), StageGet, plain);
    case BadType => FailOutcome(s, MalformedFields(StageGet), StageGet, plain);
    case Good(id) => EventOutcome(s, StageItemRequested(id), StageGet, plain);
  }

  lemma StageItemOutcome(s: State, plain: seq<byte>)
    requires s.channel.Some?
    ensures PlainOutcome(s, StageItem, plain, OnStageItem(s, plain), None)
  {
    match ReadItem(plain)
    case BadMap => FailOutcome(s, MalformedBody(StageItem), StageItem, plain);
    case BadFields => FailOutcome(s, MalformedFields(StageItem), StageItem, plain);
    case BadType => FailOutcome(s, UnknownContent(StageItem), StageItem, plain);
    case Good(i) => EventOutcome(s, StageFetched(i), StageItem, plain);
  }

  lemma StageListOutcome(s: State, plain: seq<byte>)
    requires s.channel.Some?
    ensures PlainOutcome(s, StageList, plain, OnStageList(s, plain), None)
  {
    match ReadListItems(plain)
    case BadMap => FailOutcome(s, MalformedBody(StageList), StageList, plain);
    case BadFields => FailOutcome(s, MalformedFields(StageList), StageList, plain);
    case BadType => FailOutcome(s, MalformedFields(StageList), StageList, plain);
    case Good(vs) =>
      match ReadMetas(vs, |vs|)
      case BadMap => FailOutcome(s, MalformedEntry, StageList, plain);
      case BadFields => FailOutcome(s, MalformedEntryFields, StageList, plain);
      case BadType => FailOutcome(s, UnknownContent(StageList), StageList, plain);
      case Good(ms) => EventOutcome(s, StageListed(ms), StageList, plain);
  }

  lemma PingOutcome(s: State, plain: seq<byte>) returns (q: Sealing)
    requires s.channel.Some?
    ensures PlainOutcome(s, Ping, plain, OnPlain(s, Ping, plain), q)
  {
    ShortLists();
    q := if SealFrame(s, Pong, []).1.Ok? then Some((Pong, [])) else None;
  }

  lemma ErrorOutcome(s: State, plain: seq<byte>)
    requires s.channel.Some?
    ensures PlainOutcome(s, ErrorFrame, plain, OnError(s, plain), None)
  {
    ShortLists();
  }

  lemma PongOutcome(s: State, plain: seq<byte>)
    requires s.channel.Some?
    ensures PlainOutcome(s, Pong, plain, Step(s, []), None)
  {
    ShortLists();
  }

  lemma PlainStep(s: State, ty: FrameType, plain: seq<byte>) returns (q: Sealing)
    requires s.channel.Some?
    ensures PlainOutcome(s, ty, plain, OnPlain(s, ty, plain), q)
  {
    q := None;
    match ty
    case ClipPush => q := ClipPushOutcome(s, plain);
    case Ping => q := PingOutcome(s, plain);
    case ClipAck => ClipAckOutcome(s, plain);
    case StageListReq => EventOutcome(s, StageListRequested, ty, plain);
    case StageGet => StageGetOutcome(s, plain);
    case StageItem => StageItemOutcome(s, plain);
    case StageList => StageListOutcome(s, plain);
    case Pong => PongOutcome(s, plain);
    case ErrorFrame => ErrorOutcome(s, plain);
    case _ => FailOutcome(s, Unhandled, ty, plain);
  }

  // ------------------------------------------------------------------
  // The step as a whole
  // ------------------------------------------------------------------

  /** Phase, role and channel agree. */
  predicate StateOk(s: State) {
    (s.phase == Phase.Open ==> s.channel.Some?) &&
    (s.phase in {AwaitingHello, AwaitingHelloAck} ==> s.channel.None?) &&
    (s.role == Phone ==> s.phase != AwaitingHello) &&
    (s.role == Pc ==> s.phase != AwaitingHelloAck) &&
    (s.role == Phone ==> s.peer.Some? && s.eph.Some? && s.ephPkI == Some(Pub(s.eph.value)))
  }

  /** Nothing crypto happened. */
  predicate Quiet(s: State, st: Step) {
    SameLink(s, st.s) && st.s.channel == s.channel && st.s.phase == Closed &&
    |st.acts| == 1 && st.acts[0].Close?
  }

  predicate PcJoined(s: State, f: SFrame, now: u64, newEph: Option<Secret>, st: Step) {
    s.phase == AwaitingHello && s.channel.None? && newEph.Some? && SameCore(s, st.s) && ReadHello(f.payload).Good? &&
    var m := ReadHello(f.payload).value;
    JudgeHello(s, m, now).Accept? &&
    var peer := JudgeHello(s, m, now).peer;
    var keys := PcKeys(s.identity, peer, m.id, m.ephI, newEph.value);
    st.s.peer == Some(peer) && st.s.eph == newEph && st.s.phase == Phase.Open &&
    st.s.channel == Some(NewChannel(keys.c2p, keys.p2c)) &&
    st.acts == [Send(Frame(HelloAck, Clear(Map(HelloAckFields(AckFor(s.identity, peer, m.ephI, newEph.value)))))),
                Emit(Established(m.id))]
  }

  predicate PhoneJoined(s: State, f: SFrame, st: Step) {
    s.phase == AwaitingHelloAck && s.channel.None? && s.peer.Some? && s.eph.Some? && SameLink(s, st.s) &&
    ReadHelloAck(f.payload).Good? &&
    var m := ReadHelloAck(f.payload).value;
    var keys := PhoneKeys(s.identity, s.peer.value, s.eph.value, m.ephR);
    VerifyMac(Diffie(s.identity, s.peer.value.publicKey), AckBasis(m.ephR, Pub(s.eph.value)), m.mac) &&
    st.s.phase == Phase.Open && st.s.channel == Some(NewChannel(keys.p2c, keys.c2p)) &&
    st.acts == [Emit(Established(s.peer.value.deviceId))]
  }

  /** One box was opened and answered. */
  ghost predicate Traffic(s: State, f: SFrame, st: Step, q: Sealing) {
    s.phase == Phase.Open && s.channel.Some? && IsEncrypted(f.ty) &&
    var (ch, r) := Crypto.Open(s.channel.value, f.ty, AsCipher(f.payload));
    r.Ok? && PlainOutcome(s.(channel := Some(ch)), f.ty, r.value, st, q)
  }

  lemma HelloStep(s: State, f: SFrame, now: u64, newEph: Option<Secret>)
    requires s.phase == AwaitingHello && s.channel.None?
    ensures var st := OnHello(s, f.payload, now, newEph);
      Quiet(s, st) || PcJoined(s, f, now, newEph, st)
  {
  }

  lemma HelloAckStep(s: State, f: SFrame)
    requires s.phase == AwaitingHelloAck && s.channel.None? && StateOk(s) && s.role == Phone
    ensures var st := OnHelloAck(s, f.payload);
      Quiet(s, st) || PhoneJoined(s, f, st)
  {
  }

  /** Every step of a well-formed session is one of the four kinds. */
  lemma FrameStep(s: State, f: SFrame, now: u64, newEph: Option<Secret>) returns (q: Sealing)
    requires StateOk(s)
    ensures var st := OnFrame(s, f, now, newEph); var s1 := s.(lastActivity := now);
      || (Quiet(s, st) && OpenedBy(s, f) == [])
      || PcJoined(s1, f, now, newEph, st)
      || PhoneJoined(s1, f, st)
      || Traffic(s1, f, st, q)
    ensures StateOk(OnFrame(s, f, now, newEph).s)
  {
    q := None;
    var s1 := s.(lastActivity := now);
    if s.phase == AwaitingHello && f.ty == Hello {
      HelloStep(s1, f, now, newEph);
    } else if s.phase == AwaitingHelloAck && f.ty == HelloAck {
      HelloAckStep(s1, f);
    } else if s.phase == Phase.Open && IsEncrypted(f.ty) {
      var (ch, r) := Crypto.Open(s.channel.value, f.ty, AsCipher(f.payload));
      if r.Ok? {
        q := PlainStep(s1.(channel := Some(ch)), f.ty, r.value);
      }
    }
  }

  /** Outbound requests seal at most one frame, and only the frame they are for. */
  lemma AskStep(s: State, r: Sessions.Request) returns (q: Sealing)
    requires s.channel.Some?
    ensures var (t, f) := Ask(s, r);
      Sealed1(s, t, if f.Ok? then [f.value] else [], q) && t.phase == s.phase && t.paused == s.paused &&
      (q.Some? ==> q.value.0 == RequestType(r) && RequestPlain(r) == Ok(q.value.1))
  {
    var (t, f) := Ask(s, r);
    q := if f.Ok? then Some((RequestType(r), RequestPlain(r).value)) else None;
  }
}
