/** A paired phone and PC over one ordered connection.  The PC writes what its action loop writes, the
    phone throws away every frame its session wants to send in reply, frames may be lost at the
    sender, and the PC may stop at any moment; but what is delivered is delivered in order. */
module OrderedLink {
  import opened Bytes
  import opened Common
  import opened Frames
  import opened Crypto
  import opened Cbor
  import opened Messages
  import opened Stage
  import opened Sessions
  import opened Network
  import opened Effects
  import opened Server

  datatype Link = Link(phone: State, pc: State, up: seq<SFrame>, down: seq<SFrame>, serving: bool)

  datatype LinkInput =
    | PhoneAsks(q: Sessions.Request, written: bool)   // `written` is false when the frame is lost
    | PcReads(m: Moment)
    | PhoneReads(now: u64)
    | PcStops

  function LinkStep(l: Link, i: LinkInput): Link {
    match i
    case PhoneAsks(q, written) =>
      var (s, r) := Ask(l.phone, q);
      l.(phone := s, up := l.up + if r.Ok? && written then [r.value] else [])
    case PcReads(m) =>
      if !l.serving || l.up == [] then l else
      var r := ServeFrame(l.pc, l.up[0], m);
      l.(pc := r.s, up := l.up[1..], down := l.down + r.out, serving := r.goesOn)
    case PhoneReads(now) =>
      if l.down == [] then l
      else l.(phone := OnFrame(l.phone, l.down[0], now, None).s, down := l.down[1..])
    case PcStops => l.(serving := false)
  }

  /** The actions a session returns in this step. */
  function Returned(l: Link, i: LinkInput): seq<Action> {
    match i
    case PcReads(m) =>
      if !l.serving || l.up == [] then []
      else OnFrame(l.pc.(paused := m.paused), l.up[0], m.now, m.newEph).acts
    case PhoneReads(now) => if l.down == [] then [] else OnFrame(l.phone, l.down[0], now, None).acts
    case _ => []
  }

  predicate RingOk(ring: seq<StagedClip>) { forall i :: 0 <= i < |ring| ==> |ring[i].stageId| == 8 }

  predicate InputOk(i: LinkInput) {
    (i.PhoneAsks? ==> WfRequest(i.q)) && (i.PcReads? ==> RingOk(i.m.ring))
  }

  function LinkRun(l: Link, inputs: seq<LinkInput>): Link
    decreases |inputs|
  {
    if inputs == [] then l else LinkStep(LinkRun(l, inputs[..|inputs| - 1]), inputs[|inputs| - 1])
  }

  // ------------------------------------------------------------------
  // The two parties
  // ------------------------------------------------------------------

  datatype Setup =
    Setup(phone: Secret, pc: Secret, eph: Secret, phoneNow: u64, peers: seq<PeerKey>, pcNow: u64)

  function PeerOf(x: Secret): PeerKey { PeerKey(DeviceId(Pub(x)), Pub(x)) }

  /** The PC has the phone's record. */
  predicate Paired(c: Setup) { FindPeer(c.peers, DeviceId(Pub(c.phone))) == Some(PeerOf(c.phone)) }

  function HelloOfPhone(c: Setup): SFrame {
    Frame(Hello, Clear(Map(HelloFields(HelloFor(c.phone, PeerOf(c.pc), c.phoneNow, c.eph)))))
  }

  function Start(c: Setup): Link {
    var phone := StartPhone(c.phone, PeerOf(c.pc), c.phoneNow, c.eph).0;
    Link(phone, NewPc(c.pc, c.peers, c.pcNow), [HelloOfPhone(c)], [], true)
  }

  // ------------------------------------------------------------------
  // The invariant
  // ------------------------------------------------------------------

  const UP := {ClipPush, StageListReq, StageGet, StageList, StageItem, Ping}
  const DOWN := {ClipAck, StageList, StageItem, Pong, ErrorFrame}

  /** The receiver will understand this plaintext. */
  predicate Readable(ty: FrameType, plain: seq<byte>) {
    match ty
    case ClipPush => ReadClip(plain).Good? && ContentOfCode(ReadClip(plain).value.kind).Some?
    case ClipAck => ReadAck(plain).Good?
    case StageGet => ReadGet(plain).Good?
    case StageItem => ReadItem(plain).Good?
    case StageList => ReadListItems(plain).Good? && var vs := ReadListItems(plain).value; ReadMetas(vs, |vs|).Good?
    case _ => true
  }

  function PlainIn(f: SFrame): seq<byte> {
    if f.payload.Coded? && f.payload.c.Sealed? then f.payload.c.box.plain else []
  }

  function CtrIn(f: SFrame): int { if f.payload.Coded? && f.payload.c.Sealed? then f.payload.c.ctr else -1 }

  predicate Meant(f: SFrame, types: set<FrameType>) {
    f.ty in types && IsEncrypted(f.ty) && Readable(f.ty, PlainIn(f))
  }

  predicate Unseen(rx: Direction, ctr: int) { rx.seenAny ==> rx.ctr < ctr }

  /** The frames between a sender and a receiver: sealed by the sender, in order, all of them new to
      the receiver. */
  ghost predicate Flow(fs: seq<SFrame>, tx: Direction, rx: Direction, types: set<FrameType>) {
    tx.key == rx.key && Unseen(rx, tx.ctr) &&
    (forall i :: 0 <= i < |fs| ==>
      SealedAt(fs[i], tx.key, CtrIn(fs[i])) && CtrIn(fs[i]) < tx.ctr && Unseen(rx, CtrIn(fs[i])) &&
      Meant(fs[i], types)) &&
    (forall i, j :: 0 <= i < j < |fs| ==> CtrIn(fs[i]) < CtrIn(fs[j]))
  }

  /** What never changes. */
  predicate PartiesOk(c: Setup, l: Link) {
    l.phone.role == Phone && l.phone.identity == c.phone && l.phone.peer == Some(PeerOf(c.pc)) &&
    l.phone.eph == Some(c.eph) && l.phone.ephPkI == Some(Pub(c.eph)) &&
    l.pc.role == Pc && l.pc.identity == c.pc && l.pc.knownPeers == c.peers
  }

  predicate Waiting(c: Setup, l: Link) {
    l.phone.phase == AwaitingHelloAck && l.phone.channel.None? && l.down == [] &&
    (l.serving ==> l.pc.phase == AwaitingHello && l.pc.channel.None? && l.up == [HelloOfPhone(c)])
  }

  function KeysOf(c: Setup, r: Secret): SessionKeys {
    PcKeys(c.pc, PeerOf(c.phone), DeviceId(Pub(c.phone)), Pub(c.eph), r)
  }

  predicate Answered(c: Setup, l: Link) {
    l.phone.phase == AwaitingHelloAck && l.phone.channel.None? && l.up == [] && l.pc.eph.Some? &&
    (l.serving ==> l.pc.phase == Phase.Open) &&
    l.pc.channel == Some(NewChannel(KeysOf(c, l.pc.eph.value).c2p, KeysOf(c, l.pc.eph.value).p2c)) &&
    l.down == [Frame(HelloAck, Clear(Map(HelloAckFields(AckFor(c.pc, PeerOf(c.phone), Pub(c.eph), l.pc.eph.value)))))]
  }

  ghost predicate Flowing(l: Link) {
    l.phone.phase in {Phase.Open, Closed} && l.phone.channel.Some? && l.pc.channel.Some? &&
    (l.serving ==> l.pc.phase == Phase.Open) &&
    Flow(l.up, l.phone.channel.value.tx, l.pc.channel.value.rx, UP) &&
    Flow(l.down, l.pc.channel.value.tx, l.phone.channel.value.rx, DOWN)
  }

  ghost predicate LinkInv(c: Setup, l: Link) {
    PartiesOk(c, l) && (Waiting(c, l) || Answered(c, l) || Flowing(l))
  }

  /** Why a session may close: the PC because of the clock, a failed key generation, the pause switch,
      an oversize clip or an exhausted counter; the phone because the PC told it so. */
  predicate PcMayClose(why: Reason) {
    why in {StaleTimestamp, KeygenFailed, BeamingPaused, ClipTooLarge, SealFailed(ClipAck), SealFailed(Pong)}
  }

  predicate PhoneMayClose(why: Reason) { why in {PeerSentError, FrameAfterClose} }

  predicate Expected(i: LinkInput, acts: seq<Action>) {
    forall k :: 0 <= k < |acts| && acts[k].Close? ==>
      if i.PcReads? then PcMayClose(acts[k].why) else PhoneMayClose(acts[k].why)
  }

  // ------------------------------------------------------------------
  // Flows
  // ------------------------------------------------------------------

  lemma FlowGrows(fs: seq<SFrame>, tx: Direction, rx: Direction, types: set<FrameType>, out: seq<SFrame>,
                  tx': Direction)
    requires Flow(fs, tx, rx, types) && InSealOrder(out, tx, tx')
    requires forall k :: 0 <= k < |out| ==> Meant(out[k], types)
    ensures Flow(fs + out, tx', rx, types)
  {
    var all := fs + out;
    forall i | 0 <= i < |all|
      ensures SealedAt(all[i], tx'.key, CtrIn(all[i])) && CtrIn(all[i]) < tx'.ctr && Unseen(rx, CtrIn(all[i]))
      ensures Meant(all[i], types)
    {
      if i >= |fs| {
        assert SealedAt(out[i - |fs|], tx.key, tx.ctr + (i - |fs|));
      }
    }
    forall i, j | 0 <= i < j < |all| ensures CtrIn(all[i]) < CtrIn(all[j]) {
      if j >= |fs| {
        assert SealedAt(out[j - |fs|], tx.key, tx.ctr + (j - |fs|));
        if i >= |fs| {
          assert SealedAt(out[i - |fs|], tx.key, tx.ctr + (i - |fs|));
        }
      }
    }
  }

  /** The receiver opens the head of a flow, and the rest still flows. */
  lemma FlowOpens(fs: seq<SFrame>, tx: Direction, ch: Channel, types: set<FrameType>)
    requires fs != [] && Flow(fs, tx, ch.rx, types)
    ensures var (ch', r) := Crypto.Open(ch, fs[0].ty, AsCipher(fs[0].payload));
      r == Ok(PlainIn(fs[0])) && ch'.tx == ch.tx && Flow(fs[1..], tx, ch'.rx, types)
  {
    assert SealedAt(fs[0], tx.key, CtrIn(fs[0])) && Unseen(ch.rx, CtrIn(fs[0]));
    forall i | 0 <= i < |fs| - 1 ensures CtrIn(fs[0]) < CtrIn(fs[1..][i]) {
      assert fs[1..][i] == fs[i + 1];
    }
  }

  // ------------------------------------------------------------------
  // What the two sides write is readable
  // ------------------------------------------------------------------

  lemma RequestReadable(q: Sessions.Request)
    requires WfRequest(q) && RequestPlain(q).Ok?
    ensures Readable(RequestType(q), RequestPlain(q).value) && RequestType(q) in UP
  {
    match q
    case PushClip(c) => ClipRoundTrip(c);
    case AskList =>
    case AskItem(id) => GetRoundTrip(id);
    case SendList(ms) => ListRoundTrip(ms);
    case SendItem(i) => ItemRoundTrip(i);
    case SendPing =>
  }

  lemma ReplyOk(e: Event, ring: seq<StagedClip>)
    requires RingOk(ring) && ReplyTo(e, ring).Some?
    ensures WfRequest(ReplyTo(e, ring).value) && RequestType(ReplyTo(e, ring).value) in DOWN
  {
    var ms := List(ring);
    forall i | 0 <= i < |ms| ensures |ms[i].stageId| == 8 {
      assert ms[i] == MetaOf(ring[|ring| - 1 - i]);
    }
  }

  // ------------------------------------------------------------------
  // The PC reads an encrypted frame
  // ------------------------------------------------------------------

  predicate HasClose(acts: seq<Action>) { exists i :: 0 <= i < |acts| && acts[i].Close? }

  predicate ClosesAs(acts: seq<Action>, pc: bool) {
    forall k :: 0 <= k < |acts| && acts[k].Close? ==> if pc then PcMayClose(acts[k].why) else PhoneMayClose(acts[k].why)
  }

  lemma PcPlain(s: State, ty: FrameType, plain: seq<byte>) returns (q: Sealing)
    requires s.channel.Some? && s.phase == Phase.Open && ty in UP && Readable(ty, plain)
    ensures var st := OnPlain(s, ty, plain);
      PlainOutcome(s, ty, plain, st, q) && ClosesAs(st.acts, true) && (st.s.phase == Phase.Open || HasClose(st.acts)) &&
      (q.Some? ==> q.value.0 in DOWN && Readable(q.value.0, q.value.1))
  {
    q := PlainStep(s, ty, plain);
    PcReasons(s, ty, plain);
    if q.Some? && q.value.0 == ClipAck {
      AckRoundTrip(Emits(OnPlain(s, ty, plain).acts)[0].clipId);
    }
  }

  lemma PcReasons(s: State, ty: FrameType, plain: seq<byte>)
    requires s.channel.Some? && s.phase == Phase.Open && ty in UP && Readable(ty, plain)
    ensures var st := OnPlain(s, ty, plain); ClosesAs(st.acts, true) && (st.s.phase == Phase.Open || HasClose(st.acts))
  {
    if ty == ClipPush {
      ClipPushReasons(s, plain);
    } else if ty == Ping {
      PingReasons(s);
    }
  }

  lemma ClipPushReasons(s: State, plain: seq<byte>)
    requires Readable(ClipPush, plain) && s.phase == Phase.Open && s.channel.Some?
    ensures var st := OnClipPush(s, plain); ClosesAs(st.acts, true) && (st.s.phase == Phase.Open || HasClose(st.acts))
  {
    var c := ReadClip(plain).value;
    AckRoundTrip(c.id);
    if s.paused {
      WireErrorReasons(s, BeamingPaused);
    } else if |c.body| > MAX_TEXT_CLIP {
      WireErrorReasons(s, ClipTooLarge);
    } else {
      var st := OnClipPush(s, plain);
      assert st.acts[0].Close? || st.s.phase == Phase.Open;
    }
  }

  lemma WireErrorReasons(s: State, why: Reason)
    requires s.channel.Some? && PcMayClose(why)
    ensures var st := WireError(s, why); ClosesAs(st.acts, true) && HasClose(st.acts)
  {
    var st := WireError(s, why);
    assert st.acts[|st.acts| - 1].Close?;
  }

  lemma PingReasons(s: State)
    requires s.phase == Phase.Open && s.channel.Some?
    ensures var st := OnPlain(s, Ping, []); ClosesAs(st.acts, true) && (st.s.phase == Phase.Open || HasClose(st.acts))
  {
    var st := OnPlain(s, Ping, []);
    assert |st.acts| == 1 && (st.s.phase == Phase.Open || st.acts[0].Close?);
  }

  /** Everything the loop writes for a readable frame is readable in turn. */
  lemma PcWrites(s: State, ty: FrameType, plain: seq<byte>, m: Moment)
    requires s.channel.Some? && s.phase == Phase.Open && ty in UP && Readable(ty, plain) && RingOk(m.ring)
    ensures var st := OnPlain(s, ty, plain); var r := Perform(st.s, st.acts, m.ring, m.writes);
      ClosesAs(st.acts, true) && SameCore(s, r.s) && r.s.channel.Some? && r.s.channel.value.rx == s.channel.value.rx &&
      (r.goesOn ==> r.s.phase == Phase.Open) && (forall k :: 0 <= k < |r.out| ==> Meant(r.out[k], DOWN))
  {
    var st := OnPlain(s, ty, plain);
    var q := PcPlain(s, ty, plain);
    forall i | 0 <= i < |st.acts| && SealsLate(st.acts[i], m.ring) ensures |st.acts| == 1 {
      PlainLateSeals(s, ty, plain, m.ring, i);
    }
    StepWrites(s, st, q, m);
  }

  lemma StepWrites(s: State, st: Step, q: Sealing, m: Moment)
    requires Sealed1(s, st.s, Sends(st.acts), q) && (st.s.phase == Phase.Open || HasClose(st.acts)) && RingOk(m.ring)
    requires q.Some? ==> q.value.0 in DOWN && Readable(q.value.0, q.value.1)
    requires forall i :: 0 <= i < |st.acts| && SealsLate(st.acts[i], m.ring) ==> |st.acts| == 1
    ensures var r := Perform(st.s, st.acts, m.ring, m.writes);
      SameCore(s, r.s) && r.s.channel.Some? && r.s.channel.value.rx == s.channel.value.rx &&
      (r.goesOn ==> r.s.phase == Phase.Open) && (forall k :: 0 <= k < |r.out| ==> Meant(r.out[k], DOWN))
  {
    if i :| 0 <= i < |st.acts| && SealsLate(st.acts[i], m.ring) {
      LateWrites(st.s, st.acts[0].event, st.acts, m);
    } else {
      PromptWrites(s, st, q, m);
    }
  }

  lemma PromptWrites(s: State, st: Step, q: Sealing, m: Moment)
    requires Sealed1(s, st.s, Sends(st.acts), q) && (st.s.phase == Phase.Open || HasClose(st.acts))
    requires q.Some? ==> q.value.0 in DOWN && Readable(q.value.0, q.value.1)
    requires forall i :: 0 <= i < |st.acts| ==> !SealsLate(st.acts[i], m.ring)
    ensures var r := Perform(st.s, st.acts, m.ring, m.writes);
      r.s == st.s && (r.goesOn ==> r.s.phase == Phase.Open) && (forall k :: 0 <= k < |r.out| ==> Meant(r.out[k], DOWN))
  {
    NothingLate(st.s, st.acts, m.ring, m.writes);
    assert forall k :: 0 <= k < |Sends(st.acts)| ==> Meant(Sends(st.acts)[k], DOWN);
  }

  lemma LateWrites(s: State, e: Event, acts: seq<Action>, m: Moment)
    requires s.channel.Some? && acts == [Emit(e)] && ReplyTo(e, m.ring).Some? && RingOk(m.ring)
    ensures var r := Perform(s, acts, m.ring, m.writes);
      SameCore(s, r.s) && r.s.channel.Some? && r.s.channel.value.rx == s.channel.value.rx && r.s.phase == s.phase &&
      (forall k :: 0 <= k < |r.out| ==> Meant(r.out[k], DOWN))
  {
    LateReply(s, e, acts, m.ring, m.writes);
    ReplyOk(e, m.ring);
    var ask := ReplyTo(e, m.ring).value;
    if RequestPlain(ask).Ok? {
      RequestReadable(ask);
    }
  }

  /** One turn of the server on the head of its inbound flow. */
  lemma PcTurn(s: State, up: seq<SFrame>, tx: Direction, m: Moment)
    requires StateOk(s) && s.channel.Some? && s.phase == Phase.Open && RingOk(m.ring)
    requires up != [] && Flow(up, tx, s.channel.value.rx, UP)
    ensures var r := ServeFrame(s, up[0], m);
      SameCore(s, r.s) && r.s.channel.Some? && Flow(up[1..], tx, r.s.channel.value.rx, UP) &&
      (r.goesOn ==> r.s.phase == Phase.Open) && (forall k :: 0 <= k < |r.out| ==> Meant(r.out[k], DOWN)) &&
      InSealOrder(r.out, s.channel.value.tx, r.s.channel.value.tx)
    ensures ClosesAs(OnFrame(s.(paused := m.paused), up[0], m.now, m.newEph).acts, true)
  {
    WireOrder(s, up[0], m);
    FlowOpens(up, tx, s.channel.value, UP);
    assert Meant(up[0], UP);
    var (ch, r) := Crypto.Open(s.channel.value, up[0].ty, AsCipher(up[0].payload));
    PcWrites(s.(paused := m.paused, lastActivity := m.now, channel := Some(ch)), up[0].ty, r.value, m);
  }

  // ------------------------------------------------------------------
  // The phone reads an encrypted frame
  // ------------------------------------------------------------------

  lemma PhonePlain(s: State, ty: FrameType, plain: seq<byte>)
    requires s.channel.Some? && s.phase == Phase.Open && ty in DOWN && Readable(ty, plain)
    ensures var st := OnPlain(s, ty, plain);
      ClosesAs(st.acts, false) && SameLink(s, st.s) && st.s.channel == s.channel && st.s.phase in {Phase.Open, Closed}
  {
    match ty
    case ClipAck => PhoneAcked(s, plain);
    case StageItem => PhoneFetched(s, plain);
    case StageList => PhoneListed(s, plain);
    case Pong =>
    case ErrorFrame =>
  }

  lemma PhoneAcked(s: State, plain: seq<byte>)
    requires Readable(ClipAck, plain)
    ensures var (id, status) := ReadAck(plain).value; OnClipAck(s, plain) == Step(s, [Emit(ClipAcked(id, status))])
  {
  }

  lemma PhoneFetched(s: State, plain: seq<byte>)
    requires Readable(StageItem, plain)
    ensures OnStageItem(s, plain) == Step(s, [Emit(StageFetched(ReadItem(plain).value))])
  {
  }

  lemma PhoneListed(s: State, plain: seq<byte>)
    requires Readable(StageList, plain)
    ensures var vs := ReadListItems(plain).value;
      OnStageList(s, plain) == Step(s, [Emit(StageListed(ReadMetas(vs, |vs|).value))])
  {
  }

  lemma PhoneTurn(s: State, down: seq<SFrame>, tx: Direction, now: u64)
    requires s.channel.Some? && s.phase in {Phase.Open, Closed} && down != []
    requires Flow(down, tx, s.channel.value.rx, DOWN)
    ensures var st := OnFrame(s, down[0], now, None);
      SameLink(s, st.s) && st.s.channel.Some? && st.s.channel.value.tx == s.channel.value.tx &&
      ClosesAs(st.acts, false) &&
      st.s.phase in {Phase.Open, Closed} && Flow(down[1..], tx, st.s.channel.value.rx, DOWN)
  {
    if s.phase == Closed {
      FlowShrinks(down, tx, s.channel.value.rx, DOWN);
    } else {
      FlowOpens(down, tx, s.channel.value, DOWN);
      assert Meant(down[0], DOWN);
      var (ch, r) := Crypto.Open(s.channel.value, down[0].ty, AsCipher(down[0].payload));
      PhonePlain(s.(lastActivity := now, channel := Some(ch)), down[0].ty, r.value);
    }
  }

  lemma FlowShrinks(fs: seq<SFrame>, tx: Direction, rx: Direction, types: set<FrameType>)
    requires fs != [] && Flow(fs, tx, rx, types)
    ensures Flow(fs[1..], tx, rx, types)
  {
  }

  // ------------------------------------------------------------------
  // The handshake
  // ------------------------------------------------------------------

  predicate InTime(c: Setup, now: u64) { AbsDiff(c.phoneNow, now) <= HELLO_TS_WINDOW_MS }

  /** The PC takes the phone's HELLO unless it comes too late or no ephemeral can be made. */
  lemma HelloHeard(c: Setup, s: State, now: u64, newEph: Option<Secret>)
    requires Paired(c) && s.identity == c.pc && s.knownPeers == c.peers && s.phase == AwaitingHello && s.channel.None?
    ensures var st := OnFrame(s, HelloOfPhone(c), now, newEph);
      if !InTime(c, now) then st.s == s.(lastActivity := now, phase := Closed) && st.acts == [Close(StaleTimestamp)]
      else if newEph.None? then st.s == s.(lastActivity := now, phase := Closed) && st.acts == [Close(KeygenFailed)]
      else
        var keys := KeysOf(c, newEph.value);
        st.s == s.(lastActivity := now, phase := Phase.Open, eph := newEph, peer := Some(PeerOf(c.phone)),
                   channel := Some(NewChannel(keys.c2p, keys.p2c))) &&
        st.acts == [Send(AckOfPc(c, newEph.value)), Emit(Established(DeviceId(Pub(c.phone))))]
  {
    HelloRoundTrip(HelloFor(c.phone, PeerOf(c.pc), c.phoneNow, c.eph));
    DiffieCommutes(c.phone, c.pc);
  }

  function AckOfPc(c: Setup, r: Secret): SFrame {
    Frame(HelloAck, Clear(Map(HelloAckFields(AckFor(c.pc, PeerOf(c.phone), Pub(c.eph), r)))))
  }

  lemma AckHeard(c: Setup, s: State, r: Secret, now: u64)
    requires s.identity == c.phone && s.peer == Some(PeerOf(c.pc)) && s.eph == Some(c.eph)
    requires s.ephPkI == Some(Pub(c.eph))
    requires s.phase == AwaitingHelloAck
    ensures var st := OnFrame(s, AckOfPc(c, r), now, None); var keys := KeysOf(c, r);
      st.s == s.(lastActivity := now, phase := Phase.Open, channel := Some(NewChannel(keys.p2c, keys.c2p))) &&
      st.acts == [Emit(Established(DeviceId(Pub(c.pc))))]
  {
    HelloAckRoundTrip(AckFor(c.pc, PeerOf(c.phone), Pub(c.eph), r));
    DiffieCommutes(c.phone, c.pc);
    DiffieCommutes(c.eph, r);
    DiffieCommutes(c.phone, r);
  }

  // ------------------------------------------------------------------
  // Every step keeps the invariant
  // ------------------------------------------------------------------

  lemma AskKeeps(c: Setup, l: Link, q: Sessions.Request, written: bool)
    requires LinkInv(c, l) && WfRequest(q)
    ensures LinkInv(c, LinkStep(l, PhoneAsks(q, written)))
  {
    if l.phone.channel.Some? {
      AskFlows(l, q, written);
    }
  }

  lemma AskFlows(l: Link, q: Sessions.Request, written: bool)
    requires Flowing(l) && WfRequest(q)
    ensures var l' := LinkStep(l, PhoneAsks(q, written));
      Flowing(l') && l'.phone == l.phone.(channel := l'.phone.channel)
  {
    var (s, r) := Ask(l.phone, q);
    var out := if r.Ok? && written then [r.value] else [];
    AskWrites(l.phone, q);
    FlowGrows(l.up, l.phone.channel.value.tx, l.pc.channel.value.rx, UP, out, s.channel.value.tx);
  }

  lemma AskWrites(s: State, q: Sessions.Request)
    requires s.channel.Some? && WfRequest(q)
    ensures var (t, r) := Ask(s, q);
      t == s.(channel := t.channel) && t.channel.Some? && t.channel.value.rx == s.channel.value.rx &&
      t.channel.value.tx.key == s.channel.value.tx.key &&
      t.channel.value.tx.ctr == s.channel.value.tx.ctr + (if r.Ok? then 1 else 0) &&
      (r.Ok? ==> Meant(r.value, UP) && SealedAt(r.value, s.channel.value.tx.key, s.channel.value.tx.ctr))
  {
    if RequestPlain(q).Ok? {
      RequestReadable(q);
    }
  }

  lemma PcReadsHello(c: Setup, l: Link, m: Moment)
    requires Paired(c) && PartiesOk(c, l) && Waiting(c, l) && l.serving
    ensures LinkInv(c, LinkStep(l, PcReads(m))) && ClosesAs(Returned(l, PcReads(m)), true)
  {
    var s := l.pc.(paused := m.paused);
    HelloHeard(c, s, m.now, m.newEph);
    var st := OnFrame(s, HelloOfPhone(c), m.now, m.newEph);
    if |st.acts| == 2 {
      SendThenTell(st.s, AckOfPc(c, m.newEph.value), st.acts[1].event, m.ring, m.writes);
    } else {
      NothingLate(st.s, st.acts, m.ring, m.writes);
    }
  }

  lemma PcReadsKeeps(c: Setup, l: Link, m: Moment)
    requires Paired(c) && LinkInv(c, l) && RingOk(m.ring)
    ensures LinkInv(c, LinkStep(l, PcReads(m))) && Expected(PcReads(m), Returned(l, PcReads(m)))
  {
    if l.serving && l.up != [] {
      if Waiting(c, l) {
        PcReadsHello(c, l, m);
      } else {
        var tx := l.phone.channel.value.tx;
        PcTurn(l.pc, l.up, tx, m);
        var r := ServeFrame(l.pc, l.up[0], m);
        FlowGrows(l.down, l.pc.channel.value.tx, l.phone.channel.value.rx, DOWN, r.out, r.s.channel.value.tx);
      }
    }
  }

  lemma PhoneReadsKeeps(c: Setup, l: Link, now: u64)
    requires LinkInv(c, l)
    ensures LinkInv(c, LinkStep(l, PhoneReads(now))) && Expected(PhoneReads(now), Returned(l, PhoneReads(now)))
  {
    if l.down != [] {
      if Answered(c, l) {
        AckHeard(c, l.phone, l.pc.eph.value, now);
      } else {
        PhoneTurn(l.phone, l.down, l.pc.channel.value.tx, now);
      }
    }
  }

  lemma LinkStepKeeps(c: Setup, l: Link, i: LinkInput)
    requires Paired(c) && LinkInv(c, l) && InputOk(i)
    ensures LinkInv(c, LinkStep(l, i)) && Expected(i, Returned(l, i))
  {
    match i
    case PhoneAsks(q, written) => AskKeeps(c, l, q, written);
    case PcReads(m) => PcReadsKeeps(c, l, m);
    case PhoneReads(now) => PhoneReadsKeeps(c, l, now);
    case PcStops =>
  }

  lemma {:induction false} LinkRunKeeps(c: Setup, inputs: seq<LinkInput>)
    requires Paired(c) && forall k :: 0 <= k < |inputs| ==> InputOk(inputs[k])
    ensures LinkInv(c, LinkRun(Start(c), inputs))
  {
    if inputs != [] {
      var n := |inputs| - 1;
      LinkRunKeeps(c, inputs[..n]);
      LinkStepKeeps(c, LinkRun(Start(c), inputs[..n]), inputs[n]);
    }
  }

  /** Over an ordered connection neither honest side ever refuses a box, a message or a handshake of
      the other: after any run, the next step closes a session only for one of the expected reasons. */
  lemma OrderedLinkNeverBreaks(c: Setup, inputs: seq<LinkInput>, i: LinkInput)
    requires Paired(c) && InputOk(i) && forall k :: 0 <= k < |inputs| ==> InputOk(inputs[k])
    ensures Expected(i, Returned(LinkRun(Start(c), inputs), i))
    ensures Close(AeadOpenFailed) !in Returned(LinkRun(Start(c), inputs), i)
  {
    LinkRunKeeps(c, inputs);
    LinkStepKeeps(c, LinkRun(Start(c), inputs), i);
  }
}
