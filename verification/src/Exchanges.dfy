/** What a phone gets from its PC over an ordered connection, end to end: a handshake, a clip beamed
    and acknowledged, the stage list and a staged clip. */
module Exchanges {
  import opened Bytes
  import opened Common
  import opened Frames
  import opened Crypto
  import opened Messages
  import opened Stage
  import opened Sessions
  import opened Network
  import opened Server
  import opened OrderedLink
  import opened Sizes
  import C = Client
  import Utf8

  /** `t` has not seen anything `s` is still going to seal. */
  predicate InStep(s: State, t: State) {
    s.channel.Some? && t.channel.Some? && s.channel.value.tx.key == t.channel.value.rx.key &&
    Unseen(t.channel.value.rx, s.channel.value.tx.ctr)
  }

  /** Both sides established, nothing under way. */
  predicate Ready(l: Link) {
    l.phone.phase == Phase.Open && l.pc.phase == Phase.Open && l.serving && l.up == [] && l.down == [] &&
    InStep(l.phone, l.pc) && InStep(l.pc, l.phone)
  }

  /** Both counters have room for `n` more frames. */
  predicate Room(l: Link, n: nat) {
    l.phone.channel.Some? && l.pc.channel.Some? &&
    l.phone.channel.value.tx.ctr + n <= U64_MAX && l.pc.channel.value.tx.ctr + n <= U64_MAX
  }

  /** A HELLO that arrives in time leads to two established sessions with mirrored channels. */
  lemma HandshakeCompletes(c: Setup, m: Moment, now: u64)
    requires Paired(c) && InTime(c, m.now) && m.newEph.Some? && m.writes > 0
    ensures var l0 := Start(c); var l1 := LinkStep(l0, PcReads(m)); var l2 := LinkStep(l1, PhoneReads(now));
      Emit(Established(DeviceId(Pub(c.phone)))) in Returned(l0, PcReads(m)) &&
      Returned(l1, PhoneReads(now)) == [Emit(Established(DeviceId(Pub(c.pc))))] && Ready(l2) && Room(l2, U64_MAX)
  {
    HelloAnswered(c, m);
    AckHeard(c, Start(c).phone, m.newEph.value, now);
  }

  /** The PC's half of it. */
  lemma HelloAnswered(c: Setup, m: Moment)
    requires Paired(c) && InTime(c, m.now) && m.newEph.Some? && m.writes > 0
    ensures var l := LinkStep(Start(c), PcReads(m)); var keys := KeysOf(c, m.newEph.value);
      l.phone == Start(c).phone && l.up == [] && l.down == [AckOfPc(c, m.newEph.value)] && l.serving &&
      l.pc.phase == Phase.Open && l.pc.channel == Some(NewChannel(keys.c2p, keys.p2c))
    ensures Emit(Established(DeviceId(Pub(c.phone)))) in Returned(Start(c), PcReads(m))
  {
    var s := Start(c).pc.(paused := m.paused);
    HelloHeard(c, s, m.now, m.newEph);
    var st := OnFrame(s, HelloOfPhone(c), m.now, m.newEph);
    SendThenTell(st.s, AckOfPc(c, m.newEph.value), st.acts[1].event, m.ring, m.writes);
    assert st.acts[1] == Emit(Established(DeviceId(Pub(c.phone))));
  }

  /** The state in which `t` reads a plaintext sealed by `s`. */
  function Hearing(s: State, t: State, now: u64): State
    requires InStep(s, t)
  {
    t.(lastActivity := now,
       channel := Some(t.channel.value.(rx := Direction(t.channel.value.rx.key, s.channel.value.tx.ctr, true))))
  }

  /** A frame sealed by one side is opened by the other to what went in. */
  lemma Hears(s: State, ty: FrameType, plain: seq<byte>, t: State, now: u64, e: Option<Secret>)
    requires InStep(s, t) && t.phase == Phase.Open && IsEncrypted(ty) && s.channel.value.tx.ctr < U64_MAX
    ensures var (s', f) := SealFrame(s, ty, plain);
      f.Ok? && OnFrame(t, f.value, now, e) == OnPlain(Hearing(s, t, now), ty, plain) &&
      InStep(s', Hearing(s, t, now)) &&
      s' == s.(channel := s'.channel) && s'.channel.value.rx == s.channel.value.rx &&
      s'.channel.value.tx.ctr == s.channel.value.tx.ctr + 1 && s'.channel.value.tx.key == s.channel.value.tx.key
  {
  }

  /** Request, reply, answer. */
  function AfterAsk(l: Link, q: Sessions.Request): Link { LinkStep(l, PhoneAsks(q, true)) }
  function AfterReply(l: Link, q: Sessions.Request, m: Moment): Link { LinkStep(AfterAsk(l, q), PcReads(m)) }
  function AfterAll(l: Link, q: Sessions.Request, m: Moment, now: u64): Link {
    LinkStep(AfterReply(l, q, m), PhoneReads(now))
  }

  /** What the phone's session returns at the end of such an exchange. */
  function Answer(l: Link, q: Sessions.Request, m: Moment, now: u64): seq<Action> {
    Returned(AfterReply(l, q, m), PhoneReads(now))
  }

  /** A request reaches the PC's session unchanged. */
  lemma AskReaches(l: Link, q: Sessions.Request, m: Moment)
    requires Ready(l) && Room(l, 1) && RequestPlain(q).Ok?
    ensures var l1 := AfterAsk(l, q); var heard := Hearing(l.phone, l.pc.(paused := m.paused), m.now);
      l1.phone == SealFrame(l.phone, RequestType(q), RequestPlain(q).value).0 && l1.pc == l.pc && |l1.up| == 1 &&
      l1.down == [] &&
      l1.serving && OnFrame(l1.pc.(paused := m.paused), l1.up[0], m.now, m.newEph) ==
        OnPlain(heard, RequestType(q), RequestPlain(q).value)
  {
    Hears(l.phone, RequestType(q), RequestPlain(q).value, l.pc.(paused := m.paused), m.now, m.newEph);
    assert AfterAsk(l, q).up == [Ask(l.phone, q).1.value];
  }

  /** The PC's loop answers the request with this one frame. */
  predicate Replies(l: Link, q: Sessions.Request, m: Moment, ty: FrameType, plain: seq<byte>)
    requires Ready(l)
  {
    var (s, f) := SealFrame(Hearing(l.phone, l.pc.(paused := m.paused), m.now), ty, plain);
    var up := AfterAsk(l, q).up;
    up != [] && f.Ok? && ServeFrame(l.pc, up[0], m) == Served(s, [f.value], true)
  }

  /** This plaintext makes a session report `e` and nothing else. */
  ghost predicate Says(ty: FrameType, plain: seq<byte>, e: Event) {
    IsEncrypted(ty) && forall s: State :: OnPlain(s, ty, plain) == Step(s, [Emit(e)])
  }

  /** One frame is on its way down, just sealed by the PC in state `from`. */
  predicate Pending(l: Link, from: State, ty: FrameType, plain: seq<byte>) {
    from.phase == Phase.Open && l.phone.phase == Phase.Open && l.serving && l.up == [] &&
    InStep(from, l.phone) && InStep(l.phone, from) &&
    var (s, f) := SealFrame(from, ty, plain);
    f.Ok? && l.pc == s && l.down == [f.value]
  }

  /** The phone reads it, reports what it says, and both are ready again. */
  lemma PhoneTold(l: Link, from: State, ty: FrameType, plain: seq<byte>, e: Event, now: u64)
    requires Pending(l, from, ty, plain) && Says(ty, plain, e)
    ensures Returned(l, PhoneReads(now)) == [Emit(e)] && Ready(LinkStep(l, PhoneReads(now)))
    ensures LinkStep(l, PhoneReads(now)).pc == l.pc
    ensures LinkStep(l, PhoneReads(now)).phone.channel.value.tx == l.phone.channel.value.tx
  {
    Hears(from, ty, plain, l.phone, now, None);
  }

  lemma ReplyPending(l: Link, q: Sessions.Request, m: Moment, ty: FrameType, plain: seq<byte>)
    requires Ready(l) && Room(l, 1) && RequestPlain(q).Ok? && Replies(l, q, m, ty, plain)
    ensures var l2 := AfterReply(l, q, m);
      Pending(l2, Hearing(l.phone, l.pc.(paused := m.paused), m.now), ty, plain) &&
      l2.phone.channel.value.tx.ctr == l.phone.channel.value.tx.ctr + 1 &&
      l2.pc.channel.value.tx.ctr == l.pc.channel.value.tx.ctr + 1
  {
    AskReaches(l, q, m);
    Hears(l.phone, RequestType(q), RequestPlain(q).value, l.pc.(paused := m.paused), m.now, m.newEph);
  }

  /** If the reply says `e`, that is what the phone's session reports. */
  lemma Reports(l: Link, q: Sessions.Request, m: Moment, now: u64, ty: FrameType, plain: seq<byte>, e: Event, n: nat)
    requires Ready(l) && Room(l, n + 1) && RequestPlain(q).Ok? && Replies(l, q, m, ty, plain) && Says(ty, plain, e)
    ensures Answer(l, q, m, now) == [Emit(e)] && Ready(AfterAll(l, q, m, now)) && Room(AfterAll(l, q, m, now), n)
  {
    ReplyPending(l, q, m, ty, plain);
    PhoneTold(AfterReply(l, q, m), Hearing(l.phone, l.pc.(paused := m.paused), m.now), ty, plain, e, now);
  }

  // ------------------------------------------------------------------
  // Beaming
  // ------------------------------------------------------------------

  predicate Beamable(l: Link, clip: Clip, m: Moment) {
    WfRequest(PushClip(clip)) && WriteClip(clip).Ok? && |clip.body| <= MAX_TEXT_CLIP && !m.paused && m.writes > 0
  }

  function ArrivalOf(clip: Clip): Event
    requires ContentOfCode(clip.kind).Some?
  {
    ClipArrived(clip.id, ContentOfCode(clip.kind).value, clip.body, clip.sourceName, clip.createdAt)
  }

  /** The PC takes a clip that is not too large unless it is paused, and its session reports the
      arrival of just what was sent. */
  lemma ClipArrives(l: Link, clip: Clip, m: Moment)
    requires Ready(l) && Room(l, 1) && Beamable(l, clip, m)
    ensures var acts := Returned(AfterAsk(l, PushClip(clip)), PcReads(m));
      |acts| == 2 && acts[0] == Emit(ArrivalOf(clip)) && acts[1].Send?
  {
    AskReaches(l, PushClip(clip), m);
    ClipRoundTrip(clip);
    AckRoundTrip(clip.id);
  }

  lemma ClipAnswered(l: Link, clip: Clip, m: Moment)
    requires Ready(l) && Room(l, 1) && Beamable(l, clip, m)
    ensures WriteAck(clip.id).Ok? && Replies(l, PushClip(clip), m, ClipAck, WriteAck(clip.id).value)
  {
    AskReaches(l, PushClip(clip), m);
    ClipRoundTrip(clip);
    AckRoundTrip(clip.id);
    var heard := Hearing(l.phone, l.pc.(paused := m.paused), m.now);
    var st := OnClipPush(heard, WriteClip(clip).value);
    TellThenSend(st.s, st.acts[0].event, st.acts[1].frame, m.ring, m.writes);
  }

  lemma TellThenSend(s: State, e: Event, f: SFrame, ring: seq<StagedClip>, writes: nat)
    requires ReplyTo(e, ring).None? && writes > 0
    ensures Perform(s, [Emit(e), Send(f)], ring, writes) == Served(s, [f], true)
  {
    var acts := [Emit(e), Send(f)];
    assert acts[1..] == [Send(f)] && [Send(f)][1..] == [];
    assert Perform(s, acts[1..], ring, writes) == Served(s, [f], true);
  }

  lemma AckReads(id: seq<byte>)
    requires |id| == 8
    ensures WriteAck(id).Ok? && Says(ClipAck, WriteAck(id).value, ClipAcked(id, 0))
  {
    AckRoundTrip(id);
    var plain := WriteAck(id).value;
    assert Readable(ClipAck, plain);
    forall s: State ensures OnPlain(s, ClipAck, plain) == Step(s, [Emit(ClipAcked(id, 0))]) {
      PhoneAcked(s, plain);
    }
  }

  /** The phone is then told that the clip with that id was taken, with status 0. */
  lemma Beams(l: Link, clip: Clip, m: Moment, now: u64, n: nat)
    requires Ready(l) && Room(l, n + 1) && Beamable(l, clip, m)
    ensures Answer(l, PushClip(clip), m, now) == [Emit(ClipAcked(clip.id, 0))]
    ensures Ready(AfterAll(l, PushClip(clip), m, now)) && Room(AfterAll(l, PushClip(clip), m, now), n)
  {
    ClipAnswered(l, clip, m);
    AckReads(clip.id);
    Reports(l, PushClip(clip), m, now, ClipAck, WriteAck(clip.id).value, ClipAcked(clip.id, 0), n);
  }

  /** Why the PC refuses a clip, if it does: the pause switch counts before the size. */
  function Refusal(clip: Clip, m: Moment): Option<Reason> {
    if m.paused then Some(BeamingPaused) else if |clip.body| > MAX_TEXT_CLIP then Some(ClipTooLarge) else None
  }

  function Notice(why: Reason): seq<byte> { WriteError(WireCode(why), WireText(why)) }

  /** The step that seals one ERROR frame and closes. */
  function Goodbye(s: State, why: Reason, plain: seq<byte>): Option<Step> {
    var (t, f) := SealFrame(s, ErrorFrame, plain);
    if f.Err? then None else Some(Step(t.(phase := Closed), [Send(f.value), Close(why)]))
  }

  lemma RefusedSays(s: State, clip: Clip, why: Reason)
    requires s.channel.Some? && s.channel.value.tx.ctr < U64_MAX && |clip.id| == 8 && WriteClip(clip).Ok?
    requires why == if s.paused then BeamingPaused else ClipTooLarge
    requires !s.paused ==> |clip.body| > MAX_TEXT_CLIP
    ensures Goodbye(s, why, Notice(why)) == Some(OnPlain(s, ClipPush, WriteClip(clip).value))
  {
    ClipRoundTrip(clip);
  }

  lemma TextIsShort(why: Reason)
    ensures |WireText(why)| < 100
  {
  }

  lemma ErrorSays(s: State, code: u16, msg: string)
    requires |msg| < 100
    ensures OnPlain(s, ErrorFrame, WriteError(code, msg)) ==
      Step(s.(phase := Closed), [Emit(PeerError(code, msg)), Close(PeerSentError)])
  {
    ShortErrorReads(code, msg);
    ErrorPlain(s, WriteError(code, msg));
  }

  lemma ShortErrorReads(code: u16, msg: string)
    requires |msg| < 100
    ensures ReadError(WriteError(code, msg)) == (code, msg)
  {
    Utf8.EncodeBound(msg);
    ErrorRoundTrip(code, msg);
  }

  lemma ErrorPlain(s: State, plain: seq<byte>)
    ensures OnPlain(s, ErrorFrame, plain) ==
      Step(s.(phase := Closed), [Emit(PeerError(ReadError(plain).0, ReadError(plain).1)), Close(PeerSentError)])
  {
  }

  lemma SendThenClose(s: State, f: SFrame, why: Reason, ring: seq<StagedClip>, writes: nat)
    requires writes > 0
    ensures Perform(s, [Send(f), Close(why)], ring, writes) == Served(s, [f], false)
  {
    var acts := [Send(f), Close(why)];
    assert acts[1..] == [Close(why)];
    assert Perform(s, acts[1..], ring, writes - 1) == Served(s, [], false);
  }

  /** If the PC's session says goodbye, the server writes it and stops. */
  lemma GoodbyeServed(l: Link, q: Sessions.Request, m: Moment, why: Reason, plain: seq<byte>)
    requires Ready(l) && Room(l, 1) && RequestPlain(q).Ok? && m.writes > 0
    requires var s := Hearing(l.phone, l.pc.(paused := m.paused), m.now);
      Goodbye(s, why, plain) == Some(OnPlain(s, RequestType(q), RequestPlain(q).value))
    ensures var (t, f) := SealFrame(Hearing(l.phone, l.pc.(paused := m.paused), m.now), ErrorFrame, plain);
      f.Ok? && |AfterAsk(l, q).up| == 1 &&
      ServeFrame(l.pc, AfterAsk(l, q).up[0], m) == Served(t.(phase := Closed), [f.value], false) &&
      Returned(AfterAsk(l, q), PcReads(m)) == [Send(f.value), Close(why)]
  {
    AskReaches(l, q, m);
    var (t, f) := SealFrame(Hearing(l.phone, l.pc.(paused := m.paused), m.now), ErrorFrame, plain);
    SendThenClose(t.(phase := Closed), f.value, why, m.ring, m.writes);
  }

  /** It is then on its way to the phone. */
  lemma GoodbyePending(l: Link, q: Sessions.Request, m: Moment, why: Reason, plain: seq<byte>)
    requires Ready(l) && Room(l, 1) && RequestPlain(q).Ok? && m.writes > 0
    requires var s := Hearing(l.phone, l.pc.(paused := m.paused), m.now);
      Goodbye(s, why, plain) == Some(OnPlain(s, RequestType(q), RequestPlain(q).value))
    ensures var l2 := AfterReply(l, q, m); var s := Hearing(l.phone, l.pc.(paused := m.paused), m.now);
      SealFrame(s, ErrorFrame, plain).1.Ok? && l2.down == [SealFrame(s, ErrorFrame, plain).1.value] &&
      !l2.serving && InStep(s, l2.phone) && l2.phone.phase == Phase.Open
  {
    GoodbyeServed(l, q, m, why, plain);
    AskReaches(l, q, m);
    Hears(l.phone, RequestType(q), RequestPlain(q).value, l.pc, m.now, m.newEph);
  }

  /** The phone reads an error the PC sealed in state `from`. */
  lemma ErrorDelivered(l: Link, from: State, code: u16, msg: string, now: u64)
    requires InStep(from, l.phone) && l.phone.phase == Phase.Open && from.channel.value.tx.ctr < U64_MAX && |msg| < 100
    requires var f := SealFrame(from, ErrorFrame, WriteError(code, msg)).1; f.Ok? && l.down == [f.value]
    ensures Returned(l, PhoneReads(now)) == [Emit(PeerError(code, msg)), Close(PeerSentError)]
  {
    Hears(from, ErrorFrame, WriteError(code, msg), l.phone, now, None);
    ErrorSays(Hearing(from, l.phone, now), code, msg);
  }

  /** A refused clip: the PC's session sends one ERROR frame and closes without reporting an arrival,
      the server stops, and the phone is told the reason's code and text and closes too. */
  lemma ClipRefused(l: Link, clip: Clip, m: Moment, now: u64)
    requires Ready(l) && Room(l, 1) && WfRequest(PushClip(clip)) && WriteClip(clip).Ok? && m.writes > 0
    requires Refusal(clip, m).Some?
    ensures var acts := Returned(AfterAsk(l, PushClip(clip)), PcReads(m));
      |acts| == 2 && acts[0].Send? && acts[1] == Close(Refusal(clip, m).value) &&
      !AfterReply(l, PushClip(clip), m).serving
    ensures var why := Refusal(clip, m).value;
      Answer(l, PushClip(clip), m, now) == [Emit(PeerError(WireCode(why), WireText(why))), Close(PeerSentError)]
  {
    var why := Refusal(clip, m).value;
    var s := Hearing(l.phone, l.pc.(paused := m.paused), m.now);
    RefusedSays(s, clip, why);
    GoodbyeServed(l, PushClip(clip), m, why, Notice(why));
    GoodbyePending(l, PushClip(clip), m, why, Notice(why));
    TextIsShort(why);
    ErrorDelivered(AfterReply(l, PushClip(clip), m), s, WireCode(why), WireText(why), now);
  }

  // ------------------------------------------------------------------
  // The stage
  // ------------------------------------------------------------------

  /** A request whose event the server answers with `reply`. */
  lemma Served1(l: Link, q: Sessions.Request, e: Event, reply: Sessions.Request, m: Moment)
    requires Ready(l) && Room(l, 1) && RequestPlain(q).Ok? && RequestPlain(reply).Ok? && m.writes > 0
    requires Says(RequestType(q), RequestPlain(q).value, e)
    requires ReplyTo(e, m.ring) == Some(reply)
    ensures Replies(l, q, m, RequestType(reply), RequestPlain(reply).value)
  {
    AskReaches(l, q, m);
    var heard := Hearing(l.phone, l.pc.(paused := m.paused), m.now);
    LateReply(heard, e, [Emit(e)], m.ring, m.writes);
  }

  /** The whole exchange: the PC's session reports `e`, the server replies, the phone's session
      reports `done`. */
  lemma Exchange(l: Link, q: Sessions.Request, e: Event, reply: Sessions.Request, done: Event, m: Moment, now: u64,
                 n: nat)
    requires Ready(l) && Room(l, n + 1) && RequestPlain(q).Ok? && RequestPlain(reply).Ok? && m.writes > 0
    requires Says(RequestType(q), RequestPlain(q).value, e) && ReplyTo(e, m.ring) == Some(reply)
    requires Says(RequestType(reply), RequestPlain(reply).value, done)
    ensures Answer(l, q, m, now) == [Emit(done)] && Ready(AfterAll(l, q, m, now)) && Room(AfterAll(l, q, m, now), n)
  {
    Served1(l, q, e, reply, m);
    Reports(l, q, m, now, RequestType(reply), RequestPlain(reply).value, done, n);
  }

  /** A ring of any depth: fixed-width ids, bodies within the limit, and a `usize` number of them. */
  predicate SomeRing(ring: seq<StagedClip>) {
    |ring| < 0x1_0000_0000_0000_0000 && RingOk(ring) && forall i :: 0 <= i < |ring| ==> Stage.Fits(ring[i])
  }

  /** The phone's stage list is the ring's, newest first. */
  lemma PullsList(l: Link, m: Moment, now: u64, n: nat)
    requires Ready(l) && Room(l, n + 1) && SomeRing(m.ring) && m.writes > 0
    ensures Answer(l, AskList, m, now) == [Emit(StageListed(List(m.ring)))]
    ensures Ready(AfterAll(l, AskList, m, now)) && Room(AfterAll(l, AskList, m, now), n)
  {
    ListReqEncodes();
    var ms := List(m.ring);
    RingListReads(m.ring);
    Exchange(l, AskList, StageListRequested, SendList(ms), StageListed(ms), m, now, n);
  }

  lemma ListReqEncodes()
    ensures WriteListReq().Ok? && Says(StageListReq, WriteListReq().value, StageListRequested)
  {
  }

  lemma GetReads(id: seq<byte>)
    requires |id| == 8
    ensures WriteGet(id).Ok? && Says(StageGet, WriteGet(id).value, StageItemRequested(id))
  {
    GetRoundTrip(id);
  }

  lemma ItemReads(c: StagedClip)
    requires |c.stageId| == 8 && Stage.Fits(c)
    ensures WriteItem(WholeItem(c)).Ok? && Says(StageItem, WriteItem(WholeItem(c)).value, StageFetched(WholeItem(c)))
  {
    StageItemFits(c);
    ItemSays(WholeItem(c));
  }

  lemma ItemSays(i: Item)
    requires |i.id| == 8 && WriteItem(i).Ok?
    ensures Says(StageItem, WriteItem(i).value, StageFetched(i))
  {
    ItemRoundTrip(i);
    var plain := WriteItem(i).value;
    assert Readable(StageItem, plain);
    forall s: State ensures OnPlain(s, StageItem, plain) == Step(s, [Emit(StageFetched(i))]) {
      PhoneFetched(s, plain);
    }
  }

  lemma RingListReads(ring: seq<StagedClip>)
    requires |ring| < 0x1_0000_0000_0000_0000 && RingOk(ring)
    ensures WriteList(List(ring)).Ok? && Says(StageList, WriteList(List(ring)).value, StageListed(List(ring)))
  {
    var ms := List(ring);
    forall i | 0 <= i < |ms| ensures |ms[i].stageId| == 8 {
      assert ms[i] == MetaOf(ring[|ring| - 1 - i]);
    }
    ListEncodes(ring);
    ListSays(ms);
  }

  lemma ListSays(ms: seq<StageMeta>)
    requires WriteList(ms).Ok? && forall i :: 0 <= i < |ms| ==> |ms[i].stageId| == 8
    ensures Says(StageList, WriteList(ms).value, StageListed(ms))
  {
    ListRoundTrip(ms);
    var plain := WriteList(ms).value;
    assert Readable(StageList, plain);
    forall s: State ensures OnPlain(s, StageList, plain) == Step(s, [Emit(StageListed(ms))]) {
      PhoneListed(s, plain);
    }
  }

  /** What the phone is told when it asks for an id. */
  function Fetched(found: Option<StagedClip>): Event {
    if found.Some? then StageFetched(WholeItem(found.value)) else StageListed([])
  }

  /** Asking for an id brings the whole clip if it is staged, and an empty list otherwise. */
  lemma PullsItem(l: Link, id: seq<byte>, m: Moment, now: u64, n: nat)
    requires Ready(l) && Room(l, n + 1) && SomeRing(m.ring) && m.writes > 0 && |id| == 8
    ensures Answer(l, AskItem(id), m, now) == [Emit(Fetched(Find(m.ring, id)))]
    ensures Ready(AfterAll(l, AskItem(id), m, now)) && Room(AfterAll(l, AskItem(id), m, now), n)
  {
    GetReads(id);
    FoundReads(Find(m.ring, id));
    Exchange(l, AskItem(id), StageItemRequested(id), ItemReply(Find(m.ring, id)), Fetched(Find(m.ring, id)), m, now, n);
  }

  function ItemReply(found: Option<StagedClip>): Sessions.Request {
    if found.Some? then SendItem(WholeItem(found.value)) else SendList([])
  }

  lemma FoundReads(found: Option<StagedClip>)
    requires found.Some? ==> |found.value.stageId| == 8 && Stage.Fits(found.value)
    ensures var q := ItemReply(found);
      RequestPlain(q).Ok? && Says(RequestType(q), RequestPlain(q).value, Fetched(found))
  {
    if found.Some? {
      ItemReads(found.value);
    } else {
      RingListReads([]);
      assert List([]) == [];
    }
  }

  /** Stage pull, end to end, for a ring of any depth.  The phone lists a ring that holds the last of
      the clips accepted so far; `more` clips are accepted; the phone asks for entry `i` of the list it
      was shown.  It gets that very clip exactly while fewer than `depth` clips are newer, and an empty
      list after. */
  lemma StagePull(l: Link, before: seq<StagedClip>, more: seq<StagedClip>, depth: u64, m1: Moment, m2: Moment,
                  now1: u64, now2: u64, i: nat)
    requires Ready(l) && Room(l, 2) && m1.writes > 0 && m2.writes > 0
    requires m1.ring == LastN(before, depth) && m2.ring == LastN(before + more, depth)
    requires DistinctIds(before + more) && RingOk(before + more)
    requires forall k :: 0 <= k < |before + more| ==> Stage.Fits((before + more)[k])
    requires i < |m1.ring|
    ensures var shown := List(m1.ring); var l' := AfterAll(l, AskList, m1, now1);
      Answer(l, AskList, m1, now1) == [Emit(StageListed(shown))] &&
      shown[i] == MetaOf(before[|before| - 1 - i]) &&
      Answer(l', AskItem(shown[i].stageId), m2, now2) ==
        [Emit(if i + |more| < depth then StageFetched(WholeItem(before[|before| - 1 - i])) else StageListed([]))]
  {
    var all := before + more;
    assert forall k :: 0 <= k < |before| ==> before[k] == all[k];
    RingsAreRings(all, before, depth);
    PullsList(l, m1, now1, 1);
    ListedClip(before, depth, i);
    FetchWindow(before, more, depth, i);
    var id := List(m1.ring)[i].stageId;
    PullsItem(AfterAll(l, AskList, m1, now1), id, m2, now2, 0);
  }

  lemma RingsAreRings(all: seq<StagedClip>, before: seq<StagedClip>, depth: u64)
    requires RingOk(all) && (forall k :: 0 <= k < |all| ==> Stage.Fits(all[k])) && before <= all
    ensures SomeRing(LastN(all, depth)) && SomeRing(LastN(before, depth))
  {
  }

  // ------------------------------------------------------------------
  // The client's view
  // ------------------------------------------------------------------

  /** If the answer is one decisive event, the client's operation ends with what it decides. */
  lemma Settles<T>(l: Link, q: Sessions.Request, m: Moment, now: u64, verdict: C.Verdict<T>, e: Event)
    requires Ask(l.phone, q).1.Ok? && Answer(l, q, m, now) == [Emit(e)] && verdict(Emit(e)).Some?
    requires RequestPlain(q).Ok? && FitsFrame(RequestPlain(q).value)
    ensures AfterReply(l, q, m).down != []
    ensures C.AskAndWait(l.phone, q, [C.Arrived(AfterReply(l, q, m).down[0], now)], verdict).result ==
      verdict(Emit(e)).value
  {
    var l2 := AfterReply(l, q, m);
    assert l2.phone == Ask(l.phone, q).0;
  }

  lemma AskSeals(s: State, q: Sessions.Request)
    requires s.channel.Some? && s.channel.value.tx.ctr < U64_MAX && RequestPlain(q).Ok?
    ensures Ask(s, q).1.Ok?
  {
  }

  /** On a ready link `beam` succeeds with the clip's id exactly when the CLIP_PUSH fits a frame;
      otherwise the encoder refuses it. */
  lemma BeamSucceeds(l: Link, clip: Clip, m: Moment, now: u64)
    requires Ready(l) && Room(l, 1) && Beamable(l, clip, m)
    ensures var down := AfterReply(l, PushClip(clip), m).down;
      down != [] && C.AskAndWait(l.phone, PushClip(clip), [C.Arrived(down[0], now)], C.ForAck(clip.id)).result ==
        if FitsFrame(WriteClip(clip).value) then C.Success(clip.id) else C.Unsent
  {
    Beams(l, clip, m, now, 0);
    AskSeals(l.phone, PushClip(clip));
    if FitsFrame(WriteClip(clip).value) {
      Settles(l, PushClip(clip), m, now, C.ForAck(clip.id), ClipAcked(clip.id, 0));
    }
  }

  /** On a ready link `stage_item` returns the staged clip, or reports that it is gone, and which of
      the two depends only on the ring. */
  lemma FetchSucceeds(l: Link, id: seq<byte>, m: Moment, now: u64)
    requires Ready(l) && Room(l, 1) && SomeRing(m.ring) && m.writes > 0 && |id| == 8
    ensures var down := AfterReply(l, AskItem(id), m).down; var found := Find(m.ring, id);
      down != [] && C.AskAndWait(l.phone, AskItem(id), [C.Arrived(down[0], now)], C.ForItem(id)).result ==
        if found.Some? then C.Success(WholeItem(found.value)) else C.NotStaged
  {
    PullsItem(l, id, m, now, 0);
    GetReads(id);
    GetFits(id);
    AskSeals(l.phone, AskItem(id));
    ItemDecides(id, Find(m.ring, id));
    Settles(l, AskItem(id), m, now, C.ForItem(id), Fetched(Find(m.ring, id)));
  }

  lemma ItemDecides(id: seq<byte>, found: Option<StagedClip>)
    requires found.Some? ==> found.value.stageId == id
    ensures C.ForItem(id)(Emit(Fetched(found))) ==
      Some(if found.Some? then C.Success(WholeItem(found.value)) else C.NotStaged)
  {
  }
}
