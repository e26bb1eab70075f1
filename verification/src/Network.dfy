/** Every honest session and pairing at once, over a network the attacker owns.

    Frames that honest machines send go to the attacker, who may deliver to any machine, at any time
    and any number of times, any frame he can put together: he may drop, delay, reorder, duplicate,
    redirect and alter frames, change their type and counter prefix, use his own keys, and use every
    MAC and every box he has seen.  What he cannot do is make a MAC or a box under a key he lacks. */
module Network {
  import opened Bytes
  import opened Common
  import opened Frames
  import opened Crypto
  import opened Cbor
  import opened Sessions
  import opened Pairing

  /** Identity scalars of honest devices, scalars the attacker has, and the SAS hash. */
  datatype Env = Env(honest: set<Secret>, compromised: set<Secret>, digest: SasDigest)

  /** One successful opening: the counter, the frame type and the plaintext. */
  datatype Opening = Opening(ctr: u64, ty: FrameType, plain: seq<byte>)

  /** A session and its history: the peer's ephemeral it accepted and when, everything it sealed and
      opened, every event it emitted.  `startedAt` is the timestamp of a phone's HELLO. */
  datatype SessionRun = SessionRun(
    s: State, startedAt: u64, heard: Option<Blob>, heardAt: u64,
    sealed: seq<(FrameType, seq<byte>)>, opens: seq<Opening>, events: seq<Event>)

  /** A pairing machine and every action it ever returned.  The phone's client calls `confirm_sas` on
      its own and holds the PAIR_CONFIRM back; `released` says that the user has let it go. */
  datatype PcRun = PcRun(p: PcState, acts: seq<PairAction>)
  datatype PhoneRun = PhoneRun(p: PhoneState, acts: seq<PairAction>, held: Option<SFrame>, released: bool)

  datatype World = World(
    sessions: seq<SessionRun>, pcs: seq<PcRun>, phones: seq<PhoneRun>, sent: set<SFrame>, used: set<Secret>)

  function Init(env: Env): World {
    World([], [], [], {}, env.honest + env.compromised)
  }

  datatype Input =
    | OpenPhone(identity: Secret, peer: PeerKey, now: u64, eph: Secret)
    | OpenPc(identity: Secret, knownPeers: seq<PeerKey>, now: u64)
    | Deliver(i: nat, f: SFrame, now: u64, newEph: Option<Secret>)
    | Requested(i: nat, q: Sessions.Request)
    | Pause(i: nat, paused: bool)
    | Offer(identity: Secret, token: Blob, now: u64)
    | Scanned(identity: Secret, name: string, qr: Scan, eph: Secret)
    | DeliverToPc(i: nat, f: SFrame, now: u64, newEph: Option<Secret>)
    | DeliverToPhone(i: nat, f: SFrame)
    | Confirm(i: nat, now: u64)   // the client calls `confirm_sas`
    | Release(i: nat)             // the user says the emoji match
    | Reject(i: nat)              // the user says they differ

  // ------------------------------------------------------------------
  // What the attacker can do
  // ------------------------------------------------------------------

  predicate KnownShared(env: Env, k: Shared) {
    match k
    case Dh(lo, hi) => lo in env.compromised || hi in env.compromised
    case Weak => true
    case Odd(_, _) => true   // the attacker chose the point; assume the worst
  }

  predicate KnownKey(env: Env, k: SessionKey) {
    KnownShared(env, k.ssEe) && KnownShared(env, k.ssSi) && KnownShared(env, k.ssStatic)
  }

  /** `b` occurs in `v` as a byte string anybody can read off. */
  predicate HasLeaf(v: Value<Blob>, b: Blob) {
    match v
    case Int(_) => false
    case Text(_) => false
    case Bytes(x) => x == b
    case Array(items) => exists i :: 0 <= i < |items| && HasLeaf(items[i], b)
    case Map(es) => exists i :: 0 <= i < |es| && (HasLeaf(es[i].key, b) || HasLeaf(es[i].val, b))
  }

  predicate Shows(f: SFrame, b: Blob) {
    f.payload.Clear? && HasLeaf(f.payload.v, b)
  }

  predicate Carries(f: SFrame, box: Box) {
    f.payload.Coded? && f.payload.c.Sealed? && f.payload.c.box == box
  }

  /** A frame the attacker can produce: each MAC in it is under a key he has or was shown in some
      frame, and so for boxes.  Everything else in it is free. */
  ghost predicate Deliverable(env: Env, w: World, f: SFrame) {
    (forall k, m :: Shows(f, Mac(k, m)) ==> KnownShared(env, k) || exists g :: g in w.sent && Shows(g, Mac(k, m))) &&
    (forall box :: Carries(f, box) ==> KnownKey(env, box.key) || exists g :: g in w.sent && Carries(g, box))
  }

  /** A paired peer's id is the hash of its key: what pairing guarantees of every record. */
  predicate WfPeer(p: PeerKey) { p.deviceId == DeviceId(p.publicKey) }

  /** Fixed-width ids, as their Rust types have it. */
  predicate WfRequest(q: Sessions.Request) {
    match q
    case PushClip(c) => |c.id| == 8 && ContentOfCode(c.kind).Some?
    case AskItem(id) => |id| == 8
    case SendList(ms) => forall i :: 0 <= i < |ms| ==> |ms[i].stageId| == 8
    case SendItem(i) => |i.id| == 8
    case _ => true
  }

  ghost predicate Enabled(env: Env, w: World, a: Input) {
    match a
    case OpenPhone(identity, peer, _, eph) => identity in env.honest && WfPeer(peer) && eph !in w.used
    case OpenPc(identity, peers, _) =>
      identity in env.honest && forall i :: 0 <= i < |peers| ==> WfPeer(peers[i])
    case Deliver(i, f, _, e) =>
      i < |w.sessions| && Deliverable(env, w, f) && (e.Some? ==> e.value !in w.used)
    case Requested(i, q) => i < |w.sessions| && WfRequest(q)
    case Pause(i, _) => i < |w.sessions|
    case Offer(identity, token, _) => identity in env.honest && Width(token) == 16
    case Scanned(identity, _, qr, eph) => identity in env.honest && Width(qr.token) == 16 && eph !in w.used
    case DeliverToPc(i, f, _, e) =>
      i < |w.pcs| && Deliverable(env, w, f) && (e.Some? ==> e.value !in w.used)
    case DeliverToPhone(i, f) => i < |w.phones| && Deliverable(env, w, f)
    case Confirm(i, _) => i < |w.phones|
    case Release(i) => i < |w.phones|
    case Reject(i) => i < |w.phones|
  }

  // ------------------------------------------------------------------
  // What happens then
  // ------------------------------------------------------------------

  function Sends(acts: seq<Action>): seq<SFrame> {
    if acts == [] then [] else
    (if acts[0].Send? then [acts[0].frame] else []) + Sends(acts[1..])
  }

  function Emits(acts: seq<Action>): seq<Event> {
    if acts == [] then [] else
    (if acts[0].Emit? then [acts[0].event] else []) + Emits(acts[1..])
  }

  /** What the sealed frames among `fs` contain. */
  function Sealings(fs: seq<SFrame>): seq<(FrameType, seq<byte>)> {
    if fs == [] then [] else
    (if fs[0].payload.Coded? && fs[0].payload.c.Sealed?
     then [(fs[0].payload.c.box.aad, fs[0].payload.c.box.plain)] else []) + Sealings(fs[1..])
  }

  function PairSends(acts: seq<PairAction>): seq<SFrame> {
    if acts == [] then [] else
    (if acts[0].SendPair? then [acts[0].frame] else []) + PairSends(acts[1..])
  }

  function ToSet(fs: seq<SFrame>): set<SFrame> { set f | f in fs }

  /** What, if anything, `OnFrame` opens. */
  function OpenedBy(s: State, f: SFrame): seq<Opening> {
    if s.phase != Phase.Open || !IsEncrypted(f.ty) || s.channel.None? then [] else
    var c := AsCipher(f.payload);
    var r := Crypto.Open(s.channel.value, f.ty, c).1;
    if r.Ok? then [Opening(c.ctr, f.ty, r.value)] else []
  }

  /** The peer ephemeral a session takes from a frame that completes its handshake. */
  function HeardIn(s: State, f: SFrame): Option<Blob> {
    if s.role == Pc then
      var m := ReadHello(f.payload);
      if m.Good? then Some(m.value.ephI) else None
    else
      var m := ReadHelloAck(f.payload);
      if m.Good? then Some(m.value.ephR) else None
  }

  function AfterFrame(r: SessionRun, f: SFrame, now: u64, newEph: Option<Secret>): SessionRun {
    var st := OnFrame(r.s, f, now, newEph);
    var joined := r.s.channel.None? && st.s.channel.Some?;
    SessionRun(st.s, r.startedAt, if joined then HeardIn(r.s, f) else r.heard, if joined then now else r.heardAt,
               r.sealed + Sealings(Sends(st.acts)), r.opens + OpenedBy(r.s, f), r.events + Emits(st.acts))
  }

  function AfterRequest(r: SessionRun, q: Sessions.Request): SessionRun {
    var (s, f) := Ask(r.s, q);
    r.(s := s, sealed := r.sealed + (if f.Ok? then Sealings([f.value]) else []))
  }

  function Used(used: set<Secret>, e: Option<Secret>): set<Secret> {
    if e.Some? then used + {e.value} else used
  }

  function WithPhone(w: World, identity: Secret, peer: PeerKey, now: u64, eph: Secret): World {
    var (s, f) := StartPhone(identity, peer, now, eph);
    w.(sessions := w.sessions + [SessionRun(s, now, None, 0, [], [], [])], sent := w.sent + {f},
       used := w.used + {eph})
  }

  function WithPc(w: World, identity: Secret, peers: seq<PeerKey>, now: u64): World {
    w.(sessions := w.sessions + [SessionRun(NewPc(identity, peers, now), 0, None, 0, [], [], [])])
  }

  function Delivered(w: World, i: nat, f: SFrame, now: u64, e: Option<Secret>): World
    requires i < |w.sessions|
  {
    w.(sessions := w.sessions[i := AfterFrame(w.sessions[i], f, now, e)],
       sent := w.sent + ToSet(Sends(OnFrame(w.sessions[i].s, f, now, e).acts)), used := Used(w.used, e))
  }

  function Asked(w: World, i: nat, q: Sessions.Request): World
    requires i < |w.sessions|
  {
    var f := Ask(w.sessions[i].s, q).1;
    w.(sessions := w.sessions[i := AfterRequest(w.sessions[i], q)],
       sent := w.sent + (if f.Ok? then {f.value} else {}))
  }

  function Paused(w: World, i: nat, b: bool): World
    requires i < |w.sessions|
  {
    w.(sessions := w.sessions[i := w.sessions[i].(s := w.sessions[i].s.(paused := b))])
  }

  function WithOffer(w: World, identity: Secret, token: Blob, now: u64): World {
    w.(pcs := w.pcs + [PcRun(NewPcPairing(identity, token, now), [])])
  }

  function WithScan(w: World, identity: Secret, name: string, qr: Scan, eph: Secret): World {
    var (p, f) := StartPairing(identity, name, qr, eph);
    w.(phones := w.phones + [PhoneRun(p, [], None, false)], sent := w.sent + {f}, used := w.used + {eph})
  }

  function DeliveredToPc(env: Env, w: World, i: nat, f: SFrame, now: u64, e: Option<Secret>): World
    requires i < |w.pcs|
  {
    var st := PcOnFrame(w.pcs[i].p, f, now, e, env.digest);
    w.(pcs := w.pcs[i := PcRun(st.s, w.pcs[i].acts + st.acts)], sent := w.sent + ToSet(PairSends(st.acts)),
       used := Used(w.used, e))
  }

  function Apply(env: Env, w: World, a: Input): World
    requires Enabled(env, w, a)
  {
    match a
    case OpenPhone(identity, peer, now, eph) => WithPhone(w, identity, peer, now, eph)
    case OpenPc(identity, peers, now) => WithPc(w, identity, peers, now)
    case Deliver(i, f, now, e) => Delivered(w, i, f, now, e)
    case Requested(i, q) => Asked(w, i, q)
    case Pause(i, b) => Paused(w, i, b)
    case Offer(identity, token, now) => WithOffer(w, identity, token, now)
    case Scanned(identity, name, qr, eph) => WithScan(w, identity, name, qr, eph)
    case DeliverToPc(i, f, now, e) => DeliveredToPc(env, w, i, f, now, e)
    case DeliverToPhone(i, f) => AfterPhone(w, i, PhoneOnFrame(w.phones[i].p, f, env.digest))
    case Confirm(i, now) => AfterPhone(w, i, ConfirmSas(w.phones[i].p, now))
    case Release(i) => Released(w, i)
    case Reject(i) => Rejected(w, i)
  }

  /** What the client holds after these actions: the last frame among them, or what it held before. */
  function HeldAfter(held: Option<SFrame>, acts: seq<PairAction>): Option<SFrame> {
    var fs := PairSends(acts);
    if fs == [] then held else Some(fs[|fs| - 1])
  }

  function PhoneAfter(r: PhoneRun, st: PhoneStep): PhoneRun {
    PhoneRun(st.s, r.acts + st.acts, HeldAfter(r.held, st.acts), r.released)
  }

  function AfterPhone(w: World, i: nat, st: PhoneStep): World
    requires i < |w.phones|
  {
    w.(phones := w.phones[i := PhoneAfter(w.phones[i], st)])
  }

  /** `PendingPairing::confirm`: sends the frame held back, if there is one. */
  function Released(w: World, i: nat): World
    requires i < |w.phones|
  {
    var r := w.phones[i];
    if r.held.None? then w
    else w.(phones := w.phones[i := r.(held := None, released := true)], sent := w.sent + {r.held.value})
  }

  /** The frame held back is dropped. */
  function Rejected(w: World, i: nat): World
    requires i < |w.phones|
  {
    var r := w.phones[i];
    w.(phones := w.phones[i := PhoneAfter(r, RejectSas(r.p)).(held := None)])
  }

  // ------------------------------------------------------------------
  // Runs
  // ------------------------------------------------------------------

  /** The honest devices keep their keys. */
  ghost predicate Sound(env: Env) { env.honest !! env.compromised }

  /** Input `k` leads from world `k` to the next. */
  ghost predicate Stepped(env: Env, trace: seq<Input>, worlds: seq<World>, k: nat)
    requires k < |trace| && |worlds| == |trace| + 1
  {
    Enabled(env, worlds[k], trace[k]) && worlds[k + 1] == Apply(env, worlds[k], trace[k])
  }

  /** A run: its inputs and the worlds it goes through. */
  ghost predicate Run(env: Env, trace: seq<Input>, worlds: seq<World>) {
    |worlds| == |trace| + 1 && worlds[0] == Init(env) &&
    forall k :: 0 <= k < |trace| ==> Stepped(env, trace, worlds, k)
  }

  ghost predicate Reachable(env: Env, w: World) {
    Sound(env) && exists trace, worlds :: Run(env, trace, worlds) && worlds[|trace|] == w
  }
}
