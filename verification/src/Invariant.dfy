/** What holds in every reachable world, and why every step keeps it. */
module Invariant {
  import opened Bytes
  import opened Common
  import opened Frames
  import opened Crypto
  import opened Cbor
  import opened Messages
  import opened Sessions
  import opened Pairing
  import opened Sas
  import opened Network
  import opened Effects

  // ------------------------------------------------------------------
  // Who made a MAC or a box
  // ------------------------------------------------------------------

  /** A phone session sent a HELLO with these fields under this key. */
  predicate HelloBy(r: SessionRun, k: Shared, id: Blob, e: Blob, ts: u64) {
    r.s.role == Phone && r.s.peer.Some? && r.s.eph.Some? && id == DeviceId(Pub(r.s.identity)) &&
    k == Diffie(r.s.identity, r.s.peer.value.publicKey) && e == Pub(r.s.eph.value) && ts == r.startedAt
  }

  /** A PC session accepted a HELLO with ephemeral `ephI` and answered with `ephR` under this key. */
  predicate AckBy(r: SessionRun, k: Shared, ephR: Blob, ephI: Blob) {
    r.s.role == Pc && r.s.channel.Some? && r.s.peer.Some? && r.s.eph.Some? && ephR == Pub(r.s.eph.value) &&
    r.heard == Some(ephI) && k == Diffie(r.s.identity, r.s.peer.value.publicKey)
  }

  predicate Completes(acts: seq<PairAction>) {
    exists i :: 0 <= i < |acts| && acts[i].Completed?
  }

  /** A phone pairing confirmed this SAS input under this key, and its user let the frame go. */
  predicate ConfirmBy(r: PhoneRun, k: Shared, m: MacInput) {
    r.released && Completes(r.acts) && r.p.sasInput == Some(m) && k == Diffie(r.p.identity, r.p.qr.publicKey)
  }

  ghost predicate Issued(w: World, k: Shared, m: MacInput) {
    match m
    case HelloBasis(id, e, ts) => exists i :: 0 <= i < |w.sessions| && HelloBy(w.sessions[i], k, id, e, ts)
    case AckBasis(r, e) => exists i :: 0 <= i < |w.sessions| && AckBy(w.sessions[i], k, r, e)
    case SasBasis(_, _, _, _) => exists i :: 0 <= i < |w.phones| && ConfirmBy(w.phones[i], k, m)
  }

  predicate SealedBy(r: SessionRun, box: Box) {
    r.s.channel.Some? && r.s.channel.value.tx.key == box.key && box.ctr < |r.sealed| &&
    r.sealed[box.ctr] == (box.aad, box.plain)
  }

  ghost predicate Boxed(w: World, box: Box) {
    exists i :: 0 <= i < |w.sessions| && SealedBy(w.sessions[i], box)
  }

  /** Every MAC and box in a frame is either the attacker's or some honest machine's. */
  ghost predicate FrameOk(env: Env, w: World, f: SFrame) {
    (forall k, m :: Shows(f, Mac(k, m)) ==> KnownShared(env, k) || Issued(w, k, m)) &&
    (forall box :: Carries(f, box) ==> KnownKey(env, box.key) || Boxed(w, box))
  }

  // ------------------------------------------------------------------
  // One session
  // ------------------------------------------------------------------

  function Static(r: SessionRun): Shared
    requires r.s.peer.Some?
  {
    Diffie(r.s.identity, r.s.peer.value.publicKey)
  }

  /** The keys a joined session must have, from the two ephemerals and the identities. */
  function KeysOf(r: SessionRun): SessionKeys
    requires r.s.peer.Some? && r.s.eph.Some? && r.heard.Some?
  {
    if r.s.role == Phone then PhoneKeys(r.s.identity, r.s.peer.value, r.s.eph.value, r.heard.value)
    else PcKeys(r.s.identity, r.s.peer.value, r.s.peer.value.deviceId, r.heard.value, r.s.eph.value)
  }

  predicate Joined(r: SessionRun) {
    r.s.channel.Some? && r.s.peer.Some? && r.s.eph.Some? && r.heard.Some?
  }

  predicate KeysOk(r: SessionRun)
    requires Joined(r)
  {
    var ch, keys := r.s.channel.value, KeysOf(r);
    ch.tx.key == (if r.s.role == Phone then keys.p2c else keys.c2p) &&
    ch.rx.key == (if r.s.role == Phone then keys.c2p else keys.p2c)
  }

  /** The opened counters strictly increase and end at the receive counter. */
  predicate OpensOk(rx: Direction, os: seq<Opening>) {
    (rx.seenAny <==> os != []) &&
    (os != [] ==> os[|os| - 1].ctr == rx.ctr) &&
    (forall i, j :: 0 <= i < j < |os| ==> os[i].ctr < os[j].ctr)
  }

  predicate Books(r: SessionRun) {
    if r.s.channel.None? then r.sealed == [] && r.opens == [] && r.heard.None?
    else |r.sealed| == r.s.channel.value.tx.ctr && OpensOk(r.s.channel.value.rx, r.opens)
  }

  predicate Wf(env: Env, r: SessionRun) {
    r.s.identity in env.honest && StateOk(r.s) &&
    (r.s.role == Phone ==> WfPeer(r.s.peer.value)) &&
    (forall i :: 0 <= i < |r.s.knownPeers| ==> WfPeer(r.s.knownPeers[i])) &&
    (r.s.channel.Some? ==> Joined(r) && WfPeer(r.s.peer.value) && KeysOk(r))
  }

  predicate ArrivedIn(e: Event, os: seq<Opening>) {
    exists k :: 0 <= k < |os| && os[k].ty == ClipPush && ArrivedFrom(e, os[k].plain)
  }

  predicate AckedIn(e: Event, os: seq<Opening>) {
    exists k :: 0 <= k < |os| && os[k].ty == ClipAck && AckedFrom(e, os[k].plain)
  }

  predicate AcksArrival(plain: seq<byte>, e: Event) {
    e.ClipArrived? && |e.clipId| == 8 && WriteAck(e.clipId) == Ok(plain)
  }

  predicate AckedSomething(plain: seq<byte>, evs: seq<Event>) {
    exists j :: 0 <= j < |evs| && AcksArrival(plain, evs[j])
  }

  ghost predicate IsClip(plain: seq<byte>) {
    exists c: Clip :: |c.id| == 8 && WriteClip(c) == Ok(plain)
  }

  /** Events come from openings, acknowledgements from arrivals, pushed clips from requests. */
  ghost predicate History(r: SessionRun) {
    (forall i :: 0 <= i < |r.events| ==>
      (r.events[i].ClipArrived? ==> ArrivedIn(r.events[i], r.opens)) &&
      (r.events[i].ClipAcked? ==> AckedIn(r.events[i], r.opens))) &&
    (forall c :: 0 <= c < |r.sealed| ==>
      (r.sealed[c].0 == ClipAck ==> AckedSomething(r.sealed[c].1, r.events)) &&
      (r.sealed[c].0 == ClipPush ==> IsClip(r.sealed[c].1)))
  }

  /** A joined session has an honest counterpart for its handshake, and everything it opened was
      sealed by an honest session, unless the attacker has the keys. */
  ghost predicate Linked(env: Env, w: World, r: SessionRun) {
    Joined(r) && !KnownShared(env, Static(r)) ==>
      (if r.s.role == Phone then Issued(w, Static(r), AckBasis(r.heard.value, Pub(r.s.eph.value)))
       else HelloHeard(w, r)) &&
      forall k :: 0 <= k < |r.opens| ==> Boxed(w, BoxOf(r, k))
  }

  function BoxOf(r: SessionRun, k: nat): Box
    requires r.s.channel.Some? && k < |r.opens|
  {
    Box(r.s.channel.value.rx.key, r.opens[k].ctr, r.opens[k].ty, r.opens[k].plain)
  }

  /** The HELLO a PC accepted came from a phone session, and was recent. */
  ghost predicate HelloHeard(w: World, r: SessionRun)
    requires Joined(r)
  {
    exists j :: 0 <= j < |w.sessions| && HelloHeardFrom(w.sessions[j], r)
  }

  predicate HelloHeardFrom(p: SessionRun, r: SessionRun)
    requires Joined(r)
  {
    HelloBy(p, Static(r), r.s.peer.value.deviceId, r.heard.value, p.startedAt) &&
    AbsDiff(p.startedAt, r.heardAt) <= HELLO_TS_WINDOW_MS
  }

  // ------------------------------------------------------------------
  // Pairings
  // ------------------------------------------------------------------

  predicate Showed(acts: seq<PairAction>, e: Emoji4) { ShowSas(e) in acts }

  predicate PhoneOk(env: Env, r: PhoneRun) {
    r.p.identity in env.honest &&
    (r.p.sasInput.Some? ==>
      r.p.sasInput.value.SasBasis? && r.p.sasInput.value.pkPhone == Pub(r.p.identity) &&
      r.p.sasInput.value.pkPc == r.p.qr.publicKey && r.p.sasInput.value.token == r.p.qr.token &&
      Showed(r.acts, SasEmoji(env.digest(r.p.sasInput.value)))) &&
    (forall i :: 0 <= i < |r.acts| && r.acts[i].Completed? ==>
      r.p.sasInput.Some? && r.acts[i].record.deviceId == r.p.qr.deviceId &&
      r.acts[i].record.publicKey == r.p.qr.publicKey) &&
    (r.p.phase == AwaitingUser ==> r.p.sasInput.Some?) &&
    (r.p.phase == AwaitingAck ==> r.p.sasInput.None?) &&
    (r.held.Some? ==> Completes(r.acts) && r.p.sasInput.Some? && r.held.value == ConfirmFrame(r.p))
  }

  /** The PAIR_CONFIRM for the SAS input a phone has. */
  function ConfirmFrame(p: PhoneState): SFrame
    requires p.sasInput.Some?
  {
    Frame(PairConfirm, Clear(Map(OneField(Mac(Diffie(p.identity, p.qr.publicKey), p.sasInput.value)))))
  }

  ghost predicate PcOk(env: Env, w: World, r: PcRun) {
    r.p.identity in env.honest &&
    (r.p.sasInput.Some? ==>
      r.p.peer.Some? && r.p.peer.value.deviceId == DeviceId(r.p.peer.value.pk) &&
      r.p.sasInput.value.SasBasis? && r.p.sasInput.value.pkPhone == r.p.peer.value.pk &&
      r.p.sasInput.value.pkPc == Pub(r.p.identity) && r.p.sasInput.value.token == r.p.token &&
      Showed(r.acts, SasEmoji(env.digest(r.p.sasInput.value)))) &&
    (r.p.phase == AwaitingReq ==> r.p.sasInput.None?) &&
    (r.p.phase == AwaitingConfirm ==> r.p.sasInput.Some?) &&
    (forall i :: 0 <= i < |r.acts| && r.acts[i].Completed? ==>
      r.p.sasInput.Some? && r.acts[i].record.deviceId == r.p.peer.value.deviceId &&
      r.acts[i].record.publicKey == r.p.peer.value.pk &&
      (KnownShared(env, Diffie(r.p.identity, r.p.peer.value.pk)) ||
       Issued(w, Diffie(r.p.identity, r.p.peer.value.pk), r.p.sasInput.value)))
  }

  // ------------------------------------------------------------------
  // The world
  // ------------------------------------------------------------------

  predicate SessionOk(env: Env, r: SessionRun) { Wf(env, r) && Books(r) }

  /** Ephemerals are fresh: never an identity, never the attacker's, never shared by two sessions. */
  predicate EphsOk(env: Env, w: World) {
    env.honest <= w.used && env.compromised <= w.used &&
    (forall i :: 0 <= i < |w.sessions| && w.sessions[i].s.eph.Some? ==>
      w.sessions[i].s.eph.value in w.used &&
      w.sessions[i].s.eph.value !in env.honest && w.sessions[i].s.eph.value !in env.compromised) &&
    (forall i, j :: 0 <= i < j < |w.sessions| && w.sessions[i].s.eph.Some? && w.sessions[j].s.eph.Some? ==>
      w.sessions[i].s.eph.value != w.sessions[j].s.eph.value)
  }

  ghost predicate Inv(env: Env, w: World) {
    EphsOk(env, w) &&
    (forall i :: 0 <= i < |w.sessions| ==> SessionOk(env, w.sessions[i])) &&
    (forall i :: 0 <= i < |w.sessions| ==> History(w.sessions[i])) &&
    (forall i :: 0 <= i < |w.sessions| ==> Linked(env, w, w.sessions[i])) &&
    (forall i :: 0 <= i < |w.phones| ==> PhoneOk(env, w.phones[i])) &&
    (forall i :: 0 <= i < |w.pcs| ==> PcOk(env, w, w.pcs[i])) &&
    (forall f :: f in w.sent ==> FrameOk(env, w, f))
  }

  // ------------------------------------------------------------------
  // Worlds only grow
  // ------------------------------------------------------------------

  /** What a later state of a session keeps of an earlier one. */
  predicate RunLe(a: SessionRun, b: SessionRun) {
    b.s.role == a.s.role && b.s.identity == a.s.identity && b.startedAt == a.startedAt && a.sealed <= b.sealed &&
    (a.s.role == Phone ==> b.s.peer == a.s.peer && b.s.eph == a.s.eph) &&
    (a.s.channel.Some? ==>
      b.s.channel.Some? && b.s.peer == a.s.peer && b.s.eph == a.s.eph && b.heard == a.heard &&
      b.s.channel.value.tx.key == a.s.channel.value.tx.key)
  }

  predicate PhoneLe(a: PhoneRun, b: PhoneRun) {
    b.p.identity == a.p.identity && b.p.qr == a.p.qr &&
    (Completes(a.acts) ==> Completes(b.acts) && b.p.sasInput == a.p.sasInput) && (a.released ==> b.released)
  }

  ghost predicate Grows(v: World, w: World) {
    |v.sessions| <= |w.sessions| && |v.phones| <= |w.phones| &&
    (forall i :: 0 <= i < |v.sessions| ==> RunLe(v.sessions[i], w.sessions[i])) &&
    (forall i :: 0 <= i < |v.phones| ==> PhoneLe(v.phones[i], w.phones[i]))
  }

  lemma IssuedGrows(v: World, w: World, k: Shared, m: MacInput)
    requires Grows(v, w) && Issued(v, k, m)
    ensures Issued(w, k, m)
  {
    match m
    case HelloBasis(id, e, ts) =>
      var i :| 0 <= i < |v.sessions| && HelloBy(v.sessions[i], k, id, e, ts);
      assert RunLe(v.sessions[i], w.sessions[i]);
      assert HelloBy(w.sessions[i], k, id, e, ts);
    case AckBasis(r, e) =>
      var i :| 0 <= i < |v.sessions| && AckBy(v.sessions[i], k, r, e);
      assert RunLe(v.sessions[i], w.sessions[i]);
      assert AckBy(w.sessions[i], k, r, e);
    case SasBasis(_, _, _, _) =>
      var i :| 0 <= i < |v.phones| && ConfirmBy(v.phones[i], k, m);
      assert PhoneLe(v.phones[i], w.phones[i]);
      assert ConfirmBy(w.phones[i], k, m);
  }

  lemma BoxedGrows(v: World, w: World, box: Box)
    requires Grows(v, w) && Boxed(v, box)
    ensures Boxed(w, box)
  {
    var i :| 0 <= i < |v.sessions| && SealedBy(v.sessions[i], box);
    assert RunLe(v.sessions[i], w.sessions[i]);
    assert SealedBy(w.sessions[i], box);
  }

  lemma FrameOkGrows(env: Env, v: World, w: World, f: SFrame)
    requires Grows(v, w) && FrameOk(env, v, f)
    ensures FrameOk(env, w, f)
  {
    forall k, m | Shows(f, Mac(k, m)) && !KnownShared(env, k) ensures Issued(w, k, m) {
      IssuedGrows(v, w, k, m);
    }
    forall box | Carries(f, box) && !KnownKey(env, box.key) ensures Boxed(w, box) {
      BoxedGrows(v, w, box);
    }
  }

  lemma LinkedGrows(env: Env, v: World, w: World, r: SessionRun)
    requires Grows(v, w) && Linked(env, v, r)
    ensures Linked(env, w, r)
  {
    if Joined(r) && !KnownShared(env, Static(r)) {
      if r.s.role == Phone {
        IssuedGrows(v, w, Static(r), AckBasis(r.heard.value, Pub(r.s.eph.value)));
      } else {
        var j :| 0 <= j < |v.sessions| && HelloHeardFrom(v.sessions[j], r);
        assert RunLe(v.sessions[j], w.sessions[j]);
        assert HelloHeardFrom(w.sessions[j], r);
      }
      forall k | 0 <= k < |r.opens| ensures Boxed(w, BoxOf(r, k)) {
        BoxedGrows(v, w, BoxOf(r, k));
      }
    }
  }

  lemma PcOkGrows(env: Env, v: World, w: World, r: PcRun)
    requires Grows(v, w) && PcOk(env, v, r)
    ensures PcOk(env, w, r)
  {
    if r.p.sasInput.Some? {
      var k, m := Diffie(r.p.identity, r.p.peer.value.pk), r.p.sasInput.value;
      if Issued(v, k, m) { IssuedGrows(v, w, k, m); }
    }
  }

  /** What the attacker can deliver is accounted for like what was sent. */
  lemma DeliverableIsOk(env: Env, w: World, f: SFrame)
    requires Inv(env, w) && Deliverable(env, w, f)
    ensures FrameOk(env, w, f)
  {
    forall k, m | Shows(f, Mac(k, m)) && !KnownShared(env, k) ensures Issued(w, k, m) {
      var g :| g in w.sent && Shows(g, Mac(k, m));
      assert FrameOk(env, w, g);
    }
    forall box | Carries(f, box) && !KnownKey(env, box.key) ensures Boxed(w, box) {
      var g :| g in w.sent && Carries(g, box);
      assert FrameOk(env, w, g);
    }
  }
}
