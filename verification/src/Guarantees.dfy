/** What the protocol guarantees in every reachable world, whatever the attacker does. */
module Guarantees {
  import opened Bytes
  import opened Common
  import opened Frames
  import opened Crypto
  import opened Messages
  import opened Sessions
  import opened Sas
  import opened Network
  import opened Effects
  import opened Invariant
  import opened Preservation

  /** Session `i` has completed its handshake, and its paired peer is an honest device. */
  predicate Trusts(env: Env, w: World, i: nat, b: Secret) {
    i < |w.sessions| && Joined(w.sessions[i]) && b in env.honest &&
    w.sessions[i].s.peer.value.publicKey == Pub(b)
  }

  /** The two sessions are the two ends of one channel. */
  predicate Mirrors(p: SessionRun, q: SessionRun) {
    p.s.channel.Some? && q.s.channel.Some? && p.s.role != q.s.role &&
    p.s.channel.value.tx.key == q.s.channel.value.rx.key && p.s.channel.value.rx.key == q.s.channel.value.tx.key
  }

  // ------------------------------------------------------------------
  // Diffie-Hellman bookkeeping
  // ------------------------------------------------------------------

  lemma SamePair(a: Secret, b: Secret, c: Secret, d: Secret)
    requires Diffie(a, Pub(b)) == Diffie(c, Pub(d))
    ensures (a == c && b == d) || (a == d && b == c)
  {
  }

  lemma HonestStatic(env: Env, w: World, i: nat, b: Secret)
    requires Sound(env) && Inv(env, w) && Trusts(env, w, i, b)
    ensures !KnownShared(env, Static(w.sessions[i]))
  {
    assert SessionOk(env, w.sessions[i]);
  }

  /** A joined session heard a real ephemeral, of a session of the other role. */
  lemma HeardEphemeral(env: Env, w: World, i: nat) returns (j: nat)
    requires Inv(env, w) && i < |w.sessions| && Joined(w.sessions[i]) && !KnownShared(env, Static(w.sessions[i]))
    ensures j < |w.sessions| && w.sessions[j].s.eph.Some? && w.sessions[j].s.role != w.sessions[i].s.role
    ensures w.sessions[i].heard == Some(Pub(w.sessions[j].s.eph.value))
    ensures w.sessions[i].s.role == Phone ==>
      AckBy(w.sessions[j], Static(w.sessions[i]), w.sessions[i].heard.value, Pub(w.sessions[i].s.eph.value))
    ensures w.sessions[i].s.role == Pc ==> HelloHeardFrom(w.sessions[j], w.sessions[i])
  {
    var r := w.sessions[i];
    assert Linked(env, w, r);
    if r.s.role == Phone {
      j :| 0 <= j < |w.sessions| && AckBy(w.sessions[j], Static(r), r.heard.value, Pub(r.s.eph.value));
    } else {
      j :| 0 <= j < |w.sessions| && HelloHeardFrom(w.sessions[j], r);
    }
  }

  lemma EphOwner(env: Env, w: World, i: nat, j: nat)
    requires Inv(env, w) && i < |w.sessions| && j < |w.sessions|
    requires w.sessions[i].s.eph.Some? && w.sessions[i].s.eph == w.sessions[j].s.eph
    ensures i == j
  {
    assert EphsOk(env, w);
  }

  // ------------------------------------------------------------------
  // Agreement on the handshake
  // ------------------------------------------------------------------

  /** Whenever a phone session is established with an honest PC, a PC session with that identity
      accepted a HELLO carrying this session's exact ephemeral from this phone's identity, and the
      two hold each other's keys. */
  lemma HandshakeAgreement(env: Env, w: World, i: nat, b: Secret) returns (j: nat)
    requires Reachable(env, w) && Trusts(env, w, i, b) && w.sessions[i].s.role == Phone
    ensures j < |w.sessions|
    ensures var p, q := w.sessions[i], w.sessions[j];
      Joined(q) && q.s.role == Pc && q.s.identity == b && q.s.peer.value.publicKey == Pub(p.s.identity) &&
      q.heard == Some(Pub(p.s.eph.value)) && Mirrors(p, q)
    ensures forall k :: 0 <= k < |w.sessions| && Mirrors(w.sessions[i], w.sessions[k]) ==> k == j
  {
    ReachableInv(env, w);
    HonestStatic(env, w, i, b);
    j := HeardEphemeral(env, w, i);
    PhoneMirror(env, w, i, j, b);
    forall k | 0 <= k < |w.sessions| && Mirrors(w.sessions[i], w.sessions[k]) ensures k == j {
      assert SessionOk(env, w.sessions[k]) && SessionOk(env, w.sessions[j]);
      KeyHasOneOwner(env, w, k, j);
    }
  }

  lemma PhoneMirror(env: Env, w: World, i: nat, j: nat, b: Secret)
    requires Inv(env, w) && Trusts(env, w, i, b) && w.sessions[i].s.role == Phone && j < |w.sessions|
    requires !KnownShared(env, Static(w.sessions[i]))
    requires AckBy(w.sessions[j], Static(w.sessions[i]), w.sessions[i].heard.value, Pub(w.sessions[i].s.eph.value))
    ensures var p, q := w.sessions[i], w.sessions[j];
      Joined(q) && q.s.identity == b && q.s.peer.value.publicKey == Pub(p.s.identity) &&
      q.heard == Some(Pub(p.s.eph.value)) && Mirrors(p, q)
  {
    var p, q := w.sessions[i], w.sessions[j];
    assert SessionOk(env, p) && SessionOk(env, q);
    var k := HeardEphemeral(env, w, j);
    EphOwner(env, w, k, i);
    SamePair(q.s.identity, p.s.identity, p.s.identity, b);
    DiffieCommutes(p.s.eph.value, q.s.eph.value);
    DiffieCommutes(p.s.identity, q.s.eph.value);
    DiffieCommutes(p.s.identity, q.s.identity);
  }

  /** A PC session established with an honest phone heard a HELLO that phone really sent, at most
      120 seconds away by the two clocks. */
  lemma RecentHello(env: Env, w: World, i: nat, b: Secret) returns (j: nat)
    requires Reachable(env, w) && Trusts(env, w, i, b) && w.sessions[i].s.role == Pc
    ensures j < |w.sessions|
    ensures var q, p := w.sessions[i], w.sessions[j];
      p.s.role == Phone && p.s.identity == b && p.s.eph.Some? && p.s.peer.Some? &&
      q.heard == Some(Pub(p.s.eph.value)) &&
      p.s.peer.value.publicKey == Pub(q.s.identity) && AbsDiff(p.startedAt, q.heardAt) <= HELLO_TS_WINDOW_MS
  {
    ReachableInv(env, w);
    HonestStatic(env, w, i, b);
    j := HeardEphemeral(env, w, i);
    var q, p := w.sessions[i], w.sessions[j];
    assert SessionOk(env, p) && SessionOk(env, q);
    assert p.s.peer.value.publicKey.Pub?;
    SamePair(p.s.identity, p.s.peer.value.publicKey.secret, q.s.identity, b);
  }

  /** A HELLO replayed inside the window can make a second PC session accept it, but at most one of them
      ever hears anything: two PC sessions of one identity that heard the same ephemeral of the same
      honest phone and both opened something are one session. */
  lemma ReplayOpensNothing(env: Env, w: World, i: nat, j: nat, b: Secret)
    requires Reachable(env, w) && Trusts(env, w, i, b) && Trusts(env, w, j, b)
    requires w.sessions[i].s.role == Pc && w.sessions[j].s.role == Pc
    requires w.sessions[i].s.identity == w.sessions[j].s.identity && w.sessions[i].heard == w.sessions[j].heard
    requires w.sessions[i].opens != [] && w.sessions[j].opens != []
    ensures i == j
  {
    ReachableInv(env, w);
    var k := DeliveredInOrder(env, w, i, b);
    var l := DeliveredInOrder(env, w, j, b);
    SealerHeard(env, w, i, k, b);
    SealerHeard(env, w, j, l, b);
    EphOwner(env, w, k, l);
    var m := HandshakeAgreement(env, w, k, w.sessions[i].s.identity);
    assert Mirrors(w.sessions[k], w.sessions[i]) && Mirrors(w.sessions[k], w.sessions[j]);
  }

  /** The phone session behind a PC session is the one whose ephemeral that heard, and it is paired with
      this PC. */
  lemma SealerHeard(env: Env, w: World, i: nat, k: nat, b: Secret)
    requires Sound(env) && Inv(env, w) && Trusts(env, w, i, b) && w.sessions[i].s.role == Pc
    requires k < |w.sessions| && Joined(w.sessions[k]) && w.sessions[k].s.identity == b
    requires Mirrors(w.sessions[i], w.sessions[k])
    ensures w.sessions[i].heard == Some(Pub(w.sessions[k].s.eph.value))
    ensures Trusts(env, w, k, w.sessions[i].s.identity)
  {
    var q, p := w.sessions[i], w.sessions[k];
    assert SessionOk(env, q) && SessionOk(env, p);
    HonestStatic(env, w, i, b);
    var m := HeardEphemeral(env, w, i);
    SamePair(q.s.eph.value, w.sessions[m].s.eph.value, p.s.eph.value, p.heard.value.secret);
    SamePair(q.s.identity, b, b, p.s.peer.value.publicKey.secret);
    if q.s.eph == p.s.eph {
      EphOwner(env, w, i, k);
      assert false;
    }
  }

  /** When two different sessions end up with the same transmit key: the same party with the same peer
      key, and contributions of low order, so that the ephemerals have no effect.  A PC needs a peer key
      of low order too, and there mirrored ephemerals do as well. */
  predicate Confusable(p: SessionRun, q: SessionRun)
    requires Joined(p) && Joined(q)
  {
    p.s.role == q.s.role && p.s.identity == q.s.identity && p.s.peer.value.publicKey == q.s.peer.value.publicKey &&
    var dead := LowOrder(p.heard.value) && LowOrder(q.heard.value);
    if p.s.role == Phone then dead
    else
      LowOrder(p.s.peer.value.publicKey) &&
      (dead || (p.heard.value == Pub(q.s.eph.value) && q.heard.value == Pub(p.s.eph.value)))
  }

  /** Whoever the peers are, two sessions transmit under one key exactly in those cases. */
  lemma KeysCoincide(env: Env, w: World, i: nat, j: nat)
    requires Reachable(env, w) && i < |w.sessions| && j < |w.sessions| && i != j
    requires Joined(w.sessions[i]) && Joined(w.sessions[j])
    ensures w.sessions[i].s.channel.value.tx.key == w.sessions[j].s.channel.value.tx.key <==>
      Confusable(w.sessions[i], w.sessions[j])
  {
    ReachableInv(env, w);
    var p, q := w.sessions[i], w.sessions[j];
    assert SessionOk(env, p) && SessionOk(env, q) && EphsOk(env, w);
    if p.s.role == Phone && q.s.role == Phone {
      PhoneKeysCoincide(p, q);
    } else if p.s.role == Pc && q.s.role == Pc {
      PcKeysCoincide(p, q);
    }
  }

  /** What is known of two sessions with different ephemerals. */
  predicate Apart(p: SessionRun, q: SessionRun) {
    Joined(p) && Joined(q) && p.s.role == q.s.role && KeysOk(p) && KeysOk(q) && p.s.eph != q.s.eph &&
    p.s.eph.value != p.s.identity && q.s.eph.value != q.s.identity &&
    WfPeer(p.s.peer.value) && WfPeer(q.s.peer.value)
  }

  lemma PhoneKeysCoincide(p: SessionRun, q: SessionRun)
    requires Apart(p, q) && p.s.role == Phone
    ensures p.s.channel.value.tx.key == q.s.channel.value.tx.key <==> Confusable(p, q)
  {
  }

  lemma PcKeysCoincide(p: SessionRun, q: SessionRun)
    requires Apart(p, q) && p.s.role == Pc
    ensures p.s.channel.value.tx.key == q.s.channel.value.tx.key <==> Confusable(p, q)
  {
  }

  /** With an honest peer, or any peer whose static secret the attacker lacks, keys never coincide. */
  lemma KeyHasOneOwner(env: Env, w: World, i: nat, j: nat)
    requires Inv(env, w) && i < |w.sessions| && j < |w.sessions|
    requires w.sessions[i].s.channel.Some? && w.sessions[j].s.channel.Some?
    requires w.sessions[i].s.channel.value.tx.key == w.sessions[j].s.channel.value.tx.key
    requires !KnownShared(env, w.sessions[i].s.channel.value.tx.key.ssStatic)
    ensures i == j
  {
    var p, q := w.sessions[i], w.sessions[j];
    assert SessionOk(env, p) && SessionOk(env, q);
    assert p.s.role == q.s.role && Static(p) == Static(q);
    var k := HeardEphemeral(env, w, i);
    var l := HeardEphemeral(env, w, j);
    SamePair(p.s.eph.value, w.sessions[k].s.eph.value, q.s.eph.value, w.sessions[l].s.eph.value);
    if p.s.eph == q.s.eph {
      EphOwner(env, w, i, j);
    } else {
      EphOwner(env, w, i, l);
    }
  }

  // ------------------------------------------------------------------
  // Delivery
  // ------------------------------------------------------------------

  /** `os` reads off entries of `log`, each under its frame type, at strictly increasing positions. */
  predicate InOrderPart(os: seq<Opening>, log: seq<(FrameType, seq<byte>)>) {
    (forall k :: 0 <= k < |os| ==> os[k].ctr < |log| && log[os[k].ctr] == (os[k].ty, os[k].plain)) &&
    (forall k, l :: 0 <= k < l < |os| ==> os[k].ctr < os[l].ctr)
  }

  /** Whatever the network does, the plaintexts a session accepts from an honest peer are an in-order,
      duplicate-free part of those one single session of that peer sealed for it, each under the frame
      type it was sealed for. */
  lemma DeliveredInOrder(env: Env, w: World, i: nat, b: Secret) returns (j: nat)
    requires Reachable(env, w) && Trusts(env, w, i, b) && w.sessions[i].opens != []
    ensures j < |w.sessions| && Joined(w.sessions[j]) && w.sessions[j].s.identity == b
    ensures Mirrors(w.sessions[i], w.sessions[j])
    ensures InOrderPart(w.sessions[i].opens, w.sessions[j].sealed)
  {
    ReachableInv(env, w);
    HonestStatic(env, w, i, b);
    var r := w.sessions[i];
    j := Sealer(env, w, i, 0);
    SealerMirrors(env, w, i, j, b);
    forall k | 0 <= k < |r.opens|
      ensures r.opens[k].ctr < |w.sessions[j].sealed|
      ensures w.sessions[j].sealed[r.opens[k].ctr] == (r.opens[k].ty, r.opens[k].plain)
    {
      SealedByThat(env, w, i, j, k);
    }
    assert SessionOk(env, r);
  }

  /** Whoever transmits under the key session `i` receives under sealed all that session `i` opened. */
  lemma SealedByThat(env: Env, w: World, i: nat, j: nat, k: nat)
    requires Inv(env, w) && i < |w.sessions| && Joined(w.sessions[i]) && !KnownShared(env, Static(w.sessions[i]))
    requires j < |w.sessions| && Mirrors(w.sessions[i], w.sessions[j]) && k < |w.sessions[i].opens|
    ensures SealedBy(w.sessions[j], BoxOf(w.sessions[i], k))
  {
    var l := Sealer(env, w, i, k);
    KeyHasOneOwner(env, w, l, j);
  }

  /** The session that sealed the k-th box session `i` opened. */
  lemma Sealer(env: Env, w: World, i: nat, k: nat) returns (j: nat)
    requires Inv(env, w) && i < |w.sessions| && Joined(w.sessions[i]) && k < |w.sessions[i].opens|
    requires !KnownShared(env, Static(w.sessions[i]))
    ensures j < |w.sessions| && SealedBy(w.sessions[j], BoxOf(w.sessions[i], k))
    ensures !KnownShared(env, w.sessions[j].s.channel.value.tx.key.ssStatic)
  {
    var r := w.sessions[i];
    assert Linked(env, w, r) && SessionOk(env, r);
    assert Boxed(w, BoxOf(r, k));
    j :| 0 <= j < |w.sessions| && SealedBy(w.sessions[j], BoxOf(r, k));
  }

  lemma SealerMirrors(env: Env, w: World, i: nat, j: nat, b: Secret)
    requires Inv(env, w) && Trusts(env, w, i, b) && j < |w.sessions| && w.sessions[j].s.channel.Some?
    requires w.sessions[j].s.channel.value.tx.key == w.sessions[i].s.channel.value.rx.key
    ensures Joined(w.sessions[j]) && w.sessions[j].s.identity == b && Mirrors(w.sessions[i], w.sessions[j])
  {
    assert SessionOk(env, w.sessions[i]) && SessionOk(env, w.sessions[j]);
  }

  // ------------------------------------------------------------------
  // Beaming
  // ------------------------------------------------------------------

  /** The id of the clip in a sealed CLIP_PUSH. */
  predicate PushesId(entry: (FrameType, seq<byte>), id: seq<byte>) {
    entry.0 == ClipPush && ReadClip(entry.1).Good? && ReadClip(entry.1).value.id == id
  }

  /** The clips a session pushed have pairwise distinct ids. */
  ghost predicate DistinctClips(r: SessionRun) {
    forall c, d, id ::
      0 <= c < |r.sealed| && 0 <= d < |r.sealed| && PushesId(r.sealed[c], id) && PushesId(r.sealed[d], id) ==> c == d
  }

  predicate Arrival(e: Event, clip: Clip) {
    e.ClipArrived? && e.clipId == clip.id && ContentOfCode(clip.kind) == Some(e.contentType) &&
    e.body == clip.body && e.sourceName == clip.sourceName && e.createdAt == clip.createdAt
  }

  /** If a session with distinct clip ids has pushed `clip` and later reports its acknowledgement, the
      peer's session has emitted the arrival of exactly that clip, and the reported status is 0. */
  lemma AcknowledgedMeansArrived(env: Env, w: World, i: nat, b: Secret, c: nat, clip: Clip, e: nat) returns (j: nat)
    requires Reachable(env, w) && Trusts(env, w, i, b) && DistinctClips(w.sessions[i])
    requires c < |w.sessions[i].sealed| && w.sessions[i].sealed[c].0 == ClipPush
    requires |clip.id| == 8 && WriteClip(clip) == Ok(w.sessions[i].sealed[c].1)
    requires e < |w.sessions[i].events| && w.sessions[i].events[e].ClipAcked?
    requires w.sessions[i].events[e].clipId == clip.id
    ensures j < |w.sessions| && w.sessions[j].s.identity == b && Mirrors(w.sessions[i], w.sessions[j])
    ensures w.sessions[i].events[e].status == 0
    ensures exists k :: 0 <= k < |w.sessions[j].events| && Arrival(w.sessions[j].events[k], clip)
  {
    ReachableInv(env, w);
    HonestStatic(env, w, i, b);
    var r := w.sessions[i];
    assert History(r) && SessionOk(env, r);
    var x :| 0 <= x < |r.opens| && r.opens[x].ty == ClipAck && AckedFrom(r.events[e], r.opens[x].plain);
    j := Sealer(env, w, i, x);
    SealerMirrors(env, w, i, j, b);
    var q := w.sessions[j];
    assert q.sealed[r.opens[x].ctr] == (ClipAck, r.opens[x].plain);
    var k, y := ArrivalBehind(env, w, j, r.opens[x].plain, r.events[e]);
    PushedBack(env, w, i, j, y);
    SamePush(r, q.opens[y], c, clip, q.events[k]);
  }

  /** Behind a sealed acknowledgement there is an arrival with that id, and an opened CLIP_PUSH. */
  lemma ArrivalBehind(env: Env, w: World, j: nat, plain: seq<byte>, acked: Event) returns (k: nat, y: nat)
    requires Inv(env, w) && j < |w.sessions| && (ClipAck, plain) in w.sessions[j].sealed && AckedFrom(acked, plain)
    ensures k < |w.sessions[j].events| && y < |w.sessions[j].opens| && w.sessions[j].opens[y].ty == ClipPush
    ensures ArrivedFrom(w.sessions[j].events[k], w.sessions[j].opens[y].plain)
    ensures acked.clipId == w.sessions[j].events[k].clipId && acked.status == 0
  {
    var q := w.sessions[j];
    assert History(q);
    var c :| 0 <= c < |q.sealed| && q.sealed[c] == (ClipAck, plain);
    k :| 0 <= k < |q.events| && AcksArrival(plain, q.events[k]);
    AckRoundTrip(q.events[k].clipId);
    y :| 0 <= y < |q.opens| && q.opens[y].ty == ClipPush && ArrivedFrom(q.events[k], q.opens[y].plain);
  }

  lemma SamePush(r: SessionRun, o: Opening, c: nat, clip: Clip, e: Event)
    requires DistinctClips(r) && c < |r.sealed| && r.sealed[c].0 == ClipPush
    requires |clip.id| == 8 && WriteClip(clip) == Ok(r.sealed[c].1)
    requires o.ctr < |r.sealed| && r.sealed[o.ctr] == (ClipPush, o.plain) && ArrivedFrom(e, o.plain)
    requires e.clipId == clip.id
    ensures Arrival(e, clip)
  {
    ClipRoundTrip(clip);
    assert PushesId(r.sealed[c], clip.id) && PushesId(r.sealed[o.ctr], clip.id);
  }

  /** What the other end of a channel opened, this end sealed. */
  lemma PushedBack(env: Env, w: World, i: nat, j: nat, y: nat)
    requires Inv(env, w) && i < |w.sessions| && j < |w.sessions| && Mirrors(w.sessions[i], w.sessions[j])
    requires Joined(w.sessions[i]) && !KnownShared(env, Static(w.sessions[i])) && y < |w.sessions[j].opens|
    ensures var o := w.sessions[j].opens[y];
      o.ctr < |w.sessions[i].sealed| && w.sessions[i].sealed[o.ctr] == (o.ty, o.plain)
  {
    assert SessionOk(env, w.sessions[i]) && SessionOk(env, w.sessions[j]);
    var l := Sealer(env, w, j, y);
    KeyHasOneOwner(env, w, l, i);
  }

  // ------------------------------------------------------------------
  // Pairing
  // ------------------------------------------------------------------

  /** If the PC completes a pairing with an honest phone's key, the user of that phone let the
      confirmation of the identical SAS input go, both screens showed the same four emoji, and each
      side's record names the other. */
  lemma PairingAgreement(env: Env, w: World, i: nat, a: Secret, x: nat) returns (j: nat, y: nat)
    requires Reachable(env, w) && i < |w.pcs| && x < |w.pcs[i].acts| && w.pcs[i].acts[x].Completed?
    requires a in env.honest && w.pcs[i].acts[x].record.publicKey == Pub(a)
    ensures j < |w.phones| && y < |w.phones[j].acts| && w.phones[j].acts[y].Completed?
    ensures var pc, phone := w.pcs[i], w.phones[j];
      phone.p.identity == a && phone.released && phone.p.sasInput.Some? && pc.p.sasInput == phone.p.sasInput &&
      phone.p.qr.token == pc.p.token &&
      exists e :: Showed(pc.acts, e) && Showed(phone.acts, e) && e == SasEmoji(env.digest(pc.p.sasInput.value))
    ensures w.pcs[i].acts[x].record.deviceId == DeviceId(Pub(a))
    ensures w.phones[j].acts[y].record.publicKey == Pub(w.pcs[i].p.identity)
    ensures w.phones[j].p.qr.deviceId == DeviceId(w.phones[j].p.qr.publicKey) ==>
      w.phones[j].acts[y].record.deviceId == DeviceId(Pub(w.pcs[i].p.identity))
  {
    ReachableInv(env, w);
    var pc := w.pcs[i];
    assert PcOk(env, w, pc);
    var k, m := Diffie(pc.p.identity, pc.p.peer.value.pk), pc.p.sasInput.value;
    assert Issued(w, k, m);
    j :| 0 <= j < |w.phones| && ConfirmBy(w.phones[j], k, m);
    var phone := w.phones[j];
    assert PhoneOk(env, phone);
    y :| 0 <= y < |phone.acts| && phone.acts[y].Completed?;
    var e := SasEmoji(env.digest(m));
    assert Showed(pc.acts, e) && Showed(phone.acts, e);
  }
}
