/** Every step of the world keeps the invariant. */
module Preservation {
  import opened Bytes
  import opened Common
  import opened Frames
  import opened Crypto
  import opened Cbor
  import opened Sessions
  import opened Pairing
  import opened Sas
  import opened Network
  import opened Effects
  import opened Invariant

  // ------------------------------------------------------------------
  // What frames show
  // ------------------------------------------------------------------

  /** Reading a byte string out of a map is reading off a leaf. */
  lemma ReadIsLeaf(v: Value<Blob>, key: u64, b: Blob)
    requires FromValue(v).Ok? && GetBytes(FromValue(v).value, key) == Ok(b)
    ensures HasLeaf(v, b)
  {
    var r := FromValue(v).value;
    ReaderContents(v.entries, |v.entries|);
    assert v.entries[..|v.entries|] == v.entries;
    assert Entry(Int(key), r[key]) in v.entries;
    var i :| 0 <= i < |v.entries| && v.entries[i] == Entry(Int(key), r[key]);
    assert HasLeaf(v.entries[i].val, b);
  }

  lemma HelloShowsMac(f: SFrame)
    requires ReadHello(f.payload).Good?
    ensures Shows(f, ReadHello(f.payload).value.mac)
  {
    ReadIsLeaf(f.payload.v, 5, ReadHello(f.payload).value.mac);
  }

  lemma HelloAckShowsMac(f: SFrame)
    requires ReadHelloAck(f.payload).Good?
    ensures Shows(f, ReadHelloAck(f.payload).value.mac)
  {
    ReadIsLeaf(f.payload.v, 2, ReadHelloAck(f.payload).value.mac);
  }

  lemma OneShows(f: SFrame)
    requires ReadOne(f.payload).Good?
    ensures Shows(f, ReadOne(f.payload).value)
  {
    ReadIsLeaf(f.payload.v, 1, ReadOne(f.payload).value);
  }

  lemma HelloLeaves(m: HelloMsg, b: Blob)
    requires HasLeaf(Map(HelloFields(m)), b)
    ensures b in {m.id, m.ephI, m.mac}
  {
    var es := HelloFields(m);
    var i :| 0 <= i < |es| && (HasLeaf(es[i].key, b) || HasLeaf(es[i].val, b));
    assert es[i].key.Int? && !HasLeaf(es[i].key, b);
    assert es[i].val.Bytes? && es[i].val.b == b;
  }

  lemma HelloAckLeaves(m: AckMsg, b: Blob)
    requires HasLeaf(Map(HelloAckFields(m)), b)
    ensures b in {m.ephR, m.mac}
  {
    var es := HelloAckFields(m);
    var i :| 0 <= i < |es| && (HasLeaf(es[i].key, b) || HasLeaf(es[i].val, b));
    assert es[i].key.Int? && !HasLeaf(es[i].key, b);
    assert es[i].val.b == b;
  }

  lemma OneLeaves(x: Blob, b: Blob)
    requires HasLeaf(Map(OneField(x)), b)
    ensures b == x
  {
    var es := OneField(x);
    var i :| 0 <= i < |es| && (HasLeaf(es[i].key, b) || HasLeaf(es[i].val, b));
    assert es[i].key.Int? && !HasLeaf(es[i].key, b);
    assert es[i].val.b == b;
  }

  lemma ReqLeaves(m: ReqMsg, b: Blob)
    requires HasLeaf(Map(ReqFields(m)), b)
    ensures b in {m.token, m.id, m.pk, m.ephI}
  {
    var es := ReqFields(m);
    var i :| 0 <= i < |es| && (HasLeaf(es[i].key, b) || HasLeaf(es[i].val, b));
    assert es[i].key.Int? && !HasLeaf(es[i].key, b);
    assert es[i].val.Bytes? && es[i].val.b == b;
  }

  // ------------------------------------------------------------------
  // One session changes
  // ------------------------------------------------------------------

  lemma OneGrows(v: World, w: World, i: nat)
    requires i < |v.sessions| == |w.sessions| && w.phones == v.phones
    requires RunLe(v.sessions[i], w.sessions[i])
    requires forall j :: 0 <= j < |v.sessions| && j != i ==> w.sessions[j] == v.sessions[j]
    ensures Grows(v, w)
  {
  }

  ghost predicate Replaces(v: World, w: World, i: nat) {
    i < |v.sessions| == |w.sessions| && w.phones == v.phones && w.pcs == v.pcs && v.sent <= w.sent &&
    v.used <= w.used &&
    (forall j :: 0 <= j < |v.sessions| && j != i ==> w.sessions[j] == v.sessions[j])
  }

  ghost predicate EphKept(v: World, w: World, i: nat)
    requires i < |v.sessions| == |w.sessions|
  {
    w.sessions[i].s.eph == v.sessions[i].s.eph ||
    (w.sessions[i].s.eph.Some? && w.sessions[i].s.eph.value !in v.used && w.sessions[i].s.eph.value in w.used)
  }

  lemma OneSession(env: Env, v: World, w: World, i: nat)
    requires Inv(env, v) && Replaces(v, w, i) && Grows(v, w) && EphKept(v, w, i)
    requires SessionOk(env, w.sessions[i]) && History(w.sessions[i]) && Linked(env, w, w.sessions[i])
    requires forall f :: f in w.sent && f !in v.sent ==> FrameOk(env, w, f)
    ensures Inv(env, w)
  {
    forall j | 0 <= j < |w.sessions| ensures Linked(env, w, w.sessions[j]) {
      if j != i { LinkedGrows(env, v, w, v.sessions[j]); }
    }
    forall j | 0 <= j < |w.pcs| ensures PcOk(env, w, w.pcs[j]) {
      PcOkGrows(env, v, w, v.pcs[j]);
    }
    forall f | f in w.sent ensures FrameOk(env, w, f) {
      if f in v.sent { FrameOkGrows(env, v, w, f); }
    }
    assert EphsOk(env, w);
  }

  lemma SealingsShort()
    ensures Sealings([]) == []
    ensures forall f :: Sealings([f]) == SealingOf(f)
  {
    forall f ensures Sealings([f]) == SealingOf(f) {
      assert [f][1..] == [];
    }
  }

  function SealingOf(f: SFrame): seq<(FrameType, seq<byte>)> {
    if f.payload.Coded? && f.payload.c.Sealed? then [(f.payload.c.box.aad, f.payload.c.box.plain)] else []
  }

  /** A session that seals at most one frame keeps its books and that frame is accounted for. */
  lemma SealKeepsBooks(env: Env, r: SessionRun, r': SessionRun, q: Sealing, fs: seq<SFrame>)
    requires SessionOk(env, r) && r.s.channel.Some? && r'.s.channel.Some?
    requires Sealed1(r.s.(channel := Some(r.s.channel.value.(rx := r'.s.channel.value.rx))), r'.s, fs, q)
    requires r'.s.channel.value.rx.key == r.s.channel.value.rx.key
    requires r'.sealed == r.sealed + Sealings(fs) && r'.startedAt == r.startedAt && r'.heard == r.heard
    requires OpensOk(r'.s.channel.value.rx, r'.opens) && StateOk(r'.s)
    ensures SessionOk(env, r') && RunLe(r, r')
    ensures r'.sealed == r.sealed + if q.Some? then [q.value] else []
    ensures forall f, box :: f in fs && Carries(f, box) ==> SealedBy(r', box)
    ensures forall f, b :: f in fs ==> !Shows(f, b)
  {
    SealingsShort();
    assert KeysOk(r');
  }

  // ------------------------------------------------------------------
  // Deliver
  // ------------------------------------------------------------------

  /** The attacker's frame makes a session join: what the other side of the handshake did. */
  lemma JoinLinked(env: Env, v: World, w: World, i: nat, f: SFrame, now: u64, e: Option<Secret>)
    requires Inv(env, v) && i < |v.sessions| && Deliverable(env, v, f) && Grows(v, w)
    requires var s1 := v.sessions[i].s.(lastActivity := now); var st := OnFrame(v.sessions[i].s, f, now, e);
      PcJoined(s1, f, now, e, st) || PhoneJoined(s1, f, st)
    requires i < |w.sessions| && w.sessions[i] == AfterFrame(v.sessions[i], f, now, e)
    ensures Linked(env, w, w.sessions[i])
  {
    assert SessionOk(env, v.sessions[i]);
    DeliverableIsOk(env, v, f);
    var r, r', st := v.sessions[i], w.sessions[i], OnFrame(v.sessions[i].s, f, now, e);
    if r.s.role == Phone {
      PhoneJoinLinked(env, v, w, r.s.(lastActivity := now), r', f, st);
    } else {
      PcJoinLinked(env, v, w, r.s.(lastActivity := now), r', f, now, e, st);
    }
  }

  lemma PhoneJoinLinked(env: Env, v: World, w: World, s: State, r': SessionRun, f: SFrame, st: Step)
    requires Grows(v, w) && FrameOk(env, v, f) && s.role == Phone && PhoneJoined(s, f, st)
    requires r'.s == st.s && r'.heard == HeardIn(s, f) && r'.opens == []
    ensures Linked(env, w, r')
  {
    if !KnownShared(env, Static(r')) {
      HelloAckShowsMac(f);
      var basis := AckBasis(ReadHelloAck(f.payload).value.ephR, Pub(r'.s.eph.value));
      assert Issued(v, Static(r'), basis);
      IssuedGrows(v, w, Static(r'), basis);
    }
  }

  lemma PcJoinLinked(env: Env, v: World, w: World, s: State, r': SessionRun, f: SFrame, now: u64, e: Option<Secret>,
                     st: Step)
    requires Grows(v, w) && FrameOk(env, v, f) && s.role == Pc && PcJoined(s, f, now, e, st)
    requires r'.s == st.s && r'.heard == HeardIn(s, f) && r'.heardAt == now && r'.opens == []
    ensures Linked(env, w, r')
  {
    if Joined(r') && !KnownShared(env, Static(r')) {
      HelloShowsMac(f);
      var m := ReadHello(f.payload).value;
      assert Issued(v, Static(r'), HelloBasis(m.id, m.ephI, m.ts));
      IssuedGrows(v, w, Static(r'), HelloBasis(m.id, m.ephI, m.ts));
      var j :| 0 <= j < |w.sessions| && HelloBy(w.sessions[j], Static(r'), m.id, m.ephI, m.ts);
      assert HelloHeardFrom(w.sessions[j], r');
    }
  }

  /** A joining session is in order, and the frame it sends is accounted for. */
  lemma JoinOk(env: Env, r: SessionRun, f: SFrame, now: u64, e: Option<Secret>)
    requires SessionOk(env, r) && History(r)
    requires var s1 := r.s.(lastActivity := now); var st := OnFrame(r.s, f, now, e);
      PcJoined(s1, f, now, e, st) || PhoneJoined(s1, f, st)
    requires StateOk(OnFrame(r.s, f, now, e).s)
    ensures var r' := AfterFrame(r, f, now, e);
      SessionOk(env, r') && RunLe(r, r') && History(r') && (r'.s.eph == r.s.eph || (e.Some? && r'.s.eph == e))
  {
    var r' := AfterFrame(r, f, now, e);
    assert r.s.channel.None? && OpenedBy(r.s, f) == [];
    JoinedRunOk(env, r, r', f, now, e, OnFrame(r.s, f, now, e));
    JoinedHistory(r, r', OnFrame(r.s, f, now, e));
  }

  /** What a run looks like after the frame that completed its handshake. */
  predicate AfterJoin(r: SessionRun, r': SessionRun, f: SFrame, st: Step) {
    r.s.channel.None? && r'.s == st.s && StateOk(st.s) && r'.startedAt == r.startedAt && r'.heard == HeardIn(r.s, f) &&
    r'.sealed == r.sealed + Sealings(Sends(st.acts)) && r'.opens == r.opens
  }

  lemma JoinedRunOk(env: Env, r: SessionRun, r': SessionRun, f: SFrame, now: u64, e: Option<Secret>, st: Step)
    requires SessionOk(env, r) && AfterJoin(r, r', f, st)
    requires var s1 := r.s.(lastActivity := now); PcJoined(s1, f, now, e, st) || PhoneJoined(s1, f, st)
    ensures SessionOk(env, r') && RunLe(r, r') && r'.sealed == [] && (r'.s.eph == r.s.eph || (e.Some? && r'.s.eph == e))
  {
    if r.s.role == Pc {
      PcJoinedOk(env, r, r', f, now, e, st);
    } else {
      PhoneJoinedOk(env, r, r', f, now, st);
    }
  }

  lemma PcJoinedOk(env: Env, r: SessionRun, r': SessionRun, f: SFrame, now: u64, e: Option<Secret>, st: Step)
    requires SessionOk(env, r) && AfterJoin(r, r', f, st) && r.s.role == Pc
    requires PcJoined(r.s.(lastActivity := now), f, now, e, st)
    ensures SessionOk(env, r') && RunLe(r, r') && r'.sealed == [] && e.Some? && r'.s.eph == e
  {
    ShortLists();
    SealingsShort();
    assert Sends(st.acts) == [st.acts[0].frame];
    assert Sealings(Sends(st.acts)) == [];
    AcceptedPeer(r.s.(lastActivity := now), ReadHello(f.payload).value, now);
    assert KeysOk(r');
  }

  lemma AcceptedPeer(s: State, m: HelloMsg, now: u64)
    requires JudgeHello(s, m, now).Accept? && forall i :: 0 <= i < |s.knownPeers| ==> WfPeer(s.knownPeers[i])
    ensures var p := JudgeHello(s, m, now).peer; p.deviceId == m.id && WfPeer(p)
  {
  }

  lemma PhoneJoinedOk(env: Env, r: SessionRun, r': SessionRun, f: SFrame, now: u64, st: Step)
    requires SessionOk(env, r) && AfterJoin(r, r', f, st) && r.s.role == Phone
    requires PhoneJoined(r.s.(lastActivity := now), f, st)
    ensures SessionOk(env, r') && RunLe(r, r') && r'.sealed == [] && r'.s.eph == r.s.eph
  {
    ShortLists();
    SealingsShort();
    assert Sends(st.acts) == [];
  }

  lemma JoinedHistory(r: SessionRun, r': SessionRun, st: Step)
    requires History(r) && r'.sealed == r.sealed == [] && r'.opens == r.opens && r'.events == r.events + Emits(st.acts)
    requires |st.acts| in {1, 2} && st.acts[|st.acts| - 1].Emit? && st.acts[|st.acts| - 1].event.Established?
    requires |st.acts| == 2 ==> st.acts[0].Send?
    ensures History(r')
  {
    JoinedEmits(st.acts);
    HistoryAppend(r, r', Emits(st.acts));
  }

  lemma JoinedEmits(acts: seq<Action>)
    requires |acts| in {1, 2} && acts[|acts| - 1].Emit? && (|acts| == 2 ==> acts[0].Send?)
    ensures Emits(acts) == [acts[|acts| - 1].event]
  {
    ShortLists();
    assert acts == [acts[0]] || acts == [acts[0], acts[1]];
  }

  lemma HistoryAppend(r: SessionRun, r': SessionRun, evs: seq<Event>)
    requires History(r) && r'.events == r.events + evs && r'.sealed == r.sealed && r'.opens == r.opens
    requires forall i :: 0 <= i < |evs| ==> !evs[i].ClipArrived? && !evs[i].ClipAcked?
    ensures History(r')
  {
    forall c | 0 <= c < |r'.sealed| && r'.sealed[c].0 == ClipAck ensures AckedSomething(r'.sealed[c].1, r'.events) {
      var j :| 0 <= j < |r.events| && AcksArrival(r.sealed[c].1, r.events[j]);
      assert r'.events[j] == r.events[j];
    }
  }

  lemma JoinFrames(env: Env, w: World, i: nat, r: SessionRun, f: SFrame, now: u64, e: Option<Secret>)
    requires i < |w.sessions| && w.sessions[i] == AfterFrame(r, f, now, e) && SessionOk(env, r)
    requires var s1 := r.s.(lastActivity := now); var st := OnFrame(r.s, f, now, e);
      PcJoined(s1, f, now, e, st) || PhoneJoined(s1, f, st)
    ensures forall g :: g in Sends(OnFrame(r.s, f, now, e).acts) ==> FrameOk(env, w, g)
  {
    ShortLists();
    var r' := w.sessions[i];
    var acts := OnFrame(r.s, f, now, e).acts;
    forall g | g in Sends(acts) ensures FrameOk(env, w, g) {
      var m := ReadHello(f.payload).value;
      var ack := AckFor(r.s.identity, r'.s.peer.value, m.ephI, e.value);
      assert g == Frame(HelloAck, Clear(Map(HelloAckFields(ack))));
      forall k, x | Shows(g, Mac(k, x)) ensures Issued(w, k, x) {
        HelloAckLeaves(ack, Mac(k, x));
        assert AckBy(r', k, Pub(e.value), m.ephI);
      }
    }
  }

  lemma DeliverKeeps(env: Env, v: World, i: nat, f: SFrame, now: u64, e: Option<Secret>)
    requires Inv(env, v) && i < |v.sessions| && Deliverable(env, v, f) && (e.Some? ==> e.value !in v.used)
    ensures Inv(env, Delivered(v, i, f, now, e))
  {
    var w := Delivered(v, i, f, now, e);
    var r, r' := v.sessions[i], w.sessions[i];
    assert SessionOk(env, r) && History(r) && Linked(env, v, r);
    var st, s1 := OnFrame(r.s, f, now, e), r.s.(lastActivity := now);
    var q := FrameStep(r.s, f, now, e);
    if Quiet(r.s, st) && OpenedBy(r.s, f) == [] {
      QuietKeeps(env, v, w, i, f, now, e);
    } else if PcJoined(s1, f, now, e, st) || PhoneJoined(s1, f, st) {
      JoinKeeps(env, v, w, i, f, now, e);
    } else {
      TrafficKeeps(env, v, w, i, f, now, e, q);
    }
  }

  lemma JoinKeeps(env: Env, v: World, w: World, i: nat, f: SFrame, now: u64, e: Option<Secret>)
    requires Inv(env, v) && i < |v.sessions| && Deliverable(env, v, f) && (e.Some? ==> e.value !in v.used)
    requires w == Delivered(v, i, f, now, e)
    requires var s1 := v.sessions[i].s.(lastActivity := now); var st := OnFrame(v.sessions[i].s, f, now, e);
      StateOk(st.s) && (PcJoined(s1, f, now, e, st) || PhoneJoined(s1, f, st))
    ensures Inv(env, w)
  {
    var r := v.sessions[i];
    assert SessionOk(env, r) && History(r);
    JoinOk(env, r, f, now, e);
    OneGrows(v, w, i);
    JoinLinked(env, v, w, i, f, now, e);
    JoinFrames(env, w, i, r, f, now, e);
    OneSession(env, v, w, i);
  }

  lemma QuietKeeps(env: Env, v: World, w: World, i: nat, f: SFrame, now: u64, e: Option<Secret>)
    requires Inv(env, v) && i < |v.sessions| && Deliverable(env, v, f) && (e.Some? ==> e.value !in v.used)
    requires w == Delivered(v, i, f, now, e)
    requires Quiet(v.sessions[i].s, OnFrame(v.sessions[i].s, f, now, e)) && OpenedBy(v.sessions[i].s, f) == []
    requires StateOk(OnFrame(v.sessions[i].s, f, now, e).s)
    ensures Inv(env, w)
  {
    QuietRun(v.sessions[i], f, now, e);
    SameKeeps(env, v, w, i);
  }

  lemma QuietRun(r: SessionRun, f: SFrame, now: u64, e: Option<Secret>)
    requires Quiet(r.s, OnFrame(r.s, f, now, e)) && OpenedBy(r.s, f) == []
    ensures SameRun(r, AfterFrame(r, f, now, e)) && ToSet(Sends(OnFrame(r.s, f, now, e).acts)) == {}
  {
    ShortLists();
    SealingsShort();
    var acts := OnFrame(r.s, f, now, e).acts;
    assert acts == [acts[0]];
    assert Sends(acts) == [] && Emits(acts) == [];
  }

  /** The parts of a session its guarantees speak of. */
  predicate SameRun(r: SessionRun, r': SessionRun) {
    SameLink(r.s, r'.s) && r'.s.channel == r.s.channel && r'.startedAt == r.startedAt && r'.heard == r.heard &&
    r'.heardAt == r.heardAt && r'.sealed == r.sealed && r'.opens == r.opens && r'.events == r.events
  }

  lemma SameKeeps(env: Env, v: World, w: World, i: nat)
    requires Inv(env, v) && Replaces(v, w, i) && w.sent == v.sent
    requires SameRun(v.sessions[i], w.sessions[i]) && StateOk(w.sessions[i].s)
    ensures Inv(env, w)
  {
    var r, r' := v.sessions[i], w.sessions[i];
    assert SessionOk(env, r) && History(r) && Linked(env, v, r);
    OneGrows(v, w, i);
    LinkedGrows(env, v, w, r);
    LinkedSame(env, w, r, r', r.opens);
    OneSession(env, v, w, i);
  }

  /** Being linked depends only on the link, the keys and the openings. */
  lemma LinkedSame(env: Env, w: World, r: SessionRun, r': SessionRun, os: seq<Opening>)
    requires Linked(env, w, r) && r'.heard == r.heard && r'.heardAt == r.heardAt
    requires r'.s.role == r.s.role && r'.s.identity == r.s.identity && r'.s.peer == r.s.peer && r'.s.eph == r.s.eph
    requires r'.opens == os && r.opens <= os
    requires r.s.channel.Some? <==> r'.s.channel.Some?
    requires r.s.channel.Some? ==> r'.s.channel.value.rx.key == r.s.channel.value.rx.key
    requires Joined(r') && !KnownShared(env, Static(r')) ==>
      forall k :: |r.opens| <= k < |os| ==> Boxed(w, BoxOf(r', k))
    ensures Linked(env, w, r')
  {
    if Joined(r') && !KnownShared(env, Static(r')) {
      if r'.s.role != Phone {
        var j :| 0 <= j < |w.sessions| && HelloHeardFrom(w.sessions[j], r);
        assert HelloHeardFrom(w.sessions[j], r');
      }
      forall k | 0 <= k < |os| ensures Boxed(w, BoxOf(r', k)) {
        if k < |r.opens| { assert BoxOf(r', k) == BoxOf(r, k); }
      }
    }
  }

  lemma TrafficOk(env: Env, r: SessionRun, f: SFrame, now: u64, e: Option<Secret>, q: Sealing)
    requires SessionOk(env, r) && Traffic(r.s.(lastActivity := now), f, OnFrame(r.s, f, now, e), q)
    requires StateOk(OnFrame(r.s, f, now, e).s)
    ensures TrafficResult(env, r, AfterFrame(r, f, now, e), Sends(OnFrame(r.s, f, now, e).acts), f, q)
  {
    StepOk(env, r, AfterFrame(r, f, now, e), f, now, OnFrame(r.s, f, now, e), q);
  }

  ghost predicate TrafficResult(env: Env, r: SessionRun, r': SessionRun, fs: seq<SFrame>, f: SFrame, q: Sealing) {
    Joined(r) && SessionOk(env, r') && RunLe(r, r') && r'.s.eph == r.s.eph && Joined(r') && Static(r') == Static(r) &&
    r'.s.channel.value.rx.key == r.s.channel.value.rx.key &&
    r'.sealed == r.sealed + (if q.Some? then [q.value] else []) && r'.opens == r.opens + OpenedBy(r.s, f) &&
    (forall g, box :: g in fs && Carries(g, box) ==> SealedBy(r', box)) &&
    (forall g, b :: g in fs ==> !Shows(g, b))
  }

  lemma StepOk(env: Env, r: SessionRun, r': SessionRun, f: SFrame, now: u64, st: Step, q: Sealing)
    requires SessionOk(env, r) && Traffic(r.s.(lastActivity := now), f, st, q) && StateOk(st.s)
    requires r'.s == st.s && r'.startedAt == r.startedAt && r'.heard == r.heard
    requires r'.sealed == r.sealed + Sealings(Sends(st.acts)) && r'.opens == r.opens + OpenedBy(r.s, f)
    ensures TrafficResult(env, r, r', Sends(st.acts), f, q)
  {
    var c := AsCipher(f.payload);
    assert OpenedBy(r.s, f) == [Opening(c.ctr, f.ty, c.box.plain)];
    assert OpensOk(r'.s.channel.value.rx, r'.opens);
    SealKeepsBooks(env, r, r', q, Sends(st.acts));
  }

  lemma TrafficHistory(r: SessionRun, r': SessionRun, o: Opening, evs: seq<Event>, q: Sealing)
    requires History(r) && Answers(o.ty, o.plain, evs, q)
    requires r'.opens == r.opens + [o] && r'.events == r.events + evs
    requires r'.sealed == r.sealed + if q.Some? then [q.value] else []
    ensures History(r')
  {
    assert r'.opens[|r.opens|] == o;
    forall i | 0 <= i < |r'.events|
      ensures r'.events[i].ClipArrived? ==> ArrivedIn(r'.events[i], r'.opens)
      ensures r'.events[i].ClipAcked? ==> AckedIn(r'.events[i], r'.opens)
    {
      if i < |r.events| {
        EventStays(r'.events[i], r.opens, o);
      } else {
        assert r'.events[i] == evs[i - |r.events|];
      }
    }
    forall c | 0 <= c < |r'.sealed| && r'.sealed[c].0 == ClipAck ensures AckedSomething(r'.sealed[c].1, r'.events) {
      if c < |r.sealed| {
        var j :| 0 <= j < |r.events| && AcksArrival(r.sealed[c].1, r.events[j]);
        assert r'.events[j] == r.events[j];
      } else {
        assert r'.events[|r.events|] == evs[0];
      }
    }
  }

  lemma EventStays(e: Event, os: seq<Opening>, o: Opening)
    ensures ArrivedIn(e, os) ==> ArrivedIn(e, os + [o])
    ensures AckedIn(e, os) ==> AckedIn(e, os + [o])
  {
    if ArrivedIn(e, os) {
      var k :| 0 <= k < |os| && os[k].ty == ClipPush && ArrivedFrom(e, os[k].plain);
      assert (os + [o])[k] == os[k];
    }
    if AckedIn(e, os) {
      var k :| 0 <= k < |os| && os[k].ty == ClipAck && AckedFrom(e, os[k].plain);
      assert (os + [o])[k] == os[k];
    }
  }

  lemma TrafficKeeps(env: Env, v: World, w: World, i: nat, f: SFrame, now: u64, e: Option<Secret>, q: Sealing)
    requires Inv(env, v) && i < |v.sessions| && Deliverable(env, v, f) && (e.Some? ==> e.value !in v.used)
    requires w == Delivered(v, i, f, now, e)
    requires Traffic(v.sessions[i].s.(lastActivity := now), f, OnFrame(v.sessions[i].s, f, now, e), q)
    requires StateOk(OnFrame(v.sessions[i].s, f, now, e).s)
    ensures Inv(env, w)
  {
    var r, r' := v.sessions[i], w.sessions[i];
    assert SessionOk(env, r) && History(r) && Linked(env, v, r);
    var st := OnFrame(r.s, f, now, e);
    var c := AsCipher(f.payload);
    var o := Opening(c.ctr, f.ty, c.box.plain);
    TrafficOk(env, r, f, now, e, q);
    TrafficHistory(r, r', o, Emits(st.acts), q);
    OneGrows(v, w, i);
    TrafficLinked(env, v, w, i, f, o);
    forall g | g in Sends(st.acts) ensures FrameOk(env, w, g) {
      forall box | Carries(g, box) ensures Boxed(w, box) {
        assert SealedBy(w.sessions[i], box);
      }
    }
    OneSession(env, v, w, i);
  }

  lemma TrafficLinked(env: Env, v: World, w: World, i: nat, f: SFrame, o: Opening)
    requires Inv(env, v) && Grows(v, w) && i < |v.sessions| && Deliverable(env, v, f)
    requires var r, r' := v.sessions[i], w.sessions[i];
      Joined(r) && Joined(r') && RunLe(r, r') && SessionOk(env, r) && r'.heardAt == r.heardAt &&
      Static(r') == Static(r) &&
      r'.s.channel.value.rx.key == r.s.channel.value.rx.key && r'.opens == r.opens + [o] &&
      Carries(f, Box(r.s.channel.value.rx.key, o.ctr, o.ty, o.plain))
    ensures Linked(env, w, w.sessions[i])
  {
    var r := v.sessions[i];
    assert Linked(env, v, r);
    LinkedGrows(env, v, w, r);
    var box := Box(r.s.channel.value.rx.key, o.ctr, o.ty, o.plain);
    if !KnownShared(env, Static(r)) {
      assert box.key.ssStatic == Static(r);
      OpenedWasBoxed(env, v, w, f, box);
    }
    LinkedOpened(env, w, r, w.sessions[i], o);
  }

  lemma LinkedOpened(env: Env, w: World, r: SessionRun, r': SessionRun, o: Opening)
    requires Linked(env, w, r) && Joined(r) && Joined(r') && RunLe(r, r') && r'.heardAt == r.heardAt
    requires Static(r') == Static(r)
    requires r'.s.channel.value.rx.key == r.s.channel.value.rx.key && r'.opens == r.opens + [o]
    requires !KnownShared(env, Static(r)) ==> Boxed(w, Box(r.s.channel.value.rx.key, o.ctr, o.ty, o.plain))
    ensures Linked(env, w, r')
  {
    assert BoxOf(r', |r.opens|) == Box(r.s.channel.value.rx.key, o.ctr, o.ty, o.plain);
    LinkedSame(env, w, r, r', r'.opens);
  }

  /** A box an honest session opens under a key the attacker lacks was sealed by an honest session. */
  lemma OpenedWasBoxed(env: Env, v: World, w: World, f: SFrame, box: Box)
    requires Inv(env, v) && Grows(v, w) && Deliverable(env, v, f) && Carries(f, box)
    requires !KnownShared(env, box.key.ssStatic)
    ensures Boxed(w, box)
  {
    DeliverableIsOk(env, v, f);
    BoxedGrows(v, w, box);
  }

  // ------------------------------------------------------------------
  // Requests, pausing and new machines
  // ------------------------------------------------------------------

  lemma RequestKeeps(env: Env, v: World, i: nat, q: Sessions.Request)
    requires Inv(env, v) && i < |v.sessions| && WfRequest(q)
    ensures Inv(env, Asked(v, i, q))
  {
    var w := Asked(v, i, q);
    var r, r' := v.sessions[i], w.sessions[i];
    assert SessionOk(env, r) && History(r) && Linked(env, v, r);
    if r.s.channel.None? {
      SameKeeps(env, v, w, i);
    } else {
      RequestOk(env, r, q);
      SealedKeeps(env, v, w, i);
    }
  }

  /** A session that sealed something and opened nothing. */
  lemma SealedKeeps(env: Env, v: World, w: World, i: nat)
    requires Inv(env, v) && Replaces(v, w, i) && w.used == v.used
    requires var r, r' := v.sessions[i], w.sessions[i];
      SessionOk(env, r') && RunLe(r, r') && History(r') && SameLink(r.s, r'.s) && r.s.channel.Some? &&
      r'.s.channel.Some? &&
      r'.s.channel.value.rx.key == r.s.channel.value.rx.key && r'.opens == r.opens && r'.heard == r.heard &&
      r'.heardAt == r.heardAt
    requires forall g :: g in w.sent && g !in v.sent ==>
      (forall box :: Carries(g, box) ==> SealedBy(w.sessions[i], box)) && forall b :: !Shows(g, b)
    ensures Inv(env, w)
  {
    var r, r' := v.sessions[i], w.sessions[i];
    assert Linked(env, v, r);
    OneGrows(v, w, i);
    UnopenedLinked(env, v, w, r, r');
    forall g | g in w.sent && g !in v.sent ensures FrameOk(env, w, g) {
      RequestFrameOk(env, w, i, g);
    }
    OneSession(env, v, w, i);
  }

  lemma UnopenedLinked(env: Env, v: World, w: World, r: SessionRun, r': SessionRun)
    requires Grows(v, w) && Linked(env, v, r) && RunLe(r, r') && SameLink(r.s, r'.s) && r'.opens == r.opens
    requires r.s.channel.Some? && r'.s.channel.Some? && r'.s.channel.value.rx.key == r.s.channel.value.rx.key
    requires r'.heard == r.heard && r'.heardAt == r.heardAt
    ensures Linked(env, w, r')
  {
    LinkedGrows(env, v, w, r);
    LinkedSame(env, w, r, r', r.opens);
  }

  lemma RequestFrameOk(env: Env, w: World, i: nat, g: SFrame)
    requires i < |w.sessions| && (forall box :: Carries(g, box) ==> SealedBy(w.sessions[i], box)) &&
      forall b :: !Shows(g, b)
    ensures FrameOk(env, w, g)
  {
    forall box | Carries(g, box) ensures Boxed(w, box) {
      assert SealedBy(w.sessions[i], box);
    }
  }

  /** The box-keeping of one session that seals a request. */
  lemma RequestOk(env: Env, r: SessionRun, q: Sessions.Request)
    requires SessionOk(env, r) && History(r) && WfRequest(q) && r.s.channel.Some?
    ensures var r' := AfterRequest(r, q); var f := Ask(r.s, q).1;
      SessionOk(env, r') && RunLe(r, r') && History(r') && r'.s.channel.Some? && SameLink(r.s, r'.s) &&
      r'.s.channel.value.rx.key == r.s.channel.value.rx.key &&
      (f.Ok? ==> (forall box :: Carries(f.value, box) ==> SealedBy(r', box)) && forall b :: !Shows(f.value, b))
  {
    var r' := AfterRequest(r, q);
    var (t, f) := Ask(r.s, q);
    SealingsShort();
    var x := AskStep(r.s, q);
    var fs := if f.Ok? then [f.value] else [];
    assert r'.sealed == r.sealed + Sealings(fs);
    SealKeepsBooks(env, r, r', x, fs);
    RequestHistory(r, r', q, x);
  }

  lemma RequestHistory(r: SessionRun, r': SessionRun, q: Sessions.Request, x: Sealing)
    requires History(r) && r'.events == r.events && r'.opens == r.opens && WfRequest(q)
    requires r'.sealed == r.sealed + if x.Some? then [x.value] else []
    requires x.Some? ==> x.value.0 == RequestType(q) && RequestPlain(q) == Ok(x.value.1)
    ensures History(r')
  {
  }

  lemma PauseKeeps(env: Env, v: World, i: nat, b: bool)
    requires Inv(env, v) && i < |v.sessions|
    ensures Inv(env, Paused(v, i, b))
  {
    assert SessionOk(env, v.sessions[i]);
    SameKeeps(env, v, Paused(v, i, b), i);
  }

  /** A new session, with what it sends. */
  lemma NewSession(env: Env, v: World, w: World)
    requires Inv(env, v) && |w.sessions| == |v.sessions| + 1 && w.sessions[..|v.sessions|] == v.sessions
    requires w.phones == v.phones && w.pcs == v.pcs && v.used <= w.used
    requires var r := w.sessions[|v.sessions|];
      SessionOk(env, r) && r.s.channel.None? && r.events == [] &&
      (r.s.eph.Some? ==> r.s.eph.value !in v.used && r.s.eph.value in w.used)
    requires forall f :: f in w.sent && f !in v.sent ==> FrameOk(env, w, f)
    ensures Inv(env, w)
  {
    var n := |v.sessions|;
    assert forall i :: 0 <= i < n ==> w.sessions[i] == v.sessions[i];
    assert Grows(v, w);
    NewEphemeral(env, v, w);
    forall j | 0 <= j < |w.sessions| ensures Linked(env, w, w.sessions[j]) {
      if j < n { LinkedGrows(env, v, w, v.sessions[j]); }
    }
    forall j | 0 <= j < |w.pcs| ensures PcOk(env, w, w.pcs[j]) {
      PcOkGrows(env, v, w, v.pcs[j]);
    }
    forall f | f in w.sent ensures FrameOk(env, w, f) {
      if f in v.sent { FrameOkGrows(env, v, w, f); }
    }
  }

  lemma NewEphemeral(env: Env, v: World, w: World)
    requires EphsOk(env, v) && |w.sessions| == |v.sessions| + 1 && w.sessions[..|v.sessions|] == v.sessions
    requires v.used <= w.used
    requires var r := w.sessions[|v.sessions|]; r.s.eph.Some? ==> r.s.eph.value !in v.used && r.s.eph.value in w.used
    ensures EphsOk(env, w)
  {
    assert forall i :: 0 <= i < |v.sessions| ==> w.sessions[i] == v.sessions[i];
  }

  lemma OpenPhoneKeeps(env: Env, v: World, identity: Secret, peer: PeerKey, now: u64, eph: Secret)
    requires Inv(env, v) && identity in env.honest && WfPeer(peer) && eph !in v.used
    ensures Inv(env, WithPhone(v, identity, peer, now, eph))
  {
    var w := WithPhone(v, identity, peer, now, eph);
    var n := |v.sessions|;
    var m := HelloFor(identity, peer, now, eph);
    forall f | f in w.sent && f !in v.sent ensures FrameOk(env, w, f) {
      forall k, x | Shows(f, Mac(k, x)) ensures Issued(w, k, x) {
        HelloLeaves(m, Mac(k, x));
        assert HelloBy(w.sessions[n], k, m.id, m.ephI, now);
      }
    }
    NewSession(env, v, w);
  }

  lemma OpenPcKeeps(env: Env, v: World, identity: Secret, peers: seq<PeerKey>, now: u64)
    requires Inv(env, v) && identity in env.honest && forall i :: 0 <= i < |peers| ==> WfPeer(peers[i])
    ensures Inv(env, WithPc(v, identity, peers, now))
  {
    NewSession(env, v, WithPc(v, identity, peers, now));
  }

  // ------------------------------------------------------------------
  // Pairings
  // ------------------------------------------------------------------

  /** The frame an action sends, if it sends one. */
  function SentBy(a: PairAction): seq<SFrame> { if a.SendPair? then [a.frame] else [] }

  lemma PairLists()
    ensures PairSends([]) == []
    ensures forall a :: PairSends([a]) == SentBy(a)
    ensures forall a, b :: PairSends([a, b]) == SentBy(a) + SentBy(b)
  {
    forall a ensures PairSends([a]) == SentBy(a) {
      assert [a][1..] == [];
    }
    forall a, b ensures PairSends([a, b]) == SentBy(a) + SentBy(b) {
      assert [a, b][1..] == [b];
    }
  }

  /** Sessions are untouched; pairings and what they sent are in order. */
  lemma PairingsChange(env: Env, v: World, w: World)
    requires Inv(env, v) && w.sessions == v.sessions && v.used <= w.used && Grows(v, w)
    requires forall i :: 0 <= i < |w.phones| ==> PhoneOk(env, w.phones[i])
    requires forall i :: 0 <= i < |w.pcs| ==> PcOk(env, w, w.pcs[i])
    requires forall f :: f in w.sent && f !in v.sent ==> FrameOk(env, w, f)
    ensures Inv(env, w)
  {
    forall j | 0 <= j < |w.sessions| ensures Linked(env, w, w.sessions[j]) {
      LinkedGrows(env, v, w, v.sessions[j]);
    }
    forall f | f in w.sent ensures FrameOk(env, w, f) {
      if f in v.sent { FrameOkGrows(env, v, w, f); }
    }
  }

  lemma OfferKeeps(env: Env, v: World, identity: Secret, token: Blob, now: u64)
    requires Inv(env, v) && identity in env.honest
    ensures Inv(env, WithOffer(v, identity, token, now))
  {
    var w := WithOffer(v, identity, token, now);
    assert Grows(v, w);
    forall j | 0 <= j < |w.pcs| ensures PcOk(env, w, w.pcs[j]) {
      if j < |v.pcs| { PcOkGrows(env, v, w, v.pcs[j]); }
    }
    PairingsChange(env, v, w);
  }

  lemma ScannedKeeps(env: Env, v: World, identity: Secret, name: string, qr: Scan, eph: Secret)
    requires Inv(env, v) && identity in env.honest && Width(qr.token) == 16
    ensures Inv(env, WithScan(v, identity, name, qr, eph))
  {
    var w := WithScan(v, identity, name, qr, eph);
    assert Grows(v, w);
    forall j | 0 <= j < |w.pcs| ensures PcOk(env, w, w.pcs[j]) {
      PcOkGrows(env, v, w, v.pcs[j]);
    }
    var m := ReqMsg(qr.token, DeviceId(Pub(identity)), Pub(identity), name, Pub(eph));
    forall f | f in w.sent && f !in v.sent ensures FrameOk(env, w, f) {
      forall k, x ensures !Shows(f, Mac(k, x)) {
        if Shows(f, Mac(k, x)) {
          ReqLeaves(m, Mac(k, x));
          assert false;
        }
      }
    }
    PairingsChange(env, v, w);
  }

  lemma PcStepKeeps(env: Env, v: World, i: nat, f: SFrame, now: u64, e: Option<Secret>)
    requires Inv(env, v) && i < |v.pcs| && Deliverable(env, v, f)
    ensures Inv(env, DeliveredToPc(env, v, i, f, now, e))
  {
    var w := DeliveredToPc(env, v, i, f, now, e);
    assert Grows(v, w);
    PcRunOk(env, v, i, f, now, e);
    forall j | 0 <= j < |w.pcs| ensures PcOk(env, w, w.pcs[j]) {
      if j != i {
        PcOkGrows(env, v, w, v.pcs[j]);
      } else {
        PcOkGrows(env, v, w, w.pcs[i]);
      }
    }
    PcFrames(env, w, v.pcs[i].p, f, now, e);
    PairingsChange(env, v, w);
  }

  /** A PC that completes has been shown the phone's MAC over its own SAS input. */
  lemma PcRunOk(env: Env, v: World, i: nat, f: SFrame, now: u64, e: Option<Secret>)
    requires Inv(env, v) && i < |v.pcs| && Deliverable(env, v, f)
    ensures var st := PcOnFrame(v.pcs[i].p, f, now, e, env.digest);
      PcOk(env, v, PcRun(st.s, v.pcs[i].acts + st.acts))
  {
    assert PcOk(env, v, v.pcs[i]);
    DeliverableIsOk(env, v, f);
    if v.pcs[i].p.phase == AwaitingConfirm {
      PcConfirmOk(env, v, v.pcs[i], f, now, e);
    } else {
      PcReqOk(env, v, v.pcs[i], f, now, e);
    }
  }

  lemma PcReqOk(env: Env, v: World, r: PcRun, f: SFrame, now: u64, e: Option<Secret>)
    requires PcOk(env, v, r) && r.p.phase != AwaitingConfirm
    ensures var st := PcOnFrame(r.p, f, now, e, env.digest);
      PcOk(env, v, PcRun(st.s, r.acts + st.acts))
  {
    if r.p.phase == AwaitingReq && f.ty == PairReq {
      var st := OnPairReq(r.p, f.payload, now, e, env.digest);
      ShowedStays(r.acts, st.acts);
      if st.s.phase == AwaitingConfirm {
        assert (r.acts + st.acts)[|r.acts| + 1] == ShowSas(SasEmoji(env.digest(st.s.sasInput.value)));
      }
    } else {
      PcFailOk(env, v, r, UnexpectedPairFrame);
    }
  }

  lemma PcFailOk(env: Env, v: World, r: PcRun, why: PairReason)
    requires PcOk(env, v, r)
    ensures var st := PcFail(r.p, why); PcOk(env, v, PcRun(st.s, r.acts + st.acts))
  {
    ShowedStays(r.acts, PcFail(r.p, why).acts);
  }

  lemma PcConfirmOk(env: Env, v: World, r: PcRun, f: SFrame, now: u64, e: Option<Secret>)
    requires PcOk(env, v, r) && r.p.phase == AwaitingConfirm && FrameOk(env, v, f)
    ensures var st := PcOnFrame(r.p, f, now, e, env.digest);
      PcOk(env, v, PcRun(st.s, r.acts + st.acts))
  {
    var st := PcOnFrame(r.p, f, now, e, env.digest);
    ShowedStays(r.acts, st.acts);
    if f.ty == PairConfirm && ReadOne(f.payload).Good? {
      OneShows(f);
      var k := Diffie(r.p.identity, r.p.peer.value.pk);
      assert st.s.phase == PcDone ==> KnownShared(env, k) || Issued(v, k, r.p.sasInput.value);
    }
  }

  lemma ShowedStays(a: seq<PairAction>, b: seq<PairAction>)
    ensures forall e :: Showed(a, e) ==> Showed(a + b, e)
    ensures Completes(a) ==> Completes(a + b)
  {
    if Completes(a) {
      var i :| 0 <= i < |a| && a[i].Completed?;
      assert (a + b)[i].Completed?;
    }
  }

  lemma PcFrames(env: Env, w: World, p: PcState, f: SFrame, now: u64, e: Option<Secret>)
    ensures forall g :: g in PairSends(PcOnFrame(p, f, now, e, env.digest).acts) ==> FrameOk(env, w, g)
  {
    PcSendsAck(p, f, now, e, env.digest);
    var st := PcOnFrame(p, f, now, e, env.digest);
    forall g | g in PairSends(st.acts) ensures FrameOk(env, w, g) {
      forall k, x ensures !Shows(g, Mac(k, x)) {
        if Shows(g, Mac(k, x)) {
          OneLeaves(Pub(e.value), Mac(k, x));
          assert false;
        }
      }
    }
  }

  /** The only frame a pairing PC sends is the PAIR_ACK with its ephemeral. */
  lemma PcSendsAck(p: PcState, f: SFrame, now: u64, e: Option<Secret>, digest: SasDigest)
    ensures forall g :: g in PairSends(PcOnFrame(p, f, now, e, digest).acts) ==>
      e.Some? && g == Frame(PairAck, Clear(Map(OneField(Pub(e.value)))))
  {
    if p.phase == AwaitingReq && f.ty == PairReq {
      ReqSendsAck(p, f.payload, now, e, digest);
    } else {
      PairLists();
    }
  }

  lemma ReqSendsAck(p: PcState, x: Payload, now: u64, e: Option<Secret>, digest: SasDigest)
    ensures forall g :: g in PairSends(OnPairReq(p, x, now, e, digest).acts) ==>
      e.Some? && g == Frame(PairAck, Clear(Map(OneField(Pub(e.value)))))
  {
    PairLists();
  }

  /** A phone pairing moves on. */
  lemma PhoneChangeKeeps(env: Env, v: World, w: World, i: nat)
    requires Inv(env, v) && i < |v.phones| && |w.phones| == |v.phones| && w == v.(phones := w.phones, sent := w.sent)
    requires forall j :: 0 <= j < |v.phones| && j != i ==> w.phones[j] == v.phones[j]
    requires PhoneOk(env, w.phones[i]) && PhoneLe(v.phones[i], w.phones[i])
    requires forall g :: g in w.sent && g !in v.sent ==> FrameOk(env, w, g)
    ensures Inv(env, w)
  {
    assert Grows(v, w);
    forall j | 0 <= j < |w.pcs| ensures PcOk(env, w, w.pcs[j]) {
      PcOkGrows(env, v, w, v.pcs[j]);
    }
    PairingsChange(env, v, w);
  }

  lemma PhoneFrameKeeps(env: Env, v: World, i: nat, f: SFrame)
    requires Inv(env, v) && i < |v.phones|
    ensures Inv(env, AfterPhone(v, i, PhoneOnFrame(v.phones[i].p, f, env.digest)))
  {
    var r := v.phones[i];
    assert PhoneOk(env, r);
    PhoneFrameOk(env, r, f);
    PhoneChangeKeeps(env, v, AfterPhone(v, i, PhoneOnFrame(r.p, f, env.digest)), i);
  }

  lemma PhoneFrameOk(env: Env, r: PhoneRun, f: SFrame)
    requires PhoneOk(env, r)
    ensures var r' := PhoneAfter(r, PhoneOnFrame(r.p, f, env.digest)); PhoneOk(env, r') && PhoneLe(r, r')
  {
    var st := PhoneOnFrame(r.p, f, env.digest);
    PairLists();
    ShowedStays(r.acts, st.acts);
    if st.s.phase == AwaitingUser {
      assert (r.acts + st.acts)[|r.acts|] == st.acts[0];
    }
  }

  lemma ConfirmKeeps(env: Env, v: World, i: nat, now: u64)
    requires Inv(env, v) && i < |v.phones|
    ensures Inv(env, AfterPhone(v, i, ConfirmSas(v.phones[i].p, now)))
  {
    var r := v.phones[i];
    assert PhoneOk(env, r);
    ConfirmOk(env, r, now);
    PhoneChangeKeeps(env, v, AfterPhone(v, i, ConfirmSas(r.p, now)), i);
  }

  lemma ConfirmOk(env: Env, r: PhoneRun, now: u64)
    requires PhoneOk(env, r)
    ensures var r' := PhoneAfter(r, ConfirmSas(r.p, now)); PhoneOk(env, r') && PhoneLe(r, r')
  {
    if r.p.phase == AwaitingUser {
      ConfirmInTurn(env, r, now);
    } else {
      ConfirmOutOfTurn(env, r, ConfirmBeforeSas);
    }
  }

  lemma ConfirmInTurn(env: Env, r: PhoneRun, now: u64)
    requires PhoneOk(env, r) && r.p.phase == AwaitingUser
    ensures var r' := PhoneAfter(r, ConfirmSas(r.p, now)); PhoneOk(env, r') && PhoneLe(r, r')
  {
    var st := ConfirmSas(r.p, now);
    PairLists();
    ShowedStays(r.acts, st.acts);
    assert (r.acts + st.acts)[|r.acts| + 1].Completed?;
  }

  lemma ConfirmOutOfTurn(env: Env, r: PhoneRun, why: PairReason)
    requires PhoneOk(env, r)
    ensures var r' := PhoneAfter(r, PhoneStep(r.p, [PairFailed(why)])); PhoneOk(env, r') && PhoneLe(r, r')
  {
    PairLists();
    ShowedStays(r.acts, [PairFailed(why)]);
  }

  lemma ReleaseKeeps(env: Env, v: World, i: nat)
    requires Inv(env, v) && i < |v.phones|
    ensures Inv(env, Released(v, i))
  {
    var r, w := v.phones[i], Released(v, i);
    assert PhoneOk(env, r);
    if r.held.Some? {
      var mac := Mac(Diffie(r.p.identity, r.p.qr.publicKey), r.p.sasInput.value);
      forall g | g in w.sent && g !in v.sent ensures FrameOk(env, w, g) {
        assert g == ConfirmFrame(r.p);
        forall k, x | Shows(g, Mac(k, x)) ensures Issued(w, k, x) {
          OneLeaves(mac, Mac(k, x));
          assert ConfirmBy(w.phones[i], k, x);
        }
      }
      PhoneChangeKeeps(env, v, w, i);
    }
  }

  lemma RejectKeeps(env: Env, v: World, i: nat)
    requires Inv(env, v) && i < |v.phones|
    ensures Inv(env, Rejected(v, i))
  {
    var r := v.phones[i];
    assert PhoneOk(env, r);
    PairLists();
    ShowedStays(r.acts, RejectSas(r.p).acts);
    PhoneChangeKeeps(env, v, Rejected(v, i), i);
  }

  // ------------------------------------------------------------------
  // All runs
  // ------------------------------------------------------------------

  lemma StepKeeps(env: Env, v: World, a: Input)
    requires Inv(env, v) && Enabled(env, v, a)
    ensures Inv(env, Apply(env, v, a))
  {
    match a
    case OpenPhone(identity, peer, now, eph) => OpenPhoneKeeps(env, v, identity, peer, now, eph);
    case OpenPc(identity, peers, now) => OpenPcKeeps(env, v, identity, peers, now);
    case Deliver(i, f, now, e) => DeliverKeeps(env, v, i, f, now, e);
    case Requested(i, q) => RequestKeeps(env, v, i, q);
    case Pause(i, b) => PauseKeeps(env, v, i, b);
    case Offer(identity, token, now) => OfferKeeps(env, v, identity, token, now);
    case Scanned(identity, name, qr, eph) => ScannedKeeps(env, v, identity, name, qr, eph);
    case DeliverToPc(i, f, now, e) => PcStepKeeps(env, v, i, f, now, e);
    case DeliverToPhone(i, f) => PhoneFrameKeeps(env, v, i, f);
    case Confirm(i, now) => ConfirmKeeps(env, v, i, now);
    case Release(i) => ReleaseKeeps(env, v, i);
    case Reject(i) => RejectKeeps(env, v, i);
  }

  lemma {:induction false} RunKeeps(env: Env, trace: seq<Input>, worlds: seq<World>, n: nat)
    requires Sound(env) && Run(env, trace, worlds) && n <= |trace|
    ensures Inv(env, worlds[n])
  {
    if n > 0 {
      RunKeeps(env, trace, worlds, n - 1);
      assert Stepped(env, trace, worlds, n - 1);
      StepKeeps(env, worlds[n - 1], trace[n - 1]);
    }
  }

  /** The invariant holds in every reachable world. */
  lemma ReachableInv(env: Env, w: World)
    requires Reachable(env, w)
    ensures Inv(env, w)
  {
    var trace, worlds :| Run(env, trace, worlds) && worlds[|trace|] == w;
    RunKeeps(env, trace, worlds, |trace|);
  }
}
