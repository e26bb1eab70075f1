/** Reachable worlds in which the guarantees have something to say: a beamed clip, a fetched item and a
    completed pairing, with every frame passed on as it is. */
module HonestRuns {
  import opened Bytes
  import opened Common
  import opened Crypto
  import opened Messages
  import opened Stage
  import opened Sessions
  import opened Network
  import opened Effects
  import opened Invariant
  import opened Guarantees
  import opened Preservation
  import opened Sizes
  import opened Witness
  import L = OrderedLink
  import V = Server
  import X = Exchanges
  import C = Client

  /** The two sessions of a world as the ends of an idle ordered connection. */
  function LinkOf(w: World): L.Link
    requires |w.sessions| == 2
  {
    L.Link(w.sessions[0].s, w.sessions[1].s, [], [], true)
  }

  /** Everything the handshake theorem asks of two honest devices. */
  ghost predicate Meeting(env: Env, c: L.Setup, r: Secret, now: u64) {
    Sound(env) && L.Paired(c) && c.phone in env.honest && c.pc in env.honest && L.InTime(c, now) &&
    c.eph !in env.honest + env.compromised && r !in env.honest + env.compromised + {c.eph} &&
    forall i :: 0 <= i < |c.peers| ==> WfPeer(c.peers[i])
  }

  lemma Met(env: Env, c: L.Setup, r: Secret, now: u64) returns (w: World)
    requires Meeting(env, c, r, now)
    ensures Reachable(env, w) && Trusts(env, w, 0, c.pc) && |w.sessions| == 2 && w.sessions[0].sealed == []
    ensures X.Ready(LinkOf(w)) && X.Room(LinkOf(w), 1) && !w.sessions[1].s.paused && StateOk(w.sessions[0].s)
  {
    w := HandshakeReachable(env, c, r, now);
    ReachableInv(env, w);
    assert SessionOk(env, w.sessions[0]);
  }

  /** The phone asks: its frame is on the network. */
  lemma Asks(env: Env, v: World, q: Sessions.Request) returns (w: World, f: SFrame)
    requires Reachable(env, v) && |v.sessions| == 2 && WfRequest(q) && Ask(v.sessions[0].s, q).1.Ok?
    ensures Reachable(env, w) && f == Ask(v.sessions[0].s, q).1.value && f in w.sent && |w.sessions| == 2
    ensures w.sessions[0] == AfterRequest(v.sessions[0], q) && w.sessions[1] == v.sessions[1]
  {
    Next(env, v, Requested(0, q));
    w := Asked(v, 0, q);
    f := Ask(v.sessions[0].s, q).1.value;
  }

  /** A frame on the network is delivered: what it makes the session send is on the network too. */
  lemma Passes(env: Env, v: World, i: nat, f: SFrame, now: u64) returns (w: World)
    requires Reachable(env, v) && i < |v.sessions| && f in v.sent
    ensures Reachable(env, w) && w.sessions == v.sessions[i := AfterFrame(v.sessions[i], f, now, None)]
    ensures forall g :: g in v.sent || g in Sends(OnFrame(v.sessions[i].s, f, now, None).acts) ==> g in w.sent
  {
    SentIsDeliverable(env, v, f);
    Next(env, v, Deliver(i, f, now, None));
    w := Delivered(v, i, f, now, None);
  }

  /** The phone asks, the PC reads, and what the PC's session sends in answer is under way. */
  lemma Carried(env: Env, v: World, q: Sessions.Request, g: SFrame, now: u64) returns (w: World)
    requires Reachable(env, v) && |v.sessions| == 2 && WfRequest(q) && Ask(v.sessions[0].s, q).1.Ok?
    requires g in Sends(OnFrame(v.sessions[1].s, Ask(v.sessions[0].s, q).1.value, now, None).acts)
    ensures Reachable(env, w) && |w.sessions| == 2 && g in w.sent && w.sessions[0] == AfterRequest(v.sessions[0], q)
  {
    var v1, f := Asks(env, v, q);
    w := Passes(env, v1, 1, f, now);
  }

  function Now(now: u64, ring: seq<StagedClip>): V.Moment { V.Moment(now, false, ring, None, 1) }

  /** A session that has joined stays with its peer. */
  lemma StaysJoined(run: SessionRun, f: SFrame, now: u64)
    requires StateOk(run.s) && Joined(run)
    ensures var end := AfterFrame(run, f, now, None); Joined(end) && end.s.peer == run.s.peer
  {
    var q := FrameStep(run.s, f, now, None);
  }

  /** A clip within the limits can be beamed: there is a run whose end meets every hypothesis of
      `Client.BeamedMeansArrived`. */
  lemma BeamReachable(env: Env, c: L.Setup, r: Secret, now: u64, clip: Clip)
    returns (w: World, run: SessionRun, inbox: seq<C.Arrived>)
    requires Meeting(env, c, r, now)
    requires WfRequest(PushClip(clip)) && WriteClip(clip).Ok? && |clip.body| <= MAX_TEXT_CLIP
    requires FitsFrame(WriteClip(clip).value)
    ensures Reachable(env, w) && Trusts(env, w, 0, c.pc) && DistinctClips(w.sessions[0])
    ensures Ask(run.s, PushClip(clip)).1.Ok?
    ensures var end := C.AskAndWait(run.s, PushClip(clip), inbox, C.ForAck(clip.id));
      end.result == C.Success(clip.id) &&
      w.sessions[0] == C.RunThrough(AfterRequest(run, PushClip(clip)), inbox[..end.used])
  {
    var v, g;
    v, run, g := BeamAnswered(env, c, r, now, clip);
    w := Passes(env, v, 0, g, now);
    inbox := [C.Arrived(g, now)];
    StaysJoined(v.sessions[0], g, now);
    OneRead(AfterRequest(run, PushClip(clip)), inbox, C.ForAck(clip.id));
    ShortLists();
    OnlyPush(run, clip, g, now);
  }

  /** The PC has taken the clip and its acknowledgement is under way. */
  lemma BeamAnswered(env: Env, c: L.Setup, r: Secret, now: u64, clip: Clip)
    returns (w: World, run: SessionRun, g: SFrame)
    requires Meeting(env, c, r, now)
    requires WfRequest(PushClip(clip)) && WriteClip(clip).Ok? && |clip.body| <= MAX_TEXT_CLIP
    requires FitsFrame(WriteClip(clip).value)
    ensures Reachable(env, w) && |w.sessions| == 2 && g in w.sent && run.sealed == [] && Joined(run) && StateOk(run.s)
    ensures run.s.peer.value.publicKey == Pub(c.pc) && c.pc in env.honest
    ensures w.sessions[0] == AfterRequest(run, PushClip(clip)) && Ask(run.s, PushClip(clip)).1.Ok?
    ensures C.AskAndWait(run.s, PushClip(clip), [C.Arrived(g, now)], C.ForAck(clip.id)).result == C.Success(clip.id)
    ensures OnFrame(w.sessions[0].s, g, now, None).acts == [Emit(ClipAcked(clip.id, 0))]
  {
    var v := Met(env, c, r, now);
    run := v.sessions[0];
    g := BeamOverLink(LinkOf(v), clip, now);
    w := Carried(env, v, PushClip(clip), g, now);
  }

  /** The same exchange seen on the link. */
  lemma BeamOverLink(l: L.Link, clip: Clip, now: u64) returns (g: SFrame)
    requires X.Ready(l) && X.Room(l, 1) && !l.pc.paused
    requires WfRequest(PushClip(clip)) && WriteClip(clip).Ok? && |clip.body| <= MAX_TEXT_CLIP
    requires FitsFrame(WriteClip(clip).value)
    ensures Ask(l.phone, PushClip(clip)).1.Ok?
    ensures g in Sends(OnFrame(l.pc, Ask(l.phone, PushClip(clip)).1.value, now, None).acts)
    ensures C.AskAndWait(l.phone, PushClip(clip), [C.Arrived(g, now)], C.ForAck(clip.id)).result == C.Success(clip.id)
    ensures OnFrame(Ask(l.phone, PushClip(clip)).0, g, now, None).acts == [Emit(ClipAcked(clip.id, 0))]
  {
    var m := Now(now, []);
    X.AskSeals(l.phone, PushClip(clip));
    g := AckWritten(l, clip, m);
    X.BeamSucceeds(l, clip, m, now);
    X.Beams(l, clip, m, now, 0);
    assert l.pc.(paused := m.paused) == l.pc;
  }

  /** One frame that decides is one frame read. */
  lemma OneRead<T>(run: SessionRun, inbox: seq<C.Arrived>, verdict: C.Verdict<T>)
    requires |inbox| == 1 && C.Await(run.s, inbox, verdict).result.Success?
    ensures C.Await(run.s, inbox, verdict).used == 1
    ensures C.RunThrough(run, inbox[..1]) == AfterFrame(run, inbox[0].f, inbox[0].now, None)
  {
    assert inbox[..1] == inbox && inbox[1..] == [];
  }

  lemma OnlyPush(run: SessionRun, clip: Clip, g: SFrame, now: u64)
    requires run.sealed == [] && Ask(run.s, PushClip(clip)).1.Ok?
    requires Sends(OnFrame(AfterRequest(run, PushClip(clip)).s, g, now, None).acts) == []
    ensures DistinctClips(AfterFrame(AfterRequest(run, PushClip(clip)), g, now, None))
  {
    C.PushRecorded(run, clip);
    assert |AfterFrame(AfterRequest(run, PushClip(clip)), g, now, None).sealed| == 1;
  }

  /** The acknowledgement the PC's session sends is the frame on its way down. */
  lemma AckWritten(l: L.Link, clip: Clip, m: V.Moment) returns (g: SFrame)
    requires X.Ready(l) && X.Room(l, 1) && X.Beamable(l, clip, m)
    ensures X.AfterReply(l, PushClip(clip), m).down == [g]
    ensures X.AfterAsk(l, PushClip(clip)).up == [Ask(l.phone, PushClip(clip)).1.value]
    ensures g in Sends(L.Returned(X.AfterAsk(l, PushClip(clip)), L.PcReads(m)))
  {
    X.ClipArrives(l, clip, m);
    ShortLists();
    X.AskReaches(l, PushClip(clip), m);
    var l1 := X.AfterAsk(l, PushClip(clip));
    var st := OnFrame(l1.pc.(paused := m.paused), l1.up[0], m.now, m.newEph);
    g := st.acts[1].frame;
    X.TellThenSend(st.s, st.acts[0].event, g, m.ring, m.writes);
    assert st.acts == [st.acts[0], st.acts[1]];
  }

  // ------------------------------------------------------------------
  // Fetching
  // ------------------------------------------------------------------

  /** The phone asks, the PC reads and its application answers with `reply`. */
  lemma Replied(env: Env, v: World, q: Sessions.Request, reply: Sessions.Request, g: SFrame, now: u64)
    returns (w: World)
    requires Reachable(env, v) && |v.sessions| == 2 && WfRequest(q) && WfRequest(reply) && Ask(v.sessions[0].s, q).1.Ok?
    requires Ask(OnFrame(v.sessions[1].s, Ask(v.sessions[0].s, q).1.value, now, None).s, reply).1 == Ok(g)
    ensures Reachable(env, w) && |w.sessions| == 2 && g in w.sent && w.sessions[0] == AfterRequest(v.sessions[0], q)
  {
    var v1, f := Asks(env, v, q);
    var v2 := Passes(env, v1, 1, f, now);
    Next(env, v2, Requested(1, reply));
    w := Asked(v2, 1, reply);
  }

  /** A staged clip can be fetched: there is a run whose end meets every hypothesis of
      `Client.FetchedIsAuthentic`. */
  lemma FetchReachable(env: Env, c: L.Setup, r: Secret, now: u64, clip: StagedClip)
    returns (w: World, run: SessionRun, inbox: seq<C.Arrived>)
    requires Meeting(env, c, r, now) && |clip.stageId| == 8 && Stage.Fits(clip)
    ensures Reachable(env, w) && Trusts(env, w, 0, c.pc)
    ensures var end := C.Await(run.s, inbox, C.ForItem(clip.stageId));
      end.result == C.Success(V.WholeItem(clip)) && w.sessions[0] == C.RunThrough(run, inbox[..end.used])
  {
    var v := Met(env, c, r, now);
    var g := FetchOverLink(LinkOf(v), clip, now);
    var q := AskItem(clip.stageId);
    run := AfterRequest(v.sessions[0], q);
    AskStaysJoined(v.sessions[0], q);
    var u := Replied(env, v, q, SendItem(V.WholeItem(clip)), g, now);
    w := Passes(env, u, 0, g, now);
    StaysJoined(run, g, now);
    inbox := [C.Arrived(g, now)];
    OneRead(run, inbox, C.ForItem(clip.stageId));
  }

  lemma AskStaysJoined(run: SessionRun, q: Sessions.Request)
    requires StateOk(run.s) && Joined(run)
    ensures var end := AfterRequest(run, q);
      StateOk(end.s) && Joined(end) && end.s.peer == run.s.peer && end.s == Ask(run.s, q).0
  {
    var x := AskStep(run.s, q);
  }

  lemma FetchOverLink(l: L.Link, clip: StagedClip, now: u64) returns (g: SFrame)
    requires X.Ready(l) && X.Room(l, 1) && !l.pc.paused && |clip.stageId| == 8 && Stage.Fits(clip)
    ensures Ask(l.phone, AskItem(clip.stageId)).1.Ok?
    ensures var f := Ask(l.phone, AskItem(clip.stageId)).1.value;
      Ask(OnFrame(l.pc, f, now, None).s, SendItem(V.WholeItem(clip))).1 == Ok(g)
    ensures C.AskAndWait(l.phone, AskItem(clip.stageId), [C.Arrived(g, now)], C.ForItem(clip.stageId)).result ==
      C.Success(V.WholeItem(clip))
  {
    var id, m := clip.stageId, Now(now, [clip]);
    X.FetchSucceeds(l, id, m, now);
    X.GetReads(id);
    X.AskSeals(l.phone, AskItem(id));
    g := ReplyWritten(l, AskItem(id), StageItemRequested(id), m);
  }

  /** The frame on its way down is the server's reply, sealed after the session has read the request. */
  lemma ReplyWritten(l: L.Link, q: Sessions.Request, e: Event, m: V.Moment) returns (g: SFrame)
    requires X.Ready(l) && X.Room(l, 1) && l.pc.paused == m.paused && m.newEph == None && RequestPlain(q).Ok?
    requires X.Says(RequestType(q), RequestPlain(q).value, e) && V.ReplyTo(e, m.ring).Some?
    requires X.AfterReply(l, q, m).down != [] && Ask(l.phone, q).1.Ok?
    ensures X.AfterReply(l, q, m).down[0] == g
    ensures Ask(OnFrame(l.pc, Ask(l.phone, q).1.value, m.now, None).s, V.ReplyTo(e, m.ring).value).1 == Ok(g)
  {
    X.AskReaches(l, q, m);
    assert l.pc.(paused := m.paused) == l.pc;
    var st := OnFrame(l.pc, Ask(l.phone, q).1.value, m.now, None);
    V.LateReply(st.s, e, st.acts, m.ring, m.writes);
    g := X.AfterReply(l, q, m).down[0];
  }
}
