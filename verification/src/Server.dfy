/** The PC's side of a connection: the loop that puts a session's frames on the wire and answers its
    events from the stage ring (`run_session` and `handle_event` in apps/windows/src/server.rs). */
module Server {
  import opened Bytes
  import opened Common
  import opened Frames
  import opened Crypto
  import opened Messages
  import opened Stage
  import opened Sessions
  import opened Network
  import opened Effects
  import opened SessionObject

  /** What the outside contributes to the handling of one frame: the clock, the tray's pause switch,
      the stage ring, a fresh ephemeral, and how many writes the socket still takes. */
  datatype Moment = Moment(now: u64, paused: bool, ring: seq<StagedClip>, newEph: Option<Secret>, writes: nat)

  /** What the loop made of a frame: the session, the frames written, and whether it goes on. */
  datatype Served = Served(s: State, out: seq<SFrame>, goesOn: bool)

  function WholeItem(c: StagedClip): Item { Item(c.stageId, c.contentType, c.body) }

  /** The reply `handle_event` sends; an evicted clip is answered with an empty list. */
  function ReplyTo(e: Event, ring: seq<StagedClip>): Option<Sessions.Request> {
    match e
    case StageListRequested => Some(SendList(List(ring)))
    case StageItemRequested(id) =>
      var found := Find(ring, id);
      Some(if found.Some? then SendItem(WholeItem(found.value)) else SendList([]))
    case _ => None
  }

  function Then(a: Served, b: Served): Served { Served(b.s, a.out + b.out, b.goesOn) }

  lemma ThenAssociates(a: Served, b: Served, c: Served)
    ensures Then(a, Then(b, c)) == Then(Then(a, b), c)
  {
  }

  /** One action.  A Close, a failed reply and a failed write end the connection. */
  function PerformOne(s: State, a: Action, ring: seq<StagedClip>, writes: nat): (r: Served)
    ensures |r.out| <= writes
  {
    match a
    case Close(_) => Served(s, [], false)
    case Send(f) => if writes == 0 then Served(s, [], false) else Served(s, [f], true)
    case Emit(e) =>
      var q := ReplyTo(e, ring);
      if q.None? then Served(s, [], true) else
      var (t, r) := Ask(s, q.value);
      if r.Err? || writes == 0 then Served(t, [], false) else Served(t, [r.value], true)
  }

  /** The actions of one frame in order. */
  function Perform(s: State, acts: seq<Action>, ring: seq<StagedClip>, writes: nat): Served
    decreases |acts|
  {
    if acts == [] then Served(s, [], true) else
    var first := PerformOne(s, acts[0], ring, writes);
    if !first.goesOn then first else Then(first, Perform(first.s, acts[1..], ring, writes - |first.out|))
  }

  function ServeFrame(s: State, f: SFrame, m: Moment): Served {
    var st := OnFrame(s.(paused := m.paused), f, m.now, m.newEph);
    Perform(st.s, st.acts, m.ring, m.writes)
  }

  datatype Inbound = Inbound(f: SFrame, m: Moment)

  /** The whole connection: frames are handled until one ends it or there are no more. */
  function ServeAll(s: State, inbox: seq<Inbound>): Served
    decreases |inbox|
  {
    if inbox == [] then Served(s, [], false) else
    var first := ServeFrame(s, inbox[0].f, inbox[0].m);
    if !first.goesOn then first else Then(first, ServeAll(first.s, inbox[1..]))
  }

  // ------------------------------------------------------------------
  // The loops
  // ------------------------------------------------------------------

  /** `handle_event`, as far as the wire is concerned. */
  method HandleEvent(session: Session, e: Event, ring: seq<StagedClip>) returns (reply: Result<Option<SFrame>>)
    modifies session.channel
    ensures var q := ReplyTo(e, ring);
      if q.None? then session.Model() == old(session.Model()) && reply == Ok(None)
      else
        var (t, r) := Ask(old(session.Model()), q.value);
        session.Model() == t && reply == (if r.Ok? then Ok(Some(r.value)) else Err(r.error))
  {
    var r: Result<SFrame>;
    match e {
      case StageListRequested =>
        r := session.Ask(SendList(List(ring)));
      case StageItemRequested(id) =>
        var found := Find(ring, id);
        if found.Some? {
          r := session.Ask(SendItem(WholeItem(found.value)));
        } else {
          r := session.Ask(SendList([]));
        }
      case _ =>
        return Ok(None);
    }
    return if r.Ok? then Ok(Some(r.value)) else Err(r.error);
  }

  method PerformAction(session: Session, a: Action, ring: seq<StagedClip>, writes: nat)
    returns (out: seq<SFrame>, goesOn: bool)
    modifies session.channel
    ensures Served(session.Model(), out, goesOn) == PerformOne(old(session.Model()), a, ring, writes)
  {
    match a {
      case Close(_) =>
        return [], false;
      case Send(f) =>
        if writes == 0 {
          return [], false;
        }
        return [f], true;
      case Emit(e) =>
        var reply := HandleEvent(session, e, ring);
        if reply.Err? || (reply.value.Some? && writes == 0) {
          return [], false;
        }
        return if reply.value.Some? then [reply.value.value] else [], true;
    }
  }

  /** Performing the actions from `i` on after `done`: what is left once action `i` has given `one`. */
  lemma PerformStep(all: Served, done: Served, one: Served, acts: seq<Action>, i: nat, ring: seq<StagedClip>,
                    writes: nat)
    requires i < |acts| && one == PerformOne(done.s, acts[i], ring, writes)
    requires all == Then(done, Perform(done.s, acts[i..], ring, writes))
    ensures |one.out| <= writes
    ensures all ==
      if !one.goesOn then Served(one.s, done.out + one.out, false)
      else
        Then(Served(one.s, done.out + one.out, true), Perform(one.s, acts[i + 1..], ring, writes - |one.out|))
  {
    assert acts[i..][1..] == acts[i + 1..];
    if one.goesOn {
      ThenAssociates(done, one, Perform(one.s, acts[i + 1..], ring, writes - |one.out|));
    }
  }

  /** Action `i` of a list of which the first `i` have written `before`; `all` is what the list comes to. */
  method PerformNext(session: Session, acts: seq<Action>, i: nat, ring: seq<StagedClip>, writes: nat,
                     ghost all: Served, ghost before: seq<SFrame>) returns (out: seq<SFrame>, goesOn: bool)
    requires i < |acts|
    requires all == Then(Served(session.Model(), before, true), Perform(session.Model(), acts[i..], ring, writes))
    modifies session.channel
    ensures |out| <= writes
    ensures all ==
      if !goesOn then Served(session.Model(), before + out, false)
      else
        Then(Served(session.Model(), before + out, true),
             Perform(session.Model(), acts[i + 1..], ring, writes - |out|))
  {
    ghost var done := Served(session.Model(), before, true);
    out, goesOn := PerformAction(session, acts[i], ring, writes);
    PerformStep(all, done, Served(session.Model(), out, goesOn), acts, i, ring, writes);
  }

  method PerformAll(session: Session, acts: seq<Action>, ring: seq<StagedClip>, writes: nat)
    returns (out: seq<SFrame>, goesOn: bool)
    modifies session.channel
    ensures Served(session.Model(), out, goesOn) == Perform(old(session.Model()), acts, ring, writes)
  {
    out := [];
    var i := 0;
    ghost var all := Perform(session.Model(), acts, ring, writes);
    assert acts[0..] == acts;
    while i < |acts|
      invariant 0 <= i <= |acts| && |out| <= writes
      invariant all == Then(Served(session.Model(), out, true),
                            Perform(session.Model(), acts[i..], ring, writes - |out|))
    {
      var more, go := PerformNext(session, acts, i, ring, writes - |out|, all, out);
      out := out + more;
      if !go {
        return out, false;
      }
      i := i + 1;
    }
    assert acts[|acts|..] == [];
    return out, true;
  }

  /** One turn of `run_session`. */
  method ServeOne(session: Session, f: SFrame, m: Moment) returns (out: seq<SFrame>, goesOn: bool)
    modifies session, session.channel
    ensures Served(session.Model(), out, goesOn) == ServeFrame(old(session.Model()), f, m)
    ensures session.channel == old(session.channel) || fresh(session.channel)
  {
    session.SetPaused(m.paused);
    var acts := session.OnFrame(f, m.now, m.newEph);
    out, goesOn := PerformAll(session, acts, m.ring, m.writes);
  }

  /** The loop of `run_session` on a session that exists. */
  method ServeConnection(session: Session, inbox: seq<Inbound>) returns (out: seq<SFrame>)
    modifies session, session.channel
    ensures Served(session.Model(), out, false) == ServeAll(old(session.Model()), inbox)
  {
    out := [];
    var i := 0;
    ghost var all := ServeAll(session.Model(), inbox);
    while i < |inbox|
      invariant 0 <= i <= |inbox|
      invariant session.channel == old(session.channel) || fresh(session.channel)
      invariant all == Then(Served(session.Model(), out, true), ServeAll(session.Model(), inbox[i..]))
    {
      ghost var before := Served(session.Model(), out, true);
      ghost var one := ServeFrame(before.s, inbox[i].f, inbox[i].m);
      assert inbox[i..][1..] == inbox[i + 1..];
      ThenAssociates(before, one, ServeAll(one.s, inbox[i + 1..]));
      var more, goesOn := ServeOne(session, inbox[i].f, inbox[i].m);
      out := out + more;
      if !goesOn {
        return;
      }
      i := i + 1;
    }
  }

  /** `run_session`: a new session for the stored peers, served until the connection ends. */
  method RunSession(identity: Secret, knownPeers: seq<PeerKey>, now: u64, inbox: seq<Inbound>)
    returns (session: Session, out: seq<SFrame>)
    ensures fresh(session)
    ensures Served(session.Model(), out, false) == ServeAll(Sessions.NewPc(identity, knownPeers, now), inbox)
  {
    session := new Session.NewPc(identity, knownPeers, now);
    out := ServeConnection(session, inbox);
  }

  // ------------------------------------------------------------------
  // Wire order is seal order
  // ------------------------------------------------------------------

  /** Handling this action seals a frame after the session has already returned its list. */
  predicate SealsLate(a: Action, ring: seq<StagedClip>) {
    a.Emit? && ReplyTo(a.event, ring).Some?
  }

  /** An event whose handler seals a reply is alone in its action list, so it never precedes a frame
      that was sealed before it.  True of every state and every frame. */
  lemma LateSealsAreAlone(s: State, f: SFrame, now: u64, newEph: Option<Secret>, ring: seq<StagedClip>, i: nat)
    requires i < |OnFrame(s, f, now, newEph).acts| && SealsLate(OnFrame(s, f, now, newEph).acts[i], ring)
    ensures |OnFrame(s, f, now, newEph).acts| == 1
  {
    if s.phase == Phase.Open && IsEncrypted(f.ty) && s.channel.Some? {
      var (ch, r) := Crypto.Open(s.channel.value, f.ty, AsCipher(f.payload));
      if r.Ok? {
        PlainLateSeals(s.(lastActivity := now, channel := Some(ch)), f.ty, r.value, ring, i);
      }
    }
  }

  lemma PlainLateSeals(s: State, ty: FrameType, plain: seq<byte>, ring: seq<StagedClip>, i: nat)
    requires i < |OnPlain(s, ty, plain).acts| && SealsLate(OnPlain(s, ty, plain).acts[i], ring)
    ensures |OnPlain(s, ty, plain).acts| == 1
  {
    match ty
    case ClipPush => PushSealsNothingLate(s, plain, ring, i);
    case _ =>
  }

  lemma PushSealsNothingLate(s: State, plain: seq<byte>, ring: seq<StagedClip>, i: nat)
    requires i < |OnClipPush(s, plain).acts|
    ensures !SealsLate(OnClipPush(s, plain).acts[i], ring)
  {
  }

  /** Without such events the loop writes a prefix of the frames the session returned, and all of them if
      it goes on. */
  lemma {:induction false} NothingLate(s: State, acts: seq<Action>, ring: seq<StagedClip>, writes: nat)
    requires forall i :: 0 <= i < |acts| ==> !SealsLate(acts[i], ring)
    ensures var r := Perform(s, acts, ring, writes);
      r.s == s && r.out <= Sends(acts) && (r.goesOn ==> r.out == Sends(acts) && Stays(acts))
    decreases |acts|
  {
    if acts != [] {
      NotLate(s, acts[0], ring, writes);
      var one := PerformOne(s, acts[0], ring, writes);
      if one.goesOn {
        NothingLate(s, acts[1..], ring, writes - |one.out|);
        Promptly(s, acts, one, Perform(s, acts[1..], ring, writes - |one.out|));
      }
    }
  }

  /** One prompt action before prompt ones. */
  lemma Promptly(s: State, acts: seq<Action>, one: Served, rest: Served)
    requires acts != [] && !acts[0].Close? && one == Served(s, if acts[0].Send? then [acts[0].frame] else [], true)
    requires rest.s == s && rest.out <= Sends(acts[1..])
    requires rest.goesOn ==> rest.out == Sends(acts[1..]) && Stays(acts[1..])
    ensures var r := Then(one, rest);
      r.s == s && r.out <= Sends(acts) && (r.goesOn ==> r.out == Sends(acts) && Stays(acts))
  {
    PrefixUnder(one.out, rest.out, Sends(acts[1..]));
    if rest.goesOn {
      StaysCons(acts);
    }
  }

  /** No action closes the session. */
  predicate Stays(acts: seq<Action>) { forall i :: 0 <= i < |acts| ==> !acts[i].Close? }

  lemma StaysCons(acts: seq<Action>)
    requires acts != [] && !acts[0].Close?
    ensures Stays(acts[1..]) ==> Stays(acts)
  {
    assert forall i :: 1 <= i < |acts| ==> acts[i] == acts[1..][i - 1];
  }

  lemma NotLate(s: State, a: Action, ring: seq<StagedClip>, writes: nat)
    requires !SealsLate(a, ring)
    ensures PerformOne(s, a, ring, writes) ==
      if a.Close? || (a.Send? && writes == 0) then Served(s, [], false)
      else Served(s, if a.Send? then [a.frame] else [], true)
  {
  }

  lemma PrefixUnder(a: seq<SFrame>, b: seq<SFrame>, c: seq<SFrame>)
    requires b <= c
    ensures a + b <= a + c
  {
  }

  /** `out` continues the counters of `from`, one by one, under its key and each frame's own type,
      and `to` is past them all. */
  ghost predicate InSealOrder(out: seq<SFrame>, from: Direction, to: Direction) {
    to.key == from.key && from.ctr + |out| <= to.ctr &&
    forall k :: 0 <= k < |out| ==> SealedAt(out[k], from.key, from.ctr + k)
  }

  predicate SealedAt(f: SFrame, key: SessionKey, ctr: int) {
    f.payload.Coded? && f.payload.c.Sealed? && f.payload.c.ctr == ctr &&
    f.payload.c.box == Box(key, f.payload.c.ctr, f.ty, f.payload.c.box.plain)
  }

  /** What a turn or a connection does to the transmit direction: the frames written continue its
      counters, and as long as the connection goes on there is none that was sealed and not written. */
  ghost predicate Continues(r: Served, tx: Direction) {
    StateOk(r.s) && r.s.channel.Some? && InSealOrder(r.out, tx, r.s.channel.value.tx) &&
    (r.goesOn ==> r.s.channel.value.tx.ctr == tx.ctr + |r.out|)
  }

  /** One turn, whatever arrives and whenever the socket fails. */
  lemma WireOrder(s: State, f: SFrame, m: Moment)
    requires StateOk(s) && s.channel.Some?
    ensures Continues(ServeFrame(s, f, m), s.channel.value.tx)
  {
    var s0 := s.(paused := m.paused);
    var st := OnFrame(s0, f, m.now, m.newEph);
    var q := FrameStep(s0, f, m.now, m.newEph);
    SentInOrder(s0.(lastActivity := m.now), f, m.now, m.newEph, st, q);
    forall i | 0 <= i < |st.acts| && SealsLate(st.acts[i], m.ring) ensures |st.acts| == 1 {
      LateSealsAreAlone(s0, f, m.now, m.newEph, m.ring, i);
    }
    WrittenInOrder(s0.channel.value.tx, st, m);
  }

  lemma WrittenInOrder(tx: Direction, st: Step, m: Moment)
    requires StateOk(st.s) && st.s.channel.Some? && InSealOrder(Sends(st.acts), tx, st.s.channel.value.tx)
    requires st.s.channel.value.tx.ctr == tx.ctr + |Sends(st.acts)|
    requires forall i :: 0 <= i < |st.acts| && SealsLate(st.acts[i], m.ring) ==> |st.acts| == 1
    ensures Continues(Perform(st.s, st.acts, m.ring, m.writes), tx)
  {
    if i :| 0 <= i < |st.acts| && SealsLate(st.acts[i], m.ring) {
      assert st.acts == [Emit(st.acts[0].event)];
      ShortLists();
      LateReply(st.s, st.acts[0].event, st.acts, m.ring, m.writes);
    } else {
      NothingLate(st.s, st.acts, m.ring, m.writes);
    }
  }

  lemma SentInOrder(s: State, f: SFrame, now: u64, newEph: Option<Secret>, st: Step, q: Sealing)
    requires s.channel.Some?
    requires Quiet(s, st) || PcJoined(s, f, now, newEph, st) || PhoneJoined(s, f, st) || Traffic(s, f, st, q)
    ensures st.s.channel.Some? && InSealOrder(Sends(st.acts), s.channel.value.tx, st.s.channel.value.tx)
    ensures st.s.channel.value.tx.ctr == s.channel.value.tx.ctr + |Sends(st.acts)|
  {
    if Quiet(s, st) {
      ShortLists();
      assert st.acts == [st.acts[0]];
    } else {
      TrafficInOrder(s, f, st, q);
    }
  }

  lemma TrafficInOrder(s: State, f: SFrame, st: Step, q: Sealing)
    requires Traffic(s, f, st, q)
    ensures st.s.channel.Some? && InSealOrder(Sends(st.acts), s.channel.value.tx, st.s.channel.value.tx)
    ensures st.s.channel.value.tx.ctr == s.channel.value.tx.ctr + |Sends(st.acts)|
  {
  }

  /** A whole connection from any established state: its encrypted frames reach the wire with
      consecutive counters, without a gap or a repetition, over all turns. */
  lemma {:induction false} ConnectionOrder(s: State, inbox: seq<Inbound>)
    requires StateOk(s) && s.channel.Some?
    ensures Continues(ServeAll(s, inbox), s.channel.value.tx)
    decreases |inbox|
  {
    if inbox != [] {
      var first := ServeFrame(s, inbox[0].f, inbox[0].m);
      WireOrder(s, inbox[0].f, inbox[0].m);
      if first.goesOn {
        ConnectionOrder(first.s, inbox[1..]);
        OrdersJoin(s.channel.value.tx, first, ServeAll(first.s, inbox[1..]));
      }
    }
  }

  lemma OrdersJoin(tx: Direction, a: Served, b: Served)
    requires Continues(a, tx) && a.goesOn && Continues(b, a.s.channel.value.tx)
    ensures Continues(Then(a, b), tx)
  {
    var out := a.out + b.out;
    forall k | 0 <= k < |out| ensures SealedAt(out[k], tx.key, tx.ctr + k) {
      if k >= |a.out| {
        assert SealedAt(b.out[k - |a.out|], tx.key, a.s.channel.value.tx.ctr + (k - |a.out|));
      }
    }
  }

  /** What a new connection writes: nothing, or a plaintext HELLO_ACK and then sealed frames with the
      counters 0, 1, 2 and so on. */
  ghost predicate WellFormedOutput(r: Served) {
    r.out == [] ||
    (r.out[0].ty == HelloAck && r.out[0].payload.Clear? && r.s.channel.Some? &&
     var tx := r.s.channel.value.tx; InSealOrder(r.out[1..], Direction(tx.key, 0, false), tx))
  }

  lemma NewConnectionOrder(identity: Secret, knownPeers: seq<PeerKey>, now: u64, inbox: seq<Inbound>)
    ensures WellFormedOutput(ServeAll(Sessions.NewPc(identity, knownPeers, now), inbox))
  {
    if inbox != [] {
      var s := Sessions.NewPc(identity, knownPeers, now);
      var first := ServeFrame(s, inbox[0].f, inbox[0].m);
      FirstTurn(s, inbox[0].f, inbox[0].m);
      if first.goesOn {
        ConnectionOrder(first.s, inbox[1..]);
        var rest := ServeAll(first.s, inbox[1..]);
        assert (first.out + rest.out)[1..] == rest.out;
      }
    }
  }

  /** The first frame is refused, or answered with a HELLO_ACK if the socket takes it. */
  lemma FirstTurn(s: State, f: SFrame, m: Moment)
    requires StateOk(s) && s.phase == AwaitingHello && s.role == Pc
    ensures var r := ServeFrame(s, f, m);
      if !r.goesOn then r.out == []
      else
        |r.out| == 1 && r.out[0].ty == HelloAck && r.out[0].payload.Clear? && StateOk(r.s) && r.s.channel.Some? &&
        r.s.channel.value.tx.ctr == 0
  {
    var s0 := s.(paused := m.paused);
    var st := OnFrame(s0, f, m.now, m.newEph);
    var q := FrameStep(s0, f, m.now, m.newEph);
    if |st.acts| == 2 {
      SendThenTell(st.s, st.acts[0].frame, st.acts[1].event, m.ring, m.writes);
    } else {
      assert st.acts == [st.acts[0]];
    }
  }

  lemma SendThenTell(s: State, f: SFrame, e: Event, ring: seq<StagedClip>, writes: nat)
    requires ReplyTo(e, ring).None?
    ensures Perform(s, [Send(f), Emit(e)], ring, writes) ==
      if writes == 0 then Served(s, [], false) else Served(s, [f], true)
  {
    var acts := [Send(f), Emit(e)];
    assert acts[1..] == [Emit(e)] && [Emit(e)][1..] == [];
    if writes > 0 {
      assert Perform(s, acts[1..], ring, writes - 1) == Served(s, [], true);
    }
  }

  lemma LateReply(s: State, e: Event, acts: seq<Action>, ring: seq<StagedClip>, writes: nat)
    requires s.channel.Some? && acts == [Emit(e)] && ReplyTo(e, ring).Some?
    ensures var r := Perform(s, acts, ring, writes);
      r.s.channel.Some? && InSealOrder(r.out, s.channel.value.tx, r.s.channel.value.tx)
    ensures var r := Perform(s, acts, ring, writes); var q := ReplyTo(e, ring).value;
      r.s == Ask(s, q).0 && r.goesOn == (Ask(s, q).1.Ok? && writes > 0) &&
      r.out == if r.goesOn then [Ask(s, q).1.value] else []
  {
    assert acts[1..] == [];
  }
}
