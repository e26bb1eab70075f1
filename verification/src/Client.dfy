/** The phone's operations on an open connection: send a request, then read frames until one of the
    session's actions decides the outcome (`Connection` in client.rs).  The frames a socket would
    deliver before the timeout are a parameter. */
module Client {
  import opened Bytes
  import opened Common
  import opened Frames
  import opened Crypto
  import opened Messages
  import opened Stage
  import S = Sessions
  import opened Sessions
  import opened Network
  import opened Guarantees
  import opened SessionObject
  import opened Sizes

  datatype Arrived = Arrived(f: SFrame, now: u64)

  /** How an operation ends.  `Unsent`: the frame encoder refused the request.  `NoReply`: the
      connection ended or timed out first. */
  datatype Outcome<+T> =
    | Success(value: T) | TooLarge | Failed(error: Error) | Unsent | Refused(status: byte)
    | PeerSaid(code: u16, msg: string) | ClosedFor(why: Reason) | NotStaged | NoReply

  type Verdict<!T> = Action -> Option<Outcome<T>>

  /** `beam` waits for the acknowledgement of its own clip id. */
  function ForAck(id: seq<byte>): Verdict<seq<byte>> {
    (a: Action) =>
      match a
      case Emit(ClipAcked(got, status)) =>
        if got != id then None else Some(if status == 0 then Success(id) else Refused(status))
      case Emit(PeerError(code, msg)) => Some(PeerSaid(code, msg))
      case Close(why) => Some(ClosedFor(why))
      case _ => None
  }

  function ForList(): Verdict<seq<StageMeta>> {
    (a: Action) =>
      match a
      case Emit(StageListed(metas)) => Some(Success(metas))
      case Emit(PeerError(code, msg)) => Some(PeerSaid(code, msg))
      case Close(why) => Some(ClosedFor(why))
      case _ => None
  }

  /** `stage_item` takes only the item it asked for; any list means the clip is gone. */
  function ForItem(id: seq<byte>): Verdict<Item> {
    (a: Action) =>
      match a
      case Emit(StageFetched(item)) => if item.id == id then Some(Success(item)) else None
      case Emit(StageListed(_)) => Some(NotStaged)
      case Close(why) => Some(ClosedFor(why))
      case _ => None
  }

  /** What the first decisive action of a list decides. */
  function Decide<T>(acts: seq<Action>, verdict: Verdict<T>): Option<Outcome<T>> {
    if acts == [] then None
    else if verdict(acts[0]).Some? then verdict(acts[0]) else Decide(acts[1..], verdict)
  }

  /** The session afterwards, the outcome, and how many frames were read. */
  datatype Waited<+T> = Waited(s: State, result: Outcome<T>, used: nat)

  function Await<T>(s: State, inbox: seq<Arrived>, verdict: Verdict<T>): (w: Waited<T>)
    ensures w.used <= |inbox|
    decreases |inbox|
  {
    if inbox == [] then Waited(s, NoReply, 0) else
    var st := OnFrame(s, inbox[0].f, inbox[0].now, None);
    var d := Decide(st.acts, verdict);
    if d.Some? then Waited(st.s, d.value, 1) else
    var rest := Await(st.s, inbox[1..], verdict);
    rest.(used := rest.used + 1)
  }

  // ------------------------------------------------------------------
  // The loops
  // ------------------------------------------------------------------

  method DecideNow<T>(acts: seq<Action>, verdict: Verdict<T>) returns (d: Option<Outcome<T>>)
    ensures d == Decide(acts, verdict)
  {
    var i := 0;
    while i < |acts|
      invariant 0 <= i <= |acts|
      invariant Decide(acts, verdict) == Decide(acts[i..], verdict)
    {
      var v := verdict(acts[i]);
      if v.Some? {
        return v;
      }
      assert acts[i..][1..] == acts[i + 1..];
      i := i + 1;
    }
    return None;
  }

  method AwaitReply<T>(session: Session, inbox: seq<Arrived>, verdict: Verdict<T>)
    returns (r: Outcome<T>, used: nat)
    modifies session, session.channel
    ensures Waited(session.Model(), r, used) == Await(old(session.Model()), inbox, verdict)
  {
    used := 0;
    ghost var all := Await(session.Model(), inbox, verdict);
    while used < |inbox|
      invariant 0 <= used <= |inbox|
      invariant session.channel == old(session.channel) || fresh(session.channel)
      invariant var rest := Await(session.Model(), inbox[used..], verdict);
        all == rest.(used := rest.used + used)
    {
      assert inbox[used..][1..] == inbox[used + 1..];
      var acts := session.OnFrame(inbox[used].f, inbox[used].now, None);
      used := used + 1;
      var d := DecideNow(acts, verdict);
      if d.Some? {
        return d.value, used;
      }
    }
    return NoReply, used;
  }

  /** The frame encoder refuses this frame. */
  predicate TooLong(f: SFrame) { f.payload.Coded? && f.payload.c.Sealed? && !FitsFrame(f.payload.c.box.plain) }

  /** What asking, sending and waiting amounts to.  A refused frame has used up its counter. */
  function AskAndWait<T>(s: State, q: S.Request, inbox: seq<Arrived>, verdict: Verdict<T>): Waited<T> {
    var (t, f) := Ask(s, q);
    if f.Err? then Waited(t, Failed(f.error), 0)
    else if TooLong(f.value) then Waited(t, Unsent, 0)
    else Await(t, inbox, verdict)
  }

  /** `beam`: an oversize clip is refused before anything is sealed. */
  method Beam(session: Session, id: seq<byte>, contentType: ContentType, body: seq<byte>, name: string, now: u64,
              inbox: seq<Arrived>) returns (r: Outcome<seq<byte>>, used: nat)
    modifies session, session.channel
    ensures Waited(session.Model(), r, used) ==
      if |body| > MAX_TEXT_CLIP then Waited(old(session.Model()), TooLarge, 0)
      else AskAndWait(old(session.Model()), PushClip(Clip(id, ContentCode(contentType), body, now, name)), inbox,
        ForAck(id))
  {
    if |body| > MAX_TEXT_CLIP {
      return TooLarge, 0;
    }
    var frame := session.PushClip(id, contentType, body, name, now);
    if frame.Err? {
      return Failed(frame.error), 0;
    }
    if TooLong(frame.value) {
      return Unsent, 0;
    }
    r, used := AwaitReply(session, inbox, ForAck(id));
  }

  method ListStage(session: Session, inbox: seq<Arrived>) returns (r: Outcome<seq<StageMeta>>, used: nat)
    modifies session, session.channel
    ensures Waited(session.Model(), r, used) == AskAndWait(old(session.Model()), AskList, inbox, ForList())
  {
    var frame := session.Ask(AskList);
    if frame.Err? {
      return Failed(frame.error), 0;
    }
    if TooLong(frame.value) {
      return Unsent, 0;
    }
    r, used := AwaitReply(session, inbox, ForList());
  }

  method FetchItem(session: Session, id: seq<byte>, inbox: seq<Arrived>) returns (r: Outcome<Item>, used: nat)
    modifies session, session.channel
    ensures Waited(session.Model(), r, used) == AskAndWait(old(session.Model()), AskItem(id), inbox, ForItem(id))
  {
    var frame := session.Ask(AskItem(id));
    if frame.Err? {
      return Failed(frame.error), 0;
    }
    if TooLong(frame.value) {
      return Unsent, 0;
    }
    r, used := AwaitReply(session, inbox, ForItem(id));
  }

  /** `Connection::open`: one frame must complete the handshake. */
  method Connect(identity: Secret, peer: PeerKey, now: u64, eph: Secret, reply: Option<Arrived>)
    returns (session: Session, hello: SFrame, r: Outcome<()>)
    ensures fresh(session)
    ensures var (s, h) := S.StartPhone(identity, peer, now, eph);
      hello == h && session.Model() == if reply.None? then s else S.OnFrame(s, reply.value.f, reply.value.now, None).s
    ensures r.Success? <==> session.Model().phase == Phase.Open
    ensures r.Success? ==> session.Model().channel.Some? && session.Model().peer == Some(peer)
  {
    session, hello := SessionObject.OpenPhone(identity, peer, now, eph);
    if reply.None? {
      return session, hello, NoReply;
    }
    var acts := session.OnFrame(reply.value.f, reply.value.now, None);
    if |acts| == 1 && acts[0].Emit? && acts[0].event.Established? {
      r := Success(());
    } else if |acts| == 1 && acts[0].Close? {
      r := ClosedFor(acts[0].why);
    } else {
      r := Failed(Error.Crypto);
    }
  }

  // ------------------------------------------------------------------
  // What a success means
  // ------------------------------------------------------------------

  /** The session's history over the frames it was given. */
  function RunThrough(r: SessionRun, inbox: seq<Arrived>): SessionRun
    decreases |inbox|
  {
    if inbox == [] then r else RunThrough(AfterFrame(r, inbox[0].f, inbox[0].now, None), inbox[1..])
  }

  lemma {:induction false} RunThroughGrows(r: SessionRun, inbox: seq<Arrived>)
    ensures r.sealed <= RunThrough(r, inbox).sealed && r.opens <= RunThrough(r, inbox).opens
    decreases |inbox|
  {
    if inbox != [] {
      RunThroughGrows(AfterFrame(r, inbox[0].f, inbox[0].now, None), inbox[1..]);
    }
  }

  /** A decision is made by an action of the list. */
  lemma {:induction false} DecidedBy<T>(acts: seq<Action>, verdict: Verdict<T>) returns (a: Action)
    requires Decide(acts, verdict).Some?
    ensures a in acts && verdict(a) == Decide(acts, verdict)
  {
    if verdict(acts[0]).Some? { a := acts[0]; } else { a := DecidedBy(acts[1..], verdict); }
  }

  lemma {:induction false} EmitsAll(acts: seq<Action>, a: Action)
    requires a in acts && a.Emit?
    ensures a.event in Emits(acts)
  {
    if a != acts[0] { EmitsAll(acts[1..], a); }
  }

  /** Waiting read frames up to `k`, left the session where they take it, and was decided by action `a`,
      which the session returned for the last of them. */
  ghost predicate Seen<T(!new)>(r: SessionRun, inbox: seq<Arrived>, verdict: Verdict<T>, a: Action, k: nat) {
    var w := Await(r.s, inbox, verdict);
    k < |inbox| && k + 1 == w.used && RunThrough(r, inbox[..w.used]).s == w.s && verdict(a) == Some(w.result) &&
    var before, x := RunThrough(r, inbox[..k]), inbox[k];
    a in OnFrame(before.s, x.f, x.now, None).acts &&
    RunThrough(r, inbox[..k + 1]) == AfterFrame(before, x.f, x.now, None)
  }

  /** Every success is decided that way. */
  lemma {:induction false} SuccessSeen<T(!new)>(r: SessionRun, inbox: seq<Arrived>, verdict: Verdict<T>)
    returns (a: Action, k: nat)
    requires Await(r.s, inbox, verdict).result.Success?
    ensures Seen(r, inbox, verdict, a, k)
    decreases |inbox|
  {
    var x := inbox[0];
    if Decide(OnFrame(r.s, x.f, x.now, None).acts, verdict).Some? {
      a := DecidedBy(OnFrame(r.s, x.f, x.now, None).acts, verdict);
      k := 0;
      RunThroughStep(r, inbox, 0);
    } else {
      var m;
      a, m := SuccessSeen(AfterFrame(r, x.f, x.now, None), inbox[1..], verdict);
      k := m + 1;
      SeenLater(r, inbox, verdict, a, m);
    }
  }

  /** One more frame in front that decides nothing. */
  lemma SeenLater<T(!new)>(r: SessionRun, inbox: seq<Arrived>, verdict: Verdict<T>, a: Action, m: nat)
    requires inbox != [] && Decide(OnFrame(r.s, inbox[0].f, inbox[0].now, None).acts, verdict).None?
    requires Seen(AfterFrame(r, inbox[0].f, inbox[0].now, None), inbox[1..], verdict, a, m)
    ensures Seen(r, inbox, verdict, a, m + 1)
  {
    RunThroughStep(r, inbox, m);
    RunThroughStep(r, inbox, m + 1);
    assert inbox[1..][m] == inbox[m + 1];
  }

  lemma RunThroughStep(r: SessionRun, inbox: seq<Arrived>, n: nat)
    requires n < |inbox|
    ensures RunThrough(r, inbox[..n + 1]) ==
      RunThrough(AfterFrame(r, inbox[0].f, inbox[0].now, None), inbox[1..][..n])
    ensures RunThrough(r, inbox[..0]) == r
  {
    assert inbox[..n + 1][1..] == inbox[1..][..n] && inbox[..n + 1][0] == inbox[0];
  }

  /** `beam` reports success only if the session was told that this clip id was taken, status 0. */
  lemma BeamNeedsAck(r: SessionRun, id: seq<byte>, inbox: seq<Arrived>) returns (e: nat)
    requires Await(r.s, inbox, ForAck(id)).result.Success?
    ensures var w := Await(r.s, inbox, ForAck(id)); var end := RunThrough(r, inbox[..w.used]);
      w.result == Success(id) && e < |end.events| && end.events[e] == ClipAcked(id, 0)
  {
    var a, k := SuccessSeen(r, inbox, ForAck(id));
    var before := RunThrough(r, inbox[..k]);
    EmitsAll(OnFrame(before.s, inbox[k].f, inbox[k].now, None).acts, a);
    var w := Await(r.s, inbox, ForAck(id));
    assert a.event == ClipAcked(id, 0) && inbox[..w.used] == inbox[..k + 1];
    var end := RunThrough(r, inbox[..w.used]);
    assert a.event in end.events;
    e :| 0 <= e < |end.events| && end.events[e] == a.event;
  }

  /** In every world, whatever the network did: when `beam` has returned success for a clip, a session
      of the paired PC has emitted the arrival of just that clip, given distinct clip ids. */
  lemma BeamedMeansArrived(env: Env, w: World, i: nat, b: Secret, r: SessionRun, clip: Clip, inbox: seq<Arrived>)
    returns (j: nat)
    requires Reachable(env, w) && Trusts(env, w, i, b) && DistinctClips(w.sessions[i])
    requires |clip.id| == 8 && Ask(r.s, PushClip(clip)).1.Ok?
    requires var end := AskAndWait(r.s, PushClip(clip), inbox, ForAck(clip.id));
      end.result.Success? && w.sessions[i] == RunThrough(AfterRequest(r, PushClip(clip)), inbox[..end.used])
    ensures j < |w.sessions| && w.sessions[j].s.identity == b && Mirrors(w.sessions[i], w.sessions[j])
    ensures exists k :: 0 <= k < |w.sessions[j].events| && Arrival(w.sessions[j].events[k], clip)
  {
    var asked := AfterRequest(r, PushClip(clip));
    var e := BeamNeedsAck(asked, clip.id, inbox);
    var end := Await(asked.s, inbox, ForAck(clip.id));
    RunThroughGrows(asked, inbox[..end.used]);
    PushRecorded(r, clip);
    assert w.sessions[i].sealed[|r.sealed|] == asked.sealed[|r.sealed|];
    j := AcknowledgedMeansArrived(env, w, i, b, |r.sealed|, clip, e);
  }

  lemma PushRecorded(r: SessionRun, clip: Clip)
    requires Ask(r.s, PushClip(clip)).1.Ok?
    ensures var asked := AfterRequest(r, PushClip(clip));
      asked.s == Ask(r.s, PushClip(clip)).0 && WriteClip(clip).Ok? &&
      asked.sealed == r.sealed + [(ClipPush, WriteClip(clip).value)]
  {
    var f := Ask(r.s, PushClip(clip)).1.value;
    assert [f][1..] == [] && Sealings([f][1..]) == [];
    assert Sealings([f]) == [(ClipPush, WriteClip(clip).value)];
  }

  /** An item a session reports was in the box it opened just then. */
  lemma FetchedWasOpened(s: State, f: SFrame, now: u64, item: Item)
    requires Emit(StageFetched(item)) in OnFrame(s, f, now, None).acts
    ensures |OpenedBy(s, f)| == 1 && OpenedBy(s, f)[0].ty == StageItem
    ensures ReadItem(OpenedBy(s, f)[0].plain) == Good(item)
  {
    if s.phase == Phase.Open && IsEncrypted(f.ty) && s.channel.Some? {
      var (ch, r) := Crypto.Open(s.channel.value, f.ty, AsCipher(f.payload));
      if r.Ok? {
        FetchedWasRead(s.(lastActivity := now, channel := Some(ch)), f.ty, r.value, item);
      }
    }
  }

  lemma FetchedWasRead(s: State, ty: FrameType, plain: seq<byte>, item: Item)
    requires Emit(StageFetched(item)) in OnPlain(s, ty, plain).acts
    ensures ty == StageItem && ReadItem(plain) == Good(item)
  {
    match ty
    case ClipPush => NoneFromPush(s, plain, item);
    case StageList => NoneFromList(s, plain, item);
    case _ =>
  }

  lemma NoneFromPush(s: State, plain: seq<byte>, item: Item)
    ensures Emit(StageFetched(item)) !in OnClipPush(s, plain).acts
  {
    var m := ReadClip(plain);
    if m.Good? && s.paused {
      NoneFromError(s, BeamingPaused, item);
    } else if m.Good? && |m.value.body| > MAX_TEXT_CLIP {
      NoneFromError(s, ClipTooLarge, item);
    } else if m.Good? && ContentOfCode(m.value.kind).Some? {
      NoneFromClip(s, m.value, ContentOfCode(m.value.kind).value, item);
    }
  }

  lemma NoneFromError(s: State, why: Reason, item: Item)
    ensures Emit(StageFetched(item)) !in WireError(s, why).acts
  {
  }

  lemma NoneFromClip(s: State, c: Clip, t: ContentType, item: Item)
    ensures Emit(StageFetched(item)) !in TakeClip(s, c, t).acts
  {
  }

  lemma NoneFromList(s: State, plain: seq<byte>, item: Item)
    ensures Emit(StageFetched(item)) !in OnStageList(s, plain).acts
  {
  }

  /** In every world: what `stage_item` returns, a session of the paired PC sealed as a STAGE_ITEM with
      that id, type and body. */
  lemma FetchedIsAuthentic(env: Env, w: World, i: nat, b: Secret, r: SessionRun, id: seq<byte>, inbox: seq<Arrived>)
    returns (j: nat, c: nat)
    requires Reachable(env, w) && Trusts(env, w, i, b)
    requires var end := Await(r.s, inbox, ForItem(id));
      end.result.Success? && w.sessions[i] == RunThrough(r, inbox[..end.used])
    ensures j < |w.sessions| && w.sessions[j].s.identity == b && Mirrors(w.sessions[i], w.sessions[j])
    ensures var item := Await(r.s, inbox, ForItem(id)).result.value; var q := w.sessions[j];
      item.id == id && c < |q.sealed| && q.sealed[c].0 == StageItem && ReadItem(q.sealed[c].1) == Good(item)
  {
    var n := FetchNeedsItem(r, id, inbox);
    j := DeliveredInOrder(env, w, i, b);
    c := w.sessions[i].opens[n].ctr;
  }

  lemma FetchNeedsItem(r: SessionRun, id: seq<byte>, inbox: seq<Arrived>) returns (n: nat)
    requires Await(r.s, inbox, ForItem(id)).result.Success?
    ensures var w := Await(r.s, inbox, ForItem(id)); var opens := RunThrough(r, inbox[..w.used]).opens;
      w.result.value.id == id && n < |opens| && opens[n].ty == StageItem &&
      ReadItem(opens[n].plain) == Good(w.result.value)
  {
    var a, k := SuccessSeen(r, inbox, ForItem(id));
    var before, end := RunThrough(r, inbox[..k]), Await(r.s, inbox, ForItem(id));
    assert a == Emit(StageFetched(end.result.value)) && inbox[..end.used] == inbox[..k + 1];
    n := FetchedOpening(before, inbox[k], end.result.value);
  }

  lemma FetchedOpening(r: SessionRun, x: Arrived, item: Item) returns (n: nat)
    requires Emit(StageFetched(item)) in OnFrame(r.s, x.f, x.now, None).acts
    ensures var opens := AfterFrame(r, x.f, x.now, None).opens;
      n < |opens| && opens[n].ty == StageItem && ReadItem(opens[n].plain) == Good(item)
  {
    FetchedWasOpened(r.s, x.f, x.now, item);
    n := |r.opens|;
    assert AfterFrame(r, x.f, x.now, None).opens[n] == OpenedBy(r.s, x.f)[0];
  }
}
