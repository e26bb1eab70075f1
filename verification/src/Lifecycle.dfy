/** One session over every sequence of frames, requests and pauses. */
module Lifecycle {
  import opened Bytes
  import opened Frames
  import opened Crypto
  import opened Messages
  import opened Sessions
  import opened Network
  import opened Effects
  import opened Counting

  datatype LifeInput =
    | FrameIn(f: SFrame, now: u64, newEph: Option<Secret>)
    | AskIn(q: Sessions.Request)
    | PauseIn(paused: bool)

  function Next(s: State, i: LifeInput): Step {
    match i
    case FrameIn(f, now, e) => OnFrame(s, f, now, e)
    case AskIn(q) => var (t, r) := Ask(s, q); Step(t, if r.Ok? then [Send(r.value)] else [])
    case PauseIn(b) => Step(s.(paused := b), [])
  }

  predicate IsEstablished(a: Action) { a.Emit? && a.event.Established? }

  /** How often a list of actions reports the handshake complete. */
  function Reports(acts: seq<Action>): nat { Count(acts, IsEstablished) }

  predicate SaysEstablished(acts: seq<Action>) { Reports(acts) > 0 }

  predicate SaysMore(acts: seq<Action>) {
    exists i :: 0 <= i < |acts| && acts[i].Emit? && !acts[i].event.Established?
  }

  predicate SendsSecret(acts: seq<Action>) {
    exists i :: 0 <= i < |acts| && acts[i].Send? && IsEncrypted(acts[i].frame.ty)
  }

  predicate EndsInClose(acts: seq<Action>) { acts != [] && acts[|acts| - 1].Close? }

  /** What any one step may do. */
  predicate LifeEdge(s: State, i: LifeInput, acts: seq<Action>, t: State) {
    StateOk(t) && (s.phase == Closed ==> t.phase == Closed) && (s.channel.Some? ==> t.channel.Some?) &&
    Reports(acts) == (if s.channel.None? && t.channel.Some? then 1 else 0) &&
    (SaysMore(acts) ==> s.channel.Some?) && (SendsSecret(acts) ==> s.channel.Some?) &&
    (i.FrameIn? ==> (EndsInClose(acts) <==> t.phase == Closed)) &&
    (forall k :: 0 <= k < |acts| - 1 ==> !acts[k].Close?) &&
    (i.FrameIn? && s.phase == Closed ==> acts == [Close(FrameAfterClose)] && t == s)
  }

  lemma QuietEdge(s: State, f: SFrame, now: u64, e: Option<Secret>, st: Step)
    requires StateOk(s) && StateOk(st.s) && Quiet(s, st) &&
      (s.phase == Closed ==> st == Step(s, [Close(FrameAfterClose)]))
    ensures LifeEdge(s, FrameIn(f, now, e), st.acts, st.s)
  {
    assert st.acts == [st.acts[0]] && st.acts[0].Close?;
    ShortCounts(IsEstablished);
  }

  lemma JoinEdge(s: State, f: SFrame, now: u64, e: Option<Secret>, st: Step)
    requires StateOk(s) && StateOk(st.s)
    requires var s1 := s.(lastActivity := now); PcJoined(s1, f, now, e, st) || PhoneJoined(s1, f, st)
    ensures LifeEdge(s, FrameIn(f, now, e), st.acts, st.s)
  {
    ShortCounts(IsEstablished);
  }

  /** Whatever is said in answer to an opened box, a Close is last and matches the state. */
  predicate Tidy(s: State, st: Step) {
    st.s.phase in {s.phase, Closed} && |st.acts| <= 2 &&
    (EndsInClose(st.acts) <==> st.s.phase == Closed) && (|st.acts| == 2 ==> !st.acts[0].Close?) && Reports(st.acts) == 0
  }

  lemma PlainTidy(s: State, ty: FrameType, plain: seq<byte>)
    requires s.phase == Phase.Open
    ensures Tidy(s, OnPlain(s, ty, plain))
  {
    ShortCounts(IsEstablished);
    match ty
    case ClipPush => ClipPushTidy(s, plain);
    case StageList => StageListTidy(s, plain);
    case _ =>
  }

  lemma ClipPushTidy(s: State, plain: seq<byte>)
    requires s.phase == Phase.Open
    ensures Tidy(s, OnClipPush(s, plain))
  {
    ShortCounts(IsEstablished);
  }

  lemma StageListTidy(s: State, plain: seq<byte>)
    requires s.phase == Phase.Open
    ensures Tidy(s, OnStageList(s, plain))
  {
    ShortCounts(IsEstablished);
    var m := ReadListItems(plain);
    if m.Good? { ListedTidy(s, ReadMetas(m.value, |m.value|)); }
  }

  lemma ListedTidy(s: State, ms: Parse<seq<Stage.StageMeta>>)
    requires s.phase == Phase.Open
    ensures Tidy(s, Listed(s, ms))
  {
    ShortCounts(IsEstablished);
  }

  lemma FrameEdge(s: State, f: SFrame, now: u64, e: Option<Secret>)
    requires StateOk(s)
    ensures LifeEdge(s, FrameIn(f, now, e), OnFrame(s, f, now, e).acts, OnFrame(s, f, now, e).s)
  {
    var st, s1 := OnFrame(s, f, now, e), s.(lastActivity := now);
    var q := FrameStep(s, f, now, e);
    if Quiet(s, st) && OpenedBy(s, f) == [] {
      QuietEdge(s, f, now, e, st);
    } else if PcJoined(s1, f, now, e, st) || PhoneJoined(s1, f, st) {
      JoinEdge(s, f, now, e, st);
    } else {
      var (ch, r) := Crypto.Open(s.channel.value, f.ty, AsCipher(f.payload));
      PlainTidy(s1.(channel := Some(ch)), f.ty, r.value);
    }
  }

  lemma StepEdge(s: State, i: LifeInput)
    requires StateOk(s)
    ensures LifeEdge(s, i, Next(s, i).acts, Next(s, i).s)
  {
    ShortCounts(IsEstablished);
    match i
    case FrameIn(f, now, e) => FrameEdge(s, f, now, e);
    case AskIn(q) => if s.channel.Some? { var x := AskStep(s, q); }
    case PauseIn(_) =>
  }

  // ------------------------------------------------------------------
  // Runs
  // ------------------------------------------------------------------

  datatype Trace = Trace(ins: seq<LifeInput>, states: seq<State>, acts: seq<seq<Action>>)

  ghost predicate Lives(t: Trace) {
    |t.states| == |t.ins| + 1 && |t.acts| == |t.ins| && Fresh(t.states[0]) &&
    forall k :: 0 <= k < |t.ins| ==> Step(t.states[k + 1], t.acts[k]) == Next(t.states[k], t.ins[k])
  }

  /** A session just created, in either role. */
  ghost predicate Fresh(s: State) {
    (exists identity, peer, now, eph :: s == StartPhone(identity, peer, now, eph).0) ||
    (exists identity, peers, now :: s == NewPc(identity, peers, now))
  }

  ghost predicate Chain(t: Trace) {
    |t.states| == |t.ins| + 1 && |t.acts| == |t.ins| && StateOk(t.states[0]) && t.states[0].channel.None? &&
    forall k :: 0 <= k < |t.ins| ==> LifeEdge(t.states[k], t.ins[k], t.acts[k], t.states[k + 1])
  }

  lemma {:induction false} StatesOk(t: Trace, k: nat)
    requires Lives(t) && k < |t.states|
    ensures StateOk(t.states[k])
  {
    if k > 0 {
      StatesOk(t, k - 1);
      StepEdge(t.states[k - 1], t.ins[k - 1]);
    }
  }

  lemma LivesInChain(t: Trace)
    requires Lives(t)
    ensures Chain(t)
  {
    StatesOk(t, 0);
    forall k | 0 <= k < |t.ins| ensures LifeEdge(t.states[k], t.ins[k], t.acts[k], t.states[k + 1]) {
      StatesOk(t, k);
      StepEdge(t.states[k], t.ins[k]);
    }
  }

  lemma {:induction false} Stays(t: Trace, j: nat, k: nat)
    requires Chain(t) && j <= k < |t.states|
    ensures t.states[j].phase == Closed ==> t.states[k].phase == Closed
    ensures t.states[j].channel.Some? ==> t.states[k].channel.Some?
  {
    if j < k {
      Stays(t, j, k - 1);
      assert LifeEdge(t.states[k - 1], t.ins[k - 1], t.acts[k - 1], t.states[k]);
    }
  }

  lemma {:induction false} ChannelMeansEstablished(t: Trace, k: nat) returns (j: nat)
    requires Chain(t) && k < |t.states| && t.states[k].channel.Some?
    ensures j < k && SaysEstablished(t.acts[j])
    decreases k
  {
    assert LifeEdge(t.states[k - 1], t.ins[k - 1], t.acts[k - 1], t.states[k]);
    if t.states[k - 1].channel.Some? { j := ChannelMeansEstablished(t, k - 1); } else { j := k - 1; }
  }

  /** A channel exists exactly once the handshake has been reported complete. */
  lemma ChannelIffEstablished(t: Trace, k: nat)
    requires Lives(t) && k < |t.states|
    ensures t.states[k].channel.Some? <==> exists j :: 0 <= j < k && SaysEstablished(t.acts[j])
  {
    LivesInChain(t);
    if t.states[k].channel.Some? {
      var j := ChannelMeansEstablished(t, k);
    } else if exists j :: 0 <= j < k && SaysEstablished(t.acts[j]) {
      var j :| 0 <= j < k && SaysEstablished(t.acts[j]);
      assert LifeEdge(t.states[j], t.ins[j], t.acts[j], t.states[j + 1]);
      Stays(t, j + 1, k);
    }
  }

  lemma EstablishedSpread(t: Trace)
    requires Chain(t)
    ensures Spread(t.acts, IsEstablished)
  {
    forall k | 0 <= k < |t.acts| ensures Reports(t.acts[k]) <= 1 {
      assert LifeEdge(t.states[k], t.ins[k], t.acts[k], t.states[k + 1]);
    }
    forall j, k | 0 <= j < k < |t.acts| ensures Reports(t.acts[j]) == 0 || Reports(t.acts[k]) == 0 {
      assert LifeEdge(t.states[j], t.ins[j], t.acts[j], t.states[j + 1]);
      assert LifeEdge(t.states[k], t.ins[k], t.acts[k], t.states[k + 1]);
      Stays(t, j + 1, k);
    }
  }

  /** Over everything a session ever returns Established is reported at most once, and every other
      event and every encrypted frame comes strictly after it. */
  lemma EstablishedOnceAndFirst(t: Trace)
    requires Lives(t)
    ensures Reports(Everything(t.acts)) <= 1
    ensures forall k :: 0 <= k < |t.ins| && (SaysMore(t.acts[k]) || SendsSecret(t.acts[k])) ==>
      exists j :: 0 <= j < k && SaysEstablished(t.acts[j])
  {
    LivesInChain(t);
    EstablishedSpread(t);
    AtMostOnce(t.acts, IsEstablished);
    forall k | 0 <= k < |t.ins| && (SaysMore(t.acts[k]) || SendsSecret(t.acts[k]))
      ensures exists j :: 0 <= j < k && SaysEstablished(t.acts[j])
    {
      assert LifeEdge(t.states[k], t.ins[k], t.acts[k], t.states[k + 1]);
      var j := ChannelMeansEstablished(t, k);
    }
  }

  /** Closed is absorbing; a frame's actions end in Close exactly when the session is closed after it,
      and nothing follows a Close. */
  lemma ClosedIsFinal(t: Trace, j: nat, k: nat)
    requires Lives(t) && j <= k < |t.ins|
    ensures t.states[j].phase == Closed ==> t.states[k + 1].phase == Closed
    ensures t.states[j].phase == Closed && t.ins[k].FrameIn? ==> t.acts[k] == [Close(FrameAfterClose)]
    ensures t.ins[k].FrameIn? ==> (EndsInClose(t.acts[k]) <==> t.states[k + 1].phase == Closed)
    ensures forall i :: 0 <= i < |t.acts[k]| - 1 ==> !t.acts[k][i].Close?
  {
    LivesInChain(t);
    assert LifeEdge(t.states[k], t.ins[k], t.acts[k], t.states[k + 1]);
    Stays(t, j, k);
  }
}
