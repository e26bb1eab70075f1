/** Single pairing machines over every sequence of frames and user choices. */
module PairingRuns {
  import opened Bytes
  import opened Frames
  import opened Crypto
  import opened Cbor
  import opened Sessions
  import opened Sas
  import opened Pairing
  import opened Counting

  // ------------------------------------------------------------------
  // The PC
  // ------------------------------------------------------------------

  datatype PcInput = PcInput(f: SFrame, now: u64, newEph: Option<Secret>)

  function PcRank(p: PcPhase): nat {
    match p case AwaitingReq => 0 case AwaitingConfirm => 1 case PcDone => 2 case PcFailed => 3
  }

  /** A run: the states it goes through and what it returns for each input. */
  datatype PcTrace = PcTrace(ins: seq<PcInput>, states: seq<PcState>, acts: seq<seq<PairAction>>)

  ghost predicate PcRun(t: PcTrace, identity: Secret, token: Blob, issued: u64, digest: SasDigest) {
    |t.states| == |t.ins| + 1 && |t.acts| == |t.ins| && t.states[0] == NewPcPairing(identity, token, issued) &&
    forall k :: 0 <= k < |t.ins| ==>
      PcStep(t.states[k + 1], t.acts[k]) == PcOnFrame(t.states[k], t.ins[k].f, t.ins[k].now, t.ins[k].newEph, digest)
  }

  predicate IsSend(a: PairAction) { a.SendPair? }
  predicate IsDone(a: PairAction) { a.Completed? }

  /** How many frames a list of actions sends, and how often it completes the pairing. */
  function Sendings(acts: seq<PairAction>): nat { Count(acts, IsSend) }
  function Completions(acts: seq<PairAction>): nat { Count(acts, IsDone) }

  predicate Shows(acts: seq<PairAction>) { exists i :: 0 <= i < |acts| && acts[i].ShowSas? }

  /** A list of actions that contains one of a kind counts it. */
  lemma InCount(acts: seq<PairAction>, a: PairAction)
    requires a in acts
    ensures a.SendPair? ==> Sendings(acts) > 0
    ensures a.Completed? ==> Completions(acts) > 0
  {
    var i :| 0 <= i < |acts| && acts[i] == a;
    Counted(acts, IsSend);
    Counted(acts, IsDone);
    assert IsSend(acts[i]) <==> a.SendPair?;
    assert IsDone(acts[i]) <==> a.Completed?;
  }

  /** A PAIR_REQ the machine may act on: the right token, in time, and an id that matches its key. */
  predicate GoodReq(s: PcState, i: PcInput) {
    i.f.ty == PairReq && ReadReq(i.f.payload).Good? &&
    var m := ReadReq(i.f.payload).value;
    m.token == s.token && i.now <= s.issued + PAIR_TOKEN_TTL_MS && DeviceId(m.pk) == m.id
  }

  predicate PeerIs(peer: Option<PcPeer>, i: PcInput) {
    ReadReq(i.f.payload).Good? &&
    var m := ReadReq(i.f.payload).value; peer == Some(PcPeer(m.id, m.pk, m.name))
  }

  predicate Names(r: Record, peer: PcPeer) { r.publicKey == peer.pk && r.deviceId == peer.deviceId }

  /** What any one step may do: it never climbs down, each kind of outcome belongs to one rung, and a
      peer comes from an acceptable request. */
  predicate PcEdge(s: PcState, i: PcInput, acts: seq<PairAction>, t: PcState) {
    PcRank(s.phase) <= PcRank(t.phase) && t.token == s.token && t.issued == s.issued &&
    Sendings(acts) <= 1 && Completions(acts) <= 1 &&
    (Sendings(acts) > 0 ==> s.phase == AwaitingReq && t.phase == AwaitingConfirm) &&
    (Completions(acts) > 0 ==> s.phase == AwaitingConfirm && t.phase == PcDone && s.peer.Some?) &&
    (t.peer == s.peer || (GoodReq(s, i) && PeerIs(t.peer, i))) &&
    (forall a :: a in acts ==>
      (a.SendPair? ==> a.frame.ty == PairAck) &&
      (a.Completed? ==> s.peer.Some? && Names(a.record, s.peer.value)))
  }

  lemma PcClimbs(s: PcState, i: PcInput, digest: SasDigest)
    ensures var st := PcOnFrame(s, i.f, i.now, i.newEph, digest); PcEdge(s, i, st.acts, st.s)
  {
    if s.phase == AwaitingReq && i.f.ty == PairReq {
      ReqClimbs(s, i, digest);
    } else if s.phase == AwaitingConfirm && i.f.ty == PairConfirm {
      ConfirmClimbs(s, i);
    } else {
      FailClimbs(s, i, UnexpectedPairFrame);
    }
  }

  lemma FailClimbs(s: PcState, i: PcInput, why: PairReason)
    ensures var st := PcFail(s, why); PcEdge(s, i, st.acts, st.s)
  {
    ShortCounts(IsSend);
    ShortCounts(IsDone);
  }

  lemma ReqClimbs(s: PcState, i: PcInput, digest: SasDigest)
    requires s.phase == AwaitingReq && i.f.ty == PairReq
    ensures var st := OnPairReq(s, i.f.payload, i.now, i.newEph, digest); PcEdge(s, i, st.acts, st.s)
  {
    ShortCounts(IsSend);
    ShortCounts(IsDone);
  }

  lemma ConfirmClimbs(s: PcState, i: PcInput)
    requires s.phase == AwaitingConfirm
    ensures var st := OnConfirm(s, i.f.payload, i.now); PcEdge(s, i, st.acts, st.s)
  {
    ShortCounts(IsSend);
    ShortCounts(IsDone);
  }

  ghost predicate PcLadder(t: PcTrace) {
    |t.states| == |t.ins| + 1 && |t.acts| == |t.ins| && t.states[0].phase == AwaitingReq && t.states[0].peer.None? &&
    forall k :: 0 <= k < |t.ins| ==> PcEdge(t.states[k], t.ins[k], t.acts[k], t.states[k + 1])
  }

  lemma PcRunIsLadder(t: PcTrace, identity: Secret, token: Blob, issued: u64, digest: SasDigest)
    requires PcRun(t, identity, token, issued, digest)
    ensures PcLadder(t)
  {
    forall k | 0 <= k < |t.ins| ensures PcEdge(t.states[k], t.ins[k], t.acts[k], t.states[k + 1]) {
      PcClimbs(t.states[k], t.ins[k], digest);
    }
  }

  lemma {:induction false} PcRankGrows(t: PcTrace, j: nat, k: nat)
    requires PcLadder(t) && j <= k < |t.states|
    ensures PcRank(t.states[j].phase) <= PcRank(t.states[k].phase)
    ensures t.states[k].token == t.states[j].token && t.states[k].issued == t.states[j].issued
  {
    if j < k {
      PcRankGrows(t, j, k - 1);
      assert PcEdge(t.states[k - 1], t.ins[k - 1], t.acts[k - 1], t.states[k]);
    }
  }

  /** A machine that has a peer got it from an acceptable PAIR_REQ. */
  lemma {:induction false} PeerFromReq(t: PcTrace, k: nat) returns (j: nat)
    requires PcLadder(t) && k < |t.states| && t.states[k].peer.Some?
    ensures j < k && GoodReq(t.states[0], t.ins[j]) && PeerIs(t.states[k].peer, t.ins[j])
    decreases k
  {
    assert PcEdge(t.states[k - 1], t.ins[k - 1], t.acts[k - 1], t.states[k]);
    if t.states[k].peer == t.states[k - 1].peer {
      j := PeerFromReq(t, k - 1);
    } else {
      j := k - 1;
      PcRankGrows(t, 0, k - 1);
    }
  }

  lemma PcSpread(t: PcTrace)
    requires PcLadder(t)
    ensures Spread(t.acts, IsSend) && Spread(t.acts, IsDone)
  {
    forall k | 0 <= k < |t.acts| ensures Sendings(t.acts[k]) <= 1 && Completions(t.acts[k]) <= 1 {
      assert PcEdge(t.states[k], t.ins[k], t.acts[k], t.states[k + 1]);
    }
    forall j, k | 0 <= j < k < |t.acts|
      ensures Sendings(t.acts[j]) == 0 || Sendings(t.acts[k]) == 0
      ensures Completions(t.acts[j]) == 0 || Completions(t.acts[k]) == 0
    {
      assert PcEdge(t.states[j], t.ins[j], t.acts[j], t.states[j + 1]);
      assert PcEdge(t.states[k], t.ins[k], t.acts[k], t.states[k + 1]);
      PcRankGrows(t, j + 1, k);
    }
  }

  /** Over every sequence of frames the PC climbs a fixed rank, and over everything it returns there is
      at most one frame, a PAIR_ACK, and at most one completion. */
  lemma PcAtMostOnce(t: PcTrace, identity: Secret, token: Blob, issued: u64, digest: SasDigest)
    requires PcRun(t, identity, token, issued, digest)
    ensures forall j, k :: 0 <= j <= k < |t.states| ==> PcRank(t.states[j].phase) <= PcRank(t.states[k].phase)
    ensures Sendings(Everything(t.acts)) <= 1 && Completions(Everything(t.acts)) <= 1
    ensures forall k, a :: 0 <= k < |t.acts| && a in t.acts[k] && a.SendPair? ==> a.frame.ty == PairAck
  {
    PcRunIsLadder(t, identity, token, issued, digest);
    forall j, k | 0 <= j <= k < |t.states| ensures PcRank(t.states[j].phase) <= PcRank(t.states[k].phase) {
      PcRankGrows(t, j, k);
    }
    PcSpread(t);
    AtMostOnce(t.acts, IsSend);
    AtMostOnce(t.acts, IsDone);
    forall k, a | 0 <= k < |t.acts| && a in t.acts[k] && a.SendPair? ensures a.frame.ty == PairAck {
      assert PcEdge(t.states[k], t.ins[k], t.acts[k], t.states[k + 1]);
    }
  }

  /** It completes only after a PAIR_REQ with the offered token within its lifetime; the record holds
      that request's key, and its id is the hash of the key. */
  lemma PcCompletesAfterToken(t: PcTrace, identity: Secret, token: Blob, issued: u64, digest: SasDigest, k: nat,
                              a: PairAction)
    returns (j: nat)
    requires PcRun(t, identity, token, issued, digest) && k < |t.ins| && a in t.acts[k] && a.Completed?
    ensures j < k && t.ins[j].f.ty == PairReq && ReadReq(t.ins[j].f.payload).Good?
    ensures var m := ReadReq(t.ins[j].f.payload).value;
      m.token == token && t.ins[j].now <= issued + PAIR_TOKEN_TTL_MS && a.record.publicKey == m.pk
    ensures a.record.deviceId == DeviceId(a.record.publicKey)
  {
    PcRunIsLadder(t, identity, token, issued, digest);
    assert PcEdge(t.states[k], t.ins[k], t.acts[k], t.states[k + 1]);
    InCount(t.acts[k], a);
    j := PeerFromReq(t, k);
  }

  // ------------------------------------------------------------------
  // The phone
  // ------------------------------------------------------------------

  /** A frame arrives, or the application calls `confirm_sas` or `reject_sas`. */
  datatype PhoneInput = GotFrame(f: SFrame) | ConfirmCall(now: u64) | RejectCall

  function PhoneRank(p: PhonePhase): nat {
    match p case AwaitingAck => 0 case AwaitingUser => 1 case PhoneDone => 2 case PhoneFailed => 3
  }

  function PhoneNext(s: PhoneState, i: PhoneInput, digest: SasDigest): PhoneStep {
    match i
    case GotFrame(f) => PhoneOnFrame(s, f, digest)
    case ConfirmCall(now) => ConfirmSas(s, now)
    case RejectCall => RejectSas(s)
  }

  datatype PhoneTrace = PhoneTrace(ins: seq<PhoneInput>, states: seq<PhoneState>, acts: seq<seq<PairAction>>)

  ghost predicate PhoneRun(t: PhoneTrace, s: PhoneState, digest: SasDigest) {
    |t.states| == |t.ins| + 1 && |t.acts| == |t.ins| && t.states[0] == s &&
    forall k :: 0 <= k < |t.ins| ==>
      PhoneStep(t.states[k + 1], t.acts[k]) == PhoneNext(t.states[k], t.ins[k], digest)
  }

  predicate PhoneEdge(s: PhoneState, i: PhoneInput, acts: seq<PairAction>, t: PhoneState) {
    PhoneRank(s.phase) <= PhoneRank(t.phase) && t.qr == s.qr &&
    Sendings(acts) <= 1 && Completions(acts) <= 1 &&
    (Sendings(acts) + Completions(acts) > 0 ==> i.ConfirmCall? && s.phase == AwaitingUser && t.phase == PhoneDone) &&
    (t.phase == AwaitingUser && s.phase != AwaitingUser ==> Shows(acts)) &&
    (i.RejectCall? ==> t.phase == PhoneFailed) &&
    (forall a :: a in acts ==>
      (a.SendPair? ==> a.frame.ty == PairConfirm) &&
      (a.Completed? ==> a.record.publicKey == s.qr.publicKey && a.record.deviceId == s.qr.deviceId))
  }

  lemma PhoneClimbs(s: PhoneState, i: PhoneInput, digest: SasDigest)
    ensures var st := PhoneNext(s, i, digest); PhoneEdge(s, i, st.acts, st.s)
  {
    ShortCounts(IsSend);
    ShortCounts(IsDone);
    var st := PhoneNext(s, i, digest);
    if st.s.phase == AwaitingUser && s.phase != AwaitingUser {
      assert st.acts[0].ShowSas?;
    }
  }

  ghost predicate PhoneLadder(t: PhoneTrace) {
    |t.states| == |t.ins| + 1 && |t.acts| == |t.ins| && t.states[0].phase == AwaitingAck &&
    forall k :: 0 <= k < |t.ins| ==> PhoneEdge(t.states[k], t.ins[k], t.acts[k], t.states[k + 1])
  }

  lemma PhoneRunIsLadder(t: PhoneTrace, s: PhoneState, digest: SasDigest)
    requires PhoneRun(t, s, digest) && s.phase == AwaitingAck
    ensures PhoneLadder(t)
  {
    forall k | 0 <= k < |t.ins| ensures PhoneEdge(t.states[k], t.ins[k], t.acts[k], t.states[k + 1]) {
      PhoneClimbs(t.states[k], t.ins[k], digest);
    }
  }

  lemma {:induction false} PhoneRankGrows(t: PhoneTrace, j: nat, k: nat)
    requires PhoneLadder(t) && j <= k < |t.states|
    ensures PhoneRank(t.states[j].phase) <= PhoneRank(t.states[k].phase) && t.states[k].qr == t.states[j].qr
  {
    if j < k {
      PhoneRankGrows(t, j, k - 1);
      assert PhoneEdge(t.states[k - 1], t.ins[k - 1], t.acts[k - 1], t.states[k]);
    }
  }

  /** A machine waiting for the user has shown the SAS. */
  lemma {:induction false} ShownBefore(t: PhoneTrace, k: nat) returns (j: nat)
    requires PhoneLadder(t) && k < |t.states| && t.states[k].phase == AwaitingUser
    ensures j < k && Shows(t.acts[j])
    decreases k
  {
    assert PhoneEdge(t.states[k - 1], t.ins[k - 1], t.acts[k - 1], t.states[k]);
    if t.states[k - 1].phase == AwaitingUser {
      j := ShownBefore(t, k - 1);
    } else {
      j := k - 1;
    }
  }

  lemma PhoneSpread(t: PhoneTrace)
    requires PhoneLadder(t)
    ensures Spread(t.acts, IsSend) && Spread(t.acts, IsDone)
  {
    forall k | 0 <= k < |t.acts| ensures Sendings(t.acts[k]) <= 1 && Completions(t.acts[k]) <= 1 {
      assert PhoneEdge(t.states[k], t.ins[k], t.acts[k], t.states[k + 1]);
    }
    forall j, k | 0 <= j < k < |t.acts|
      ensures Sendings(t.acts[j]) + Completions(t.acts[j]) == 0 || Sendings(t.acts[k]) + Completions(t.acts[k]) == 0
    {
      assert PhoneEdge(t.states[j], t.ins[j], t.acts[j], t.states[j + 1]);
      assert PhoneEdge(t.states[k], t.ins[k], t.acts[k], t.states[k + 1]);
      PhoneRankGrows(t, j + 1, k);
    }
  }

  /** Over every sequence of frames and calls the phone climbs a fixed rank, and over everything it
      returns there is at most one frame and at most one completion. */
  lemma PhoneAtMostOnce(t: PhoneTrace, identity: Secret, name: string, qr: Scan, eph: Secret, digest: SasDigest)
    requires PhoneRun(t, StartPairing(identity, name, qr, eph).0, digest)
    ensures forall i, j :: 0 <= i <= j < |t.states| ==> PhoneRank(t.states[i].phase) <= PhoneRank(t.states[j].phase)
    ensures Sendings(Everything(t.acts)) <= 1 && Completions(Everything(t.acts)) <= 1
  {
    PhoneRunIsLadder(t, StartPairing(identity, name, qr, eph).0, digest);
    forall i, j | 0 <= i <= j < |t.states| ensures PhoneRank(t.states[i].phase) <= PhoneRank(t.states[j].phase) {
      PhoneRankGrows(t, i, j);
    }
    PhoneSpread(t);
    AtMostOnce(t.acts, IsSend);
    AtMostOnce(t.acts, IsDone);
  }

  /** That frame is a PAIR_CONFIRM, and it and the completion come only from a call of `confirm_sas`,
      after the SAS was shown and never after `reject_sas`.  The record names the scanned key and id. */
  lemma PhoneDiscipline(t: PhoneTrace, identity: Secret, name: string, qr: Scan, eph: Secret, digest: SasDigest,
                        k: nat, a: PairAction)
    requires PhoneRun(t, StartPairing(identity, name, qr, eph).0, digest)
    requires k < |t.ins| && a in t.acts[k] && (a.SendPair? || a.Completed?)
    ensures t.ins[k].ConfirmCall?
    ensures exists j :: 0 <= j < k && Shows(t.acts[j])
    ensures forall j :: 0 <= j < k ==> !t.ins[j].RejectCall?
    ensures Sendings(Everything(t.acts)) <= 1 && Completions(Everything(t.acts)) <= 1
    ensures forall j :: 0 <= j < |t.ins| && j != k ==> Sendings(t.acts[j]) == 0 && Completions(t.acts[j]) == 0
    ensures a.SendPair? ==> a.frame.ty == PairConfirm
    ensures a.Completed? ==> a.record.publicKey == qr.publicKey && a.record.deviceId == qr.deviceId
  {
    PhoneAtMostOnce(t, identity, name, qr, eph, digest);
    PhoneRunIsLadder(t, StartPairing(identity, name, qr, eph).0, digest);
    assert PhoneEdge(t.states[k], t.ins[k], t.acts[k], t.states[k + 1]);
    InCount(t.acts[k], a);
    forall j | 0 <= j < |t.ins| && j != k ensures Sendings(t.acts[j]) == 0 && Completions(t.acts[j]) == 0 {
      assert PhoneEdge(t.states[j], t.ins[j], t.acts[j], t.states[j + 1]);
      if j < k { PhoneRankGrows(t, j + 1, k); } else { PhoneRankGrows(t, k + 1, j); }
    }
    forall j | 0 <= j < k ensures !t.ins[j].RejectCall? {
      assert PhoneEdge(t.states[j], t.ins[j], t.acts[j], t.states[j + 1]);
      PhoneRankGrows(t, j + 1, k);
    }
    var j := ShownBefore(t, k);
    PhoneRankGrows(t, 0, k);
  }

  // ------------------------------------------------------------------
  // The two together, undisturbed
  // ------------------------------------------------------------------

  /** The PC takes a timely PAIR_REQ with its token and answers with its ephemeral. */
  lemma PcTakes(s: PcState, m: ReqMsg, now: u64, r: Secret, digest: SasDigest)
    requires s.phase == AwaitingReq && !s.tokenUsed && m.token == s.token && m.id == DeviceId(m.pk)
    requires Width(m.token) == 16 && Width(m.pk) == 32 && Width(m.ephI) == 32 && now <= s.issued + PAIR_TOKEN_TTL_MS
    ensures var sas := SasBasis(Diffie(r, m.ephI), m.pk, Pub(s.identity), s.token);
      PcOnFrame(s, Frame(PairReq, Clear(Map(ReqFields(m)))), now, Some(r), digest) ==
      PcStep(s.(tokenUsed := true, eph := Some(r), peer := Some(PcPeer(m.id, m.pk, m.name)), sasInput := Some(sas),
                phase := AwaitingConfirm),
             [SendPair(Frame(PairAck, Clear(Map(OneField(Pub(r)))))), ShowSas(SasEmoji(digest(sas)))])
  {
    ReqRoundTrip(m);
  }

  /** The phone takes a PAIR_ACK and shows the SAS. */
  lemma PhoneTakes(s: PhoneState, r: Secret, digest: SasDigest)
    requires s.phase == AwaitingAck
    ensures var sas := SasBasis(Diffie(s.eph, Pub(r)), Pub(s.identity), s.qr.publicKey, s.qr.token);
      PhoneOnFrame(s, Frame(PairAck, Clear(Map(OneField(Pub(r))))), digest) ==
      PhoneStep(s.(sasInput := Some(sas), phase := AwaitingUser), [ShowSas(SasEmoji(digest(sas)))])
  {
    OneRoundTrip(Pub(r));
  }

  /** The PC takes the MAC over its own SAS input and completes. */
  lemma PcCompletes(s: PcState, now: u64, digest: SasDigest)
    requires s.phase == AwaitingConfirm && s.peer.Some? && s.sasInput.Some?
    ensures var mac := Mac(Diffie(s.identity, s.peer.value.pk), s.sasInput.value); var peer := s.peer.value;
      PcOnFrame(s, Frame(PairConfirm, Clear(Map(OneField(mac)))), now, None, digest).acts ==
      [Completed(NewRecord(peer.deviceId, peer.pk, peer.name, now))]
  {
    OneRoundTrip(Mac(Diffie(s.identity, s.peer.value.pk), s.sasInput.value));
  }

  /** With the frames passed on as they are, both sides show the same emoji and both complete, each
      with a record of the other. */
  lemma HonestPairing(pcId: Secret, phoneId: Secret, token: Blob, name: string, pcName: string,
                      e: Secret, r: Secret, issued: u64, now: u64, digest: SasDigest)
    requires Width(token) == 16 && now <= issued + PAIR_TOKEN_TTL_MS
    ensures var qr := Scan(DeviceId(Pub(pcId)), Pub(pcId), pcName, token);
      var (phone0, req) := StartPairing(phoneId, name, qr, e);
      var pc1 := PcOnFrame(NewPcPairing(pcId, token, issued), req, now, Some(r), digest);
      |pc1.acts| == 2 && pc1.acts[0].SendPair? && pc1.acts[1].ShowSas? &&
      var phone1 := PhoneOnFrame(phone0, pc1.acts[0].frame, digest);
      phone1.acts == [pc1.acts[1]] &&
      var phone2 := ConfirmSas(phone1.s, now);
      |phone2.acts| == 2 && phone2.acts[0].SendPair? &&
      phone2.acts[1] == Completed(NewRecord(DeviceId(Pub(pcId)), Pub(pcId), pcName, now)) &&
      PcOnFrame(pc1.s, phone2.acts[0].frame, now, None, digest).acts ==
        [Completed(NewRecord(DeviceId(Pub(phoneId)), Pub(phoneId), name, now))]
  {
    var qr := Scan(DeviceId(Pub(pcId)), Pub(pcId), pcName, token);
    var m := ReqMsg(token, DeviceId(Pub(phoneId)), Pub(phoneId), name, Pub(e));
    var pc0 := NewPcPairing(pcId, token, issued);
    PcTakes(pc0, m, now, r, digest);
    DiffieCommutes(e, r);
    DiffieCommutes(pcId, phoneId);
    PhoneTakes(StartPairing(phoneId, name, qr, e).0, r, digest);
    PcCompletes(PcOnFrame(pc0, Frame(PairReq, Clear(Map(ReqFields(m)))), now, Some(r), digest).s, now, digest);
  }
}
