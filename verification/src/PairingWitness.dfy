/** A reachable world with a completed pairing: the frames are passed on as they are and the user lets
    the confirmation go. */
module PairingWitness {
  import opened Bytes
  import opened Crypto
  import opened Cbor
  import opened Frames
  import opened Sessions
  import opened Pairing
  import opened Network
  import opened Witness
  import Preservation
  import PairingRuns

  /** The parties of an undisturbed pairing. */
  datatype Parties = Parties(pc: Secret, phone: Secret, token: Blob, name: string, pcName: string, e: Secret, r: Secret)

  function CodeOf(p: Parties): Scan { Scan(DeviceId(Pub(p.pc)), Pub(p.pc), p.pcName, p.token) }

  function Pc0(p: Parties, issued: u64): PcState { NewPcPairing(p.pc, p.token, issued) }
  function Phone0(p: Parties): PhoneState { StartPairing(p.phone, p.name, CodeOf(p), p.e).0 }
  function Req(p: Parties): SFrame { StartPairing(p.phone, p.name, CodeOf(p), p.e).1 }

  ghost predicate Sensible(env: Env, p: Parties) {
    Sound(env) && p.pc in env.honest && p.phone in env.honest && Width(p.token) == 16 &&
    p.e !in env.honest + env.compromised && p.r !in env.honest + env.compromised + {p.e}
  }

  lemma Started(env: Env, p: Parties, issued: u64) returns (w: World)
    requires Sensible(env, p)
    ensures Reachable(env, w) && w.pcs == [PcRun(Pc0(p, issued), [])]
    ensures w.phones == [PhoneRun(Phone0(p), [], None, false)] && Req(p) in w.sent && p.r !in w.used
  {
    var w0 := Init(env);
    InitReachable(env);
    Next(env, w0, Offer(p.pc, p.token, issued));
    var w1 := WithOffer(w0, p.pc, p.token, issued);
    Next(env, w1, Scanned(p.phone, p.name, CodeOf(p), p.e));
    w := WithScan(w1, p.phone, p.name, CodeOf(p), p.e);
  }

  lemma ToPc(env: Env, v: World, f: SFrame, now: u64, e: Option<Secret>) returns (w: World)
    requires Reachable(env, v) && |v.pcs| == 1 && f in v.sent && (e.Some? ==> e.value !in v.used)
    ensures Reachable(env, w) && w.phones == v.phones && v.sent <= w.sent
    ensures var st := PcOnFrame(v.pcs[0].p, f, now, e, env.digest);
      w.pcs == [PcRun(st.s, v.pcs[0].acts + st.acts)] && forall g :: g in PairSends(st.acts) ==> g in w.sent
  {
    SentIsDeliverable(env, v, f);
    Next(env, v, DeliverToPc(0, f, now, e));
    w := DeliveredToPc(env, v, 0, f, now, e);
  }

  lemma PhoneShows(env: Env, v: World, ack: SFrame) returns (w: World)
    requires Reachable(env, v) && |v.phones| == 1 && ack in v.sent
    ensures Reachable(env, w) && w.pcs == v.pcs && w.sent == v.sent && |w.phones| == 1
    ensures w.phones[0].p == PhoneOnFrame(v.phones[0].p, ack, env.digest).s
  {
    SentIsDeliverable(env, v, ack);
    Next(env, v, DeliverToPhone(0, ack));
    w := AfterPhone(v, 0, PhoneOnFrame(v.phones[0].p, ack, env.digest));
  }

  /** The client calls `confirm_sas` and holds the frame back. */
  lemma PhoneHolds(env: Env, v: World, f: SFrame, r: Record, now: u64) returns (w: World)
    requires Reachable(env, v) && |v.phones| == 1 && ConfirmSas(v.phones[0].p, now).acts == [SendPair(f), Completed(r)]
    ensures Reachable(env, w) && w.pcs == v.pcs && |w.phones| == 1 && w.phones[0].held == Some(f)
  {
    Next(env, v, Confirm(0, now));
    w := AfterPhone(v, 0, ConfirmSas(v.phones[0].p, now));
    Preservation.PairLists();
  }

  /** The user lets it go. */
  lemma PhoneReleases(env: Env, v: World, f: SFrame) returns (w: World)
    requires Reachable(env, v) && |v.phones| == 1 && v.phones[0].held == Some(f)
    ensures Reachable(env, w) && w.pcs == v.pcs && |w.phones| == 1 && w.phones[0].released && f in w.sent
  {
    Next(env, v, Release(0));
    w := Released(v, 0);
  }

  // ------------------------------------------------------------------
  // The machines' steps
  // ------------------------------------------------------------------

  function SasOf(p: Parties): MacInput { SasBasis(Diffie(p.e, Pub(p.r)), Pub(p.phone), Pub(p.pc), p.token) }
  function Ack(p: Parties): SFrame { Frame(PairAck, Clear(Map(OneField(Pub(p.r))))) }
  function Final(p: Parties): SFrame {
    Frame(PairConfirm, Clear(Map(OneField(Mac(Diffie(p.phone, Pub(p.pc)), SasOf(p))))))
  }

  function Pc1(p: Parties, issued: u64): PcState {
    Pc0(p, issued).(tokenUsed := true, eph := Some(p.r), sasInput := Some(SasOf(p)), phase := AwaitingConfirm,
                    peer := Some(PcPeer(DeviceId(Pub(p.phone)), Pub(p.phone), p.name)))
  }

  lemma PcAnswers(p: Parties, issued: u64, now: u64, digest: SasDigest)
    requires Width(p.token) == 16 && now <= issued + PAIR_TOKEN_TTL_MS
    ensures var st := PcOnFrame(Pc0(p, issued), Req(p), now, Some(p.r), digest);
      st.s == Pc1(p, issued) && PairSends(st.acts) == [Ack(p)]
  {
    Preservation.PairLists();
    var m := ReqMsg(p.token, DeviceId(Pub(p.phone)), Pub(p.phone), p.name, Pub(p.e));
    PairingRuns.PcTakes(Pc0(p, issued), m, now, p.r, digest);
    DiffieCommutes(p.e, p.r);
  }

  lemma PhoneAnswers(p: Parties, now: u64, digest: SasDigest)
    ensures var s := PhoneOnFrame(Phone0(p), Ack(p), digest).s;
      ConfirmSas(s, now).acts ==
        [SendPair(Final(p)), Completed(NewRecord(DeviceId(Pub(p.pc)), Pub(p.pc), p.pcName, now))]
  {
    PairingRuns.PhoneTakes(Phone0(p), p.r, digest);
  }

  lemma PcFinishes(p: Parties, issued: u64, now: u64, digest: SasDigest)
    ensures PcOnFrame(Pc1(p, issued), Final(p), now, None, digest).acts ==
      [Completed(NewRecord(DeviceId(Pub(p.phone)), Pub(p.phone), p.name, now))]
  {
    DiffieCommutes(p.phone, p.pc);
    PairingRuns.PcCompletes(Pc1(p, issued), now, digest);
  }

  // ------------------------------------------------------------------
  // The run
  // ------------------------------------------------------------------

  lemma Answered(env: Env, p: Parties, issued: u64, now: u64) returns (w: World)
    requires Sensible(env, p) && now <= issued + PAIR_TOKEN_TTL_MS
    ensures Reachable(env, w) && |w.pcs| == 1 && w.pcs[0].p == Pc1(p, issued)
    ensures w.phones == [PhoneRun(Phone0(p), [], None, false)] && Ack(p) in w.sent
  {
    var v := Started(env, p, issued);
    PcAnswers(p, issued, now, env.digest);
    w := ToPc(env, v, Req(p), now, Some(p.r));
    assert Ack(p) in PairSends(PcOnFrame(Pc0(p, issued), Req(p), now, Some(p.r), env.digest).acts);
  }

  lemma Confirmed(env: Env, p: Parties, issued: u64, now: u64) returns (w: World)
    requires Sensible(env, p) && now <= issued + PAIR_TOKEN_TTL_MS
    ensures Reachable(env, w) && |w.pcs| == 1 && w.pcs[0].p == Pc1(p, issued)
    ensures |w.phones| == 1 && w.phones[0].released && Final(p) in w.sent
  {
    var v := Answered(env, p, issued, now);
    var v1 := PhoneShows(env, v, Ack(p));
    PhoneAnswers(p, now, env.digest);
    var v2 := PhoneHolds(env, v1, Final(p), NewRecord(DeviceId(Pub(p.pc)), Pub(p.pc), p.pcName, now), now);
    w := PhoneReleases(env, v2, Final(p));
  }

  /** Two honest devices can pair: there is a run whose end meets every hypothesis of
      `Guarantees.PairingAgreement`. */
  lemma PairingReachable(env: Env, p: Parties, issued: u64, now: u64) returns (w: World)
    requires Sensible(env, p) && now <= issued + PAIR_TOKEN_TTL_MS
    ensures Reachable(env, w) && |w.pcs| == 1 && |w.phones| == 1 && w.phones[0].released
    ensures Completed(NewRecord(DeviceId(Pub(p.phone)), Pub(p.phone), p.name, now)) in w.pcs[0].acts
  {
    var v := Confirmed(env, p, issued, now);
    PcFinishes(p, issued, now, env.digest);
    w := ToPc(env, v, Final(p), now, None);
  }
}
