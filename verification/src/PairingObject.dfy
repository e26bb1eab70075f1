/** The pairing objects of pairing.rs, updated in place, proved against the step functions. */
module PairingObject {
  import opened Bytes
  import opened Common
  import opened Frames
  import opened Crypto
  import opened Cbor
  import opened Sessions
  import opened Sas
  import P = Pairing
  import opened Pairing

  class PcPairing {
    const identity: Secret
    const displayName: string
    const hosts: seq<string>
    const token: Blob
    const issued: u64
    var tokenUsed: bool
    var phase: PcPhase
    var eph: Option<Secret>
    var peer: Option<PcPeer>
    var sasInput: Option<MacInput>

    function Model(): PcState
      reads this
    {
      PcState(identity, token, issued, tokenUsed, phase, eph, peer, sasInput)
    }

    constructor WithToken(identity: Secret, displayName: string, hosts: seq<string>, token: Blob, now: u64)
      ensures Model() == NewPcPairing(identity, token, now)
      ensures this.displayName == displayName && this.hosts == hosts
    {
      this.identity := identity;
      this.displayName := displayName;
      this.hosts := hosts;
      this.token := token;
      this.issued := now;
      this.tokenUsed := false;
      this.phase := AwaitingReq;
      this.eph := None;
      this.peer := None;
      this.sasInput := None;
    }

    /** `qr_payload`: this PC's own key and id, its token, name and hosts, for this version. */
    function Offer(): (c: Code)
      ensures c.version == PROTOCOL_VERSION && c.hosts == hosts && c.scan.displayName == displayName
      ensures c.scan.publicKey == Pub(identity) && c.scan.deviceId == DeviceId(c.scan.publicKey)
      ensures c.scan.token == token
    {
      CodeFor(identity, displayName, hosts, token)
    }

    method Fail(why: PairReason) returns (acts: seq<PairAction>)
      modifies this`phase
      ensures PcStep(Model(), acts) == PcFail(old(Model()), why)
    {
      phase := PcFailed;
      return [PairFailed(why)];
    }

    method OnFrame(f: SFrame, now: u64, newEph: Option<Secret>, digest: SasDigest) returns (acts: seq<PairAction>)
      modifies this
      ensures PcStep(Model(), acts) == PcOnFrame(old(Model()), f, now, newEph, digest)
    {
      if phase == AwaitingReq && f.ty == PairReq {
        acts := OnPairReq(f.payload, now, newEph, digest);
      } else if phase == AwaitingConfirm && f.ty == PairConfirm {
        acts := OnConfirm(f.payload, now);
      } else {
        acts := Fail(UnexpectedPairFrame);
      }
    }

    method OnPairReq(p: Payload, now: u64, newEph: Option<Secret>, digest: SasDigest) returns (acts: seq<PairAction>)
      modifies this
      ensures PcStep(Model(), acts) == P.OnPairReq(old(Model()), p, now, newEph, digest)
    {
      var m := ReadReq(p);
      if !m.Good? {
        acts := Fail(if m.BadMap? then MalformedReq else MalformedReqFields);
        return;
      }
      var ReqMsg(presented, peerId, peerPk, peerName, ephI) := m.value;
      if presented != token {
        acts := Fail(BadToken);
        return;
      }
      if tokenUsed {
        acts := Fail(TokenUsed);
        return;
      }
      if (if now < issued then 0 else now - issued) > PAIR_TOKEN_TTL_MS {
        acts := Fail(TokenExpired);
        return;
      }
      if DeviceId(peerPk) != peerId {
        acts := Fail(IdMismatch);
        return;
      }
      tokenUsed := true;
      if newEph.None? {
        acts := Fail(NoKeygen);
        return;
      }
      var sas := SasBasis(Diffie(newEph.value, ephI), peerPk, Pub(identity), token);
      eph := newEph;
      peer := Some(PcPeer(peerId, peerPk, peerName));
      sasInput := Some(sas);
      phase := AwaitingConfirm;
      acts := [SendPair(Frame(PairAck, Clear(Map(OneField(Pub(newEph.value)))))), ShowSas(SasEmoji(digest(sas)))];
    }

    method OnConfirm(p: Payload, now: u64) returns (acts: seq<PairAction>)
      modifies this`phase
      ensures PcStep(Model(), acts) == P.OnConfirm(old(Model()), p, now)
    {
      var m := ReadOne(p);
      if !m.Good? {
        acts := Fail(if m.BadMap? then MalformedConfirm else MalformedConfirmMac);
        return;
      }
      if peer.None? || sasInput.None? {
        acts := Fail(ConfirmWithoutRequest);
        return;
      }
      if !VerifyMac(Diffie(identity, peer.value.pk), sasInput.value, m.value) {
        acts := Fail(ConfirmMacMismatch);
        return;
      }
      phase := PcDone;
      acts := [Completed(Record(peer.value.deviceId, peer.value.pk, peer.value.name, now, now))];
    }
  }

  class PhonePairing {
    const identity: Secret
    const displayName: string
    const qr: Scan
    const eph: Secret
    var phase: PhonePhase
    var sasInput: Option<MacInput>

    function Model(): PhoneState
      reads this
    {
      PhoneState(identity, displayName, qr, eph, phase, sasInput)
    }

    constructor Start(identity: Secret, name: string, qr: Scan, eph: Secret)
      ensures Model() == StartPairing(identity, name, qr, eph).0
    {
      this.identity := identity;
      this.displayName := name;
      this.qr := qr;
      this.eph := eph;
      this.phase := AwaitingAck;
      this.sasInput := None;
    }

    method OnFrame(f: SFrame, digest: SasDigest) returns (acts: seq<PairAction>)
      modifies this
      ensures PhoneStep(Model(), acts) == PhoneOnFrame(old(Model()), f, digest)
    {
      if phase != AwaitingAck || f.ty != PairAck {
        phase := PhoneFailed;
        return [PairFailed(UnexpectedPairFrame)];
      }
      var m := ReadOne(f.payload);
      if !m.Good? {
        phase := PhoneFailed;
        return [PairFailed(if m.BadMap? then MalformedAckMsg else MalformedAckKey)];
      }
      var sas := SasBasis(Diffie(eph, m.value), Pub(identity), qr.publicKey, qr.token);
      sasInput := Some(sas);
      phase := AwaitingUser;
      acts := [ShowSas(SasEmoji(digest(sas)))];
    }

    method Confirm(now: u64) returns (acts: seq<PairAction>)
      modifies this`phase
      ensures PhoneStep(Model(), acts) == ConfirmSas(old(Model()), now)
    {
      if phase != AwaitingUser {
        return [PairFailed(ConfirmBeforeSas)];
      }
      if sasInput.None? {
        return [PairFailed(ConfirmWithoutSas)];
      }
      var mac := Mac(Diffie(identity, qr.publicKey), sasInput.value);
      phase := PhoneDone;
      acts := [SendPair(Frame(PairConfirm, Clear(Map(OneField(mac))))),
               Completed(Record(qr.deviceId, qr.publicKey, qr.displayName, now, now))];
    }

    method Reject() returns (acts: seq<PairAction>)
      modifies this`phase
      ensures PhoneStep(Model(), acts) == RejectSas(old(Model()))
    {
      phase := PhoneFailed;
      acts := [PairFailed(UserRejected)];
    }
  }

  // ------------------------------------------------------------------
  // The phone's client
  // ------------------------------------------------------------------

  /** The SAS is on the screen; the confirmation is made but held back until the user has compared. */
  class PendingPairing {
    const record: Record
    const sas: Emoji4
    var confirmFrame: Option<SFrame>

    constructor (record: Record, sas: Emoji4, frame: SFrame)
      ensures this.record == record && this.sas == sas && confirmFrame == Some(frame)
    {
      this.record := record;
      this.sas := sas;
      this.confirmFrame := Some(frame);
    }

    /** The user's word: sends the frame, once, and hands out the record to store. */
    method Confirm() returns (sent: Option<SFrame>, stored: Option<Record>)
      modifies this
      ensures sent == old(confirmFrame) && confirmFrame == None
      ensures stored == if sent.Some? then Some(record) else None
    {
      sent := confirmFrame;
      confirmFrame := None;
      stored := if sent.Some? then Some(record) else None;
    }
  }

  /** `begin_pairing`: sends the PAIR_REQ, reads one reply, and stops at the SAS.  What it holds back is
      the MAC over the very input whose emoji it shows. */
  method BeginPairing(identity: Secret, name: string, qr: Scan, eph: Secret, reply: Option<SFrame>, now: u64,
                      digest: SasDigest) returns (req: SFrame, pending: PendingPairing?)
    ensures req == StartPairing(identity, name, qr, eph).1
    ensures pending != null <==> reply.Some? && reply.value.ty == PairAck && ReadOne(reply.value.payload).Good?
    ensures pending != null ==>
      var ephR := ReadOne(reply.value.payload).value;
      var m := SasBasis(Diffie(eph, ephR), Pub(identity), qr.publicKey, qr.token);
      fresh(pending) && pending.sas == SasEmoji(digest(m)) &&
      pending.record == NewRecord(qr.deviceId, qr.publicKey, qr.displayName, now) &&
      pending.confirmFrame == Some(Frame(PairConfirm, Clear(Map(OneField(Mac(Diffie(identity, qr.publicKey), m))))))
  {
    var fsm := new PhonePairing.Start(identity, name, qr, eph);
    req := StartPairing(identity, name, qr, eph).1;
    if reply.None? || reply.value.ty != PairAck {
      return req, null;
    }
    var shown := fsm.OnFrame(reply.value, digest);
    if |shown| != 1 || !shown[0].ShowSas? {
      return req, null;
    }
    var acts := fsm.Confirm(now);
    pending := new PendingPairing(acts[1].record, shown[0].emoji, acts[0].frame);
  }
}
