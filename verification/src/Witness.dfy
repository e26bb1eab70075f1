/** The network model admits the runs the protocol is for: two honest devices that pass their frames
    on unchanged reach a world with both sessions established. */
module Witness {
  import opened Bytes
  import opened Common
  import opened Frames
  import opened Crypto
  import opened Cbor
  import opened Sessions
  import opened Network
  import opened Effects
  import opened Invariant
  import opened Guarantees
  import opened Preservation
  import opened Messages
  import L = OrderedLink

  lemma InitReachable(env: Env)
    requires Sound(env)
    ensures Reachable(env, Init(env))
  {
    var none: seq<Input> := [];
    var worlds := [Init(env)];
    assert Run(env, none, worlds) && worlds[|none|] == Init(env);
  }

  lemma SentIsDeliverable(env: Env, w: World, f: SFrame)
    requires f in w.sent
    ensures Deliverable(env, w, f)
  {
  }

  /** Extends a run by one step. */
  lemma Next(env: Env, v: World, a: Input)
    requires Reachable(env, v) && Enabled(env, v, a)
    ensures Reachable(env, Apply(env, v, a))
  {
    var trace, worlds :| Run(env, trace, worlds) && worlds[|trace|] == v;
    var trace', worlds' := trace + [a], worlds + [Apply(env, v, a)];
    forall k | 0 <= k < |trace'| ensures Stepped(env, trace', worlds', k) {
      if k < |trace| {
        assert Stepped(env, trace, worlds, k);
      }
    }
    assert Run(env, trace', worlds') && worlds'[|trace'|] == Apply(env, v, a);
  }

  lemma Opened(env: Env, c: L.Setup) returns (w: World)
    requires Sound(env) && L.Paired(c) && c.phone in env.honest && c.pc in env.honest
    requires c.eph !in env.honest + env.compromised && forall i :: 0 <= i < |c.peers| ==> WfPeer(c.peers[i])
    ensures Reachable(env, w) && |w.sessions| == 2 && L.HelloOfPhone(c) in w.sent
    ensures w.sessions[0].s == StartPhone(c.phone, L.PeerOf(c.pc), c.phoneNow, c.eph).0
    ensures w.sessions[1].s == NewPc(c.pc, c.peers, c.pcNow) && w.used == env.honest + env.compromised + {c.eph}
    ensures w.sessions[0].sealed == []
  {
    var w0 := Init(env);
    InitReachable(env);
    Next(env, w0, OpenPhone(c.phone, L.PeerOf(c.pc), c.phoneNow, c.eph));
    var w1 := WithPhone(w0, c.phone, L.PeerOf(c.pc), c.phoneNow, c.eph);
    Next(env, w1, OpenPc(c.pc, c.peers, c.pcNow));
    w := WithPc(w1, c.pc, c.peers, c.pcNow);
  }

  /** The PC's state right after it accepted the HELLO with ephemeral `r`. */
  predicate PcReady(c: L.Setup, r: Secret, s: State) {
    var keys := L.KeysOf(c, r);
    s.role == Pc && s.phase == Phase.Open && !s.paused && s.channel == Some(NewChannel(keys.c2p, keys.p2c))
  }

  lemma Greeted(env: Env, c: L.Setup, r: Secret, now: u64) returns (w: World)
    requires Sound(env) && L.Paired(c) && c.phone in env.honest && c.pc in env.honest && L.InTime(c, now)
    requires c.eph !in env.honest + env.compromised && forall i :: 0 <= i < |c.peers| ==> WfPeer(c.peers[i])
    requires r !in env.honest + env.compromised + {c.eph}
    ensures Reachable(env, w) && |w.sessions| == 2 && L.AckOfPc(c, r) in w.sent
    ensures w.sessions[0].s == StartPhone(c.phone, L.PeerOf(c.pc), c.phoneNow, c.eph).0 && w.sessions[0].sealed == []
    ensures PcReady(c, r, w.sessions[1].s)
  {
    var v := Opened(env, c);
    w := Greets(env, c, v, 1, r, now);
  }

  /** Every honest paired phone and PC, with clocks close enough and fresh ephemerals, reach a world
      in which the phone is established with the PC and the two sessions hold each other's keys. */
  lemma HandshakeReachable(env: Env, c: L.Setup, r: Secret, now: u64) returns (w: World)
    requires Sound(env) && L.Paired(c) && c.phone in env.honest && c.pc in env.honest && L.InTime(c, now)
    requires c.eph !in env.honest + env.compromised && forall i :: 0 <= i < |c.peers| ==> WfPeer(c.peers[i])
    requires r !in env.honest + env.compromised + {c.eph}
    ensures Reachable(env, w) && Trusts(env, w, 0, c.pc) && w.sessions[0].s.role == Phone
    ensures |w.sessions| == 2 && w.sessions[0].s.phase == Phase.Open && PcReady(c, r, w.sessions[1].s)
    ensures w.sessions[0].sealed == [] && Mirrors(w.sessions[0], w.sessions[1])
    ensures var keys := L.KeysOf(c, r); w.sessions[0].s.channel == Some(NewChannel(keys.p2c, keys.c2p))
  {
    var v := Greeted(env, c, r, now);
    var ack := L.AckOfPc(c, r);
    SentIsDeliverable(env, v, ack);
    Next(env, v, Deliver(0, ack, now, None));
    w := Delivered(v, 0, ack, now, None);
    Established0(c, v.sessions[0], r, now);
  }

  /** The phone's run right after the HELLO_ACK. */
  lemma Established0(c: L.Setup, run: SessionRun, r: Secret, now: u64)
    requires run.s == StartPhone(c.phone, L.PeerOf(c.pc), c.phoneNow, c.eph).0 && run.sealed == []
    ensures var q := AfterFrame(run, L.AckOfPc(c, r), now, None); var keys := L.KeysOf(c, r);
      q.s == run.s.(lastActivity := now, phase := Phase.Open, channel := Some(NewChannel(keys.p2c, keys.c2p))) &&
      q.sealed == [] && Joined(q)
  {
    L.AckHeard(c, run.s, r, now);
    HelloAckRoundTrip(AckFor(c.pc, L.PeerOf(c.phone), Pub(c.eph), r));
    ShortLists();
  }

  // ------------------------------------------------------------------
  // One HELLO, two sessions
  // ------------------------------------------------------------------

  /** A HELLO delivered twice inside the window establishes two PC sessions that heard one ephemeral. */
  lemma ReplayReachable(env: Env, c: L.Setup, r1: Secret, r2: Secret, now: u64) returns (w: World)
    requires Sound(env) && L.Paired(c) && c.phone in env.honest && c.pc in env.honest && L.InTime(c, now)
    requires c.eph !in env.honest + env.compromised && forall i :: 0 <= i < |c.peers| ==> WfPeer(c.peers[i])
    requires r1 !in env.honest + env.compromised + {c.eph} && r2 !in env.honest + env.compromised + {c.eph, r1}
    ensures Reachable(env, w) && |w.sessions| == 3 && Trusts(env, w, 1, c.phone) && Trusts(env, w, 2, c.phone)
    ensures w.sessions[1].s.role == Pc && w.sessions[2].s.role == Pc
    ensures w.sessions[1].s.identity == w.sessions[2].s.identity && w.sessions[1].heard == w.sessions[2].heard
    ensures w.sessions[1].s.phase == Phase.Open && w.sessions[2].s.phase == Phase.Open
  {
    var v0 := Opened(env, c);
    Next(env, v0, OpenPc(c.pc, c.peers, c.pcNow));
    var v1 := WithPc(v0, c.pc, c.peers, c.pcNow);
    var v2 := Greets(env, c, v1, 1, r1, now);
    w := Greets(env, c, v2, 2, r2, now);
  }

  /** The phone's HELLO is delivered to a PC session that waits for one. */
  lemma Greets(env: Env, c: L.Setup, v: World, i: nat, r: Secret, now: u64) returns (w: World)
    requires Reachable(env, v) && i < |v.sessions| && v.sessions[i].s == NewPc(c.pc, c.peers, c.pcNow)
    requires L.Paired(c) && L.InTime(c, now) && r !in v.used && L.HelloOfPhone(c) in v.sent
    ensures Reachable(env, w) && |w.sessions| == |v.sessions| && w.used == v.used + {r} && v.sent <= w.sent
    ensures forall j :: 0 <= j < |v.sessions| && j != i ==> w.sessions[j] == v.sessions[j]
    ensures PcReady(c, r, w.sessions[i].s) && Joined(w.sessions[i]) && w.sessions[i].heard == Some(Pub(c.eph))
    ensures w.sessions[i].s.peer == Some(L.PeerOf(c.phone)) && w.sessions[i].s.identity == c.pc
    ensures L.AckOfPc(c, r) in w.sent
  {
    var hello := L.HelloOfPhone(c);
    SentIsDeliverable(env, v, hello);
    Next(env, v, Deliver(i, hello, now, Some(r)));
    w := Delivered(v, i, hello, now, Some(r));
    GreetedRun(c, v.sessions[i], r, now);
  }

  /** The PC's run right after the HELLO. */
  lemma GreetedRun(c: L.Setup, run: SessionRun, r: Secret, now: u64)
    requires run.s == NewPc(c.pc, c.peers, c.pcNow) && L.Paired(c) && L.InTime(c, now)
    ensures var q := AfterFrame(run, L.HelloOfPhone(c), now, Some(r));
      PcReady(c, r, q.s) && Joined(q) && q.heard == Some(Pub(c.eph)) && q.s.peer == Some(L.PeerOf(c.phone)) &&
      q.s.identity == c.pc
    ensures L.AckOfPc(c, r) in Sends(OnFrame(run.s, L.HelloOfPhone(c), now, Some(r)).acts)
  {
    L.HelloHeard(c, run.s, now, Some(r));
    HelloRoundTrip(HelloFor(c.phone, L.PeerOf(c.pc), c.phoneNow, c.eph));
    ShortLists();
  }

  // ------------------------------------------------------------------
  // Two sessions with one key
  // ------------------------------------------------------------------

  /** 32 zero bytes: a point of low order. */
  function Zeros(): Blob { Raw(seq(32, _ => 0)) }

  lemma {:induction false} ZeroIsZero(s: seq<byte>)
    requires forall i :: 0 <= i < |s| ==> s[i] == 0
    ensures FromLittleEndian(s) == 0
  {
    if s != [] { ZeroIsZero(s[1..]); }
  }

  /** Against them every scalar gives the same result. */
  lemma DeadShared(s: Secret)
    ensures Diffie(s, Zeros()) == Weak
  {
    ZeroIsZero(Zeros().bytes);
  }

  /** What a PC with scalar `x` can answer to a phone's ephemeral without making one of its own. */
  function DeadAck(phone: Secret, x: Secret, eph: Secret): SFrame {
    Frame(HelloAck, Clear(Map(HelloAckFields(DeadMsg(phone, x, eph)))))
  }

  function DeadMsg(phone: Secret, x: Secret, eph: Secret): AckMsg {
    AckMsg(Zeros(), Mac(Diffie(phone, Pub(x)), AckBasis(Zeros(), Pub(eph))))
  }

  lemma DeadAckDeliverable(env: Env, w: World, phone: Secret, x: Secret, eph: Secret)
    requires x in env.compromised
    ensures Deliverable(env, w, DeadAck(phone, x, eph))
  {
    var f := DeadAck(phone, x, eph);
    forall k, m | Shows(f, Mac(k, m)) ensures KnownShared(env, k) {
      HelloAckLeaves(DeadMsg(phone, x, eph), Mac(k, m));
    }
  }

  /** Keys into which no ephemeral enters. */
  function DeadKeys(phone: Secret, x: Secret): SessionKeys {
    DeriveSessionKeys(Weak, Weak, Diffie(phone, Pub(x)), DeviceId(Pub(phone)), DeviceId(Pub(x)))
  }

  lemma DeadAckHeard(s: State, phone: Secret, x: Secret, eph: Secret, now: u64, started: u64)
    requires s == StartPhone(phone, L.PeerOf(x), started, eph).0
    ensures var t := OnFrame(s, DeadAck(phone, x, eph), now, None).s; var keys := DeadKeys(phone, x);
      t.channel == Some(NewChannel(keys.p2c, keys.c2p)) && t.peer == s.peer && t.eph == s.eph && t.role == Phone
    ensures ReadHelloAck(DeadAck(phone, x, eph).payload) == Good(DeadMsg(phone, x, eph))
  {
    DeadShared(eph);
    DeadShared(phone);
    AckTaken(s, L.PeerOf(x), eph, DeadMsg(phone, x, eph), now);
  }

  /** Any HELLO_ACK with the right MAC is taken. */
  lemma AckTaken(s: State, peer: PeerKey, eph: Secret, m: AckMsg, now: u64)
    requires s.phase == AwaitingHelloAck && s.peer == Some(peer) && s.eph == Some(eph) && s.ephPkI == Some(Pub(eph))
    requires Width(m.ephR) == 32 && m.mac == Mac(Diffie(s.identity, peer.publicKey), AckBasis(m.ephR, Pub(eph)))
    ensures var f := Frame(HelloAck, Clear(Map(HelloAckFields(m))));
      var keys := PhoneKeys(s.identity, peer, eph, m.ephR);
      ReadHelloAck(f.payload) == Good(m) &&
      OnFrame(s, f, now, None).s ==
        s.(lastActivity := now, phase := Phase.Open, channel := Some(NewChannel(keys.p2c, keys.c2p)))
  {
    HelloAckRoundTrip(m);
  }

  lemma TwoOpen(env: Env, phone: Secret, x: Secret, e1: Secret, e2: Secret, now: u64) returns (w: World)
    requires Sound(env) && phone in env.honest
    requires e1 !in env.honest + env.compromised && e2 !in env.honest + env.compromised && e1 != e2
    ensures Reachable(env, w) && |w.sessions| == 2
    ensures w.sessions[0] == SessionRun(StartPhone(phone, L.PeerOf(x), now, e1).0, now, None, 0, [], [], [])
    ensures w.sessions[1] == SessionRun(StartPhone(phone, L.PeerOf(x), now, e2).0, now, None, 0, [], [], [])
  {
    var w0 := Init(env);
    InitReachable(env);
    Next(env, w0, OpenPhone(phone, L.PeerOf(x), now, e1));
    var w1 := WithPhone(w0, phone, L.PeerOf(x), now, e1);
    Next(env, w1, OpenPhone(phone, L.PeerOf(x), now, e2));
    w := WithPhone(w1, phone, L.PeerOf(x), now, e2);
  }

  /** A compromised paired PC can give two sessions of one phone the same keys and counters: the phone
      does not check that the peer's ephemeral contributes. */
  lemma KeysCanCoincide(env: Env, phone: Secret, x: Secret, e1: Secret, e2: Secret, now: u64) returns (w: World)
    requires Sound(env) && phone in env.honest && x in env.compromised
    requires e1 !in env.honest + env.compromised && e2 !in env.honest + env.compromised && e1 != e2
    ensures Reachable(env, w) && |w.sessions| == 2 && Joined(w.sessions[0]) && Joined(w.sessions[1])
    ensures w.sessions[0].s.eph != w.sessions[1].s.eph
    ensures w.sessions[0].s.channel.value.tx == w.sessions[1].s.channel.value.tx
  {
    var v := TwoOpen(env, phone, x, e1, e2, now);
    DeadAckDeliverable(env, v, phone, x, e1);
    DeadAckHeard(v.sessions[0].s, phone, x, e1, now, now);
    Next(env, v, Deliver(0, DeadAck(phone, x, e1), now, None));
    var u := Delivered(v, 0, DeadAck(phone, x, e1), now, None);
    DeadAckDeliverable(env, u, phone, x, e2);
    DeadAckHeard(u.sessions[1].s, phone, x, e2, now, now);
    Next(env, u, Deliver(1, DeadAck(phone, x, e2), now, None));
    w := Delivered(u, 1, DeadAck(phone, x, e2), now, None);
  }
}
