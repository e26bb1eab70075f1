/** Keys, MACs and the AEAD channel (crypto.rs), with ideal primitives.

    Scalars are numbers; an X25519 result is the unordered pair of the two scalars (section 6.1 of
    RFC 7748); a MAC, an HKDF output (section 2 of RFC 5869) and an AEAD box (section 2.8 of RFC 8439)
    are constructors over their inputs.  Commutativity of Diffie-Hellman and the absence of collisions
    and forgeries are thereby built in; everything else is proved. */
module Crypto {
  import opened Bytes
  import opened Common
  import opened Frames

  type Secret = nat

  /** A byte string as the handshakes see it. */
  datatype Blob =
    | Raw(bytes: seq<byte>)
    | Pub(secret: Secret)                    // the X25519 public key of a scalar
    | Digest(pk: Blob)                       // the first 16 bytes of BLAKE3 of a public key
    | Mac(key: Shared, msg: MacInput)        // a keyed BLAKE3 tag

  /** A raw X25519 result: the pair of two scalars; zero, for every point of low order; or the result
      against some other string that is no scalar's public key, different for every scalar. */
  datatype Shared = Dh(lo: Secret, hi: Secret) | Weak | Odd(scalar: Secret, point: Blob)

  /** The three things ever MACed under a static secret.  `MacBases` shows on the byte level that
      they cannot be confused with one another and determine their fields. */
  datatype MacInput =
    | HelloBasis(id: Blob, ephI: Blob, ts: u64)
    | AckBasis(ephR: Blob, ephI: Blob)
    | SasBasis(ssEph: Shared, pkPhone: Blob, pkPc: Blob, token: Blob)

  function Width(b: Blob): nat {
    match b
    case Raw(s) => |s|
    case Pub(_) => 32
    case Digest(_) => 16
    case Mac(_, _) => 32
  }

  function DeviceId(pk: Blob): Blob { Digest(pk) }

  /** 2 to the power 255 minus 19. */
  const FIELD := 0x7FFFFFFF_FFFFFFFF_FFFFFFFF_FFFFFFFF_FFFFFFFF_FFFFFFFF_FFFFFFFF_FFFFFFED

  /** The 14 strings that stand for a point of order 1, 2, 4 or 8: the top bit is ignored, and the
      coordinate is reduced modulo `FIELD` (section 5 of RFC 7748). */
  predicate LowOrder(pk: Blob) {
    pk.Raw? && |pk.bytes| == 32 &&
    var u := FromLittleEndian(pk.bytes) % (FIELD + 19);
    u in {0, 1, FIELD - 1, FIELD, FIELD + 1,
          0x00B8495F_16056286_FDB1329C_EB8D09DA_6AC49FF1_FAE35616_AEB8413B_7C7AEBE0,
          0x57119FD0_DD4E22D8_868E1C58_C45C4404_5BEF839C_55B1D0B1_248C50A3_BC959C5F}
  }

  function Diffie(s: Secret, pk: Blob): Shared {
    if !pk.Pub? then if LowOrder(pk) then Weak else Odd(s, pk)
    else if s <= pk.secret then Dh(s, pk.secret) else Dh(pk.secret, s)
  }

  /** Section 6.1 of RFC 7748: both ends compute the same secret. */
  lemma DiffieCommutes(a: Secret, b: Secret)
    ensures Diffie(a, Pub(b)) == Diffie(b, Pub(a))
  {
  }

  predicate VerifyMac(key: Shared, msg: MacInput, tag: Blob) {
    tag == Mac(key, msg)
  }

  // ------------------------------------------------------------------
  // Session keys
  // ------------------------------------------------------------------

  datatype Way = PhoneToPc | PcToPhone

  datatype SessionKey =
    Hkdf(ssEe: Shared, ssSi: Shared, ssStatic: Shared, idPhone: Blob, idPc: Blob, info: Way)

  datatype SessionKeys = SessionKeys(p2c: SessionKey, c2p: SessionKey)

  function DeriveSessionKeys(ssEe: Shared, ssSi: Shared, ssStatic: Shared, idPhone: Blob, idPc: Blob): SessionKeys {
    SessionKeys(Hkdf(ssEe, ssSi, ssStatic, idPhone, idPc, PhoneToPc),
                Hkdf(ssEe, ssSi, ssStatic, idPhone, idPc, PcToPhone))
  }

  // ------------------------------------------------------------------
  // The AEAD channel
  // ------------------------------------------------------------------

  /** A ciphertext with its tag: what was sealed, under which key, nonce and associated data.  The
      nonce is `NonceFor(ctr)`; the associated data are the frame type and the constant protocol
      version. */
  datatype Box = Box(key: SessionKey, ctr: u64, aad: FrameType, plain: seq<byte>)

  /** The payload of an encrypted frame: counter prefix and ciphertext, or something else entirely. */
  datatype Cipher = Sealed(ctr: u64, box: Box) | Garbage(bytes: seq<byte>)

  /** Four zero bytes and the counter, least significant byte first. */
  function NonceFor(ctr: u64): (n: seq<byte>)
    ensures |n| == 12
  {
    [0, 0, 0, 0] + LittleEndian(ctr, 8)
  }

  lemma NonceInjective(a: u64, b: u64)
    requires NonceFor(a) == NonceFor(b)
    ensures a == b
  {
    Pow256Values();
    LittleEndianRoundTrip(a, 8);
    LittleEndianRoundTrip(b, 8);
    assert NonceFor(a)[4..] == LittleEndian(a, 8) && NonceFor(b)[4..] == LittleEndian(b, 8);
  }

  datatype Direction = Direction(key: SessionKey, ctr: u64, seenAny: bool)
  datatype Channel = Channel(tx: Direction, rx: Direction)

  function NewChannel(txKey: SessionKey, rxKey: SessionKey): Channel {
    Channel(Direction(txKey, 0, false), Direction(rxKey, 0, false))
  }

  function Seal(ch: Channel, ty: FrameType, plain: seq<byte>): (Channel, Result<Cipher>) {
    if ch.tx.ctr == U64_MAX then (ch, Err(Error.Crypto))
    else (ch.(tx := ch.tx.(ctr := ch.tx.ctr + 1)),
          Ok(Sealed(ch.tx.ctr, Box(ch.tx.key, ch.tx.ctr, ty, plain))))
  }

  /** Counters must strictly increase. */
  predicate Stale(d: Direction, ctr: u64) {
    d.seenAny && ctr <= d.ctr
  }

  function Open(ch: Channel, ty: FrameType, c: Cipher): (Channel, Result<seq<byte>>) {
    if c.Garbage? || Stale(ch.rx, c.ctr) then (ch, Err(Error.Crypto))
    else if c.box != Box(ch.rx.key, c.ctr, ty, c.box.plain) then (ch, Err(Error.Crypto))
    else (ch.(rx := ch.rx.(ctr := c.ctr, seenAny := true)), Ok(c.box.plain))
  }

  class AeadChannel {
    var tx: Direction
    var rx: Direction

    function Model(): Channel
      reads this
    {
      Channel(tx, rx)
    }

    constructor (txKey: SessionKey, rxKey: SessionKey)
      ensures Model() == NewChannel(txKey, rxKey)
    {
      tx := Direction(txKey, 0, false);
      rx := Direction(rxKey, 0, false);
    }

    /** Encrypts first and then advances the counter; at the last counter value the advance fails and
        nothing is returned. */
    method SealNext(ty: FrameType, plain: seq<byte>) returns (r: Result<Cipher>)
      modifies this
      ensures (Model(), r) == Seal(old(Model()), ty, plain)
      ensures r.Ok? ==> r.value.Sealed? && r.value.ctr == old(tx.ctr) && tx.ctr == old(tx.ctr) + 1
      ensures rx == old(rx) && tx.key == old(tx.key)
    {
      var ctr := tx.ctr;
      var ct := Box(tx.key, ctr, ty, plain);
      if ctr == U64_MAX {
        return Err(Error.Crypto);
      }
      tx := tx.(ctr := ctr + 1);
      return Ok(Sealed(ctr, ct));
    }

    /** The counter only moves once the box has been authenticated. */
    method OpenNext(ty: FrameType, c: Cipher) returns (r: Result<seq<byte>>)
      modifies this
      ensures (Model(), r) == Open(old(Model()), ty, c)
      ensures tx == old(tx) && rx.key == old(rx.key)
      ensures r.Err? ==> rx == old(rx)
    {
      if c.Garbage? {
        return Err(Error.Crypto);
      }
      if rx.seenAny && c.ctr <= rx.ctr {
        return Err(Error.Crypto);
      }
      if c.box.key != rx.key || c.box.ctr != c.ctr || c.box.aad != ty {
        return Err(Error.Crypto);
      }
      rx := rx.(ctr := c.ctr, seenAny := true);
      return Ok(c.box.plain);
    }
  }

  // ------------------------------------------------------------------
  // Runs of one channel
  // ------------------------------------------------------------------

  /** Everything returned by sealing `msgs` one after the other. */
  function SealAll(ch: Channel, msgs: seq<(FrameType, seq<byte>)>): seq<Cipher>
    decreases |msgs|
  {
    if msgs == [] then [] else
    var (ch', r) := Seal(ch, msgs[0].0, msgs[0].1);
    (if r.Ok? then [r.value] else []) + SealAll(ch', msgs[1..])
  }

  /** The k-th ciphertext carries the k-th counter, the k-th message and the channel's key. */
  lemma {:induction false} SealAllAt(ch: Channel, msgs: seq<(FrameType, seq<byte>)>, k: nat)
    requires k < |SealAll(ch, msgs)|
    ensures k < |msgs| && ch.tx.ctr + k < U64_MAX
    ensures SealAll(ch, msgs)[k] ==
      Sealed(ch.tx.ctr + k, Box(ch.tx.key, ch.tx.ctr + k, msgs[k].0, msgs[k].1))
    decreases |msgs|
  {
    var (ch', r) := Seal(ch, msgs[0].0, msgs[0].1);
    if r.Err? {
      SealAllAt(ch', msgs[1..], k);
    } else if k > 0 {
      assert SealAll(ch, msgs)[k] == SealAll(ch', msgs[1..])[k - 1];
      SealAllAt(ch', msgs[1..], k - 1);
    }
  }

  /** Nothing is lost either, until the counter is exhausted; from then on nothing comes out. */
  lemma {:induction false} SealAllCount(ch: Channel, msgs: seq<(FrameType, seq<byte>)>)
    ensures |SealAll(ch, msgs)| == if |msgs| <= U64_MAX - ch.tx.ctr then |msgs| else U64_MAX - ch.tx.ctr
    decreases |msgs|
  {
    if msgs != [] {
      SealAllCount(Seal(ch, msgs[0].0, msgs[0].1).0, msgs[1..]);
    }
  }

  /** No two ciphertexts a channel ever returns share a nonce, counter exhaustion included. */
  lemma NoncesNeverRepeat(ch: Channel, msgs: seq<(FrameType, seq<byte>)>, i: nat, j: nat)
    requires i < j < |SealAll(ch, msgs)|
    ensures SealAll(ch, msgs)[i].Sealed? && SealAll(ch, msgs)[j].Sealed?
    ensures NonceFor(SealAll(ch, msgs)[i].box.ctr) != NonceFor(SealAll(ch, msgs)[j].box.ctr)
  {
    SealAllAt(ch, msgs, i);
    SealAllAt(ch, msgs, j);
    var a, b := SealAll(ch, msgs)[i].box.ctr, SealAll(ch, msgs)[j].box.ctr;
    if NonceFor(a) == NonceFor(b) {
      NonceInjective(a, b);
    }
  }

  /** The plaintexts accepted from a sequence of payloads, in order, and the channel afterwards. */
  function OpenAll(ch: Channel, ps: seq<(FrameType, Cipher)>): (Channel, seq<seq<byte>>)
    decreases |ps|
  {
    if ps == [] then (ch, []) else
    var (ch', r) := Open(ch, ps[0].0, ps[0].1);
    var (end, rest) := OpenAll(ch', ps[1..]);
    (end, (if r.Ok? then [r.value] else []) + rest)
  }

  lemma {:induction false} OpenAllAppend(ch: Channel, ps: seq<(FrameType, Cipher)>, qs: seq<(FrameType, Cipher)>)
    ensures var (mid, a) := OpenAll(ch, ps); var (end, b) := OpenAll(mid, qs);
      OpenAll(ch, ps + qs) == (end, a + b)
    decreases |ps|
  {
    if ps == [] {
      assert ps + qs == qs;
      assert [] + OpenAll(ch, qs).1 == OpenAll(ch, qs).1;
    } else {
      var (ch', r) := Open(ch, ps[0].0, ps[0].1);
      OpenAllAppend(ch', ps[1..], qs);
      assert (ps + qs)[1..] == ps[1..] + qs;
      var (mid, a) := OpenAll(ch', ps[1..]);
      var (end, b) := OpenAll(mid, qs);
      var got := if r.Ok? then [r.value] else [];
      assert got + (a + b) == (got + a) + b;
    }
  }

  lemma RejectedAlone(ch: Channel, bad: (FrameType, Cipher))
    requires Open(ch, bad.0, bad.1).1.Err?
    ensures OpenAll(ch, [bad]) == (ch, [])
  {
    var ps := [bad];
    var none: seq<seq<byte>> := [];
    assert ps[1..] == [] && Open(ch, ps[0].0, ps[0].1).0 == ch;
    assert OpenAll(ch, ps[1..]) == (ch, none) && none + none == none;
  }

  /** Rejected payloads, wherever they are inserted, change neither what is accepted nor the channel:
      a forger cannot burn counter space. */
  lemma RejectedAreInert(ch: Channel, ps: seq<(FrameType, Cipher)>, bad: (FrameType, Cipher),
                         qs: seq<(FrameType, Cipher)>)
    requires Open(OpenAll(ch, ps).0, bad.0, bad.1).1.Err?
    ensures OpenAll(ch, ps + [bad] + qs) == OpenAll(ch, ps + qs)
  {
    var (mid, a) := OpenAll(ch, ps);
    RejectedAlone(mid, bad);
    OpenAllAppend(ch, ps, qs);
    OpenAllAppend(mid, [bad], qs);
    OpenAllAppend(ch, ps, [bad] + qs);
    assert ps + [bad] + qs == ps + ([bad] + qs);
    assert [] + OpenAll(mid, qs).1 == OpenAll(mid, qs).1;
  }

  /** The payloads a channel accepts from a sequence. */
  function Accepted(ch: Channel, ps: seq<(FrameType, Cipher)>): seq<(FrameType, Cipher)>
    decreases |ps|
  {
    if ps == [] then [] else
    var (ch', r) := Open(ch, ps[0].0, ps[0].1);
    (if r.Ok? then [ps[0]] else []) + Accepted(ch', ps[1..])
  }

  /** Any number of rejected payloads, anywhere: leaving all of them out changes neither what is
      accepted nor the channel. */
  lemma {:induction false} OnlyAcceptedMatter(ch: Channel, ps: seq<(FrameType, Cipher)>)
    ensures OpenAll(ch, Accepted(ch, ps)) == OpenAll(ch, ps)
    ensures |OpenAll(ch, ps).1| == |Accepted(ch, ps)|
    decreases |ps|
  {
    if ps != [] {
      var (ch', r) := Open(ch, ps[0].0, ps[0].1);
      OnlyAcceptedMatter(ch', ps[1..]);
      var rest := Accepted(ch', ps[1..]);
      if r.Ok? {
        var all := [ps[0]] + rest;
        assert all[0] == ps[0] && all[1..] == rest;
      } else {
        var none: seq<(FrameType, Cipher)> := [];
        assert none + rest == rest;
        assert [] + OpenAll(ch, ps[1..]).1 == OpenAll(ch, ps[1..]).1;
      }
    }
  }
}
