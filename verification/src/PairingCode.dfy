/** From the PC's pairing object to the QR code on its screen and back.  As in `HandshakeBytes`, each
    symbolic byte string is given any bytes of its width. */
module PairingCode {
  import opened Crypto
  import opened Pairing
  import opened HandshakeBytes
  import Q = Qr

  /** The truncated hash of the keys as the rendering has it. */
  ghost predicate Hashes(f: Rendering, idOf: Q.Hash) {
    forall x: Secret :: |f(Pub(x))| == 32 && idOf(f(Pub(x))) == f(DeviceId(Pub(x)))
  }

  predicate Widths(c: Code, f: Rendering) {
    |f(c.scan.deviceId)| == 16 && |f(c.scan.publicKey)| == 32 && |f(c.scan.token)| == 16
  }

  function Printed(c: Code, f: Rendering): Q.QrPayload
    requires Widths(c, f)
  {
    Q.QrPayload(c.version, f(c.scan.deviceId), f(c.scan.publicKey), c.scan.displayName, c.hosts, f(c.scan.token))
  }

  /** `qr_url`: the code a PC offers is read back as offered exactly when its hosts are non-empty and
      free of commas; version and id are never the reason for a refusal. */
  lemma OfferedCodeScans(pc: Secret, name: string, hosts: seq<string>, token: Blob, f: Rendering, idOf: Q.Hash)
    requires Faithful(f) && Hashes(f, idOf) && Width(token) == 16
    ensures Widths(CodeFor(pc, name, hosts, token), f)
    ensures var q := Printed(CodeFor(pc, name, hosts, token), f);
      (Q.Parse(Q.ToUrl(q), idOf) == Q.Fine(q) <==> Q.GoodHosts(hosts)) && Q.Parse(Q.ToUrl(q), idOf).Fine?
  {
    var c := CodeFor(pc, name, hosts, token);
    assert |f(Pub(pc))| == 32 && idOf(f(Pub(pc))) == f(DeviceId(Pub(pc)));
    assert |f(DeviceId(Pub(pc)))| == 16 && |f(token)| == 16;
    Q.QrRoundTrip(Printed(c, f), idOf);
    Q.PrintedParses(Printed(c, f), idOf);
  }
}
