# AirClip core, verified

A Dafny model of AirClip's wire protocol: how a paired phone and PC shake hands, exchange clips and
pull staged clips over an encrypted channel, how they are paired in the first place, and the codecs,
ring, loops and rate limiter around that. `dafny verify dfyconfig.toml` checks the whole project.

## How it is built

* **Codecs.** `Bytes`, `Utf8`, `Cbor`, `Frames`, `Messages`, `TextCodings` and `Qr` work on real bytes
  and characters, and are proved against each other by round trips.
* **Cryptography.** `Crypto` is symbolic. An X25519 result is the unordered pair of its two scalars, zero
  for the 14 strings of low order, and a value of its own for any other string and scalar; a MAC, a hash,
  an HKDF output and an AEAD box are constructors over their inputs. `MacBases` shows on
  the byte level that the three messages MACed under the static secret, and the inputs of the key
  derivation, really determine their fields; `HandshakeBytes` ties the symbolic payloads to encoded
  bytes.
* **Machines.** `Sessions` and `Pairing` give the state and the step functions; `SessionObject` and
  `PairingObject` are the mutable objects, proved method by method to compute exactly those steps.
* **Everybody at once.** `Network` runs any number of honest sessions and pairings over a network the
  attacker owns: he delivers any frame he can assemble, to anyone, at any time. `Effects`, `Invariant`
  and `Preservation` carry one invariant through every step; `Guarantees` draws the conclusions.
  `Witness`, `HonestRuns` and `PairingWitness` build runs that meet the hypotheses of those conclusions.
* **Drivers.** `Server` and `Client` are the loops that read and write frames; `OrderedLink` puts a
  phone and a PC on one ordered connection, and `Exchanges` follows requests to their answers.
* **Single components.** `Stage`, `Sizes`, `Sas`, `Lifecycle`, `PairingRuns`, `HelloOrder` and
  `RateLimiting`; `Counting` says how often something happens over a run.

The clock, fresh ephemerals, clip and stage ids, the frames a socket delivers and the number of writes
it still takes are parameters. "Honest" means that the attacker does not have the device's scalar.

## Main results

1. `Guarantees.DeliveredInOrder`: whatever the network does, what a session accepts from an honest peer
   is an in-order, duplicate-free part of what one session of that peer sealed for it.
2. `Guarantees.HandshakeAgreement`, `Guarantees.RecentHello`: a phone established with an honest PC has
   exactly one counterpart, which heard its very ephemeral; a PC established with an honest phone heard a
   HELLO that phone sent within 120 seconds, and of the PC sessions that accept one replayed HELLO at most
   one ever opens anything (`Guarantees.ReplayOpensNothing`). `Guarantees.KeysCoincide` says exactly when
   two sessions with any peers share a key.
3. `Guarantees.PairingAgreement` with `Sas.EmojiCompareTop24`: a completed pairing means that the user of
   the phone let the confirmation go, and both screens showed the same emoji for the same input.
4. `Client.BeamedMeansArrived`, `Client.FetchedIsAuthentic`: what a successful `beam` or `stage_item`
   proves about an honest PC.
5. `OrderedLink.OrderedLinkNeverBreaks`, `Server.NewConnectionOrder`: on an ordered connection no honest
   side refuses the other's boxes, messages or handshake, although the client throws sealed frames away;
   a PC's whole connection writes counters 0, 1, 2 and so on.
6. `Exchanges.StagePull`: the stage pull end to end, with the exact condition for a clip to be still
   there.
7. `Lifecycle.EstablishedOnceAndFirst`, `PairingRuns.PcAtMostOnce`, `PairingRuns.PhoneDiscipline`: what
   each machine does at most once, counted over everything it ever returns, and in which order.
8. `Frames.FrameCodec.Feed`, `Cbor.RoundTrip`, `Qr.QrRoundTrip`, `MacBases.BasisDetermines`,
   `RateLimiting.IntervalBound`, `HelloOrder.PaddedHello`, `Crypto.NoncesNeverRepeat`,
   `Crypto.OnlyAcceptedMatter`, `Sizes.ClipFitsIff`.

## Where code and documentation differ

The model follows the code.

* docs/PROTOCOL.md:232 speaks of a 32-bit emoji comparison; the code shows 24 bits (as line 180 of the
  same file says), and `Sas.EmojiCompareTop24` proves that the comparison is of exactly those.
* The pairing token is single-use per `PcPairing` object. Each connection makes a new object from the
  open offer (apps/windows/src/server.rs:274-285), so nothing is claimed across connections.
* `begin_pairing` calls `confirm_sas` as soon as the SAS is shown, before the user has compared anything,
  and holds the frame back (crates/airclip-core/src/client.rs:184-193). The user's word is
  `PendingPairing::confirm`. The network model keeps the two apart, and `Guarantees.PairingAgreement`
  concludes the user's word.
* A session does not check that the peer's ephemeral contributes. A compromised paired PC that answers
  with a point of low order can therefore give two sessions of one phone the same keys and counters
  (`Witness.KeysCanCoincide`); `Guarantees.KeysCoincide` gives the exact condition.
* `push_clip` bounds the body but not the source name, so "everything sent fits a frame" is false of
  clips (`Sizes.ClipThatDoesNotFit`); `Sizes.ClipFitsIff` gives the exact condition.
* A printed QR payload does not always parse back (`Qr.CommaSplitsHost`); `Qr.QrRoundTrip` gives the exact
  condition.
* The CBOR encoder writes any nesting while the decoder stops at its limit (`Cbor.TooDeepToRead`), so
  decoding inverts encoding exactly on values within the limit (`Cbor.RoundTrip`).

## Model

| member | source | states |
|---|---|---|
| `Guarantees.DeliveredInOrder` | crates/airclip-core/src/session.rs:397-422 | in every reachable world the plaintexts a session accepted from an honest peer are at strictly increasing positions of what a single session of that peer sealed, each under its own frame type |
| `Guarantees.HandshakeAgreement` | crates/airclip-core/src/session.rs:261-395 | a phone session established with an honest PC has exactly one mirror: a PC session of the paired identity that accepted a HELLO with this exact ephemeral, holding the same two keys the other way round |
| `Guarantees.RecentHello` | crates/airclip-core/src/session.rs:261-303 | a PC session established with an honest phone heard an ephemeral that this phone really sent to this PC, with the two clocks at most 120 s apart |
| `Guarantees.ReplayOpensNothing` | docs/PROTOCOL.md:234-234 | two PC sessions of one identity that heard the same ephemeral of the same honest phone and both opened something are one session |
| `Witness.ReplayReachable` | crates/airclip-core/src/session.rs:261-348 | one HELLO delivered twice inside the window leads to a reachable world with two established PC sessions that heard the same ephemeral |
| `Guarantees.KeyHasOneOwner` | crates/airclip-core/src/crypto.rs:178-201 | with an honest peer, and whenever the attacker lacks the static secret, no two sessions transmit under the same key |
| `Guarantees.KeysCoincide` | crates/airclip-core/src/session.rs:375-385 | with any peers, two different sessions transmit under one key exactly when they are the same party with the same peer key and both peers contributed points of low order (for a PC the peer key is of low order too, and mirrored ephemerals count as well) |
| `Witness.KeysCanCoincide` | crates/airclip-core/src/session.rs:375-385 | a compromised paired PC that answers with 32 zero bytes leads to a reachable world with two phone sessions of equal transmit key and counter |
| `Guarantees.AcknowledgedMeansArrived` | crates/airclip-core/src/session.rs:424-487 | with an honest peer and distinct clip ids, a reported acknowledgement of a pushed clip means that the mirror session emitted the arrival of that id, type, body, name and time, and the status is 0 |
| `Guarantees.PairingAgreement` | crates/airclip-core/src/pairing.rs:399-424 | if the PC completes for an honest phone's key, the user of that phone let go the confirmation of the identical SAS input and token, both showed the same emoji, and each record names the other's key and id |
| `Preservation.StepKeeps` | crates/airclip-core/src/session.rs:221-233 | every input of every machine keeps the global invariant |
| `Preservation.ReachableInv` | crates/airclip-core/src/session.rs:221-233 | the invariant holds in every reachable world |
| `Witness.HandshakeReachable` | crates/airclip-core/src/session.rs:707-728 | any honest paired phone and PC with close clocks can reach a world in which both are established and mirror each other |
| `HonestRuns.BeamReachable` | crates/airclip-core/src/client.rs:429-443 | for every clip within the limits there is a reachable world that meets all hypotheses of `Client.BeamedMeansArrived` |
| `HonestRuns.FetchReachable` | crates/airclip-core/src/client.rs:444-459 | for every staged clip there is a reachable world that meets all hypotheses of `Client.FetchedIsAuthentic` |
| `PairingWitness.PairingReachable` | crates/airclip-core/src/pairing.rs:591-637 | any two honest devices reach a world in which the PC has completed the pairing and the user has released the confirmation |
| `Effects.FrameStep` | crates/airclip-core/src/session.rs:221-233 | a step of a well-formed session closes it quietly, completes a handshake, or opens one box and seals at most one answer of a fixed kind |
| `Effects.AskStep` | crates/airclip-core/src/session.rs:584-668 | an outbound request seals at most one frame, and only the one it is for |
| `SessionObject.Session.StartPhone` | crates/airclip-core/src/session.rs:140-174 | a new phone session is in the model's start state |
| `SessionObject.Session.NewPc` | crates/airclip-core/src/session.rs:177-190 | a new PC session is in the model's start state |
| `SessionObject.OpenPhone` | crates/airclip-core/src/session.rs:140-174 | the opening gives the model's state and HELLO |
| `SessionObject.Session.SetPaused` | crates/airclip-core/src/session.rs:208-210 | only the pause switch changes |
| `SessionObject.Session.OnFrame` | crates/airclip-core/src/session.rs:221-233 | new state and actions are those of the step function every other result is about |
| `SessionObject.Session.WireError` | crates/airclip-core/src/session.rs:241-259 | closes, after a sealed ERROR if there is a channel |
| `SessionObject.Session.OnHello` | crates/airclip-core/src/session.rs:261-348 | refines the HELLO step: checks in the code's order, then keys, HELLO_ACK and Established |
| `SessionObject.Session.AcceptHello` | crates/airclip-core/src/session.rs:305-348 | the accepted HELLO's keys, HELLO_ACK and Established, and the whole new state |
| `SessionObject.Session.OnHelloAck` | crates/airclip-core/src/session.rs:350-395 | refines the HELLO_ACK step |
| `SessionObject.Session.OnEncrypted` | crates/airclip-core/src/session.rs:397-422 | refines opening and dispatch |
| `SessionObject.Session.OnClipPush` | crates/airclip-core/src/session.rs:424-473 | refines the CLIP_PUSH step, pause before size before type |
| `SessionObject.Session.OnClipAck` | crates/airclip-core/src/session.rs:475-487 | refines the CLIP_ACK step |
| `SessionObject.Session.OnStageGet` | crates/airclip-core/src/session.rs:489-499 | refines the STAGE_GET step |
| `SessionObject.Session.OnStageList` | crates/airclip-core/src/session.rs:501-538 | refines the STAGE_LIST step, entry loop included |
| `SessionObject.Session.OnStageItem` | crates/airclip-core/src/session.rs:540-562 | refines the STAGE_ITEM step |
| `SessionObject.Session.OnError` | crates/airclip-core/src/session.rs:564-578 | reports and closes |
| `SessionObject.Session.SealFrame` | crates/airclip-core/src/session.rs:584-587 | seals one frame or fails without a channel |
| `SessionObject.Session.Ask` | crates/airclip-core/src/session.rs:608-668 | refines the outbound requests: encode, then seal |
| `SessionObject.Session.PushClip` | crates/airclip-core/src/session.rs:591-605 | an oversize body is refused with its truncated length and nothing is sealed |
| `Sessions.FindsFirst` | crates/airclip-core/src/session.rs:287-295 | the peer found is the first with that id; none is found exactly when no peer has it |
| `Sessions.HelloRoundTrip` | crates/airclip-core/src/session.rs:261-280 | a written HELLO reads back field by field |
| `Sessions.HelloAckRoundTrip` | crates/airclip-core/src/session.rs:350-362 | a written HELLO_ACK reads back |
| `HelloOrder.ReorderedHello` | docs/PROTOCOL.md:108-112 | any reordering of the HELLO map's entries has the same outcome |
| `HelloOrder.PaddedHello` | docs/PROTOCOL.md:108-112 | so has any reordering with further entries under unknown distinct integer keys |
| `HandshakeBytes.WireAgrees` | crates/airclip-core/src/cbor.rs:62-96 | reading the encoded bytes of a flat symbolic map binds the same keys to the bytes of the same values |
| `HandshakeBytes.AccessorsAgree` | crates/airclip-core/src/cbor.rs:98-132 | every typed accessor then agrees with the symbolic one, width errors included |
| `HandshakeBytes.HelloOnTheWire` | crates/airclip-core/src/session.rs:156-163 | an encoded HELLO delivers the five fields' bytes |
| `Lifecycle.StepEdge` | crates/airclip-core/src/session.rs:221-259 | what any single frame, request or pause may do to phase, channel and actions |
| `Lifecycle.ChannelIffEstablished` | crates/airclip-core/src/session.rs:338-395 | over every run a channel exists exactly when Established has been emitted |
| `Lifecycle.EstablishedOnceAndFirst` | crates/airclip-core/src/session.rs:338-422 | counted over everything a session ever returns, Established is emitted at most once; every other event and every encrypted frame comes in a later step |
| `Lifecycle.ClosedIsFinal` | crates/airclip-core/src/session.rs:221-259 | Closed is absorbing, and a frame's actions end in Close exactly when the session is then closed |
| `Crypto.DiffieCommutes` | crates/airclip-core/src/crypto.rs:81-87 | both ends compute the same shared secret |
| `Crypto.NonceInjective` | crates/airclip-core/src/crypto.rs:239-243 | different counters give different nonces |
| `Crypto.AeadChannel.SealNext` | crates/airclip-core/src/crypto.rs:250-273 | seals under the current counter and advances it; at the last value it fails and changes nothing |
| `Crypto.AeadChannel.OpenNext` | crates/airclip-core/src/crypto.rs:277-307 | accepts only a fresh counter and an intact box for this type, and moves the counter only then |
| `Crypto.SealAllAt` | crates/airclip-core/src/crypto.rs:250-273 | over any run the k-th ciphertext carries the k-th counter and message |
| `Crypto.SealAllCount` | crates/airclip-core/src/crypto.rs:250-273 | nothing is lost before the counter is exhausted and nothing comes out afterwards |
| `Crypto.NoncesNeverRepeat` | crates/airclip-core/src/crypto.rs:239-273 | no two ciphertexts of a channel share a nonce |
| `Crypto.RejectedAreInert` | crates/airclip-core/src/crypto.rs:277-307 | a rejected payload inserted anywhere changes neither what else is accepted nor the channel |
| `Crypto.OnlyAcceptedMatter` | crates/airclip-core/src/crypto.rs:277-307 | leaving out all rejected payloads of any sequence changes neither what is accepted nor the channel |
| `MacBases.BasisLength` | crates/airclip-core/src/session.rs:676-683 | the HELLO basis has 58, 59, 60, 62 or 66 bytes, the HELLO_ACK basis 64, the SAS input 112 |
| `MacBases.BasisDetermines` | crates/airclip-core/src/crypto.rs:321-333 | equal bytes mean the same kind of message with the same fields |
| `MacBases.KdfDetermines` | crates/airclip-core/src/crypto.rs:178-201 | keying material and salt determine all five inputs |
| `Sas.TableInjective` | crates/airclip-core/src/crypto.rs:25-34 | the 64 emoji are distinct |
| `Sas.EmojiCompareTop24` | crates/airclip-core/src/crypto.rs:346-353 | two digests show the same emoji exactly when their top 24 bits agree |
| `Pairing.ReqRoundTrip` | crates/airclip-core/src/pairing.rs:465-489 | a written PAIR_REQ reads back |
| `Pairing.OneRoundTrip` | crates/airclip-core/src/pairing.rs:501-510 | a written PAIR_ACK or PAIR_CONFIRM reads back |
| `PairingObject.PcPairing.WithToken` | crates/airclip-core/src/pairing.rs:273-293 | a new PC pairing is in the model's start state and keeps its name and hosts |
| `PairingObject.PcPairing.Offer` | crates/airclip-core/src/pairing.rs:295-304 | this PC's own key with the id that is its hash, its token, name and hosts, and the protocol version |
| `PairingObject.PcPairing.OnFrame` | crates/airclip-core/src/pairing.rs:325-334 | refines the PC step |
| `PairingObject.PcPairing.OnPairReq` | crates/airclip-core/src/pairing.rs:336-397 | refines the PAIR_REQ step: token, id, SAS input and PAIR_ACK |
| `PairingObject.PcPairing.OnConfirm` | crates/airclip-core/src/pairing.rs:399-424 | refines the PAIR_CONFIRM step |
| `PairingObject.PhonePairing.Start` | crates/airclip-core/src/pairing.rs:465-489 | a new phone pairing is in the model's start state |
| `PairingObject.PhonePairing.OnFrame` | crates/airclip-core/src/pairing.rs:491-525 | refines the phone step |
| `PairingObject.PhonePairing.Confirm` | crates/airclip-core/src/pairing.rs:529-556 | refines the user's confirmation |
| `PairingObject.PhonePairing.Reject` | crates/airclip-core/src/pairing.rs:559-562 | refines the user's rejection |
| `PairingObject.BeginPairing` | crates/airclip-core/src/client.rs:154-197 | stops at the SAS exactly when the one reply is a readable PAIR_ACK, and holds back the MAC over the very input whose emoji it shows |
| `PairingObject.PendingPairing.Confirm` | crates/airclip-core/src/client.rs:141-147 | the frame held back is sent at most once, and the record comes with it |
| `PairingRuns.PcAtMostOnce` | crates/airclip-core/src/pairing.rs:325-424 | over every sequence of frames the PC climbs a fixed rank, and counted over everything it returns there is at most one frame, a PAIR_ACK, and at most one completion |
| `PairingRuns.PcCompletesAfterToken` | crates/airclip-core/src/pairing.rs:310-424 | it completes only after a PAIR_REQ with the offered token within its lifetime, and the record's id is the hash of that request's key |
| `PairingRuns.PhoneAtMostOnce` | crates/airclip-core/src/pairing.rs:491-562 | over every sequence of frames and calls the phone climbs a fixed rank, and counted over everything it returns there is at most one frame and at most one completion |
| `PairingRuns.PhoneDiscipline` | crates/airclip-core/src/pairing.rs:491-562 | that one frame is a PAIR_CONFIRM; it and the completion come only from a call of `confirm_sas`, after the SAS was shown and never after `reject_sas`; the record names the scanned key and id |
| `PairingRuns.HonestPairing` | crates/airclip-core/src/pairing.rs:591-637 | with frames passed on unchanged both sides show the same emoji and complete with records of each other |
| `Qr.QrRoundTrip` | crates/airclip-core/src/pairing.rs:90-200 | a printed payload parses to itself exactly when it is version 1, its id matches its key and its hosts are non-empty and comma-free |
| `Qr.CommaSplitsHost` | crates/airclip-core/src/pairing.rs:99-99 | a payload with a comma in a host is printed and accepted, but as another payload |
| `PairingCode.OfferedCodeScans` | crates/airclip-core/src/pairing.rs:295-308 | the code a PC offers is always accepted, and read back as offered exactly when its hosts are non-empty and free of commas |
| `Qr.PrintedParses` | crates/airclip-core/src/pairing.rs:90-186 | what parsing makes of every printed payload, errors included |
| `Qr.ParsedIsPrintable` | crates/airclip-core/src/pairing.rs:163-186 | every accepted URL gives a consistent payload whose printed form parses to it again |
| `Qr.UnknownParamsIgnored` | crates/airclip-core/src/pairing.rs:159-159 | a parameter with an unknown name may be inserted anywhere |
| `Qr.ParseUrl` | crates/airclip-core/src/pairing.rs:106-186 | the parameter loop computes the fold the lemmas are about |
| `Qr.RecordRoundTrip` | crates/airclip-core/src/pairing.rs:49-74 | a stored record gives back its id and key |
| `Qr.RecordKeysCanonical` | crates/airclip-core/src/pairing.rs:59-65 | two readable records hold the same key exactly when they spell it alike |
| `TextCodings.UrlEncode` | crates/airclip-core/src/pairing.rs:189-200 | the byte loop prints the percent-encoding, and form decoding gives the text back |
| `TextCodings.HexRoundTrip` | crates/airclip-core/src/pairing.rs:125-132 | hex decoding inverts hex encoding |
| `TextCodings.Base64RoundTrip` | crates/airclip-core/src/pairing.rs:133-141 | base64url decoding inverts encoding |
| `TextCodings.Base64Canonical` | crates/airclip-core/src/pairing.rs:133-141 | decoding accepts exactly the strings that encoding prints |
| `TextCodings.PercentRoundTrip` | crates/airclip-core/src/pairing.rs:189-200 | form decoding inverts percent-encoding for all bytes, and no separator survives it |
| `TextCodings.ListRoundTrip` | crates/airclip-core/src/pairing.rs:143-149 | join, split and drop-empty give a list back exactly when every part is non-empty and free of the separator |
| `Frames.EncodeDecode` | crates/airclip-core/src/frame.rs:94-128 | decoding an encoded frame, whatever follows, gives it back exactly when its payload is within the limit |
| `Frames.DecodeEncode` | crates/airclip-core/src/frame.rs:94-128 | an accepted frame re-encodes to exactly the bytes it used |
| `Frames.DecodeStable` | crates/airclip-core/src/frame.rs:105-128 | later bytes do not change a decision |
| `Frames.DrainAppend` | crates/airclip-core/src/frame.rs:136-161 | draining a buffer and then its extension is draining the whole |
| `Frames.DrainAccounts` | crates/airclip-core/src/frame.rs:136-161 | the frames of a stream re-encode to exactly the bytes consumed, at least nine each |
| `Frames.StreamRoundTrip` | crates/airclip-core/src/frame.rs:136-178 | a stream of encoded frames is read back as those frames with nothing left |
| `Frames.FrameCodec.DecodeNext` | crates/airclip-core/src/frame.rs:140-161 | the resumable decoder agrees with the one-shot decoder and consumes just what that used |
| `Frames.FrameCodec.Drain` | crates/airclip-core/src/frame.rs:136-161 | draining equals repeated one-shot decoding |
| `Frames.FrameCodec.Feed` | crates/airclip-core/src/frame.rs:136-161 | for every split into chunks the frames and the error are those of the whole stream |
| `Frames.FrameCodec.EncodeNext` | crates/airclip-core/src/frame.rs:167-178 | appends the encoding, or refuses an oversize payload and leaves the buffer |
| `Cbor.RoundTrip` | crates/airclip-core/src/cbor.rs:62-79 | decoding an encoded value with any trailing bytes gives value and remainder back exactly when it is within the nesting limit |
| `Cbor.TooDeepToRead` | crates/airclip-core/src/cbor.rs:62-79 | n nested arrays are written, and refused when read exactly if n exceeds the limit |
| `Cbor.HeadRoundTrip` | crates/airclip-core/src/cbor.rs:62-79 | item heads decode across every length boundary |
| `Cbor.ReaderContents` | crates/airclip-core/src/cbor.rs:81-96 | a map is accepted exactly when its keys are distinct integers, and then the reader holds precisely its entries |
| `Cbor.PermutedEntriesReadAlike` | crates/airclip-core/src/cbor.rs:81-96 | the order of entries is irrelevant to acceptance and contents |
| `Cbor.WrittenMapReadsBack` | crates/airclip-core/src/cbor.rs:58-96 | a written map with distinct keys reads back as its entries, whatever follows |
| `Cbor.ReadMap` | crates/airclip-core/src/cbor.rs:81-96 | the insertion loop computes the specified reader or error |
| `Cbor.GetByteArray` | crates/airclip-core/src/cbor.rs:112-116 | succeeds exactly on a byte string of that width, and returns it |
| `Cbor.MapBuilder.PushBytes` | crates/airclip-core/src/cbor.rs:29-33 | appends one byte-string field |
| `Cbor.MapBuilder.PushText` | crates/airclip-core/src/cbor.rs:35-39 | appends one text field |
| `Cbor.MapBuilder.PushU64` | crates/airclip-core/src/cbor.rs:41-45 | appends one integer field |
| `Cbor.MapBuilder.PushArray` | crates/airclip-core/src/cbor.rs:47-51 | appends one array field |
| `Cbor.MapBuilder.Finish` | crates/airclip-core/src/cbor.rs:62-66 | with distinct keys the reader gets precisely the pushed fields, whatever bytes follow |
| `Utf8.RoundTrip` | crates/airclip-core/src/stage.rs:141-152 | strict and lossy decoding both invert encoding |
| `Messages.ClipRoundTrip` | crates/airclip-core/src/session.rs:424-440 | a written CLIP_PUSH reads back |
| `Messages.AckRoundTrip` | crates/airclip-core/src/session.rs:475-487 | a written CLIP_ACK reads back with status 0 |
| `Messages.GetRoundTrip` | crates/airclip-core/src/session.rs:489-499 | a written STAGE_GET reads back |
| `Messages.ItemRoundTrip` | crates/airclip-core/src/session.rs:540-562 | a written STAGE_ITEM reads back |
| `Messages.ListRoundTrip` | crates/airclip-core/src/session.rs:501-538 | a written STAGE_LIST reads back entry by entry |
| `Messages.ErrorRoundTrip` | crates/airclip-core/src/session.rs:564-578 | a written ERROR reads back |
| `Messages.ReadEntries` | crates/airclip-core/src/session.rs:508-536 | the entry loop gives all entries or the first fault |
| `Stage.Preview` | crates/airclip-core/src/stage.rs:141-152 | the body's first characters, line breaks turned into spaces, cut only at 120 |
| `Stage.PreviewOf` | crates/airclip-core/src/stage.rs:141-152 | the character loop computes the preview |
| `Stage.FindsOldest` | crates/airclip-core/src/stage.rs:111-113 | the clip found is the oldest with that id; none is found exactly when no clip has it |
| `Stage.StageRing.constructor` | crates/airclip-core/src/stage.rs:47-52 | an empty ring of depth at least one |
| `Stage.StageRing.PushWithId` | crates/airclip-core/src/stage.rs:74-94 | the ring stays the last `depth` accepted clips; oversize bodies are refused and change nothing |
| `Stage.StageRing.Clear` | crates/airclip-core/src/stage.rs:120-122 | empties the ring |
| `Stage.ListedClip` | crates/airclip-core/src/stage.rs:97-109 | entry i describes the i-th newest accepted clip |
| `Stage.FetchWindow` | crates/airclip-core/src/stage.rs:74-113 | with distinct ids, entry i is found after k more accepted clips exactly when i + k < depth, with its body |
| `Sizes.EncodedSize` | crates/airclip-core/src/cbor.rs:62-66 | the length of every encoding |
| `Sizes.SealedFrameFits` | crates/airclip-core/src/crypto.rs:250-273 | counter, ciphertext and tag of a plaintext are within the frame limit, and decoded again, exactly when the plaintext fits |
| `Sizes.WriteSealed` | crates/airclip-core/src/frame.rs:167-178 | the frame encoder takes a sealed payload exactly when its plaintext fits, and leaves the buffer alone otherwise |
| `Sizes.ListEncodes` | crates/airclip-core/src/session.rs:637-654 | the list of a ring of any depth encodes |
| `Sizes.StageListFits` | crates/airclip-core/src/session.rs:637-654 | every STAGE_LIST of a default ring encodes and fits a frame |
| `Sizes.StageItemFits` | crates/airclip-core/src/session.rs:657-664 | every STAGE_ITEM of a ring clip encodes and fits a frame |
| `Sizes.ClipFitsIff` | crates/airclip-core/src/session.rs:591-624 | a CLIP_PUSH fits exactly when body, name and overhead do |
| `Sizes.ClipThatDoesNotFit` | crates/airclip-core/src/session.rs:591-624 | a clip within every bound the sender checks whose CLIP_PUSH does not fit |
| `Sizes.LongNameOverflows` | crates/airclip-core/src/session.rs:591-624 | every clip with a name of a frame's length encodes and does not fit |
| `Sizes.ClipFits` | crates/airclip-core/src/session.rs:591-624 | a clip within the limit and a name of at most 786,000 bytes always fit |
| `Server.HandleEvent` | apps/windows/src/server.rs:373-430 | seals the list or the item asked for, an empty list for an evicted id, nothing otherwise |
| `Server.PerformAll` | apps/windows/src/server.rs:332-351 | the action loop writes in order and stops at a Close, a failed reply or a failed write |
| `Server.ServeOne` | apps/windows/src/server.rs:328-351 | one turn of the connection loop |
| `Server.ServeConnection` | apps/windows/src/server.rs:329-370 | the connection loop computes the specified session and wire contents |
| `Server.RunSession` | apps/windows/src/server.rs:318-370 | a new session for the stored peers, served until the connection ends, leaves the specified session and wire contents |
| `Server.LateSealsAreAlone` | crates/airclip-core/src/session.rs:397-473 | for every state and frame, an event whose handler seals a reply is alone in its action list |
| `Server.WireOrder` | apps/windows/src/server.rs:329-351 | in one turn, whatever arrives and whenever the socket fails, encrypted frames reach the wire with consecutive counters, and none is sealed and kept while the connection goes on |
| `Server.ConnectionOrder` | apps/windows/src/server.rs:329-370 | over all turns of a connection the counters on the wire are consecutive |
| `Server.NewConnectionOrder` | apps/windows/src/server.rs:318-370 | a new connection writes nothing, or a plaintext HELLO_ACK and then sealed frames with counters 0, 1, 2 and so on |
| `OrderedLink.LinkStepKeeps` | apps/windows/src/server.rs:318-370 | every step of phone, PC and queues keeps the link invariant |
| `OrderedLink.OrderedLinkNeverBreaks` | crates/airclip-core/src/client.rs:259-285 | after any run the next step closes a session only for the clock, failed key generation, pause, size, an exhausted counter or the peer's notice; never for a refused box or message |
| `OrderedLink.HelloHeard` | crates/airclip-core/src/session.rs:261-348 | a paired phone's HELLO is accepted exactly when it is in time and an ephemeral can be made |
| `Exchanges.HandshakeCompletes` | crates/airclip-core/src/client.rs:208-236 | a HELLO in time leads to two established sessions in step |
| `Exchanges.ClipArrives` | crates/airclip-core/src/session.rs:424-473 | the PC reports the arrival of just the clip that was beamed |
| `Exchanges.Beams` | crates/airclip-core/src/client.rs:242-286 | the phone is then told that id with status 0, and both are ready for the next exchange |
| `Exchanges.ClipRefused` | crates/airclip-core/src/session.rs:438-443 | paused or oversize: no arrival, one ERROR, the server stops, the phone learns code and text and closes |
| `Exchanges.PullsList` | crates/airclip-core/src/session.rs:501-538 | the phone's list is the ring's metadata, newest first |
| `Exchanges.PullsItem` | crates/airclip-core/src/session.rs:540-562 | asking for an id brings the whole clip if it is staged, an empty list otherwise |
| `Exchanges.StagePull` | crates/airclip-core/src/session.rs:637-664 | for a ring of any depth: list, k more accepted clips, fetch entry i gives the very clip exactly when i + k < depth, an empty list otherwise |
| `Exchanges.BeamSucceeds` | crates/airclip-core/src/client.rs:242-286 | on a ready link `beam` returns the clip's id exactly when the CLIP_PUSH fits a frame, and otherwise ends with a refused frame |
| `Exchanges.FetchSucceeds` | crates/airclip-core/src/client.rs:309-335 | on a ready link `stage_item` returns the staged clip, or that it is gone, as the ring has it |
| `Client.DecideNow` | crates/airclip-core/src/client.rs:261-284 | the inner loop takes the first decisive action |
| `Client.AwaitReply` | crates/airclip-core/src/client.rs:259-285 | the reply loop leaves the session and the outcome the specification says |
| `Client.Beam` | crates/airclip-core/src/client.rs:242-286 | too large, failed, refused by the frame encoder, or the outcome of waiting for this id |
| `Client.ListStage` | crates/airclip-core/src/client.rs:289-306 | the outcome of waiting for a list |
| `Client.FetchItem` | crates/airclip-core/src/client.rs:309-335 | the outcome of waiting for this item |
| `Client.Connect` | crates/airclip-core/src/client.rs:208-236 | succeeds exactly when the one reply establishes the session |
| `Client.SuccessSeen` | crates/airclip-core/src/client.rs:259-285 | a success was decided by an action returned for the last frame read |
| `Client.BeamNeedsAck` | crates/airclip-core/src/client.rs:259-285 | `beam` succeeds only if the session reported this id with status 0 |
| `Client.BeamedMeansArrived` | crates/airclip-core/src/client.rs:242-286 | in every reachable world a successful `beam` to an honest PC means that a session of that PC emitted the arrival of just that clip |
| `Client.FetchedIsAuthentic` | crates/airclip-core/src/client.rs:309-335 | in every reachable world the item fetched from an honest PC was sealed as a STAGE_ITEM by a session of that PC |
| `RateLimiting.RateLimiter.Allow` | apps/windows/src/server.rs:181-200 | decides by the address's own slot and leaves every other address alone |
| `RateLimiting.WindowBound` | apps/windows/src/server.rs:181-200 | at most 20 attempts admitted per fixed window, counter at most 21 |
| `RateLimiting.IntervalBound` | apps/windows/src/server.rs:181-200 | at most 40 admitted in any half-open 60,000 ms |
| `RateLimiting.BanLastsExactly` | apps/windows/src/server.rs:181-200 | a ban refuses everything for exactly 300,000 ms and the first later attempt is admitted |
| `RateLimiting.RefusedOnlyWhenOver` | apps/windows/src/server.rs:181-200 | a refusal comes only from a ban, and a ban only from the 21st attempt of a window |

## Left out

- The insides of X25519, ChaCha20-Poly1305, BLAKE3, HKDF and the random generator: they are ideal here;
  nothing is said about secrecy, timing or wiping of keys, or about two secrets colliding by chance.
- Strings that are neither a scalar's public key nor of low order: their Diffie-Hellman results are taken
  to be known to the attacker and different for every scalar and string, so the different spellings of one
  coordinate and points of mixed order are not told apart from unrelated points.
- CBOR floats, tags, booleans, null and indefinite lengths, which the protocol does not write; the
  decoder of the model refuses them.
- The error branches of HKDF expansion and of writing CBOR to a vector that the libraries cannot reach.
- Close reasons and QR errors are enumerations, not the texts of the code.
- Qr.ParseUrl: does not model the `url` crate's general parser. It takes the prefix `airclip://pair?` and
  the query shape that printing produces, form-decoded; other spellings of the same URL (upper-case
  scheme, fragments, stripped white space) are refused or read literally.
- JSON storage of pairing records, and the keystore.
- Sockets, dialling, timeouts, accept loops and the idle timer; only the order in which frames are
  sealed, written and read is modelled.
- `run_pairing` as a loop: the PC's pairing machine is modelled over every sequence of frames instead.
- Connect and disconnect events of the agent, logging, clipboard, tray, windows, discovery, the foreign
  function layer and the iOS app.
- RateLimiting.RateLimiter.Allow: time is an unbounded number, so the overflow of a 64-bit clock near
  the end of its range does not appear.
- Exchanges.StagePull: takes for granted that the socket accepts the two replies, which `Sizes` proves of
  the default depth; a ring deep enough can make a list that the frame encoder refuses.
