/** node/signing.go: what a peer signs, and when a signed message is believed. */
module Signing {
  import opened Encoding

  /** The phase strings; a control payload may also name any other string. */
  datatype Phase = ReadyAck | Commit2 | Reveal1 | Reveal2 | Other(name: Bytes)

  function PhaseName(phase: Phase): Bytes {
    match phase
    case ReadyAck => [114, 101, 97, 100, 121, 95, 97, 99, 107]
    case Commit2 => [99, 111, 109, 109, 105, 116, 50]
    case Reveal1 => [114, 101, 118, 101, 97, 108, 49]
    case Reveal2 => [114, 101, 118, 101, 97, 108, 50]
    case Other(name) => name
  }

  predicate SignedPhase(phase: Phase) {
    phase == Commit2 || phase == Reveal1 || phase == Reveal2
  }

  /** phase || peerID || value. */
  function SigningBytes(phase: Phase, id: PeerID, value: Bytes): Bytes {
    PhaseName(phase) + id + value
  }

  /** A JSON message: absent fields decode as empty; author is None when it is not a peer ID. */
  datatype Doc = Malformed | Doc(author: Option<PeerID>, hash: Bytes, secret: Bytes, sig: Bytes)

  /** json.Marshal of the message type of each phase. */
  function DocFor(phase: Phase, author: Option<PeerID>, value: Bytes, sig: Bytes): Doc {
    if phase == Reveal2 then Doc(author, [], value, sig) else Doc(author, value, [], sig)
  }

  datatype Extracted = Extracted(author: Option<PeerID>, value: Bytes, sig: Bytes)

  function ExtractPhaseValue(phase: Phase, doc: Doc): Option<Extracted> {
    match doc
    case Malformed => None
    case Doc(author, hash, secret, sig) =>
      match phase
      case Commit2 => Some(Extracted(author, hash, sig))
      case Reveal1 => Some(Extracted(author, hash, sig))
      case Reveal2 => Some(Extracted(author, secret, sig))
      case _ => None
  }

  /** H is SHA-256; verify and sign are Ed25519 under the key that belongs to a peer. */
  datatype Crypto = Crypto(
    H: Hash,
    verify: (PeerID, Bytes, Bytes) -> bool,
    sign: (PeerID, Bytes) -> Bytes)

  predicate VerifySignedMsg(c: Crypto, phase: Phase, target: PeerID, author: Option<PeerID>, value: Bytes, sig: Bytes) {
    author == Some(target) && c.verify(target, SigningBytes(phase, target, value), sig)
  }

  predicate DocVerifies(c: Crypto, phase: Phase, target: PeerID, doc: Doc) {
    var e := ExtractPhaseValue(phase, doc);
    e.Some? && VerifySignedMsg(c, phase, target, e.value.author, e.value.value, e.value.sig)
  }

  function DocValue(phase: Phase, doc: Doc): Bytes {
    var e := ExtractPhaseValue(phase, doc);
    if e.Some? then e.value.value else []
  }

  /** The three phase names have one length, so with identifiers of one length the signed bytes
      determine the phase, the peer and the value. */
  lemma SigningBytesInjective(phase1: Phase, id1: PeerID, value1: Bytes, phase2: Phase, id2: PeerID, value2: Bytes)
    requires SignedPhase(phase1) && SignedPhase(phase2) && |id1| == |id2|
    requires SigningBytes(phase1, id1, value1) == SigningBytes(phase2, id2, value2)
    ensures phase1 == phase2 && id1 == id2 && value1 == value2
  {
    var b, b' := SigningBytes(phase1, id1, value1), SigningBytes(phase2, id2, value2);
    assert b[..7] == PhaseName(phase1) && b'[..7] == PhaseName(phase2);
    assert PhaseName(phase1)[0] == PhaseName(phase2)[0] && PhaseName(phase1)[6] == PhaseName(phase2)[6];
    assert b[7..7 + |id1|] == id1 && b'[7..7 + |id2|] == id2;
    assert b[7 + |id1|..] == value1 && b'[7 + |id2|..] == value2;
  }

  /** Without equal lengths the boundary between peer and value is lost. */
  lemma SigningBytesAmbiguous(phase: Phase, id: PeerID, b: byte, value: Bytes)
    ensures SigningBytes(phase, id, [b] + value) == SigningBytes(phase, id + [b], value)
  {
    assert PhaseName(phase) + id + ([b] + value) == PhaseName(phase) + (id + [b]) + value;
  }

  // --- an honest signer ---

  /** Everything under p's key was signed by p, as the (phase, value) pairs of `log`. */
  ghost predicate SignsOnly(c: Crypto, p: PeerID, log: set<(Phase, Bytes)>) {
    forall bytes, sig | c.verify(p, bytes, sig) ::
      exists e :: e in log && SignedPhase(e.0) && bytes == SigningBytes(e.0, p, e.1)
  }

  ghost predicate OneValuePerPhase(log: set<(Phase, Bytes)>) {
    forall e, f | e in log && f in log && e.0 == f.0 :: e.1 == f.1
  }

  lemma VerifiedValueIsLogged(c: Crypto, p: PeerID, log: set<(Phase, Bytes)>, phase: Phase, doc: Doc)
    requires SignsOnly(c, p, log) && DocVerifies(c, phase, p, doc)
    ensures (phase, DocValue(phase, doc)) in log
  {
    var e := ExtractPhaseValue(phase, doc).value;
    var bytes := SigningBytes(phase, p, e.value);
    assert c.verify(p, bytes, e.sig);
    var l :| l in log && SignedPhase(l.0) && bytes == SigningBytes(l.0, p, l.1);
    SigningBytesInjective(phase, p, e.value, l.0, p, l.1);
  }

  /** No two documents prove an equivocation against a peer that signs one value per phase. */
  lemma HonestSignerNeverEquivocates(c: Crypto, p: PeerID, log: set<(Phase, Bytes)>, phase: Phase, first: Doc, second: Doc)
    requires SignsOnly(c, p, log) && OneValuePerPhase(log)
    requires DocVerifies(c, phase, p, first) && DocVerifies(c, phase, p, second)
    ensures DocValue(phase, first) == DocValue(phase, second)
  {
    VerifiedValueIsLogged(c, p, log, phase, first);
    VerifiedValueIsLogged(c, p, log, phase, second);
    var e, f := (phase, DocValue(phase, first)), (phase, DocValue(phase, second));
    assert e in log && f in log && e.0 == f.0;
  }
}
