/** What is not taken: unsigned, foreign, repeated and wrong messages leave the node as it was; early
    reveals wait, the first of each peer only. */
module Receipts {
  import opened Encoding
  import opened DcrSpec
  import opened Signing
  import opened NodeSpec
  import opened Actions
  import opened Handlers
  import opened NodeRuns
  import opened Confluence

  /** The message may be looked at: somebody else's, not aborted, signed by the sender itself. */
  ghost predicate Heeded(c: Crypto, n: NodeState, from: PeerID, phase: Phase, author: Option<PeerID>, value: Bytes,
                         sig: Bytes) {
    from != n.self && from !in n.aborted && author == Some(from) && c.verify(from, PhaseName(phase) + from + value, sig)
  }

  lemma OthersAreIgnored(env: Env, n: NodeState, from: PeerID, phase: Phase, author: Option<PeerID>, value: Bytes, sig: Bytes)
    requires !Heeded(env.c, n, from, phase, author, value, sig)
    ensures Handle(env, n, Event.Receive(from, Gossip(phase, author, value, sig))) == n
  {
    hide OnCommit2, ProcessReveal1, ProcessReveal2;
  }

  /** What a value has to hash to, once it can be checked: c for r, r for s. */
  function Expected(d: DcrState, phase: Phase, p: PeerID): Option<Bytes> {
    match phase
    case Reveal1 => Get(d.commit2s, p)
    case Reveal2 => Get(d.reveal1s, p)
    case _ => None
  }

  /** A repeated value changes nothing, and neither does a reveal that does not open what it should. */
  lemma RepeatedOrWrongIsDropped(env: Env, n: NodeState, p: PeerID, phase: Phase, value: Bytes, sig: Bytes)
    requires SignedPhase(phase) && (phase != Commit2 ==> Expected(n.d, phase, p).Some?)
    requires Get(PhaseMap(n.d, phase), p) == Some(value)
             || (phase != Commit2 && p !in PhaseMap(n.d, phase) && Expected(n.d, phase, p) != Some(env.c.H(value)))
    ensures Handle(env, n, Event.Receive(p, Gossip(phase, Some(p), value, sig))) == n
  {
    hide TryStartReveal1, TryFlushReveal1, AcceptedReveal1, TryStrategicReveal1, ContinueAfter, VerifySignedMsg;
  }

  function OtherReveal(phase: Phase): Phase { if phase == Reveal1 then Reveal2 else Reveal1 }

  function Waiting(n: NodeState, phase: Phase): map<PeerID, Doc> {
    if phase == Reveal1 then n.pending1 else n.pending2
  }

  /** A reveal that comes before what it opens waits, and a second one of that peer is dropped. */
  lemma EarlyRevealWaits(env: Env, n: NodeState, p: PeerID, phase: Phase, value: Bytes, sig: Bytes)
    requires (phase == Reveal1 || phase == Reveal2) && Expected(n.d, phase, p).None?
    requires Heeded(env.c, n, p, phase, Some(p), value, sig)
    ensures var m, doc := Handle(env, n, Event.Receive(p, Gossip(phase, Some(p), value, sig))), DocFor(phase, Some(p), value, sig);
            if p in Waiting(n, phase) then m == n
            else m == n.(pending1 := m.pending1, pending2 := m.pending2)
                 && Waiting(m, phase) == Waiting(n, phase)[p := doc]
                 && Waiting(m, OtherReveal(phase)) == Waiting(n, OtherReveal(phase))
  {
    hide ProcessReveal1, ProcessReveal2;
  }

  /** Two signed values, and nothing less, abort; in whatever phase, an abort is for good. */
  lemma OnlyProofsAbort(env: Env, n: NodeState, from: PeerID, phase: Phase, target: PeerID, first: Doc, second: Doc)
    requires n.d.self == n.self
    ensures var m := Handle(env, n, Event.Receive(from, EquivocationAbort(phase, target, first, second)));
            var proved := && SignedPhase(phase) && DocVerifies(env.c, phase, target, first) && DocVerifies(env.c, phase, target, second)
                          && DocValue(phase, first) != DocValue(phase, second);
            if target in n.aborted || !proved then m == n else m.aborted == n.aborted[target := phase]
  {
    hide AbortPeer, DocValue;
    if target !in n.aborted && ProvesEquivocation(env.c, phase, target, first, second) {
      AbortsOne(env, n, target, phase);
    }
  }

  lemma AbortsOne(env: Env, n: NodeState, target: PeerID, phase: Phase)
    requires n.d.self == n.self && target !in n.aborted
    ensures AbortPeer(env, n, target, phase).aborted == n.aborted[target := phase]
    ensures !SignedPhase(phase) ==> AbortPeer(env, n, target, phase) == n.(aborted := n.aborted[target := phase])
  {
    hide TryStartReveal1, OrderAndTrigger, ContinueAfter, EffectiveSize;
    var n1 := n.(aborted := n.aborted[target := phase]);
    TryStartIsOwn(env, n1);
    OrderAndTriggerIsOwn(env, n1);
    ContinueIsOwn(env, n1, target);
    assert Holds(n1).aborted == n1.aborted;
    assert Holds(TryStartReveal1(env, n1)).aborted == TryStartReveal1(env, n1).aborted;
    assert Holds(OrderAndTrigger(env, n1)).aborted == OrderAndTrigger(env, n1).aborted;
    assert Holds(ContinueAfter(env, n1, target)).aborted == ContinueAfter(env, n1, target).aborted;
  }

  /** In a locked session each abort costs one participant; only an abort in READY_ACK, which the lock has already
      left out, costs nothing. */
  lemma AbortShrinks(env: Env, n: NodeState, target: PeerID, phase: Phase)
    requires n.d.self == n.self && target !in n.aborted && n.sessionActive
    ensures EffectiveSize(AbortPeer(env, n, target, phase)) == EffectiveSize(n) - if phase == ReadyAck then 0 else 1
  {
    hide AbortPeer;
    var m := AbortPeer(env, n, target, phase);
    AbortsOne(env, n, target, phase);
    AbortKeepsSize(env, n, target, phase);
    assert LateAborts(m) == if phase == ReadyAck then LateAborts(n) else LateAborts(n) + {target};
  }

  lemma AbortKeepsSize(env: Env, n: NodeState, target: PeerID, phase: Phase)
    requires n.d.self == n.self && target !in n.aborted && n.sessionActive
    ensures AbortPeer(env, n, target, phase).sessionSize == n.sessionSize
  {
    hide TryStartReveal1, OrderAndTrigger, ContinueAfter, EffectiveSize, Path;
    var n1 := n.(aborted := n.aborted[target := phase]);
    var x := Ctx(env, Propose, {});
    if phase == Commit2 {
      TryStartReveal1Path(x, n1);
      PathGrows(x, n1, TryStartReveal1(env, n1));
    } else if phase == Reveal1 {
      OrderAndTriggerPath(x, n1);
      PathGrows(x, n1, OrderAndTrigger(env, n1));
    } else if phase == Reveal2 {
      ContinueAfterPath(x, n1, target);
      PathGrows(x, n1, ContinueAfter(env, n1, target));
    }
  }

  // --- documents ---

  /** A document gives back what was put in, in its own phase; a secret is not read as a hash nor the reverse,
      and no other phase has documents. */
  lemma DocumentsRoundTrip(phase: Phase, other: Phase, author: Option<PeerID>, value: Bytes, sig: Bytes)
    ensures SignedPhase(phase) ==> ExtractPhaseValue(phase, DocFor(phase, author, value, sig)) == Some(Extracted(author, value, sig))
    ensures SignedPhase(phase) && SignedPhase(other) && (phase == Reveal2) != (other == Reveal2) ==>
              ExtractPhaseValue(other, DocFor(phase, author, value, sig)) == Some(Extracted(author, [], sig))
    ensures !SignedPhase(phase) ==> forall doc :: ExtractPhaseValue(phase, doc).None?
    ensures ExtractPhaseValue(phase, Malformed).None?
  {
  }

  function Ascii(b: Bytes): string { seq(|b|, i requires 0 <= i < |b| => b[i] as char) }

  lemma PhasesAreSpelled()
    ensures Ascii(PhaseName(ReadyAck)) == "ready_ack" && Ascii(PhaseName(Commit2)) == "commit2"
    ensures Ascii(PhaseName(Reveal1)) == "reveal1" && Ascii(PhaseName(Reveal2)) == "reveal2"
  {
  }
}
