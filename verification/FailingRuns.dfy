/** Runs of an honest node, from its start, that end where a counting gate has opened too early,
    and what the manual START_COMMIT2 does to one value per phase. */
module FailingRuns {
  import opened Encoding
  import opened FiniteSets
  import opened DcrSpec
  import opened RevealOrder
  import opened VdfInput
  import opened DcrRuns
  import opened Signing
  import opened NodeSpec
  import opened Actions
  import opened Handlers
  import opened NodeRuns
  import opened Gates
  import opened Confluence

  /** m is the end of some fair run from n. */
  ghost predicate Reaches(c: Crypto, n: NodeState, m: NodeState) {
    exists steps: seq<Stimulus> :: FairRun(c, n, steps) && RunNode(n, steps) == m
  }

  lemma ReachSelf(c: Crypto, n: NodeState)
    ensures Reaches(c, n, n)
  {
    assert FairRun(c, n, []) && RunNode(n, []) == n;
  }

  lemma {:induction false} RunsJoin(c: Crypto, n: NodeState, first: seq<Stimulus>, s: Stimulus)
    requires FairRun(c, n, first) && FairStimulus(c, RunNode(n, first), s)
    ensures FairRun(c, n, first + [s])
    ensures RunNode(n, first + [s]) == Handle(s.env, RunNode(n, first), s.event)
    decreases |first|
  {
    hide Handle, FairStimulus;
    var all := first + [s];
    if first == [] {
      assert all == [s] && all[1..] == [];
    } else {
      assert all[0] == first[0] && all[1..] == first[1..] + [s];
      RunsJoin(c, Handle(first[0].env, n, first[0].event), first[1..], s);
    }
  }

  lemma ReachNext(c: Crypto, n: NodeState, m: NodeState, s: Stimulus)
    requires Reaches(c, n, m) && FairStimulus(c, m, s)
    ensures Reaches(c, n, Handle(s.env, m, s.event))
  {
    hide FairStimulus, Handle, FairRun, RunNode;
    var steps: seq<Stimulus> :| FairRun(c, n, steps) && RunNode(n, steps) == m;
    RunsJoin(c, n, steps, s);
  }

  /** What is signed with a key verifies under it. */
  ghost predicate SignaturesVerify(c: Crypto) {
    forall p, bytes :: c.verify(p, bytes, c.sign(p, bytes))
  }

  function Quiet(c: Crypto, it: Iter, secret: Bytes): Env { Env(c, it, [], secret) }

  function SignedLetter(c: Crypto, phase: Phase, p: PeerID, value: Bytes): Letter {
    Letter(value, c.sign(p, SigningBytes(phase, p, value)))
  }

  /** p's signed gossip, as an event. */
  function GossipOf(c: Crypto, phase: Phase, p: PeerID, value: Bytes): Event {
    var l := SignedLetter(c, phase, p, value);
    Event.Receive(p, Gossip(phase, Some(p), l.value, l.sig))
  }

  function VoteOf(from: PeerID, phase: Phase, target: PeerID): Event {
    Event.Receive(from, TimeoutVote(phase, target))
  }

  lemma OthersAreFair(env: Env, n: NodeState, phase: Phase, p: PeerID, value: Bytes)
    requires p != n.self && ValidIter(env.it)
    ensures FairStimulus(env.c, n, Stimulus(env, GossipOf(env.c, phase, p, value)))
  {
  }

  lemma ControlIsFair(env: Env, n: NodeState, from: PeerID, phase: Phase, target: PeerID, ps: seq<PeerID>)
    requires ValidIter(env.it)
    ensures FairStimulus(env.c, n, Stimulus(env, VoteOf(from, phase, target)))
    ensures FairStimulus(env.c, n, Stimulus(env, Event.Receive(from, SessionLock(Some(ps)))))
  {
  }

  // --- the lock ---

  predicate Honest(config: Config) {
    config.behavior == Behavior(false, false, false, false, false, false, false, false)
  }

  /** A node that has just locked and committed. */
  ghost predicate Locked(n: NodeState, self: PeerID, ps: seq<PeerID>) {
    && n.self == self && n.d.self == self && Honest(n.config)
    && n.sessionActive && n.sessionSize == |ps| && n.participants == ps && !n.reveal1Triggered
    && n.d.commit2s.Keys == {self} && n.d.reveal1s == map[] && n.d.reveal2s == map[] && n.d.myReveal1.Some?
    && n.pending1 == map[] && n.pending2 == map[] && n.aborted == map[] && n.votes == map[] && n.vdf.None?
  }

  lemma LockStep(env: Env, self: PeerID, config: Config, from: PeerID, ps: seq<PeerID>)
    requires env.peers == [] && Honest(config) && |ps| > 1
    ensures Locked(Handle(env, InitNode(self, config), Event.Receive(from, SessionLock(Some(ps)))), self, ps)
  {
    hide RevealOwn1;
    var n := InitNode(self, config);
    var n1 := LockSession(env, n, ps);
    assert n1.aborted == map[];
    var n2 := CommitOwn(env, n1);
    assert n2.d.commit2s.Keys == {self};
    assert LateAborts(n2) == {};
    assert |n2.d.commit2s| == 1;
    assert !CommitGate(n2);
  }

  // --- the commit gate counts an aborted peer's commit ---

  lemma LetterIsDeliverable(c: Crypto, self: PeerID, phase: Phase, p: PeerID, value: Bytes)
    requires SignaturesVerify(c) && SignedPhase(phase) && p != self
    ensures Deliverable(c, self, Key(phase, p), SignedLetter(c, phase, p, value))
  {
  }

  /** Below the effective size a new commit is stored and nothing else happens. */
  lemma CommitStep(env: Env, n: NodeState, p: PeerID, value: Bytes)
    requires SignaturesVerify(env.c) && p != n.self && p !in n.aborted && p !in n.d.commit2s && p !in n.pending1
    requires |n.d.commit2s| + 1 < EffectiveSize(n)
    ensures Handle(env, n, GossipOf(env.c, Commit2, p, value))
            == WithCommit2(n, p, value, DocFor(Commit2, Some(p), value, SignedLetter(env.c, Commit2, p, value).sig))
  {
    hide RevealOwn1, TryFlushReveal1;
    var l := SignedLetter(env.c, Commit2, p, value);
    LetterIsDeliverable(env.c, n.self, Commit2, p, value);
    var doc := DocFor(Commit2, Some(p), l.value, l.sig);
    var n1 := WithCommit2(n, p, value, doc);
    assert TryFlushReveal1(env, n1, p) == n1 by { NothingToFlush1(env, n1, p); }
    assert |n1.d.commit2s| == |n.d.commit2s| + 1;
    assert LateAborts(n1) == LateAborts(n);
  }

  lemma NothingToFlush1(env: Env, n: NodeState, p: PeerID)
    requires p !in n.pending1
    ensures TryFlushReveal1(env, n, p) == n
  {
  }

  /** Counting a vote touches the tallies and what is sent, nothing else. */
  lemma VoteEffect(n: NodeState, from: PeerID, key: Key)
    ensures var m := VoteCounted(n, from, key);
            && m == n.(votes := n.votes[key := VotersFor(n, key) + {from}], out := m.out)
            && VotersFor(m, key) == VotersFor(n, key) + {from}
  {
    var sent := if key in n.signed then Emit(n, TimeoutDispute(key.phase, key.peer, n.signed[key])) else n;
    assert sent == n.(out := sent.out);
  }

  /** A vote below the majority is only counted. */
  lemma VoteStep(env: Env, n: NodeState, from: PeerID, phase: Phase, target: PeerID)
    requires phase != ReadyAck && |VotersFor(n, Key(phase, target)) + {from}| < Majority(n)
    ensures Handle(env, n, VoteOf(from, phase, target)) == VoteCounted(n, from, Key(phase, target))
    ensures VotersFor(VoteCounted(n, from, Key(phase, target)), Key(phase, target))
            == VotersFor(n, Key(phase, target)) + {from}
  {
    hide AbortPeer, VoteCounted, VotersFor, HandleTimeoutVote;
    VoteEffect(n, from, Key(phase, target));
    VoteOutcome(env, n, from, phase, target);
  }

  lemma LastVoteStep(env: Env, n: NodeState, from: PeerID, phase: Phase, target: PeerID)
    requires phase != ReadyAck && |VotersFor(n, Key(phase, target)) + {from}| >= Majority(n)
    ensures Handle(env, n, VoteOf(from, phase, target))
            == AbortPeer(env, VoteCounted(n, from, Key(phase, target)), target, phase)
  {
    hide AbortPeer, VoteCounted, VotersFor, HandleTimeoutVote;
    VoteEffect(n, from, Key(phase, target));
    VoteOutcome(env, n, from, phase, target);
  }

  /** Aborting a committed peer lets the gate open on its commit. */
  lemma AbortOpensGate(env: Env, n: NodeState, a: PeerID, b: PeerID, d: PeerID)
    requires a != b && b != d && a != d && n.self == a && n.d.self == a
    requires n.sessionActive && n.sessionSize == 3 && n.participants == [a, b, d] && !n.reveal1Triggered
    requires n.d.commit2s.Keys == {a, b} && n.aborted == map[]
    ensures var m := AbortPeer(env, n, b, Commit2);
            m.reveal1Triggered && LockedWell(m) && d in LiveParticipants(m) && d !in m.d.commit2s
  {
    hide RevealOwn1;
    var n1 := n.(aborted := n.aborted[b := Commit2]);
    var n2 := n1.(reveal1Triggered := true);
    var m := AbortPeer(env, n, b, Commit2);
    assert LateAborts(n1) == {b};
    assert |n.d.commit2s| == |n.d.commit2s.Keys| == 2;
    assert CommitGate(n1);
    assert m == TryStartReveal1(env, n1);
    RevealOwnIsOwn(env, n2);
    var x := Ctx(env, Propose, {});
    RevealOwn1Path(x, n2);
    PathGrows(x, n2, RevealOwn1(env, n2));
    if !n.config.behavior.skipReveal1 {
      SameCommits(n2, RevealOwn1(env, n2));
    }
    LiveThird(m, a, b, d);
  }

  lemma SameCommits(n: NodeState, m: NodeState)
    requires SameHeld(n, m)
    ensures m.aborted == n.aborted && m.self == n.self
    ensures forall p | p != n.self :: p in m.d.commit2s <==> p in n.d.commit2s
  {
    assert Holds(m).aborted == Holds(n).aborted && Holds(m).self == Holds(n).self;
    forall p | p != n.self ensures p in m.d.commit2s <==> p in n.d.commit2s {
      assert p in Holds(m).commit2s <==> p in Holds(n).commit2s;
    }
  }

  lemma LiveThird(m: NodeState, a: PeerID, b: PeerID, d: PeerID)
    requires a != b && b != d && a != d && m.participants == [a, b, d] && m.aborted == map[b := Commit2]
    requires m.sessionActive && m.sessionSize == 3
    ensures LockedWell(m) && d in LiveParticipants(m)
  {
    assert LateAborts(m) == {b};
    assert b in m.participants && d in m.participants;
  }

  /** A lock, one more commit and two votes: an honest node starts reveal1 although the live
      participant d has not committed. */
  lemma Reveal1StartsWithoutEverybody(c: Crypto, it: Iter, config: Config, secret: Bytes, value: Bytes,
                                      a: PeerID, b: PeerID, d: PeerID)
    requires SignaturesVerify(c) && ValidIter(it) && Honest(config) && a != b && b != d && a != d
    ensures exists m :: && Reaches(c, InitNode(a, config), m) && m.reveal1Triggered
                        && LockedWell(m) && d in LiveParticipants(m) && d !in m.d.commit2s
  {
    hide Handle, Reaches, AbortPeer, Locked, FairStimulus, CountVote, LockedWell, LiveParticipants;
    var env, n0 := Quiet(c, it, secret), InitNode(a, config);
    var n1 := Handle(env, n0, Event.Receive(b, SessionLock(Some([a, b, d]))));
    ReachSelf(c, n0);
    ControlIsFair(env, n0, b, Commit2, b, [a, b, d]);
    ReachNext(c, n0, n0, Stimulus(env, Event.Receive(b, SessionLock(Some([a, b, d])))));
    LockStep(env, a, config, b, [a, b, d]);
    var n2 := Handle(env, n1, GossipOf(c, Commit2, b, value));
    LockedFacts(n1, a, [a, b, d]);
    CommitStep(env, n1, b, value);
    OthersAreFair(env, n1, Commit2, b, value);
    ReachNext(c, n0, n1, Stimulus(env, GossipOf(c, Commit2, b, value)));
    var n3 := Handle(env, n2, VoteOf(a, Commit2, b));
    VoteStep(env, n2, a, Commit2, b);
    ControlIsFair(env, n2, a, Commit2, b, []);
    ReachNext(c, n0, n2, Stimulus(env, VoteOf(a, Commit2, b)));
    VoteEffect(n2, a, Key(Commit2, b));
    var m := Handle(env, n3, VoteOf(d, Commit2, b));
    assert VotersFor(n3, Key(Commit2, b)) + {d} == {a, d};
    LastVoteStep(env, n3, d, Commit2, b);
    ControlIsFair(env, n3, d, Commit2, b, []);
    ReachNext(c, n0, n3, Stimulus(env, VoteOf(d, Commit2, b)));
    VoteEffect(n3, d, Key(Commit2, b));
    AbortOpensGate(env, VoteCounted(n3, d, Key(Commit2, b)), a, b, d);
  }

  lemma LockedFacts(n: NodeState, self: PeerID, ps: seq<PeerID>)
    requires Locked(n, self, ps)
    ensures EffectiveSize(n) == |ps| && |n.d.commit2s| == 1
    ensures n.self == self && n.d.self == self && n.sessionActive && n.sessionSize == |ps| && n.participants == ps
    ensures !n.reveal1Triggered && n.d.commit2s.Keys == {self} && n.aborted == map[] && n.pending1 == map[] && n.votes == map[]
  {
    assert LateAborts(n) == {};
    assert |n.d.commit2s| == |n.d.commit2s.Keys|;
  }

  // --- the commit gate and peers outside the list ---

  lemma ProofIsFair(env: Env, n: NodeState, from: PeerID, e: PeerID, first: Doc, second: Doc)
    requires e != n.self && ValidIter(env.it)
    ensures FairStimulus(env.c, n, Stimulus(env, Event.Receive(from, EquivocationAbort(Commit2, e, first, second))))
  {
    hide DocVerifies, DocValue;
  }

  lemma ProofStep(env: Env, n: NodeState, from: PeerID, e: PeerID, first: Doc, second: Doc)
    requires e !in n.aborted && ProvesEquivocation(env.c, Commit2, e, first, second)
    ensures Handle(env, n, Event.Receive(from, EquivocationAbort(Commit2, e, first, second))) == AbortPeer(env, n, e, Commit2)
  {
    hide AbortPeer, ProvesEquivocation;
  }

  /** Aborting a peer outside the list lowers the size below the number of live participants. */
  lemma OutsiderAbortOpens(env: Env, n: NodeState, a: PeerID, b: PeerID, e: PeerID)
    requires a != b && a != e && b != e && Locked(n, a, [a, b])
    ensures AbortPeer(env, n, e, Commit2) == RevealOwn1(env, n.(aborted := map[e := Commit2], reveal1Triggered := true))
  {
    hide RevealOwn1;
    var n1 := n.(aborted := n.aborted[e := Commit2]);
    assert n1.aborted == map[e := Commit2];
    assert LateAborts(n1) == {e};
    assert |n.d.commit2s| == |n.d.commit2s.Keys| == 1;
  }

  lemma OutsiderAbortStarts(env: Env, n: NodeState, a: PeerID, b: PeerID, e: PeerID)
    requires a != b && a != e && b != e && Locked(n, a, [a, b])
    ensures var m := AbortPeer(env, n, e, Commit2);
            && m.reveal1Triggered && m.participants == [a, b] && m.aborted == map[e := Commit2] && m.votes == map[]
            && m.d.commit2s.Keys <= {a}
  {
    hide RevealOwn1, AbortPeer, Holds, ViewsGrow, LogsGrow, AbortsGrow;
    var n1 := n.(aborted := map[e := Commit2], reveal1Triggered := true);
    OutsiderAbortOpens(env, n, a, b, e);
    RevealOwnEffect(env, n1);
    SameCommits(n1, RevealOwn1(env, n1));
    forall p | p in RevealOwn1(env, n1).d.commit2s ensures p == a {
      assert p != a ==> p in n1.d.commit2s;
    }
  }

  lemma SecondIsLive(m: NodeState, a: PeerID, b: PeerID, e: PeerID)
    requires m.participants == [a, b] && m.aborted == map[e := Commit2] && a != b && a != e && b != e
    requires m.d.commit2s.Keys <= {a}
    ensures b in Uncommitted(m) && StrayCommits(m) == {} && Outsiders(m) == {e}
  {
    assert LateAborts(m) == {e};
    assert a in m.participants && b in m.participants;
  }

  /** A lock and one proof against a peer outside the list: an honest node starts reveal1 although the live
      participant b has not committed. Nobody has voted and no aborted peer's commit is held. */
  lemma OutsiderStartsReveal1(c: Crypto, it: Iter, config: Config, secret: Bytes, a: PeerID, b: PeerID, e: PeerID,
                              first: Doc, second: Doc)
    requires ValidIter(it) && Honest(config) && a != b && a != e && b != e && ProvesEquivocation(c, Commit2, e, first, second)
    ensures exists m :: && Reaches(c, InitNode(a, config), m) && m.reveal1Triggered && m.votes == map[]
                        && b in Uncommitted(m) && StrayCommits(m) == {} && Outsiders(m) == {e}
  {
    hide Handle, Reaches, AbortPeer, Locked, FairStimulus, Uncommitted, StrayCommits, Outsiders, ProvesEquivocation;
    var env, n0 := Quiet(c, it, secret), InitNode(a, config);
    var lock := Event.Receive(b, SessionLock(Some([a, b])));
    var proof := Event.Receive(e, EquivocationAbort(Commit2, e, first, second));
    var n1 := Handle(env, n0, lock);
    ReachSelf(c, n0);
    ControlIsFair(env, n0, b, Commit2, b, [a, b]);
    ReachNext(c, n0, n0, Stimulus(env, lock));
    LockStep(env, a, config, b, [a, b]);
    LockedFacts(n1, a, [a, b]);
    ProofIsFair(env, n1, e, e, first, second);
    ReachNext(c, n0, n1, Stimulus(env, proof));
    ProofStep(env, n1, e, e, first, second);
    OutsiderAbortStarts(env, n1, a, b, e);
    SecondIsLive(Handle(env, n1, proof), a, b, e);
  }

  lemma RepeatedListCommitted(n: NodeState, m: NodeState, a: PeerID, b: PeerID)
    requires n.participants == [a, b, b] && n.d.commit2s.Keys == {a} && n.aborted == map[] && !n.reveal1Triggered
    requires m.participants == n.participants && m.aborted == n.aborted && m.d.commit2s.Keys == n.d.commit2s.Keys + {b}
    ensures Uncommitted(m) == {} && StrayCommits(m) == {}
  {
    assert LateAborts(m) == {};
    assert SetOf(m.participants) == {a, b} by {
      assert m.participants[0] == a && m.participants[1] == b;
    }
  }

  /** A lock that lists b twice: everybody has committed and the gate stays shut. */
  lemma RepeatedEntryBlocksReveal1(c: Crypto, it: Iter, config: Config, secret: Bytes, value: Bytes, a: PeerID, b: PeerID)
    requires SignaturesVerify(c) && ValidIter(it) && Honest(config) && a != b
    ensures exists m :: && Reaches(c, InitNode(a, config), m) && m.participants == [a, b, b]
                        && Uncommitted(m) == {} && StrayCommits(m) == {} && !m.reveal1Triggered
  {
    hide Handle, Reaches, Locked, FairStimulus, Uncommitted, StrayCommits;
    var env, n0 := Quiet(c, it, secret), InitNode(a, config);
    var lock := Event.Receive(b, SessionLock(Some([a, b, b])));
    var n1 := Handle(env, n0, lock);
    ReachSelf(c, n0);
    ControlIsFair(env, n0, b, Commit2, b, [a, b, b]);
    ReachNext(c, n0, n0, Stimulus(env, lock));
    LockStep(env, a, config, b, [a, b, b]);
    LockedFacts(n1, a, [a, b, b]);
    CommitStep(env, n1, b, value);
    OthersAreFair(env, n1, Commit2, b, value);
    ReachNext(c, n0, n1, Stimulus(env, GossipOf(c, Commit2, b, value)));
    RepeatedListCommitted(n1, Handle(env, n1, GossipOf(c, Commit2, b, value)), a, b);
  }

  // --- the VDF gate opens on a missing secret ---

  /** The session, the tallies and the VDF are as before; the order may have been computed again. */
  ghost predicate SameRoundNewOrder(n: NodeState, m: NodeState) {
    && m.vdf == n.vdf && m.sessionActive == n.sessionActive && m.sessionSize == n.sessionSize
    && m.participants == n.participants && m.config == n.config && m.votes == n.votes
  }

  ghost predicate SameRound(n: NodeState, m: NodeState) {
    SameRoundNewOrder(n, m) && m.d.revealOrder == n.d.revealOrder
  }

  lemma HonestSpeaks(env: Env, n: NodeState)
    requires Honest(n.config)
    ensures PublishReveal2(env, n) == if n.d.mySecret.None? then n
              else SignAndPublish(env, n.(d := DcrSpec.StartReveal2(n.d)), Reveal2, n.d.mySecret.value)
  {
    hide ComputeBothInputs, VdfInput.IsLastReveal2, NodeSpec.TryStartVdf, SignAndPublish, AbortPays, AbortedIn,
      DcrSpec.StartReveal2;
  }

  lemma SpeakingStays(env: Env, n: NodeState)
    requires Honest(n.config)
    ensures SameRound(n, PublishReveal2(env, n))
  {
    hide PublishReveal2;
    HonestSpeaks(env, n);
  }

  lemma TriggeringStays(env: Env, n: NodeState)
    requires Honest(n.config)
    ensures SameRound(n, TriggerReveal2IfFirst(env, n)) && SameRound(n, NodeSpec.ArmNext(n, NO_PEER))
  {
    hide PublishReveal2, NextPendingPeer;
    SpeakingStays(env, Claim(n));
  }

  lemma OrderingStays(env: Env, n: NodeState)
    requires Honest(n.config)
    ensures SameRoundNewOrder(n, OrderAndTrigger(env, n))
    ensures OrderAndTrigger(env, n).d.revealOrder == ComputeOrderExcluding(env.c.H, env.it, n.d, n.aborted.Keys).revealOrder
  {
    hide TriggerReveal2IfFirst, ComputeOrderExcluding;
    TriggeringStays(env, LogRevealOrder(env, n));
  }

  lemma RevealingStays(env: Env, n: NodeState)
    requires Honest(n.config)
    ensures SameRoundNewOrder(n, RevealOwn1(env, n))
  {
    hide OrderAndTrigger;
    if n.d.myReveal1.Some? {
      OrderingStays(env, SignAndPublish(env, n.(d := DcrSpec.StartReveal1(n.d)), Reveal1, n.d.myReveal1.value));
    }
  }

  /** The order lists the committed peers that are not aborted. */
  lemma OrderedPeers(env: Env, n: NodeState)
    requires Honest(n.config) && ValidIter(env.it)
    ensures var order := OrderAndTrigger(env, n).d.revealOrder;
            NoDuplicates(order) && SetOf(order) == n.d.commit2s.Keys - n.aborted.Keys
  {
    hide OrderAndTrigger, ComputeOrderExcluding, ValidOrder;
    OrderingStays(env, n);
    ComputedOrderIsValid(env.c.H, env.it, n.d, n.aborted.Keys);
    ValidOrderMembers(env.c.H, n.d.commit2s, n.d.reveal1s, n.aborted.Keys, OrderAndTrigger(env, n).d.revealOrder);
  }

  lemma NothingToFlush2(env: Env, n: NodeState, p: PeerID)
    requires p !in n.pending2
    ensures TryFlushReveal2(env, n, p) == n
  {
  }

  // --- one gossiped message of an honest round ---

  lemma CommitCases(env: Env, n: NodeState, p: PeerID, value: Bytes)
    requires SignaturesVerify(env.c) && p != n.self && p !in n.aborted && p !in n.d.commit2s && p !in n.pending1
    ensures Handle(env, n, GossipOf(env.c, Commit2, p, value))
            == TryStartReveal1(env, WithCommit2(n, p, value, DocFor(Commit2, Some(p), value, SignedLetter(env.c, Commit2, p, value).sig)))
  {
    hide TryStartReveal1, TryFlushReveal1;
    var l := SignedLetter(env.c, Commit2, p, value);
    LetterIsDeliverable(env.c, n.self, Commit2, p, value);
    NothingToFlush1(env, WithCommit2(n, p, value, DocFor(Commit2, Some(p), l.value, l.sig)), p);
  }

  lemma RevealRegisters(env: Env, n: NodeState)
    requires n.d.self == n.self && n.d.myReveal1.Some?
    ensures n.self in RevealOwn1(env, n).d.reveal1s
  {
    hide OrderAndTrigger;
    var n1 := SignAndPublish(env, n.(d := DcrSpec.StartReveal1(n.d)), Reveal1, n.d.myReveal1.value);
    var x := Ctx(env, Propose, {});
    OrderAndTriggerPath(x, n1);
    PathGrows(x, n1, OrderAndTrigger(env, n1));
  }

  lemma LastCommitOpens(env: Env, n: NodeState, p: PeerID, value: Bytes)
    requires SignaturesVerify(env.c) && p != n.self && p !in n.aborted && p !in n.d.commit2s && p !in n.pending1
    requires Honest(n.config) && n.sessionActive && !n.reveal1Triggered && |n.d.commit2s| + 1 >= EffectiveSize(n)
    ensures var n1 := WithCommit2(n, p, value, DocFor(Commit2, Some(p), value, SignedLetter(env.c, Commit2, p, value).sig));
            Handle(env, n, GossipOf(env.c, Commit2, p, value)) == RevealOwn1(env, n1.(reveal1Triggered := true))
  {
    hide RevealOwn1, Handle;
    var n1 := WithCommit2(n, p, value, DocFor(Commit2, Some(p), value, SignedLetter(env.c, Commit2, p, value).sig));
    CommitCases(env, n, p, value);
    assert |n1.d.commit2s| == |n.d.commit2s| + 1;
    assert LateAborts(n1) == LateAborts(n);
  }

  lemma RevealOwnEffect(env: Env, n: NodeState)
    requires Honest(n.config) && n.d.self == n.self && n.reveal1Triggered
    ensures var m := RevealOwn1(env, n);
            && m.reveal1Triggered && SameRoundNewOrder(n, m) && m.self == m.d.self == n.self && Holds(m) == Holds(n)
            && (n.d.myReveal1.Some? ==> n.self in m.d.reveal1s)
  {
    hide RevealOwn1, Holds, ViewsGrow, LogsGrow, AbortsGrow, SameRoundNewOrder;
    RevealOwnIsOwn(env, n);
    OwnMoveKeepsSelf(n, RevealOwn1(env, n));
    RevealingStays(env, n);
    var x := Ctx(env, Propose, {});
    RevealOwn1Path(x, n);
    PathGrows(x, n, RevealOwn1(env, n));
    if n.d.myReveal1.Some? {
      RevealRegisters(env, n);
    }
  }

  /** The commit that completes the effective size starts reveal1. */
  lemma LastCommitStep(env: Env, n: NodeState, p: PeerID, value: Bytes)
    requires SignaturesVerify(env.c) && p != n.self && p !in n.aborted && p !in n.d.commit2s && p !in n.pending1
    requires Honest(n.config) && n.sessionActive && !n.reveal1Triggered && |n.d.commit2s| + 1 >= EffectiveSize(n)
    requires n.d.self == n.self
    ensures var m := Handle(env, n, GossipOf(env.c, Commit2, p, value));
            && m.reveal1Triggered && SameRoundNewOrder(n, m) && m.self == m.d.self == n.self
            && Holds(m) == Holds(n).(commit2s := Holds(n).commit2s[p := value])
            && (n.d.myReveal1.Some? ==> n.self in m.d.reveal1s)
  {
    hide RevealOwn1, Holds, Handle, EffectiveSize;
    var doc := DocFor(Commit2, Some(p), value, SignedLetter(env.c, Commit2, p, value).sig);
    var n1 := WithCommit2(n, p, value, doc);
    LastCommitOpens(env, n, p, value);
    WithCommit2Held(n, p, value, doc);
    FlagIsOwn(n1);
    RevealOwnEffect(env, n1.(reveal1Triggered := true));
  }

  lemma FlagIsOwn(n: NodeState)
    ensures Holds(n.(reveal1Triggered := true)) == Holds(n)
  {
  }

  lemma GossipedReveal1(env: Env, n: NodeState, p: PeerID, r: Bytes)
    requires SignaturesVerify(env.c) && p != n.self && p !in n.aborted && p in n.d.commit2s
    ensures Handle(env, n, GossipOf(env.c, Reveal1, p, r))
            == ProcessReveal1(env, n, p, r, DocFor(Reveal1, Some(p), r, SignedLetter(env.c, Reveal1, p, r).sig))
  {
    hide ProcessReveal1;
    LetterIsDeliverable(env.c, n.self, Reveal1, p, r);
  }

  lemma AcceptedCases(env: Env, n: NodeState, p: PeerID)
    requires p !in n.pending2
    ensures AcceptedReveal1(env, n, p)
            == if AllReady(n.d) || |n.d.reveal1s| >= EffectiveSize(n) then OrderAndTrigger(env, n) else n
  {
    hide OrderAndTrigger, TryFlushReveal2, EffectiveSize;
    NothingToFlush2(env, n, p);
  }

  lemma NoStrategy(env: Env, n: NodeState)
    requires Honest(n.config)
    ensures TryStrategicReveal1(env, n) == n
  {
    hide RevealOwn1, HypotheticalOrder;
  }

  /** The reveal1 of a committed peer, in an honest round. */
  lemma Reveal1Cases(env: Env, n: NodeState, p: PeerID, r: Bytes)
    requires SignaturesVerify(env.c) && Honest(n.config) && p != n.self && p !in n.aborted
    requires p !in n.d.reveal1s && Get(n.d.commit2s, p) == Some(env.c.H(r)) && p !in n.pending2
    ensures var n1 := WithReveal1(n, p, r, DocFor(Reveal1, Some(p), r, SignedLetter(env.c, Reveal1, p, r).sig));
            var m := Handle(env, n, GossipOf(env.c, Reveal1, p, r));
            m == if AllReady(n1.d) || |n1.d.reveal1s| >= EffectiveSize(n1) then OrderAndTrigger(env, n1) else n1
  {
    hide Handle, ProcessReveal1, AcceptedReveal1, TryStrategicReveal1, OrderAndTrigger, EffectiveSize, AllReady;
    var doc := DocFor(Reveal1, Some(p), r, SignedLetter(env.c, Reveal1, p, r).sig);
    var n1 := WithReveal1(n, p, r, doc);
    GossipedReveal1(env, n, p, r);
    Process1Cases(env, n, p, r, doc);
    AcceptedCases(env, n1, p);
    OrderingStays(env, n1);
    NoStrategy(env, n1);
    NoStrategy(env, OrderAndTrigger(env, n1));
  }

  lemma Reveal1Step(env: Env, n: NodeState, p: PeerID, r: Bytes)
    requires SignaturesVerify(env.c) && Honest(n.config) && p != n.self && p !in n.aborted && n.d.self == n.self
    requires p !in n.d.reveal1s && Get(n.d.commit2s, p) == Some(env.c.H(r)) && p !in n.pending2
    ensures var m := Handle(env, n, GossipOf(env.c, Reveal1, p, r));
            && SameRoundNewOrder(n, m) && m.self == m.d.self == n.self
            && Holds(m) == Holds(n).(reveal1s := Holds(n).reveal1s[p := r])
  {
    hide Holds, Handle, OrderAndTrigger, EffectiveSize, AllReady;
    var doc := DocFor(Reveal1, Some(p), r, SignedLetter(env.c, Reveal1, p, r).sig);
    var n1 := WithReveal1(n, p, r, doc);
    Reveal1Cases(env, n, p, r);
    WithReveal1Held(n, p, r, doc);
    OrderAndTriggerIsOwn(env, n1);
    OwnMoveKeepsSelf(n1, OrderAndTrigger(env, n1));
    OrderingStays(env, n1);
  }

  /** The reveal1 that completes the commits fixes the order over all of them. */
  lemma LastReveal1Orders(env: Env, n: NodeState, p: PeerID, r: Bytes)
    requires SignaturesVerify(env.c) && Honest(n.config) && p != n.self && n.aborted == map[] && ValidIter(env.it)
    requires p !in n.d.reveal1s && Get(n.d.commit2s, p) == Some(env.c.H(r)) && p !in n.pending2
    requires |n.d.reveal1s| + 1 == |n.d.commit2s|
    ensures var order := Handle(env, n, GossipOf(env.c, Reveal1, p, r)).d.revealOrder;
            NoDuplicates(order) && SetOf(order) == n.d.commit2s.Keys
  {
    hide Handle, OrderAndTrigger, EffectiveSize;
    var n1 := WithReveal1(n, p, r, DocFor(Reveal1, Some(p), r, SignedLetter(env.c, Reveal1, p, r).sig));
    assert |n1.d.reveal1s| == |n.d.reveal1s| + 1;
    Reveal1Cases(env, n, p, r);
    OrderedPeers(env, n1);
  }

  // --- the stages of the run ---

  predicate FourPeers(self: PeerID, b: PeerID, e: PeerID, f: PeerID) {
    self != b && self != e && self != f && b != e && b != f && e != f
  }

  /** An honest node in a locked session of four, holding these commits and reveals of the others. */
  ghost predicate Stage(n: NodeState, self: PeerID, ps: seq<PeerID>, cs: map<PeerID, Bytes>, rs: map<PeerID, Bytes>,
                        aborted: map<PeerID, Phase>) {
    && n.self == n.d.self == self && Honest(n.config) && n.sessionActive && n.sessionSize == 4 && n.participants == ps
    && Holds(n) == Held(cs, rs, map[], map[], map[], aborted, self) && self in n.d.commit2s && n.vdf.None?
  }

  lemma HeldFields(n: NodeState, h: Held)
    requires Holds(n) == h
    ensures n.d.commit2s - {n.self} == h.commit2s && n.d.reveal1s - {n.self} == h.reveal1s && n.d.reveal2s - {n.self} == h.reveal2s
    ensures n.pending1 == h.pending1 && n.pending2 == h.pending2 && n.aborted == h.aborted
  {
  }

  lemma StageFacts(n: NodeState, self: PeerID, ps: seq<PeerID>, cs: map<PeerID, Bytes>, rs: map<PeerID, Bytes>,
                   aborted: map<PeerID, Phase>)
    requires Stage(n, self, ps, cs, rs, aborted) && self !in cs && self !in rs
    ensures n.pending1 == map[] && n.pending2 == map[] && n.aborted == aborted
    ensures n.d.commit2s.Keys == cs.Keys + {self} && |n.d.commit2s| == |cs| + 1
    ensures n.d.reveal1s.Keys - {self} == rs.Keys && n.d.reveal2s.Keys <= {self}
  {
    hide Holds, Honest;
    HeldFields(n, Held(cs, rs, map[], map[], map[], aborted, self));
    HeldKeys(n.d.commit2s, cs, self);
    HeldKeys(n.d.reveal1s, rs, self);
    HeldKeys(n.d.reveal2s, map[], self);
    assert n.d.reveal2s.Keys == n.d.reveal2s.Keys - {self} + n.d.reveal2s.Keys * {self};
    OneMore(n.d.commit2s, cs, self);
  }

  lemma StageValues(n: NodeState, self: PeerID, ps: seq<PeerID>, cs: map<PeerID, Bytes>, rs: map<PeerID, Bytes>,
                    aborted: map<PeerID, Phase>, p: PeerID)
    requires Stage(n, self, ps, cs, rs, aborted) && p != self
    ensures Get(n.d.commit2s, p) == Get(cs, p) && Get(n.d.reveal1s, p) == Get(rs, p)
  {
    hide Holds, Honest;
    HeldFields(n, Held(cs, rs, map[], map[], map[], aborted, self));
    HeldValue(n.d.commit2s, cs, self, p);
    HeldValue(n.d.reveal1s, rs, self, p);
  }

  lemma HeldKeys(m: map<PeerID, Bytes>, others: map<PeerID, Bytes>, self: PeerID)
    requires m - {self} == others
    ensures m.Keys - {self} == others.Keys
  {
    assert (m - {self}).Keys == m.Keys - {self};
  }

  lemma OneMore(m: map<PeerID, Bytes>, others: map<PeerID, Bytes>, self: PeerID)
    requires m.Keys - {self} == others.Keys && self in m && self !in others
    ensures m.Keys == others.Keys + {self} && |m| == |others| + 1
  {
    assert m.Keys == others.Keys + {self};
    assert |m| == |m.Keys| && |others| == |others.Keys|;
  }

  lemma HeldValue(m: map<PeerID, Bytes>, others: map<PeerID, Bytes>, self: PeerID, p: PeerID)
    requires m - {self} == others && p != self
    ensures Get(m, p) == Get(others, p)
  {
    assert p in m - {self} <==> p in m;
  }

  lemma LockedIsStage(n: NodeState, self: PeerID, ps: seq<PeerID>)
    requires Locked(n, self, ps) && |ps| == 4
    ensures Stage(n, self, ps, map[], map[], map[])
  {
    assert n.d.commit2s - {self} == map[];
  }

  lemma NoAbortsNoLoss(n: NodeState)
    requires n.aborted == map[]
    ensures EffectiveSize(n) == n.sessionSize
  {
    assert LateAborts(n) == {};
  }

  lemma StageCommit(env: Env, n: NodeState, self: PeerID, ps: seq<PeerID>, cs: map<PeerID, Bytes>, p: PeerID, value: Bytes)
    requires Stage(n, self, ps, cs, map[], map[]) && SignaturesVerify(env.c) && !n.reveal1Triggered && n.votes == map[]
    requires self !in cs && p !in cs && p != self && Grows(n, Handle(env, n, GossipOf(env.c, Commit2, p, value)))
    ensures var m := Handle(env, n, GossipOf(env.c, Commit2, p, value));
            && Stage(m, self, ps, cs[p := value], map[], map[]) && m.votes == map[]
            && (|cs| < 2 ==> !m.reveal1Triggered) && (|cs| == 2 ==> m.reveal1Triggered)
            && (|cs| == 2 && n.d.myReveal1.Some? ==> self in m.d.reveal1s)
  {
    hide Handle, Holds;
    StageFacts(n, self, ps, cs, map[], map[]);
    NoAbortsNoLoss(n);
    if |cs| < 2 {
      CommitStep(env, n, p, value);
      StoringKeeps(n, p, value, DocFor(Commit2, Some(p), value, SignedLetter(env.c, Commit2, p, value).sig));
      WithCommit2Held(n, p, value, DocFor(Commit2, Some(p), value, SignedLetter(env.c, Commit2, p, value).sig));
    } else {
      LastCommitStep(env, n, p, value);
    }
  }

  lemma StoringKeeps(n: NodeState, p: PeerID, value: Bytes, doc: Doc)
    ensures var m := WithCommit2(n, p, value, doc);
            && SameRound(n, m) && m.self == n.self && m.d.self == n.d.self && m.reveal1Triggered == n.reveal1Triggered
            && (n.self in n.d.commit2s ==> n.self in m.d.commit2s)
  {
  }

  lemma StageReveal1(env: Env, n: NodeState, self: PeerID, ps: seq<PeerID>, cs: map<PeerID, Bytes>, rs: map<PeerID, Bytes>,
                     p: PeerID, r: Bytes)
    requires Stage(n, self, ps, cs, rs, map[]) && SignaturesVerify(env.c) && n.votes == map[]
    requires self !in cs && self !in rs && p !in rs && Get(cs, p) == Some(env.c.H(r)) && p != self
    requires Grows(n, Handle(env, n, GossipOf(env.c, Reveal1, p, r)))
    ensures var m := Handle(env, n, GossipOf(env.c, Reveal1, p, r));
            Stage(m, self, ps, cs, rs[p := r], map[]) && m.votes == map[]
  {
    hide Handle, Holds;
    StageFacts(n, self, ps, cs, rs, map[]);
    StageValues(n, self, ps, cs, rs, map[], p);
    Reveal1Step(env, n, p, r);
  }

  // --- aborts ---

  lemma ReachVote(c: Crypto, env: Env, start: NodeState, n: NodeState, phase: Phase, target: PeerID, from: PeerID)
    requires Reaches(c, start, n) && env.c == c && ValidIter(env.it) && phase != ReadyAck
    ensures var m := VoteCounted(n, from, Key(phase, target));
            Reaches(c, start, if |VotersFor(m, Key(phase, target))| < Majority(n) then m else AbortPeer(env, m, target, phase))
  {
    hide Handle, Reaches, FairStimulus, AbortPeer, VoteCounted, VotersFor;
    ControlIsFair(env, n, from, phase, target, []);
    ReachNext(c, start, n, Stimulus(env, VoteOf(from, phase, target)));
    VoteEffect(n, from, Key(phase, target));
    if |VotersFor(n, Key(phase, target)) + {from}| < Majority(n) {
      VoteStep(env, n, from, phase, target);
    } else {
      LastVoteStep(env, n, from, phase, target);
    }
  }

  /** Three distinct votes in a session of four reach the majority. */
  lemma ThreeVotes(c: Crypto, env: Env, start: NodeState, n: NodeState, phase: Phase, target: PeerID,
                   u: PeerID, v: PeerID, w: PeerID) returns (k: NodeState)
    requires Reaches(c, start, n) && env.c == c && ValidIter(env.it) && phase != ReadyAck
    requires n.sessionSize == 4 && VotersFor(n, Key(phase, target)) == {} && u != v && v != w && u != w
    ensures k == n.(votes := n.votes[Key(phase, target) := {u, v, w}], out := k.out)
    ensures Reaches(c, start, AbortPeer(env, k, target, phase))
  {
    hide Reaches, AbortPeer, VoteCounted, VotersFor;
    var key := Key(phase, target);
    var n1 := VoteCounted(n, u, key);
    VoteEffect(n, u, key);
    ReachVote(c, env, start, n, phase, target, u);
    assert {} + {u} == {u} && {u} + {v} == {u, v} && {u, v} + {w} == {u, v, w};
    var n2 := VoteCounted(n1, v, key);
    VoteEffect(n1, v, key);
    ReachVote(c, env, start, n1, phase, target, v);
    k := VoteCounted(n2, w, key);
    VoteEffect(n2, w, key);
    ReachVote(c, env, start, n2, phase, target, w);
    assert n.votes[key := {u}][key := {u, v}][key := {u, v, w}] == n.votes[key := {u, v, w}];
  }

  lemma AbortHeld(n: NodeState, p: PeerID, phase: Phase)
    ensures Holds(n.(aborted := n.aborted[p := phase])) == Holds(n).(aborted := n.aborted[p := phase])
  {
  }

  /** With at most one secret held in an order of four, the gate is closed after one abort. */
  lemma GateStaysShut(n: NodeState, self: PeerID, b: PeerID)
    requires n.d.reveal2s.Keys <= {self} && |n.d.revealOrder| == 4 && AbortedIn(n, Reveal2) == {b}
    ensures NodeSpec.TryStartVdf(n) == n
  {
    SubsetSize(n.d.reveal2s.Keys - {b}, {self});
  }

  lemma TurnStays(env: Env, n: NodeState, from: PeerID) returns (k: NodeState)
    requires Honest(n.config) && n.d.self == n.self
    ensures k == if TurnAfter(n.d, from) then PublishReveal2(env, Claim(n)) else n
    ensures SameRound(n, k) && SameHeld(n, k) && k.d.self == k.self == n.self
  {
    hide PublishReveal2, Holds, TurnAfter;
    k := if TurnAfter(n.d, from) then PublishReveal2(env, Claim(n)) else n;
    ClaimIsOwn(n);
    SpeakingStays(env, Claim(n));
    PublishReveal2IsOwn(env, Claim(n));
    if TurnAfter(n.d, from) {
      OwnMoveKeepsSelf(Claim(n), k);
    }
  }

  lemma ArmStays(n: NodeState, after: PeerID)
    ensures var k := NodeSpec.ArmNext(n, after); k == n.(reveal2Target := k.reveal2Target)
  {
    hide NextPendingPeer;
    assert n == n.(reveal2Target := n.reveal2Target);
  }

  /** Taking the turn and arming the timer change neither the round nor what is held. */
  lemma BeforeTheVdf(env: Env, n: NodeState, from: PeerID) returns (k: NodeState)
    requires Honest(n.config) && n.d.self == n.self
    ensures ContinueAfter(env, n, from) == NodeSpec.TryStartVdf(k)
    ensures SameRound(n, k) && SameHeld(n, k) && k.d.self == k.self == n.self
    ensures !TurnAfter(n.d, from) ==> k.d == n.d
  {
    hide PublishReveal2, NodeSpec.TryStartVdf, NodeSpec.ArmNext, Holds, TurnAfter;
    var n1 := TurnStays(env, n, from);
    k := NodeSpec.ArmNext(n1, from);
    ArmStays(n1, from);
    ArmIsOwn(n1, from);
  }

  lemma SecretsHeld(n: NodeState, k: NodeState)
    requires SameHeld(n, k) && n.d.reveal2s.Keys <= {n.self}
    ensures k.d.reveal2s.Keys <= {n.self} && k.aborted == n.aborted
  {
    assert Holds(k).self == Holds(n).self && Holds(k).aborted == Holds(n).aborted;
    forall p | p in k.d.reveal2s ensures p == n.self {
      assert p != n.self ==> p in Holds(k).reveal2s;
      assert p != n.self ==> p in Holds(n).reveal2s;
    }
  }

  /** An order member is aborted in reveal2: nothing is launched. */
  lemma MemberAborted(env: Env, n: NodeState, self: PeerID, b: PeerID)
    requires Honest(n.config) && n.self == n.d.self == self && n.aborted == map[] && n.vdf.None?
    requires n.d.reveal2s.Keys <= {self} && |n.d.revealOrder| == 4
    ensures var m := AbortPeer(env, n, b, Reveal2);
            SameRound(n, m) && Holds(m) == Holds(n).(aborted := map[b := Reveal2]) && m.self == m.d.self == self
  {
    hide ContinueAfter, NodeSpec.TryStartVdf, Holds;
    var n1 := n.(aborted := n.aborted[b := Reveal2]);
    AbortHeld(n, b, Reveal2);
    var k := BeforeTheVdf(env, n1, b);
    SecretsHeld(n1, k);
    assert AbortedIn(k, Reveal2) == {b};
    GateStaysShut(k, self, b);
    assert map[][b := Reveal2] == map[b := Reveal2];
  }

  lemma SelfAbortProceeds(env: Env, n: NodeState, self: PeerID, b: PeerID)
    requires n.aborted == map[b := Reveal2] && self != b && n.sessionActive && n.sessionSize == 4
    requires n.reveal1Triggered && |n.d.reveal1s| >= 2
    ensures AbortPeer(env, n, self, Reveal1) == OrderAndTrigger(env, n.(aborted := n.aborted[self := Reveal1]))
    ensures n.aborted[self := Reveal1] == map[b := Reveal2, self := Reveal1]
  {
    hide OrderAndTrigger;
    assert LateAborts(n.(aborted := n.aborted[self := Reveal1])) == {b, self};
  }

  /** The node itself is aborted in reveal1, late: the order is computed again without both. */
  lemma SelfAborted(env: Env, n: NodeState, self: PeerID, b: PeerID)
    requires Honest(n.config) && n.self == n.d.self == self && n.aborted == map[b := Reveal2] && self != b
    requires ValidIter(env.it)
    requires n.sessionActive && n.sessionSize == 4 && n.reveal1Triggered && |n.d.reveal1s| >= 2
    ensures var m := AbortPeer(env, n, self, Reveal1);
            && SameRoundNewOrder(n, m) && m.self == m.d.self == self
            && Holds(m) == Holds(n).(aborted := map[b := Reveal2, self := Reveal1])
            && NoDuplicates(m.d.revealOrder) && SetOf(m.d.revealOrder) == n.d.commit2s.Keys - {self, b}
  {
    hide OrderAndTrigger, AbortPeer, Holds, Honest, ValidIter, SetOf, NoDuplicates;
    var n1 := n.(aborted := n.aborted[self := Reveal1]);
    SelfAbortProceeds(env, n, self, b);
    AbortHeld(n, self, Reveal1);
    OrderAndTriggerIsOwn(env, n1);
    OwnMoveKeepsSelf(n1, OrderAndTrigger(env, n1));
    OrderingStays(env, n1);
    OrderedPeers(env, n1);
    assert n1.aborted.Keys == {self, b};
  }

  lemma GossipedReveal2(env: Env, n: NodeState, p: PeerID, secret: Bytes)
    requires SignaturesVerify(env.c) && p != n.self && p !in n.aborted && p !in n.d.reveal2s
    requires Get(n.d.reveal1s, p) == Some(env.c.H(secret))
    ensures var doc := DocFor(Reveal2, Some(p), secret, SignedLetter(env.c, Reveal2, p, secret).sig);
            Handle(env, n, GossipOf(env.c, Reveal2, p, secret))
            == ContinueAfter(env, StoreSigned(n.(d := StoreReveal2(n.d, p, secret)), Reveal2, p, doc), p)
  {
    hide ContinueAfter;
    LetterIsDeliverable(env.c, n.self, Reveal2, p, secret);
  }

  lemma ShortCount(d: DcrState, b: PeerID, e: PeerID, f: PeerID)
    requires NoDuplicates(d.revealOrder) && SetOf(d.revealOrder) == {e, f} && e != f && b != e && b != f
    requires e in d.reveal2s && f !in d.reveal2s
    ensures VdfGate(d, {b}) && FinalInputWithFallback(d, {b}).None? && d.revealOrder != []
  {
    hide FinalInputWithFallback;
    DistinctSize(d.revealOrder);
    assert |{e, f}| == 2;
    SubsetSize({e}, d.reveal2s.Keys - {b});
    InputDefined(d, {b});
    assert f in Missing(d, {b});
  }

  /** One secret of two arrives, and the count of the gate is met by the abort that left the order. */
  lemma GateOpensShort(n: NodeState, self: PeerID, b: PeerID, e: PeerID, f: PeerID)
    requires NoDuplicates(n.d.revealOrder) && SetOf(n.d.revealOrder) == {e, f} && AbortedIn(n, Reveal2) == {b} && n.vdf.None?
    requires e in n.d.reveal2s && n.d.reveal2s.Keys <= {self, e} && e != f && b != e && b != f && f != self
    ensures var m := NodeSpec.TryStartVdf(n);
            m.vdf == Some(VdfRun(n.d.revealOrder, {b}, None)) && m.d == n.d && m.aborted == n.aborted
  {
    hide FinalInputWithFallback, AbortedIn;
    ShortCount(n.d, b, e, f);
  }

  lemma OutOfOrderHasNoTurn(d: DcrState, from: PeerID, e: PeerID, f: PeerID)
    requires SetOf(d.revealOrder) == {e, f} && d.self != e && d.self != f
    ensures !TurnAfter(d, from)
  {
    assert d.self !in SetOf(d.revealOrder);
    NotInOrder(d.revealOrder, d.self);
  }

  lemma SameAborts(n: NodeState, k: NodeState)
    requires SameHeld(n, k)
    ensures k.aborted == n.aborted
  {
    assert Holds(k).aborted == Holds(n).aborted;
  }

  lemma ContinueBurns(env: Env, n: NodeState, self: PeerID, b: PeerID, e: PeerID, f: PeerID)
    requires Honest(n.config) && n.self == n.d.self == self && n.vdf.None?
    requires n.aborted == map[b := Reveal2, self := Reveal1] && e in n.d.reveal2s && n.d.reveal2s.Keys <= {self, e}
    requires NoDuplicates(n.d.revealOrder) && SetOf(n.d.revealOrder) == {e, f}
    requires FourPeers(self, b, e, f)
    ensures var m := ContinueAfter(env, n, e);
            m.vdf == Some(VdfRun(n.d.revealOrder, {b}, None)) && m.d == n.d && m.aborted == n.aborted
  {
    hide ContinueAfter, NodeSpec.TryStartVdf, TurnAfter, SameHeld;
    OutOfOrderHasNoTurn(n.d, e, e, f);
    var k := BeforeTheVdf(env, n, e);
    SameAborts(n, k);
    assert AbortedIn(k, Reveal2) == {b};
    GateOpensShort(k, self, b, e, f);
  }

  lemma SecretBurns(env: Env, n: NodeState, self: PeerID, b: PeerID, e: PeerID, f: PeerID, secret: Bytes)
    requires SignaturesVerify(env.c) && Honest(n.config) && n.self == n.d.self == self && n.vdf.None?
    requires n.aborted == map[b := Reveal2, self := Reveal1] && n.d.reveal2s.Keys <= {self}
    requires Get(n.d.reveal1s, e) == Some(env.c.H(secret))
    requires NoDuplicates(n.d.revealOrder) && SetOf(n.d.revealOrder) == {e, f}
    requires FourPeers(self, b, e, f)
    ensures var m := Handle(env, n, GossipOf(env.c, Reveal2, e, secret));
            && m.vdf == Some(VdfRun(n.d.revealOrder, {b}, None)) && m.d.revealOrder == n.d.revealOrder
            && f !in m.d.reveal2s && m.aborted == n.aborted
  {
    hide Handle, ContinueAfter, NoDuplicates, SetOf;
    GossipedReveal2(env, n, e, secret);
    var doc := DocFor(Reveal2, Some(e), secret, SignedLetter(env.c, Reveal2, e, secret).sig);
    ContinueBurns(env, StoreSigned(n.(d := StoreReveal2(n.d, e, secret)), Reveal2, e, doc), self, b, e, f);
  }

  lemma {:induction false} NotInOrder(order: seq<PeerID>, p: PeerID)
    requires p !in order
    ensures LastIndex(order, p) == -1
  {
    if order != [] {
      NotInOrder(order[..|order| - 1], p);
    }
  }

  // --- the whole run ---

  lemma ReachGrowing(c: Crypto, self: PeerID, config: Config, n: NodeState, s: Stimulus)
    requires Reaches(c, InitNode(self, config), n) && FairStimulus(c, n, s)
    ensures Reaches(c, InitNode(self, config), Handle(s.env, n, s.event)) && Grows(n, Handle(s.env, n, s.event))
  {
    hide Handle, FairStimulus, NodeInv, Grows, WrittenOnce, FairRun, RunNode, InitNode;
    var steps: seq<Stimulus> :| FairRun(c, InitNode(self, config), steps) && RunNode(InitNode(self, config), steps) == n;
    InitInv(c, self, config);
    RunKeepsInv(c, InitNode(self, config), steps);
    HandleKeepsInv(c, n, s);
    ReachNext(c, InitNode(self, config), n, s);
  }

  lemma OwnValuesDrawn(c: Crypto, self: PeerID, config: Config, n: NodeState)
    requires Reaches(c, InitNode(self, config), n) && n.d.self in n.d.commit2s
    ensures n.d.myReveal1.Some?
  {
    hide FairRun, RunNode, InitNode, Grows, WrittenOnce;
    var steps: seq<Stimulus> :| FairRun(c, InitNode(self, config), steps) && RunNode(InitNode(self, config), steps) == n;
    InitInv(c, self, config);
    RunKeepsInv(c, InitNode(self, config), steps);
    assert OwnChain(c.H, n.d);
  }

  function Commit(c: Crypto, secrets: PeerID -> Bytes, p: PeerID): Bytes { c.H(c.H(secrets(p))) }

  lemma ReachCommit(c: Crypto, env: Env, self: PeerID, config: Config, n: NodeState, ps: seq<PeerID>, cs: map<PeerID, Bytes>,
                    p: PeerID, value: Bytes) returns (m: NodeState)
    requires Reaches(c, InitNode(self, config), n) && Stage(n, self, ps, cs, map[], map[]) && env.c == c && ValidIter(env.it)
    requires SignaturesVerify(c) && !n.reveal1Triggered && n.votes == map[] && self !in cs && p !in cs && p != self
    ensures Reaches(c, InitNode(self, config), m) && Stage(m, self, ps, cs[p := value], map[], map[]) && m.votes == map[]
    ensures (|cs| < 2 ==> !m.reveal1Triggered) && (|cs| == 2 ==> m.reveal1Triggered && self in m.d.reveal1s)
  {
    hide Handle, Reaches, FairStimulus, Grows, Holds, InitNode;
    OwnValuesDrawn(c, self, config, n);
    m := Handle(env, n, GossipOf(c, Commit2, p, value));
    OthersAreFair(env, n, Commit2, p, value);
    ReachGrowing(c, self, config, n, Stimulus(env, GossipOf(c, Commit2, p, value)));
    StageCommit(env, n, self, ps, cs, p, value);
  }

  lemma ReachReveal1(c: Crypto, env: Env, self: PeerID, config: Config, n: NodeState, ps: seq<PeerID>, cs: map<PeerID, Bytes>,
                     rs: map<PeerID, Bytes>, p: PeerID, r: Bytes) returns (m: NodeState)
    requires Reaches(c, InitNode(self, config), n) && Stage(n, self, ps, cs, rs, map[]) && env.c == c && ValidIter(env.it)
    requires SignaturesVerify(c) && n.reveal1Triggered && n.votes == map[]
    requires self !in cs && self !in rs && p !in rs && Get(cs, p) == Some(c.H(r)) && p != self
    ensures Reaches(c, InitNode(self, config), m) && Stage(m, self, ps, cs, rs[p := r], map[]) && m.votes == map[] && m.reveal1Triggered
    ensures self in n.d.reveal1s ==> self in m.d.reveal1s
    ensures |n.d.reveal1s| + 1 == |n.d.commit2s| ==>
              NoDuplicates(m.d.revealOrder) && SetOf(m.d.revealOrder) == n.d.commit2s.Keys
  {
    hide Handle, Reaches, FairStimulus, Holds, InitNode, SetOf, NoDuplicates;
    m := Handle(env, n, GossipOf(c, Reveal1, p, r));
    OthersAreFair(env, n, Reveal1, p, r);
    ReachGrowing(c, self, config, n, Stimulus(env, GossipOf(c, Reveal1, p, r)));
    StageReveal1(env, n, self, ps, cs, rs, p, r);
    StageFacts(n, self, ps, cs, rs, map[]);
    StageValues(n, self, ps, cs, rs, map[], p);
    if |n.d.reveal1s| + 1 == |n.d.commit2s| {
      LastReveal1Orders(env, n, p, r);
    }
  }

  /** The commits of b, e and f arrive at self; reveal1 starts. */
  lemma AfterCommits(c: Crypto, env: Env, self: PeerID, config: Config, secrets: PeerID -> Bytes, b: PeerID,
                     e: PeerID, f: PeerID)
    returns (n: NodeState)
    requires SignaturesVerify(c) && env.c == c && ValidIter(env.it) && env.peers == [] && Honest(config)
    requires FourPeers(self, b, e, f)
    ensures Reaches(c, InitNode(self, config), n) && n.votes == map[] && n.reveal1Triggered && self in n.d.reveal1s
    ensures Stage(n, self, [self, b, e, f],
              map[b := Commit(c, secrets, b), e := Commit(c, secrets, e), f := Commit(c, secrets, f)], map[], map[])
  {
    hide Handle, Reaches, FairStimulus, Stage, Locked, InitNode, Commit;
    var ps := [self, b, e, f];
    var lock := Stimulus(env, Event.Receive(b, SessionLock(Some(ps))));
    var n0 := Handle(env, InitNode(self, config), lock.event);
    ReachSelf(c, InitNode(self, config));
    ControlIsFair(env, InitNode(self, config), b, Commit2, b, ps);
    ReachNext(c, InitNode(self, config), InitNode(self, config), lock);
    LockStep(env, self, config, b, ps);
    LockedIsStage(n0, self, ps);
    LockedFacts(n0, self, ps);
    var cb, ce, cf := Commit(c, secrets, b), Commit(c, secrets, e), Commit(c, secrets, f);
    var n1 := ReachCommit(c, env, self, config, n0, ps, map[], b, cb);
    var n2 := ReachCommit(c, env, self, config, n1, ps, map[][b := cb], e, ce);
    n := ReachCommit(c, env, self, config, n2, ps, map[][b := cb][e := ce], f, cf);
    assert map[][b := cb][e := ce][f := cf] == map[b := cb, e := ce, f := cf];
  }

  lemma ThreeKeys(m: map<PeerID, Bytes>, self: PeerID, b: PeerID, e: PeerID)
    requires self in m && m.Keys - {self} == {b, e} && self != b && self != e && b != e
    ensures |m| == 3
  {
    assert m.Keys == (m.Keys - {self}) + {self} == {self, b, e};
    assert |m| == |m.Keys|;
  }

  lemma ThreeOfFour(n: NodeState, self: PeerID, ps: seq<PeerID>, cs: map<PeerID, Bytes>, rs: map<PeerID, Bytes>,
                    b: PeerID, e: PeerID, f: PeerID)
    requires Stage(n, self, ps, cs, rs, map[]) && self in n.d.reveal1s && cs.Keys == {b, e, f} && rs.Keys == {b, e}
    requires FourPeers(self, b, e, f)
    ensures |n.d.reveal1s| + 1 == |n.d.commit2s| && n.d.commit2s.Keys == {self, b, e, f}
  {
    hide Stage;
    StageFacts(n, self, ps, cs, rs, map[]);
    ThreeKeys(n.d.reveal1s, self, b, e);
    assert |cs| == |cs.Keys| == 3;
  }

  /** Then their reveals; the order lists all four. */
  lemma AfterReveals(c: Crypto, env: Env, self: PeerID, config: Config, secrets: PeerID -> Bytes, b: PeerID,
                     e: PeerID, f: PeerID,
                     n: NodeState, cs: map<PeerID, Bytes>) returns (m: NodeState)
    requires SignaturesVerify(c) && env.c == c && ValidIter(env.it)
    requires FourPeers(self, b, e, f)
    requires Reaches(c, InitNode(self, config), n) && n.votes == map[] && n.reveal1Triggered && self in n.d.reveal1s
    requires cs == map[b := Commit(c, secrets, b), e := Commit(c, secrets, e), f := Commit(c, secrets, f)]
    requires Stage(n, self, [self, b, e, f], cs, map[], map[])
    ensures Reaches(c, InitNode(self, config), m) && m.votes == map[] && m.reveal1Triggered
    ensures Stage(m, self, [self, b, e, f], cs, map[b := c.H(secrets(b)), e := c.H(secrets(e)), f := c.H(secrets(f))], map[])
    ensures NoDuplicates(m.d.revealOrder) && SetOf(m.d.revealOrder) == {self, b, e, f}
  {
    hide Reaches, Stage, InitNode, SetOf, NoDuplicates, ValidIter, SignaturesVerify;
    var ps := [self, b, e, f];
    var rb, re, rf := c.H(secrets(b)), c.H(secrets(e)), c.H(secrets(f));
    var n1 := ReachReveal1(c, env, self, config, n, ps, cs, map[], b, rb);
    var n2 := ReachReveal1(c, env, self, config, n1, ps, cs, map[][b := rb], e, re);
    ThreeOfFour(n2, self, ps, cs, map[][b := rb][e := re], b, e, f);
    m := ReachReveal1(c, env, self, config, n2, ps, cs, map[][b := rb][e := re], f, rf);
    assert map[][b := rb][e := re][f := rf] == map[b := rb, e := re, f := rf];
  }

  lemma AbortGrows(env: Env, n: NodeState, target: PeerID, phase: Phase)
    requires n.d.self == n.self && |VotersFor(n, Key(phase, target))| >= Majority(n)
    ensures Grows(n, AbortPeer(env, n, target, phase))
  {
    hide AbortPeer, Grows;
    var x := Ctx(env, Propose, {});
    AbortPeerPath(x, n, target, phase);
    PathGrows(x, n, AbortPeer(env, n, target, phase));
  }

  lemma VotedStage(n: NodeState, k: NodeState, self: PeerID, ps: seq<PeerID>, cs: map<PeerID, Bytes>, rs: map<PeerID, Bytes>,
                   aborted: map<PeerID, Phase>)
    requires Stage(n, self, ps, cs, rs, aborted) && k == n.(votes := k.votes, out := k.out)
    ensures Stage(k, self, ps, cs, rs, aborted)
  {
    assert Holds(k) == Holds(n);
  }

  lemma MemberAbortStage(env: Env, k: NodeState, self: PeerID, ps: seq<PeerID>, cs: map<PeerID, Bytes>,
                         rs: map<PeerID, Bytes>,
                         b: PeerID)
    requires Stage(k, self, ps, cs, rs, map[]) && self !in cs && self !in rs && k.reveal1Triggered && |k.d.revealOrder| == 4
    requires |VotersFor(k, Key(Reveal2, b))| >= Majority(k)
    ensures var m := AbortPeer(env, k, b, Reveal2);
            Stage(m, self, ps, cs, rs, map[b := Reveal2]) && m.reveal1Triggered && m.votes == k.votes
  {
    hide Stage, AbortPeer, Holds, Grows, VotersFor, Honest;
    var m := AbortPeer(env, k, b, Reveal2);
    StageFacts(k, self, ps, cs, rs, map[]);
    StageNode(k, self, ps, cs, rs, map[]);
    MemberAborted(env, k, self, b);
    AbortGrows(env, k, b, Reveal2);
    CommitsGrow(k, m);
    StageAborted(k, m, self, ps, cs, rs, map[], map[b := Reveal2]);
  }

  /** Three vote b, an order member, out in reveal2. */
  lemma AfterMemberAbort(c: Crypto, env: Env, self: PeerID, config: Config, b: PeerID, e: PeerID, f: PeerID,
                         n: NodeState, cs: map<PeerID, Bytes>, rs: map<PeerID, Bytes>) returns (m: NodeState)
    requires env.c == c && ValidIter(env.it) && FourPeers(self, b, e, f)
    requires Reaches(c, InitNode(self, config), n) && n.votes == map[] && n.reveal1Triggered
    requires Stage(n, self, [self, b, e, f], cs, rs, map[]) && self !in cs && self !in rs
    requires NoDuplicates(n.d.revealOrder) && SetOf(n.d.revealOrder) == {self, b, e, f}
    ensures Reaches(c, InitNode(self, config), m) && m.votes.Keys == {Key(Reveal2, b)} && m.reveal1Triggered
    ensures Stage(m, self, [self, b, e, f], cs, rs, map[b := Reveal2])
  {
    hide Reaches, InitNode, AbortPeer, Holds, NoDuplicates, SetOf;
    var ps := [self, b, e, f];
    var k := ThreeVotes(c, env, InitNode(self, config), n, Reveal2, b, self, e, f);
    VotedStage(n, k, self, ps, cs, rs, map[]);
    DistinctSize(n.d.revealOrder);
    assert |{self, e, f}| == 3 && |{self, b, e, f}| == 4;
    m := AbortPeer(env, k, b, Reveal2);
    MemberAbortStage(env, k, self, ps, cs, rs, b);
  }

  lemma CommitsGrow(n: NodeState, m: NodeState)
    requires Grows(n, m)
    ensures n.d.commit2s.Keys <= m.d.commit2s.Keys && (n.reveal1Triggered ==> m.reveal1Triggered)
  {
  }

  /** A stage outlives an abort that is recorded and leaves the round alone. */
  lemma StageAborted(n: NodeState, m: NodeState, self: PeerID, ps: seq<PeerID>, cs: map<PeerID, Bytes>,
                     rs: map<PeerID, Bytes>,
                     before: map<PeerID, Phase>, aborted: map<PeerID, Phase>)
    requires Stage(n, self, ps, cs, rs, before) && SameRoundNewOrder(n, m) && m.self == m.d.self == self
    requires Holds(m) == Holds(n).(aborted := aborted) && n.d.commit2s.Keys <= m.d.commit2s.Keys
    ensures Stage(m, self, ps, cs, rs, aborted)
  {
    hide Holds, Honest;
  }

  lemma SelfAbortStage(env: Env, k: NodeState, self: PeerID, b: PeerID, e: PeerID, f: PeerID, ps: seq<PeerID>,
                       cs: map<PeerID, Bytes>, rs: map<PeerID, Bytes>)
    requires FourPeers(self, b, e, f) && ValidIter(env.it)
    requires Stage(k, self, ps, cs, rs, map[b := Reveal2]) && cs.Keys == {b, e, f} && rs.Keys == {b, e, f}
    requires k.reveal1Triggered && |VotersFor(k, Key(Reveal1, self))| >= Majority(k)
    ensures var m := AbortPeer(env, k, self, Reveal1);
            && Stage(m, self, ps, cs, rs, map[b := Reveal2, self := Reveal1])
            && NoDuplicates(m.d.revealOrder) && SetOf(m.d.revealOrder) == {e, f}
  {
    hide Stage, AbortPeer, Holds, Grows, VotersFor, NoDuplicates, SetOf, ValidIter, Honest, SameRoundNewOrder;
    var m := AbortPeer(env, k, self, Reveal1);
    StageFacts(k, self, ps, cs, rs, map[b := Reveal2]);
    StageNode(k, self, ps, cs, rs, map[b := Reveal2]);
    ManyReveals(k.d.reveal1s, self, b, e, f);
    SelfAborted(env, k, self, b);
    AbortGrows(env, k, self, Reveal1);
    CommitsGrow(k, m);
    StageAborted(k, m, self, ps, cs, rs, map[b := Reveal2], map[b := Reveal2, self := Reveal1]);
    assert k.d.commit2s.Keys - {self, b} == {e, f};
  }

  lemma ManyReveals(m: map<PeerID, Bytes>, self: PeerID, b: PeerID, e: PeerID, f: PeerID)
    requires m.Keys - {self} == {b, e, f} && b != e && b != f && e != f
    ensures |m| >= 2
  {
    SubsetSize({b, e, f}, m.Keys);
    assert |{b, e, f}| == 3 && |m| == |m.Keys|;
  }

  /** Three late votes abort the node itself in reveal1; the order is computed again. */
  lemma AfterSelfAbort(c: Crypto, env: Env, self: PeerID, config: Config, b: PeerID, e: PeerID, f: PeerID,
                       n: NodeState, cs: map<PeerID, Bytes>, rs: map<PeerID, Bytes>) returns (m: NodeState)
    requires env.c == c && ValidIter(env.it) && FourPeers(self, b, e, f)
    requires Reaches(c, InitNode(self, config), n) && n.votes.Keys == {Key(Reveal2, b)} && n.reveal1Triggered
    requires Stage(n, self, [self, b, e, f], cs, rs, map[b := Reveal2]) && cs.Keys == {b, e, f} && rs.Keys == {b, e, f}
    ensures Reaches(c, InitNode(self, config), m)
    ensures Stage(m, self, [self, b, e, f], cs, rs, map[b := Reveal2, self := Reveal1])
    ensures NoDuplicates(m.d.revealOrder) && SetOf(m.d.revealOrder) == {e, f}
  {
    hide Reaches, InitNode, AbortPeer, Holds, NoDuplicates, SetOf, ValidIter;
    var ps := [self, b, e, f];
    var k := ThreeVotes(c, env, InitNode(self, config), n, Reveal1, self, b, e, f);
    VotedStage(n, k, self, ps, cs, rs, map[b := Reveal2]);
    assert |{b, e, f}| == 3;
    m := AbortPeer(env, k, self, Reveal1);
    SelfAbortStage(env, k, self, b, e, f, ps, cs, rs);
  }

  /** e speaks, and the launch is burned. */
  lemma AfterSecret(c: Crypto, env: Env, self: PeerID, config: Config, b: PeerID, e: PeerID, f: PeerID, n: NodeState,
                    ps: seq<PeerID>, cs: map<PeerID, Bytes>, rs: map<PeerID, Bytes>, secret: Bytes) returns (m: NodeState)
    requires SignaturesVerify(c) && env.c == c && ValidIter(env.it)
    requires FourPeers(self, b, e, f)
    requires Reaches(c, InitNode(self, config), n) && self !in cs && self !in rs && Get(rs, e) == Some(c.H(secret))
    requires Stage(n, self, ps, cs, rs, map[b := Reveal2, self := Reveal1])
    requires NoDuplicates(n.d.revealOrder) && SetOf(n.d.revealOrder) == {e, f}
    ensures Reaches(c, InitNode(self, config), m) && m.vdf == Some(VdfRun(m.d.revealOrder, {b}, None))
    ensures SetOf(m.d.revealOrder) == {e, f} && f !in m.d.reveal2s && m.aborted.Keys == {self, b}
  {
    hide Reaches, InitNode, Stage, Handle, FairStimulus, NoDuplicates, SetOf, ValidIter, SignaturesVerify;
    StageFacts(n, self, ps, cs, rs, map[b := Reveal2, self := Reveal1]);
    StageValues(n, self, ps, cs, rs, map[b := Reveal2, self := Reveal1], e);
    StageNode(n, self, ps, cs, rs, map[b := Reveal2, self := Reveal1]);
    OthersAreFair(env, n, Reveal2, e, secret);
    ReachNext(c, InitNode(self, config), n, Stimulus(env, GossipOf(c, Reveal2, e, secret)));
    SecretBurns(env, n, self, b, e, f, secret);
    m := Handle(env, n, GossipOf(c, Reveal2, e, secret));
  }

  /** An honest node of a session of four, over a lock, six messages, six votes and one secret:
      its launch flag is set without an input while f, in its order and not aborted, has yet to speak. */
  lemma HonestLaunchBurned(c: Crypto, it: Iter, config: Config, own: Bytes, secrets: PeerID -> Bytes,
                           self: PeerID, b: PeerID, e: PeerID, f: PeerID)
    requires SignaturesVerify(c) && ValidIter(it) && Honest(config)
    requires FourPeers(self, b, e, f)
    ensures exists m :: && Reaches(c, InitNode(self, config), m) && m.vdf == Some(VdfRun(m.d.revealOrder, {b}, None))
                        && SetOf(m.d.revealOrder) == {e, f} && f !in m.d.reveal2s && m.aborted.Keys == {self, b}
  {
    hide Reaches, InitNode, Stage, NoDuplicates, SetOf, ValidIter, SignaturesVerify;
    var env := Quiet(c, it, own);
    var cs := map[b := Commit(c, secrets, b), e := Commit(c, secrets, e), f := Commit(c, secrets, f)];
    var rs := map[b := c.H(secrets(b)), e := c.H(secrets(e)), f := c.H(secrets(f))];
    var n1 := AfterCommits(c, env, self, config, secrets, b, e, f);
    var n2 := AfterReveals(c, env, self, config, secrets, b, e, f, n1, cs);
    var n3 := AfterMemberAbort(c, env, self, config, b, e, f, n2, cs, rs);
    var n4 := AfterSelfAbort(c, env, self, config, b, e, f, n3, cs, rs);
    var m := AfterSecret(c, env, self, config, b, e, f, n4, [self, b, e, f], cs, rs, secrets(e));
  }

  lemma StageNode(n: NodeState, self: PeerID, ps: seq<PeerID>, cs: map<PeerID, Bytes>, rs: map<PeerID, Bytes>,
                  aborted: map<PeerID, Phase>)
    requires Stage(n, self, ps, cs, rs, aborted)
    ensures n.self == n.d.self == self && Honest(n.config) && n.vdf.None? && n.sessionActive && n.sessionSize == 4
  {
  }

  // --- the manual START_COMMIT2 ---

  ghost predicate OneCommit(n: NodeState) {
    forall v, w | Published(n, Commit2, v) && Published(n, Commit2, w) :: v == w
  }

  /** Any peer's START_COMMIT2 makes a node draw and sign again: it has then published one commit
      exactly when it had published none but the new one. */
  lemma StartCommit2Equivocates(env: Env, n: NodeState)
    requires !n.config.behavior.skipCommit
    ensures var c2 := env.c.H(env.c.H(env.secret));
            OneCommit(OnStartCommit2(env, n)) <==> forall v | Published(n, Commit2, v) :: v == c2
  {
    var c2 := env.c.H(env.c.H(env.secret));
    forall v ensures Published(OnStartCommit2(env, n), Commit2, v) <==> Published(n, Commit2, v) || v == c2 {
      CommitPublished(env, n, v);
    }
    assert Published(OnStartCommit2(env, n), Commit2, c2);
    hide OnStartCommit2, Published;
  }

  lemma CommitPublished(env: Env, n: NodeState, v: Bytes)
    requires !n.config.behavior.skipCommit
    ensures Published(OnStartCommit2(env, n), Commit2, v) <==> Published(n, Commit2, v) || v == env.c.H(env.c.H(env.secret))
  {
    var c2 := env.c.H(env.c.H(env.secret));
    var m := Gossip(Commit2, Some(n.self), c2, env.c.sign(n.self, SigningBytes(Commit2, n.self, c2)));
    assert OnStartCommit2(env, n).out == n.out + [m];
    assert m in n.out + [m];
    if Published(n, Commit2, v) {
      var k :| k in n.out && k.Gossip? && k.phase == Commit2 && k.value == v;
      assert k in n.out + [m];
    }
  }

  lemma LockPublishes(env: Env, self: PeerID, config: Config, from: PeerID, ps: seq<PeerID>, v: Bytes)
    requires env.peers == [] && Honest(config) && |ps| > 1
    ensures Published(Handle(env, InitNode(self, config), Event.Receive(from, SessionLock(Some(ps)))), Commit2, v)
            <==> v == env.c.H(env.c.H(env.secret))
  {
    hide RevealOwn1;
    var n := LockSession(env, InitNode(self, config), ps);
    var n2 := CommitOwn(env, n);
    assert LateAborts(n2) == {};
    assert n2.d.commit2s.Keys == {self};
    assert |n2.d.commit2s| == 1;
    assert !CommitGate(n2);
    var c2 := env.c.H(env.c.H(env.secret));
    var m := Gossip(Commit2, Some(self), c2, env.c.sign(self, SigningBytes(Commit2, self, c2)));
    assert n2.out == [m];
    assert m in n2.out;
  }

  /** An honest node that has locked and then receives START_COMMIT2 has signed two commits, exactly
      when the two drawn secrets have different commits. */
  lemma LockedNodeSignsTwice(c: Crypto, it: Iter, config: Config, first: Bytes, second: Bytes,
                             self: PeerID, from: PeerID, ps: seq<PeerID>)
    requires ValidIter(it) && Honest(config) && |ps| > 1
    ensures exists n :: && Reaches(c, InitNode(self, config), n) && Locked(n, self, ps)
                        && (OneCommit(OnStartCommit2(Quiet(c, it, second), n)) <==> c.H(c.H(first)) == c.H(c.H(second)))
  {
    hide Handle, Reaches, Locked, FairStimulus, OneCommit, Published, OnStartCommit2;
    var env := Quiet(c, it, first);
    var lock := Event.Receive(from, SessionLock(Some(ps)));
    var n := Handle(env, InitNode(self, config), lock);
    ReachSelf(c, InitNode(self, config));
    ControlIsFair(env, InitNode(self, config), from, Commit2, from, ps);
    ReachNext(c, InitNode(self, config), InitNode(self, config), Stimulus(env, lock));
    LockStep(env, self, config, from, ps);
    forall v ensures Published(n, Commit2, v) <==> v == c.H(c.H(first)) {
      LockPublishes(env, self, config, from, ps, v);
    }
    assert Published(n, Commit2, c.H(c.H(first)));
    LockedIsHonest(n, self, ps);
    StartCommit2Equivocates(Quiet(c, it, second), n);
  }

  lemma LockedIsHonest(n: NodeState, self: PeerID, ps: seq<PeerID>)
    requires Locked(n, self, ps)
    ensures !n.config.behavior.skipCommit
  {
  }
}
