/** The counting gates of a node against the sets they stand for. */
module Gates {
  import opened Encoding
  import opened FiniteSets
  import opened DcrSpec
  import opened RevealOrder
  import opened VdfInput
  import opened Signing
  import opened NodeSpec
  import opened Actions
  import opened Handlers
  import opened NodeRuns

  // --- the commit2 -> reveal1 gate ---

  /** Participants not aborted since the lock. */
  function LiveParticipants(n: NodeState): set<PeerID> {
    SetOf(n.participants) - LateAborts(n)
  }

  /** What every lock establishes (NodeRuns): the size is the length of the list, repetitions included. */
  ghost predicate Sized(n: NodeState) {
    n.sessionActive && n.sessionSize == |n.participants|
  }

  /** Entries of the participant list beyond the first of each peer. */
  function Repeats(n: NodeState): int {
    |n.participants| - |SetOf(n.participants)|
  }

  /** Late aborts of peers that are not participants; neither votes nor proofs check the target. */
  function Outsiders(n: NodeState): set<PeerID> {
    LateAborts(n) - SetOf(n.participants)
  }

  /** A list without repetitions, and only participants aborted since the lock. */
  ghost predicate LockedWell(n: NodeState) {
    Sized(n) && NoDuplicates(n.participants) && Outsiders(n) == {}
  }

  /** The effective size counts the live participants, each repetition once more, and each aborted
      outsider once less. */
  lemma EffectiveSizeMeaning(n: NodeState)
    requires Sized(n)
    ensures EffectiveSize(n) == |LiveParticipants(n)| + Repeats(n) - |Outsiders(n)|
  {
    var ps, late := SetOf(n.participants), LateAborts(n);
    assert ps == LiveParticipants(n) + ps * late;
    assert late == Outsiders(n) + ps * late;
  }

  lemma EffectiveSizeIsLive(n: NodeState)
    requires LockedWell(n)
    ensures EffectiveSize(n) == |LiveParticipants(n)|
  {
    EffectiveSizeMeaning(n);
    DistinctSize(n.participants);
  }

  lemma CountingCompares<T>(a: set<T>, b: set<T>)
    ensures |a| - |b| == |a - b| - |b - a|
  {
    assert a == (a - b) + (a * b) && b == (b - a) + (a * b);
  }

  /** Live participants whose commit is missing. */
  function Uncommitted(n: NodeState): set<PeerID> {
    LiveParticipants(n) - n.d.commit2s.Keys
  }

  /** Commits held of anybody else: outsiders, and participants aborted since. */
  function StrayCommits(n: NodeState): set<PeerID> {
    n.d.commit2s.Keys - LiveParticipants(n)
  }

  /** What the count really tests: the missing commits and the repetitions in the list do not
      outnumber the stray commits and the aborted outsiders. */
  lemma CommitGateMeaning(n: NodeState)
    requires Sized(n)
    ensures CommitGate(n) <==>
            !n.reveal1Triggered && |Uncommitted(n)| + Repeats(n) <= |StrayCommits(n)| + |Outsiders(n)|
  {
    EffectiveSizeMeaning(n);
    assert |n.d.commit2s| == |n.d.commit2s.Keys|;
    CountingCompares(n.d.commit2s.Keys, LiveParticipants(n));
  }

  /** Exactly when the gate opens although a live participant has not committed, and exactly when it
      stays shut although all have. */
  lemma CommitGateMisfires(n: NodeState)
    requires Sized(n) && !n.reveal1Triggered
    ensures CommitGate(n) && Uncommitted(n) != {} <==>
            0 < |Uncommitted(n)| <= |StrayCommits(n)| + |Outsiders(n)| - Repeats(n)
    ensures !CommitGate(n) && Uncommitted(n) == {} <==>
            Uncommitted(n) == {} && Repeats(n) > |StrayCommits(n)| + |Outsiders(n)|
  {
    CommitGateMeaning(n);
  }

  /** Trying to start reveal1 does so exactly when the counts allow it, and otherwise changes nothing. With
      distinct participants, no outsider aborted and no stray commit that is when everybody live has committed. */
  lemma Reveal1StartsWithEverybody(env: Env, n: NodeState)
    requires Sized(n) && n.d.self == n.self && !n.reveal1Triggered
    ensures TryStartReveal1(env, n).reveal1Triggered <==>
            |Uncommitted(n)| + Repeats(n) <= |StrayCommits(n)| + |Outsiders(n)|
    ensures !TryStartReveal1(env, n).reveal1Triggered ==> TryStartReveal1(env, n) == n
    ensures LockedWell(n) && StrayCommits(n) == {} ==>
              (TryStartReveal1(env, n).reveal1Triggered <==> Uncommitted(n) == {})
  {
    CommitGateMeaning(n);
    TryStartDecides(env, n);
    if LockedWell(n) {
      DistinctSize(n.participants);
    }
  }

  lemma TryStartDecides(env: Env, n: NodeState)
    requires n.d.self == n.self && !n.reveal1Triggered
    ensures TryStartReveal1(env, n).reveal1Triggered <==> CommitGate(n)
    ensures !CommitGate(n) ==> TryStartReveal1(env, n) == n
  {
    hide CommitGate, RevealOwn1;
    if CommitGate(n) {
      var n1 := n.(reveal1Triggered := true);
      var x := Ctx(env, Propose, {});
      RevealOwn1Path(x, n1);
      PathGrows(x, n1, RevealOwn1(env, n1));
    }
  }

  /** After the lock the effective size never grows, over any run; the reveal1 flag is never cleared. */
  lemma EffectiveSizeShrinks(c: Crypto, n: NodeState, steps: seq<Stimulus>)
    requires NodeInv(c, n) && FairRun(c, n, steps) && n.sessionActive
    ensures EffectiveSize(RunNode(n, steps)) <= EffectiveSize(n)
    ensures n.reveal1Triggered ==> RunNode(n, steps).reveal1Triggered
  {
    RunKeepsInv(c, n, steps);
    SubsetSize(LateAborts(n), LateAborts(RunNode(n, steps)));
  }

  lemma VoteOutcome(env: Env, n: NodeState, from: PeerID, phase: Phase, target: PeerID)
    requires phase != ReadyAck
    ensures var n2 := VoteCounted(n, from, Key(phase, target));
            HandleTimeoutVote(env, n, from, phase, target)
            == if |VotersFor(n2, Key(phase, target))| >= Majority(n2) then AbortPeer(env, n2, target, phase) else n2
  {
  }

  /** What a vote does at the count, in general: the target is aborted exactly when the distinct
      voters, this one included, reach the majority. */
  lemma VoteAborts(env: Env, n: NodeState, from: PeerID, phase: Phase, target: PeerID)
    requires phase != ReadyAck && n.d.self == n.self && target !in n.aborted
    ensures target in HandleTimeoutVote(env, n, from, phase, target).aborted
            <==> |VotersFor(n, Key(phase, target)) + {from}| >= Majority(n)
  {
    hide AbortPeer;
    var n2 := VoteCounted(n, from, Key(phase, target));
    VoteOutcome(env, n, from, phase, target);
    AbortIsFinal(env, n2, target, phase);
  }

  /** A single vote, from anybody, aborts exactly when the session has fewer than two members: before
      the lock, when its size is still 0, and in a session of one. */
  lemma OneVoteAborts(env: Env, n: NodeState, from: PeerID, phase: Phase, target: PeerID)
    requires phase != ReadyAck && n.d.self == n.self && target !in n.aborted
    requires VotersFor(n, Key(phase, target)) == {}
    ensures target in HandleTimeoutVote(env, n, from, phase, target).aborted <==> n.sessionSize < 2
  {
    VoteAborts(env, n, from, phase, target);
    assert VotersFor(n, Key(phase, target)) + {from} == {from};
  }

  // --- the VDF gate ---

  /** tryStartVDF launches on a real input exactly when the gate opens, under the gate's conditions. */
  lemma VdfLaunchIsExact(n: NodeState)
    requires n.vdf.None? && GateConditions(n.d, AbortedIn(n, Reveal2))
    ensures var n' := TryStartVdf(n);
            && (n'.vdf.Some? <==> FinalInputWithFallback(n.d, AbortedIn(n, Reveal2)).Some?)
            && (n'.vdf.Some? ==> n'.vdf.value.input == FinalInputWithFallback(n.d, AbortedIn(n, Reveal2)))
  {
    GateIsExact(n.d, AbortedIn(n, Reveal2));
    hide VdfGate, FinalInputWithFallback, GateConditions;
  }

  /** Accepting a member's secret and aborting a member in reveal2 keep the gate's conditions. */
  lemma GateConditionsKept(n: NodeState, p: PeerID, secret: Bytes)
    requires GateConditions(n.d, AbortedIn(n, Reveal2)) && p in n.d.revealOrder
    ensures GateConditions(StoreReveal2(n.d, p, secret), AbortedIn(n, Reveal2))
    ensures p !in n.aborted && p in n.d.reveal1s ==>
              GateConditions(n.d, AbortedIn(n.(aborted := n.aborted[p := Reveal2]), Reveal2))
  {
    if p !in n.aborted {
      assert AbortedIn(n.(aborted := n.aborted[p := Reveal2]), Reveal2) == AbortedIn(n, Reveal2) + {p};
    }
  }

  /** Computing the order again leaves out everybody aborted so far, also in reveal2: all of them
      become foreign aborts, and the gate then opens with that many secrets missing. */
  lemma RecomputingLoosensTheGate(env: Env, n: NodeState)
    requires ValidIter(env.it)
    ensures var n' := LogRevealOrder(env, n);
            && NoDuplicates(n'.d.revealOrder)
            && ForeignAborts(n'.d, AbortedIn(n', Reveal2)) == AbortedIn(n, Reveal2)
            && (|Missing(n'.d, AbortedIn(n', Reveal2))| <= |AbortedIn(n, Reveal2)| ==>
                  VdfGate(n'.d, AbortedIn(n', Reveal2)))
  {
    var n' := LogRevealOrder(env, n);
    ComputedOrderIsValid(env.c.H, env.it, n.d, n.aborted.Keys);
    ValidOrderMembers(env.c.H, n.d.commit2s, n.d.reveal1s, n.aborted.Keys, n'.d.revealOrder);
    assert AbortedIn(n', Reveal2) == AbortedIn(n, Reveal2) <= n.aborted.Keys;
    ForeignWhenLeftOut(n'.d, AbortedIn(n, Reveal2));
  }

  lemma ForeignWhenLeftOut(d: DcrState, aborted: set<PeerID>)
    requires NoDuplicates(d.revealOrder) && SetOf(d.revealOrder) !! aborted
    ensures ForeignAborts(d, aborted) == aborted
    ensures |Missing(d, aborted)| <= |aborted| ==> VdfGate(d, aborted)
  {
    GateMeaning(d, aborted);
  }

  // --- the strategic revealers ---

  lemma {:induction false} FirstIndexFinds(order: seq<PeerID>, p: PeerID)
    ensures var i := FirstIndex(order, p);
            -1 <= i < |order| && (i >= 0 ==> order[i] == p) && (i < 0 ==> p !in order)
  {
    if order != [] && order[0] != p {
      FirstIndexFinds(order[1..], p);
    }
  }

  lemma StrategicCondition(env: Env, n: NodeState)
    requires n.self !in n.d.reveal1s && TryStrategicReveal1(env, n) != n
    ensures WouldBeLast(HypotheticalOrder(env.c.H, env.it, n.d, n.aborted.Keys), n.self)
    ensures n.d.myReveal1.Some?
  {
  }

  /** When the last-revealer-abort node decides to reveal, it is indeed last in the order that
      anybody computes from the views that include its reveal1. */
  lemma StrategicRevealerIsLast(env: Env, later: Iter, n: NodeState)
    requires ValidIter(env.it) && ValidIter(later) && n.d.self == n.self
    requires n.config.behavior.strategicReveal1 && n.self !in n.d.reveal1s
    requires TryStrategicReveal1(env, n) != n
    requires var m := DcrSpec.StartReveal1(n.d).reveal1s - n.aborted.Keys;
             Unambiguous(m) && DistinctDistances(env.c.H, OmegaOf(env.c.H, m), n.d.commit2s - n.aborted.Keys)
    ensures var order := ComputeOrderExcluding(env.c.H, later, DcrSpec.StartReveal1(n.d), n.aborted.Keys).revealOrder;
            order != [] && order[|order| - 1] == n.self
  {
    hide TryStrategicReveal1, RevealOwn1, ComputeOrderExcluding, HypotheticalOrder, DcrSpec.StartReveal1;
    StrategicCondition(env, n);
    HypotheticalOrderIsReal(env.c.H, env.it, later, n.d, n.aborted.Keys);
    var order := HypotheticalOrder(env.c.H, env.it, n.d, n.aborted.Keys);
    FirstIndexFinds(order.value, n.self);
  }

  /** The last-revealer-abort-r2 node speaks exactly when that does not give the larger of the two
      inputs; either way the input the others compute is the smaller one. */
  lemma StrategicChoiceIsMinimal(env: Env, n: NodeState)
    requires n.d.self == n.self && n.d.mySecret.Some? && !n.config.behavior.skipReveal2 && !n.config.behavior.lastRevealerVdf
    requires n.config.behavior.strategicReveal2 && Get(n.d.reveal1s, n.self) == n.d.myReveal1 && n.d.myReveal1.Some?
    requires ComputeBothInputs(n.d, AbortedIn(n, Reveal2)).Some?
    ensures var both := ComputeBothInputs(n.d, AbortedIn(n, Reveal2)).value;
            var aborted := AbortedIn(n, Reveal2);
            var speaks := PublishReveal2(env, n) != n;
            var input := if speaks then FinalInputWithFallback(DcrSpec.StartReveal2(n.d), aborted - {n.self})
                         else FinalInputWithFallback(n.d, aborted + {n.self});
            && (speaks <==> BigEndian(both.ifReveal) <= BigEndian(both.ifAbort))
            && input.Some?
            && BigEndian(input.value) <= BigEndian(both.ifReveal) && BigEndian(input.value) <= BigEndian(both.ifAbort)
            && (input.value == both.ifReveal || input.value == both.ifAbort)
  {
    BothInputsAreReal(n.d, AbortedIn(n, Reveal2));
    assert BigEndian(ComputeBothInputs(n.d, AbortedIn(n, Reveal2)).value.ifReveal)
           <= BigEndian(ComputeBothInputs(n.d, AbortedIn(n, Reveal2)).value.ifAbort) ==>
           |PublishReveal2(env, n).out| == |n.out| + 1;
  }
}
