/** The session lock and the phase timeouts: who is listed, who is excluded, who is voted against. */
module SessionLaws {
  import opened Encoding
  import opened FiniteSets
  import opened DcrSpec
  import opened Signing
  import opened NodeSpec
  import opened DcrRuns
  import opened Actions
  import opened Handlers
  import opened NodeRuns
  import opened Gates

  // --- the list of participants ---

  lemma {:induction false} WithoutFilters(ps: seq<PeerID>, aborted: set<PeerID>)
    ensures SetOf(Without(ps, aborted)) == SetOf(ps) - aborted
    ensures NoDuplicates(ps) ==> NoDuplicates(Without(ps, aborted))
  {
    if ps != [] {
      var front, p := ps[..|ps| - 1], ps[|ps| - 1];
      var r := Without(front, aborted);
      WithoutFilters(front, aborted);
      assert ps == front + [p];
      assert SetOf(ps) == SetOf(front) + {p};
      assert SetOf(r + [p]) == SetOf(r) + {p};
      if NoDuplicates(ps) && p !in aborted {
        assert p !in SetOf(front);
        assert forall k | 0 <= k < |r| :: r[k] in SetOf(r);
      }
    }
  }

  lemma IterationIsDistinct(it: Iter, s: set<PeerID>)
    requires ValidIter(it)
    ensures NoDuplicates(it(s)) && SetOf(it(s)) == s
  {
    var ps := it(s);
    forall i, j | 0 <= i < j < |ps| ensures ps[i] != ps[j] {
      assert ps == ps[..j] + ps[j..];
      assert multiset(ps)[ps[j]] == multiset(ps[..j])[ps[j]] + multiset(ps[j..])[ps[j]];
      assert ps[j..][0] in multiset(ps[j..]);
      assert ps[j] !in multiset(ps[..j]);
      assert ps[..j][i] in ps[..j];
    }
    forall p ensures p in ps <==> p in s {
      assert p in multiset(ps) <==> p in multiset(s);
    }
  }

  /** A published lock lists exactly the ready peers that are not aborted, each once, and only the
      proposer publishes it, when every connected peer has answered or been excluded. */
  lemma LockListsTheReady(env: Env, n: NodeState)
    requires ValidIter(env.it) && |TryPublishSessionLock(env, n).out| > |n.out|
    ensures !n.sessionActive && n.sessionProposer == n.self
    ensures |n.readyPeers| + |AbortedIn(n, ReadyAck)| >= |env.peers| + 1
    ensures exists ps :: && TryPublishSessionLock(env, n) == Emit(n, SessionLock(Some(ps)))
                         && NoDuplicates(ps) && SetOf(ps) == n.readyPeers - n.aborted.Keys
  {
    IterationIsDistinct(env.it, n.readyPeers);
    WithoutFilters(env.it(n.readyPeers), n.aborted.Keys);
    var ps := Without(env.it(n.readyPeers), n.aborted.Keys);
    assert TryPublishSessionLock(env, n) == Emit(n, SessionLock(Some(ps)));
  }

  // --- what a lock establishes ---

  /** Whoever is connected but not listed is aborted from then on; a listed peer is not. */
  lemma LockExcludesTheRest(env: Env, n: NodeState, ps: seq<PeerID>)
    ensures var n' := LockSession(env, n, ps);
            && (forall p | p in env.peers && p !in ps :: p in n'.aborted)
            && (forall p | p in ps :: Get(n'.aborted, p) == Get(n.aborted, p))
            && LateAborts(n') == LateAborts(n)
  {
    var n' := LockSession(env, n, ps);
    forall p ensures p in LateAborts(n') <==> p in LateAborts(n) {
    }
  }

  /** With distinct participants and no earlier vote abort, the lock puts the commit gate on a sound footing. */
  lemma LockIsWell(env: Env, n: NodeState, ps: seq<PeerID>)
    requires NoDuplicates(ps) && LateAborts(n) == {}
    ensures LockedWell(LockSession(env, n, ps))
    ensures EffectiveSize(LockSession(env, n, ps)) == |ps|
  {
    LockExcludesTheRest(env, n, ps);
  }

  /** The commit gate over whole runs: as long as aborts hit only participants and only live
      participants' commits are held, reveal1 starts exactly when every live participant has committed. */
  lemma CommitGateOverRuns(c: Crypto, n: NodeState, steps: seq<Stimulus>, env: Env)
    requires NodeInv(c, n) && FairRun(c, n, steps) && LockedWell(n)
    requires var m := RunNode(n, steps);
             !m.reveal1Triggered && Outsiders(m) == {} && StrayCommits(m) == {}
    ensures var m := RunNode(n, steps);
            && LockedWell(m) && m.participants == n.participants
            && (TryStartReveal1(env, m).reveal1Triggered <==> Uncommitted(m) == {})
  {
    hide NodeInv, FairRun, RunNode, TryStartReveal1;
    RunKeepsInv(c, n, steps);
    RunLocks(n, RunNode(n, steps));
    assert RunNode(n, steps).d.self == RunNode(n, steps).self by { InvSelf(c, RunNode(n, steps)); }
    Reveal1StartsWithEverybody(env, RunNode(n, steps));
  }

  lemma RunLocks(n: NodeState, m: NodeState)
    requires Grows(n, m) && LockedWell(n) && Outsiders(m) == {}
    ensures LockedWell(m) && m.participants == n.participants
  {
  }

  lemma InvSelf(c: Crypto, n: NodeState)
    requires NodeInv(c, n)
    ensures n.d.self == n.self
  {
  }

  // --- the step at which reveal1 starts ---

  /** Stray commits and aborted outsiders do not outnumber the repetitions; with distinct
      participants there are none of either. */
  ghost predicate Orderly(n: NodeState) {
    n.sessionActive ==> |StrayCommits(n)| + |Outsiders(n)| <= Repeats(n)
  }

  /** Once reveal1 has started, every live participant has committed. */
  ghost predicate StartedWithEverybody(n: NodeState) {
    n.reveal1Triggered ==> Uncommitted(n) == {}
  }

  lemma OrderlyBefore(n: NodeState, k: NodeState)
    requires Grows(n, k) && Orderly(k)
    ensures Orderly(n)
  {
    if n.sessionActive {
      SubsetSize(StrayCommits(n), StrayCommits(k));
      SubsetSize(Outsiders(n), Outsiders(k));
    }
  }

  lemma OpenGateHasEverybody(n: NodeState)
    requires SessionKept(n) && Orderly(n) && CommitGate(n)
    ensures Uncommitted(n) == {}
  {
    CommitGateMeaning(n);
  }

  lemma FewerUncommitted(n: NodeState, m: NodeState)
    requires Grows(n, m) && n.sessionActive && Uncommitted(n) == {}
    ensures Uncommitted(m) == {}
  {
    assert Uncommitted(m) <= Uncommitted(n);
  }

  lemma FlagUntouched(x: Ctx, n: NodeState, a: Action)
    ensures Do(x.env, n, a).reveal1Triggered == (n.reveal1Triggered || a.TriggerReveal1?)
  {
  }

  lemma ActionStartsWithEverybody(x: Ctx, n: NodeState, a: Action, k: NodeState)
    requires Enabled(x, n, a) && SessionKept(n) && StartedWithEverybody(n)
    requires Grows(Do(x.env, n, a), k) && (n.reveal1Triggered || Orderly(k))
    ensures StartedWithEverybody(Do(x.env, n, a))
  {
    hide Do, Grows, Orderly, Uncommitted, CommitGate;
    var m := Do(x.env, n, a);
    ActionGrows(x, n, a);
    FlagUntouched(x, n, a);
    if n.reveal1Triggered {
      FewerUncommitted(n, m);
    } else if a.TriggerReveal1? {
      GrowsTransitive(n, m, k);
      OrderlyBefore(n, k);
      OpenGateHasEverybody(n);
      GateNeedsSession(n);
      FewerUncommitted(n, m);
    }
  }

  lemma GateNeedsSession(n: NodeState)
    requires CommitGate(n)
    ensures n.sessionActive
  {
  }

  lemma {:induction false} ActionsStartWithEverybody(x: Ctx, n: NodeState, acts: seq<Action>)
    requires Permitted(x, n, acts) && SessionKept(n) && StartedWithEverybody(n)
    requires n.reveal1Triggered || Orderly(RunActs(x.env, n, acts))
    ensures StartedWithEverybody(RunActs(x.env, n, acts))
    decreases |acts|
  {
    if acts != [] {
      hide Enabled, Computed, Do, Grows, Orderly, StartedWithEverybody, SessionKept;
      var m := Do(x.env, n, acts[0]);
      RunGrows(x, m, acts[1..]);
      FlagUntouched(x, n, acts[0]);
      ActionKeepsSession(x, n, acts[0]);
      ActionStartsWithEverybody(x, n, acts[0], RunActs(x.env, m, acts[1..]));
      ActionsStartWithEverybody(x, m, acts[1..]);
    }
  }

  /** Every handler before reveal1, and the one that starts it, ends orderly. */
  ghost predicate OrderlyUntilReveal1(n: NodeState, steps: seq<Stimulus>)
    decreases |steps|
  {
    steps == [] ||
    var m := Handle(steps[0].env, n, steps[0].event);
    (n.reveal1Triggered || Orderly(m)) && OrderlyUntilReveal1(m, steps[1..])
  }

  lemma HandleStartsWithEverybody(c: Crypto, n: NodeState, s: Stimulus)
    requires NodeInv(c, n) && FairStimulus(c, n, s) && StartedWithEverybody(n)
    requires n.reveal1Triggered || Orderly(Handle(s.env, n, s.event))
    ensures StartedWithEverybody(Handle(s.env, n, s.event))
  {
    assert SessionKept(n);
    hide NodeInv, Handle, WellFormed, OwnUnforged, EventEvidence, PendingEvidence, Permitted, RunActs, Orderly, StartedWithEverybody,
         SessionKept;
    var x := CtxOf(s.env, n, s.event);
    HandUnforged(c, n, s);
    HandlePath(s.env, n, s.event);
    var acts: seq<Action> :| Permitted(x, n, acts) && RunActs(x.env, n, acts) == Handle(s.env, n, s.event);
    ActionsStartWithEverybody(x, n, acts);
  }

  /** Over every run, at the step inside whichever handler starts reveal1 and ever after, every live
      participant has committed, as long as that handler and those before it end orderly. */
  lemma {:induction false} Reveal1NeverStartsShort(c: Crypto, n: NodeState, steps: seq<Stimulus>)
    requires NodeInv(c, n) && FairRun(c, n, steps) && StartedWithEverybody(n) && OrderlyUntilReveal1(n, steps)
    ensures StartedWithEverybody(RunNode(n, steps))
    decreases |steps|
  {
    if steps != [] {
      hide NodeInv, FairStimulus, Handle, Orderly, StartedWithEverybody, WrittenOnce, Grows;
      HandleKeepsInv(c, n, steps[0]);
      HandleStartsWithEverybody(c, n, steps[0]);
      Reveal1NeverStartsShort(c, Handle(steps[0].env, n, steps[0].event), steps[1..]);
    }
  }

  // --- whom a timeout accuses ---

  lemma {:induction false} VotesListed(phase: Phase, ps: seq<PeerID>, spared: set<PeerID>, m: Msg)
    ensures m in VotesAgainst(phase, ps, spared) <==> exists p :: p in ps && p !in spared && m == TimeoutVote(phase, p)
  {
    if ps != [] {
      var front, p := ps[..|ps| - 1], ps[|ps| - 1];
      VotesListed(phase, front, spared, m);
      assert ps == front + [p];
    }
  }

  /** An honest node's commit timeout accuses exactly the participants it has neither heard nor aborted. */
  lemma CommitTimeoutAccuses(n: NodeState, p: PeerID)
    requires n.sessionActive && !n.config.behavior.falseTimeoutVote && TimeoutVote(Commit2, p) !in n.out
    ensures TimeoutVote(Commit2, p) in OnCommitTimeout(n).out <==>
            p in n.participants && p !in n.d.commit2s && p !in n.aborted
  {
    VotesListed(Commit2, n.participants, n.d.commit2s.Keys + n.aborted.Keys, TimeoutVote(Commit2, p));
  }

  /** A false-timeout-vote node accuses also everybody who did answer, except itself. */
  lemma FalseTimeoutAccuses(n: NodeState, p: PeerID)
    requires n.sessionActive && n.config.behavior.falseTimeoutVote && TimeoutVote(Commit2, p) !in n.out
    ensures TimeoutVote(Commit2, p) in OnCommitTimeout(n).out <==>
            p in n.participants && p !in n.aborted && (p in n.d.commit2s ==> p != n.self)
  {
    VotesListed(Commit2, n.participants, n.d.commit2s.Keys + n.aborted.Keys, TimeoutVote(Commit2, p));
    VotesListed(Commit2, n.participants, (SetOf(n.participants) - n.d.commit2s.Keys) + n.aborted.Keys + {n.self},
                TimeoutVote(Commit2, p));
  }

  /** The commit2 and the reveal1 timeouts, for every profile: before their phase they do nothing; in it they
      accuse exactly the participants neither heard nor aborted, and a false voter the heard ones too. */
  lemma PhaseTimeoutAccuses(env: Env, n: NodeState, phase: Phase, p: PeerID)
    requires (phase == Commit2 || phase == Reveal1) && TimeoutVote(phase, p) !in n.out
    ensures var m := Handle(env, n, if phase == Commit2 then CommitTimeout else Reveal1Timeout);
            var started := n.sessionActive && (phase == Reveal1 ==> n.reveal1Triggered);
            && m == n.(out := m.out) && n.out <= m.out
            && (TimeoutVote(phase, p) in m.out <==>
                  && started && p in n.participants && p !in n.aborted
                  && (p !in PhaseMap(n.d, phase) || (n.config.behavior.falseTimeoutVote && p != n.self)))
  {
    var heard := PhaseMap(n.d, phase).Keys;
    VotesListed(phase, n.participants, heard + n.aborted.Keys, TimeoutVote(phase, p));
    VotesListed(phase, n.participants, (SetOf(n.participants) - heard) + n.aborted.Keys + {n.self}, TimeoutVote(phase, p));
  }

  /** The reveal2 timeout accuses the peer it was armed for, and only while that one is still awaited. */
  lemma Reveal2TimeoutAccuses(env: Env, n: NodeState, target: PeerID, p: PeerID)
    requires TimeoutVote(Reveal2, p) !in n.out
    ensures var m := Handle(env, n, Reveal2Timeout(target));
            && m == n.(out := m.out) && n.out <= m.out
            && (TimeoutVote(Reveal2, p) in m.out <==> p == target == n.reveal2Target && p != NO_PEER)
            && (target != n.reveal2Target ==> m == n)
  {
    var m := Handle(env, n, Reveal2Timeout(target));
    if target == NO_PEER || n.reveal2Target != target {
      assert m == n;
    } else {
      assert m == Emit(n, TimeoutVote(Reveal2, target));
    }
  }

  // --- proposals ---

  /** The first proposer is remembered; it, a later call of it, and anybody while the node proposes itself get an
      acknowledgement, and a rival proposal or one after the lock gets nothing. */
  lemma ProposalIsAnswered(env: Env, n: NodeState, from: PeerID)
    ensures var m := Handle(env, n, Event.Receive(from, Msg.ProposeStart));
            var known := n.sessionProposer;
            if n.sessionActive || (known != NO_PEER && known != from && known != n.self) then m == n
            else
              && m == n.(sessionProposer := m.sessionProposer, out := m.out)
              && m.sessionProposer == (if known == NO_PEER then from else known)
              && m.out == n.out + if n.config.behavior.skipReadyAck then [] else [ReadyAckMsg]
  {
    assert n.out + [] == n.out;
  }

  /** A node proposes once, and not after it has heard another proposal. */
  lemma ProposingIsOnce(env: Env, n: NodeState)
    ensures var m := Handle(env, n, Propose);
            if n.sessionProposer != NO_PEER then m == n
            else m == n.(sessionProposer := n.self, out := n.out + [Msg.ProposeStart])
  {
  }
}
