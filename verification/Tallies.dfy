/** Votes and disputes: how they are counted, how an accusation is answered, and what a majority does
    before and after the lock. */
module Tallies {
  import opened Encoding
  import opened FiniteSets
  import opened DcrSpec
  import opened Signing
  import opened NodeSpec
  import opened Handlers
  import opened NodeRuns
  import opened Gates
  import opened SessionLaws
  import opened Confluence
  import opened Openings
  import opened Secrets

  // --- counting ---

  /** One name is added to one tally; no other tally changes. */
  ghost predicate Counted(before: map<Key, set<PeerID>>, after: map<Key, set<PeerID>>, key: Key, from: PeerID) {
    && Get(after, key) == Some((if key in before then before[key] else {}) + {from})
    && forall other | other != key :: Get(after, other) == Get(before, other)
  }

  lemma AbortKeepsTallies(env: Env, n: NodeState, target: PeerID, phase: Phase)
    requires n.d.self == n.self
    ensures AbortPeer(env, n, target, phase).votes == n.votes && AbortPeer(env, n, target, phase).disputes == n.disputes
  {
    hide TryStartReveal1, OrderAndTrigger, ContinueAfter, EffectiveSize;
    var n1 := n.(aborted := n.aborted[target := phase]);
    TallyFrames(env, n1, target);
  }

  lemma TallyFrames(env: Env, n: NodeState, target: PeerID)
    ensures TryStartReveal1(env, n).votes == n.votes && TryStartReveal1(env, n).disputes == n.disputes
    ensures OrderAndTrigger(env, n).votes == n.votes && OrderAndTrigger(env, n).disputes == n.disputes
    ensures ContinueAfter(env, n, target).votes == n.votes && ContinueAfter(env, n, target).disputes == n.disputes
  {
    hide TryStartReveal1, OrderAndTrigger, ContinueAfter;
    TryUntallied(env, n, n.votes, n.disputes);
    OrderingUntallied(env, n, n.votes, n.disputes);
    ContinueUntallied(env, n, target, n.votes, n.disputes);
    assert Tallied(n, n.votes, n.disputes) == n;
  }

  // --- an abort lets only own messages out ---

  lemma WordsJoin(n: NodeState, k: NodeState, m: NodeState)
    requires OwnWordsOnly(n, k) && OwnWordsOnly(k, m) && k.self == n.self
    ensures OwnWordsOnly(n, m)
  {
    forall key: Key | key.peer != n.self ensures Get(m.signed, key) == Get(n.signed, key) {
      assert Get(k.signed, key) == Get(n.signed, key);
    }
  }

  lemma NoWords(n: NodeState, m: NodeState)
    requires m.out == n.out && m.signed == n.signed
    ensures OwnWordsOnly(n, m)
  {
  }

  lemma WordsOfOrdering(env: Env, n: NodeState)
    requires n.d.self == n.self
    ensures OwnWordsOnly(n, OrderAndTrigger(env, n))
  {
    hide ComputeOrderExcluding, PublishReveal2, NodeSpec.ArmNext, OrderAndTrigger, FirstTurn, OwnWordsOnly;
    var o := ComputeOrderExcluding(env.c.H, env.it, n.d, n.aborted.Keys);
    var n1 := n.(d := o, orders := n.orders + [o.revealOrder]);
    ComputedSelf(env, n);
    OrderingParts(env, n);
    NoWords(n, Claim(n1));
    Speaking(env, Claim(n1));
    WordsJoin(n, Claim(n1), PublishReveal2(env, Claim(n1)));
    ArmingOnly(n1, NO_PEER);
    NoWords(n, NodeSpec.ArmNext(n1, NO_PEER));
  }

  lemma WordsOfContinuing(env: Env, n: NodeState, p: PeerID)
    requires n.d.self == n.self
    ensures OwnWordsOnly(n, ContinueAfter(env, n, p))
  {
    hide ContinueAfter, PublishReveal2, NodeSpec.TryStartVdf, NodeSpec.ArmNext, TurnAfter, OwnWordsOnly;
    var k, n1 := Claim(n), TurnTaken(env, n, p);
    ContinueParts(env, n, p);
    NoWords(n, n);
    NoWords(n, k);
    Speaking(env, k);
    WordsJoin(n, k, PublishReveal2(env, k));
    var n2 := NodeSpec.ArmNext(n1, p);
    ArmingOnly(n1, p);
    LaunchingOnly(n2);
    NoWords(n1, NodeSpec.TryStartVdf(n2));
    WordsJoin(n, n1, NodeSpec.TryStartVdf(n2));
  }

  lemma WordsOfTrying(env: Env, n: NodeState)
    requires n.d.self == n.self
    ensures OwnWordsOnly(n, TryStartReveal1(env, n))
  {
    hide OrderAndTrigger, SignAndPublish, OwnWordsOnly, EffectiveSize;
    var n1 := n.(reveal1Triggered := true);
    NoWords(n, n);
    NoWords(n, n1);
    if n.d.myReveal1.Some? {
      var r := n.d.myReveal1.value;
      var n2 := n1.(d := Opened1(n.d, n.self, r));
      var n3 := SignAndPublish(env, n2, Reveal1, r);
      OpeningParts(env, n1);
      NoWords(n, n2);
      Publishing(env, n2, Reveal1, r);
      WordsJoin(n, n2, n3);
      WordsOfOrdering(env, n3);
      WordsJoin(n, n3, OrderAndTrigger(env, n3));
    }
  }

  lemma WordsOfAbort(env: Env, n: NodeState, target: PeerID, phase: Phase)
    requires n.d.self == n.self
    ensures OwnWordsOnly(n, AbortPeer(env, n, target, phase))
  {
    hide TryStartReveal1, OrderAndTrigger, ContinueAfter, EffectiveSize, OwnWordsOnly;
    var n1 := n.(aborted := n.aborted[target := phase]);
    NoWords(n, n);
    NoWords(n, n1);
    WordsOfTrying(env, n1);
    WordsOfOrdering(env, n1);
    WordsOfContinuing(env, n1, target);
    WordsJoin(n, n1, TryStartReveal1(env, n1));
    WordsJoin(n, n1, OrderAndTrigger(env, n1));
    WordsJoin(n, n1, ContinueAfter(env, n1, target));
  }

  // --- a vote ---

  /** A vote adds its sender to the tally of its phase and target, whatever else it leads to. */
  lemma VoteIsCounted(env: Env, n: NodeState, from: PeerID, phase: Phase, target: PeerID)
    requires n.d.self == n.self && phase != ReadyAck
    ensures var m := Handle(env, n, Event.Receive(from, TimeoutVote(phase, target)));
            Counted(n.votes, m.votes, Key(phase, target), from) && m.disputes == n.disputes
  {
    hide AbortPeer, VotersFor;
    VoteOutcome(env, n, from, phase, target);
    AbortKeepsTallies(env, VoteCounted(n, from, Key(phase, target)), target, phase);
    CountedVote(n, from, Key(phase, target));
  }

  lemma CountedVote(n: NodeState, from: PeerID, key: Key)
    ensures Counted(n.votes, VoteCounted(n, from, key).votes, key, from) && VoteCounted(n, from, key).disputes == n.disputes
    ensures VoteCounted(n, from, key)
            == n.(votes := VoteCounted(n, from, key).votes,
                  out := n.out + if key in n.signed then [TimeoutDispute(key.phase, key.peer, n.signed[key])] else [])
  {
    assert n.out + [] == n.out;
  }

  /** Below a majority, and against somebody already aborted, nothing happens but the count and the answer. */
  lemma VoteBelowMajority(env: Env, n: NodeState, from: PeerID, phase: Phase, target: PeerID)
    requires phase != ReadyAck
    requires 2 * |VotersFor(n, Key(phase, target)) + {from}| <= n.sessionSize || target in n.aborted
    ensures var m, key := Handle(env, n, Event.Receive(from, TimeoutVote(phase, target))), Key(phase, target);
            m == n.(votes := m.votes, out := n.out + if key in n.signed then [TimeoutDispute(phase, target, n.signed[key])] else [])
  {
    hide TryStartReveal1, OrderAndTrigger, ContinueAfter, EffectiveSize, VotersFor, VoteCounted;
    VoteOutcome(env, n, from, phase, target);
    VoterAdded(n, from, Key(phase, target));
    CountedVote(n, from, Key(phase, target));
  }

  /** A vote is answered at once with the signed message kept of its target, and not without one. */
  lemma VoteIsAnswered(env: Env, n: NodeState, from: PeerID, phase: Phase, target: PeerID)
    requires n.d.self == n.self && phase != ReadyAck
    ensures var m, key := Handle(env, n, Event.Receive(from, TimeoutVote(phase, target))), Key(phase, target);
            && n.out <= m.out
            && (key in n.signed ==> |m.out| > |n.out| && m.out[|n.out|] == TimeoutDispute(phase, target, n.signed[key]))
            && (key !in n.signed ==> forall i | |n.out| <= i < |m.out| :: !m.out[i].TimeoutDispute?)
  {
    hide AbortPeer, VoteCounted, VotersFor;
    var key := Key(phase, target);
    var n1 := VoteCounted(n, from, key);
    VoteOutcome(env, n, from, phase, target);
    CountedVote(n, from, key);
    WordsOfAbort(env, n1, target, phase);
    NoWords(n1, n1);
  }

  /** An accused peer whose message has been accepted is defended: the node answers the vote with that message,
      and with nothing when it has accepted none. */
  lemma AccusedIsDefended(env: Env, n: NodeState, from: PeerID, phase: Phase, target: PeerID)
    requires NodeInv(env.c, n) && SignedPhase(phase) && target != n.self
    ensures var m, accepted := Handle(env, n, Event.Receive(from, TimeoutVote(phase, target))), Get(PhaseMap(n.d, phase), target);
            && n.out <= m.out
            && (accepted.Some? ==>
                  && |m.out| > |n.out| && m.out[|n.out|].TimeoutDispute?
                  && var d := m.out[|n.out|];
                     && d.phase == phase && d.target == target
                     && DocVerifies(env.c, phase, target, d.doc) && DocValue(phase, d.doc) == accepted.value)
            && (accepted.None? ==> forall i | |n.out| <= i < |m.out| :: !m.out[i].TimeoutDispute?)
  {
    assert n.d.self == n.self && ProofKept(env.c, n, phase, target);
    hide NodeInv, Handle, DocVerifies, DocValue, ProofKept;
    VoteIsAnswered(env, n, from, phase, target);
    KeptWhenAccepted(env.c, n, phase, target);
  }

  lemma KeptWhenAccepted(c: Crypto, n: NodeState, phase: Phase, p: PeerID)
    requires ProofKept(c, n, phase, p)
    ensures var accepted, key := Get(PhaseMap(n.d, phase), p), Key(phase, p);
            && (accepted.Some? <==> key in n.signed)
            && (accepted.Some? ==> DocVerifies(c, phase, p, n.signed[key]) && DocValue(phase, n.signed[key]) == accepted.value)
  {
  }

  // --- a dispute ---

  /** A dispute adds its sender to the tally of its phase and target; at a majority it clears exactly the votes of
      that phase and target. */
  lemma DisputeIsCounted(env: Env, n: NodeState, from: PeerID, phase: Phase, target: PeerID, doc: Doc)
    requires phase != ReadyAck
    ensures var m := Handle(env, n, Event.Receive(from, TimeoutDispute(phase, target, doc))); var key := Key(phase, target);
            && Counted(n.disputes, m.disputes, key, from)
            && m.votes == (if 2 * |DisputersFor(n, key) + {from}| > n.sessionSize then n.votes - {key} else n.votes)
            && (2 * |DisputersFor(n, key) + {from}| <= n.sessionSize ==> m == n.(disputes := m.disputes))
            && (!SignedPhase(phase) || !DocVerifies(env.c, phase, target, doc) ==> m == n.(disputes := m.disputes, votes := m.votes))
  {
    hide AcceptDisputed, DocVerifies, DisputersFor, CountDispute, Counted;
    var key := Key(phase, target);
    DisputeAdded(n, from, key);
    if SignedPhase(phase) {
      var n1 := Tallied(n, n.votes - {key}, CountDispute(n, from, key).disputes);
      TakingKeepsTallies(env, n1, phase, target, doc);
    }
  }

  lemma DisputeAdded(n: NodeState, from: PeerID, key: Key)
    ensures var n1 := CountDispute(n, from, key);
            && DisputersFor(n1, key) == DisputersFor(n, key) + {from} && n1 == n.(disputes := n1.disputes)
            && Counted(n.disputes, n1.disputes, key, from)
  {
  }

  lemma TakingKeepsTallies(env: Env, n: NodeState, phase: Phase, p: PeerID, doc: Doc)
    requires SignedPhase(phase)
    ensures var m := AcceptDisputed(env, n, phase, p, doc);
            && m.votes == n.votes && m.disputes == n.disputes && (!DocVerifies(env.c, phase, p, doc) ==> m == n)
  {
    hide TryStartReveal1, AcceptedReveal1, ProcessReveal2, DocVerifies, DocValue, Tallied, BroadcastEquivocation;
    var value := DocValue(phase, doc);
    StoringTallies(env, n, phase, p, value, doc);
  }

  lemma StoringTallies(env: Env, n: NodeState, phase: Phase, p: PeerID, value: Bytes, doc: Doc)
    ensures var m := TryStartReveal1(env, WithCommit2(n, p, value, doc)); m.votes == n.votes && m.disputes == n.disputes
    ensures var m := AcceptedReveal1(env, WithReveal1(n, p, value, doc), p); m.votes == n.votes && m.disputes == n.disputes
    ensures var m := ProcessReveal2(env, n, p, value, doc); m.votes == n.votes && m.disputes == n.disputes
    ensures var m := BroadcastEquivocation(n, phase, p, doc); m.votes == n.votes && m.disputes == n.disputes
  {
    hide TryStartReveal1, AcceptedReveal1, ProcessReveal2;
    TryUntallied(env, WithCommit2(n, p, value, doc), n.votes, n.disputes);
    AcceptedUntallied(env, WithReveal1(n, p, value, doc), p, n.votes, n.disputes);
    SecretUntallied(env, n, p, value, doc, n.votes, n.disputes);
    StoringUntallied(n, phase, p, value, doc, n.votes, n.disputes);
  }

  // --- before the lock ---

  /** The proposer of a session not yet locked publishes the lock once every connected peer has answered or been
      excluded, listing the ready peers that are not aborted, or gives its proposal up when there are none;
      nobody else does anything. */
  ghost predicate LockTried(env: Env, n: NodeState, m: NodeState) {
    if n.sessionProposer == n.self && !n.sessionActive && |n.readyPeers| + |AbortedIn(n, ReadyAck)| >= |env.peers| + 1 then
      if n.readyPeers <= n.aborted.Keys then m == n.(sessionProposer := NO_PEER)
      else exists ps :: NoDuplicates(ps) && SetOf(ps) == n.readyPeers - n.aborted.Keys && m == Emit(n, SessionLock(Some(ps)))
    else m == n
  }

  lemma TryingLock(env: Env, n: NodeState)
    requires ValidIter(env.it)
    ensures LockTried(env, n, TryPublishSessionLock(env, n))
  {
    hide ValidIter, NodeSpec.Without;
    var ps := NodeSpec.Without(env.it(n.readyPeers), n.aborted.Keys);
    IterationIsDistinct(env.it, n.readyPeers);
    WithoutFilters(env.it(n.readyPeers), n.aborted.Keys);
    assert SetOf(ps) == n.readyPeers - n.aborted.Keys;
    if n.readyPeers <= n.aborted.Keys {
      NobodyListed(ps);
    } else {
      var p :| p in n.readyPeers && p !in n.aborted.Keys;
      assert p in SetOf(ps);
    }
  }

  lemma NobodyListed<T>(s: seq<T>)
    ensures SetOf(s) == {} <==> s == []
  {
    if s != [] {
      assert s[0] in SetOf(s);
    }
  }

  /** A READY_ACK counts once, until the lock, and may complete the answers. */
  lemma ReadyAckCounts(env: Env, n: NodeState, from: PeerID)
    requires ValidIter(env.it)
    ensures var m := Handle(env, n, Event.Receive(from, ReadyAckMsg));
            if n.sessionActive then m == n else LockTried(env, n.(readyPeers := n.readyPeers + {from}), m)
  {
    hide LockTried, TryPublishSessionLock, ValidIter;
    TryingLock(env, n.(readyPeers := n.readyPeers + {from}));
  }

  function ReadyVoted(n: NodeState, from: PeerID, target: PeerID): NodeState {
    var key := Key(ReadyAck, target);
    n.(votes := n.votes[key := VotersFor(n, key) + {from}],
       out := n.out + if target in n.readyPeers then [TimeoutDispute(ReadyAck, target, Malformed)] else [])
  }

  /** A vote for missing READY_ACK is answered when the target did answer; more than half of the connected peers and
      the node exclude the target, unless it is aborted already, and the lock is tried without it. */
  lemma ReadyAckVoteExcludes(env: Env, n: NodeState, from: PeerID, target: PeerID)
    requires ValidIter(env.it)
    ensures var m, n1 := Handle(env, n, Event.Receive(from, TimeoutVote(ReadyAck, target))), ReadyVoted(n, from, target);
            if 2 * |VotersFor(n, Key(ReadyAck, target)) + {from}| > |env.peers| + 1 && target !in n.aborted then
              LockTried(env, n1.(aborted := n1.aborted[target := ReadyAck]), m)
            else m == n1
  {
    hide LockTried, TryPublishSessionLock, ValidIter, VotersFor;
    var key, n1 := Key(ReadyAck, target), ReadyVoted(n, from, target);
    assert n.out + [] == n.out;
    ReadyTally(n, from, target);
    TryingLock(env, n1.(aborted := n1.aborted[target := ReadyAck]));
  }

  lemma ReadyTally(n: NodeState, from: PeerID, target: PeerID)
    ensures var key := Key(ReadyAck, target); VotersFor(ReadyVoted(n, from, target), key) == VotersFor(n, key) + {from}
    ensures var key := Key(ReadyAck, target);
            ReadyVoted(n, from, target)
            == CountVote(if target in n.readyPeers then Emit(n, TimeoutDispute(ReadyAck, target, Malformed)) else n, from, key)
  {
    assert n.out + [] == n.out;
  }

  /** The same majority of disputes counts the target as ready, clears the votes against it, and tries the lock. */
  lemma ReadyAckDisputeIncludes(env: Env, n: NodeState, from: PeerID, target: PeerID, doc: Doc)
    requires ValidIter(env.it)
    ensures var m, key := Handle(env, n, Event.Receive(from, TimeoutDispute(ReadyAck, target, doc))), Key(ReadyAck, target);
            var n1 := n.(disputes := n.disputes[key := DisputersFor(n, key) + {from}]);
            if 2 * |DisputersFor(n, key) + {from}| > |env.peers| + 1 then
              LockTried(env, n1.(votes := n.votes - {key}, readyPeers := n.readyPeers + {target}), m)
            else m == n1
  {
    hide LockTried, TryPublishSessionLock, ValidIter, DisputersFor;
    var key := Key(ReadyAck, target);
    DisputeAdded(n, from, key);
    var n1 := CountDispute(n, from, key);
    TryingLock(env, n1.(votes := n1.votes - {key}, readyPeers := n1.readyPeers + {target}));
  }

  /** The READY_ACK timeout accuses exactly the connected peers that have not answered; when all have, the lock
      is tried. */
  lemma ReadyAckTimeoutAccuses(env: Env, n: NodeState, p: PeerID)
    requires ValidIter(env.it) && TimeoutVote(ReadyAck, p) !in n.out
    ensures var m := Handle(env, n, ReadyAckTimeout);
            if n.sessionActive then m == n
            else if SetOf(env.peers) <= n.readyPeers then LockTried(env, n, m)
            else m == n.(out := m.out) && (TimeoutVote(ReadyAck, p) in m.out <==> p in env.peers && p !in n.readyPeers)
  {
    hide LockTried, TryPublishSessionLock, ValidIter;
    TryingLock(env, n);
    VotesListed(ReadyAck, env.peers, n.readyPeers, TimeoutVote(ReadyAck, p));
    NobodyAccused(ReadyAck, env.peers, n.readyPeers);
  }

  lemma {:induction false} NobodyAccused(phase: Phase, ps: seq<PeerID>, spared: set<PeerID>)
    ensures VotesAgainst(phase, ps, spared) == [] <==> SetOf(ps) <= spared
  {
    if ps != [] {
      var front, p := ps[..|ps| - 1], ps[|ps| - 1];
      NobodyAccused(phase, front, spared);
      assert ps == front + [p];
      assert SetOf(ps) == SetOf(front) + {p};
    }
  }
}
