/** The decomposition of each handler into permitted actions. */
module Handlers {
  import opened Encoding
  import opened FiniteSets
  import opened DcrSpec
  import opened VdfInput
  import opened Signing
  import opened NodeSpec
  import opened Actions

  /** What is buffered was verified on arrival and counts as in hand. */
  ghost predicate HoldsPending(x: Ctx, n: NodeState) {
    && (forall p | p in n.pending1 :: InHand(x, Reveal1, p, n.pending1[p]))
    && (forall p | p in n.pending2 :: InHand(x, Reveal2, p, n.pending2[p]))
  }

  lemma PublishReveal2Path(x: Ctx, n: NodeState)
    requires n.d.reveal2Sent && n.d.self == n.self
    ensures Path(x, n, PublishReveal2(x.env, n))
  {
    hide PublishReveal2, TryStartVdf;
    Stay(x, n);
    if n.d.mySecret.Some? {
      var s := n.d.mySecret.value;
      ThenSpeak(x, n, n, s);
      ThenVdf(x, n, SignAndPublish(x.env, n, Reveal2, s).(d := DcrSpec.StartReveal2(n.d)));
      PublishReveal2Cases(x.env, n);
    } else {
      NothingToPublish(x.env, n);
    }
  }

  lemma NothingToPublish(env: Env, n: NodeState)
    requires n.d.mySecret.None?
    ensures PublishReveal2(env, n) == n
  {
    hide ComputeBothInputs;
  }

  lemma PublishReveal2Cases(env: Env, n: NodeState)
    requires n.d.mySecret.Some?
    ensures var n1 := SignAndPublish(env, n, Reveal2, n.d.mySecret.value).(d := DcrSpec.StartReveal2(n.d));
            var n' := PublishReveal2(env, n);
            n' == n || n' == n1 || n' == TryStartVdf(n1)
  {
    hide ComputeBothInputs, IsLastReveal2, TryStartVdf;
    VdfAndPublishCommute(env, n.(d := DcrSpec.StartReveal2(n.d)), n.d.mySecret.value);
  }

  lemma VdfAndPublishCommute(env: Env, n: NodeState, value: Bytes)
    ensures SignAndPublish(env, TryStartVdf(n), Reveal2, value) == TryStartVdf(SignAndPublish(env, n, Reveal2, value))
  {
    hide VdfGate, FinalInputWithFallback;
    assert AbortedIn(SignAndPublish(env, n, Reveal2, value), Reveal2) == AbortedIn(n, Reveal2);
  }

  lemma ContinueAfterPath(x: Ctx, n: NodeState, from: PeerID)
    requires Passed(n, from) && n.d.self == n.self
    ensures Path(x, n, ContinueAfter(x.env, n, from))
  {
    var n1 := if TurnAfter(n.d, from) then PublishReveal2(x.env, Claim(n)) else n;
    Stay(x, n);
    if TurnAfter(n.d, from) {
      ThenClaimAfter(x, n, n, from);
      PublishReveal2Path(x, Claim(n));
      PathGrows(x, Claim(n), n1);
      Join(x, n, Claim(n), n1);
    }
    var n2 := ArmNext(n1, from);
    ThenArm(x, n, n1, from);
    ThenVdf(x, n, n2);
  }

  lemma ProcessReveal2Path(x: Ctx, n: NodeState, from: PeerID, value: Bytes, doc: Doc)
    requires InHand(x, Reveal2, from, doc) && DocValue(Reveal2, doc) == value && n.d.self == n.self
    ensures Path(x, n, ProcessReveal2(x.env, n, from, value, doc))
  {
    Stay(x, n);
    if Conflicts(n.d.reveal2s, from, value) {
      ThenSend(x, n, n, EquivocationAbort(Reveal2, from, SignedOr(n, Reveal2, from), doc));
    } else if AcceptsReveal2(x.env.c.H, n.d, from, value) {
      var n1 := StoreSigned(n.(d := StoreReveal2(n.d, from, DocValue(Reveal2, doc))), Reveal2, from, doc);
      ThenAcceptReveal2(x, n, n, from, doc);
      ContinueAfterPath(x, n1, from);
      Join(x, n, n1, ContinueAfter(x.env, n1, from));
    }
  }

  lemma TryFlushReveal2Path(x: Ctx, n: NodeState, from: PeerID)
    requires HoldsPending(x, n) && n.d.self == n.self
    ensures Path(x, n, TryFlushReveal2(x.env, n, from))
  {
    Stay(x, n);
    if from in n.pending2 {
      var n1 := n.(pending2 := n.pending2 - {from});
      ThenRelease2(x, n, n, from);
      ProcessReveal2Path(x, n1, from, DocValue(Reveal2, n.pending2[from]), n.pending2[from]);
      Join(x, n, n1, TryFlushReveal2(x.env, n, from));
    }
  }

  lemma OrderAndTriggerPath(x: Ctx, n: NodeState)
    requires n.d.self == n.self
    ensures Path(x, n, OrderAndTrigger(x.env, n))
  {
    var n1 := LogRevealOrder(x.env, n);
    Stay(x, n);
    ThenOrder(x, n, n);
    if FirstTurn(n1.d) {
      ThenClaimFirst(x, n, n1);
      PublishReveal2Path(x, Claim(n1));
      Join(x, n, Claim(n1), OrderAndTrigger(x.env, n));
    } else {
      ThenArm(x, n, n1, NO_PEER);
    }
  }

  lemma RevealOwn1Path(x: Ctx, n: NodeState)
    requires n.d.self == n.self
    ensures Path(x, n, RevealOwn1(x.env, n))
  {
    Stay(x, n);
    if n.d.myReveal1.Some? {
      var r := n.d.myReveal1.value;
      var n0 := n.(d := DcrSpec.StartReveal1(n.d));
      var n1 := SignAndPublish(x.env, n0, Reveal1, r);
      ThenOwnReveal1(x, n, n);
      ThenPublish(x, n, n0, Reveal1, r);
      if AllReady(n1.d) && |n1.d.commit2s| > 0 {
        OrderAndTriggerPath(x, n1);
        Join(x, n, n1, OrderAndTrigger(x.env, n1));
      }
    }
  }

  lemma AcceptedReveal1Path(x: Ctx, n: NodeState, from: PeerID)
    requires HoldsPending(x, n) && n.d.self == n.self
    ensures Path(x, n, AcceptedReveal1(x.env, n, from))
  {
    var n1 := TryFlushReveal2(x.env, n, from);
    TryFlushReveal2Path(x, n, from);
    PathGrows(x, n, n1);
    OrderAndTriggerPath(x, n1);
    Join(x, n, n1, OrderAndTrigger(x.env, n1));
  }

  lemma TryStrategicReveal1Path(x: Ctx, n: NodeState)
    requires n.d.self == n.self
    ensures Path(x, n, TryStrategicReveal1(x.env, n))
  {
    Stay(x, n);
    RevealOwn1Path(x, n);
  }

  lemma ProcessReveal1Path(x: Ctx, n: NodeState, from: PeerID, value: Bytes, doc: Doc)
    requires InHand(x, Reveal1, from, doc) && DocValue(Reveal1, doc) == value
    requires HoldsPending(x, n) && n.d.self == n.self
    ensures Path(x, n, ProcessReveal1(x.env, n, from, value, doc))
  {
    Stay(x, n);
    if Conflicts(n.d.reveal1s, from, value) {
      ThenSend(x, n, n, EquivocationAbort(Reveal1, from, SignedOr(n, Reveal1, from), doc));
    } else if AcceptsReveal1(x.env.c.H, n.d, from, value) {
      var n1 := StoreSigned(n.(d := StoreReveal1(n.d, from, DocValue(Reveal1, doc))), Reveal1, from, doc);
      ThenAcceptReveal1(x, n, n, from, doc);
      var n2 := AcceptedReveal1(x.env, n1, from);
      AcceptedReveal1Path(x, n1, from);
      PathGrows(x, n1, n2);
      Join(x, n, n1, n2);
      TryStrategicReveal1Path(x, n2);
      Join(x, n, n2, TryStrategicReveal1(x.env, n2));
    }
  }

  lemma TryFlushReveal1Path(x: Ctx, n: NodeState, from: PeerID)
    requires HoldsPending(x, n) && n.d.self == n.self
    ensures Path(x, n, TryFlushReveal1(x.env, n, from))
  {
    Stay(x, n);
    if from in n.pending1 {
      var n1 := n.(pending1 := n.pending1 - {from});
      ThenRelease1(x, n, n, from);
      ProcessReveal1Path(x, n1, from, DocValue(Reveal1, n.pending1[from]), n.pending1[from]);
      Join(x, n, n1, TryFlushReveal1(x.env, n, from));
    }
  }

  lemma TryStartReveal1Path(x: Ctx, n: NodeState)
    requires n.d.self == n.self
    ensures Path(x, n, TryStartReveal1(x.env, n))
  {
    Stay(x, n);
    if CommitGate(n) {
      var n1 := n.(reveal1Triggered := true);
      ThenTriggerReveal1(x, n, n);
      RevealOwn1Path(x, n1);
      Join(x, n, n1, RevealOwn1(x.env, n1));
    }
  }

  // --- messages ---

  lemma OnCommit2Path(x: Ctx, n: NodeState, from: PeerID, value: Bytes, doc: Doc)
    requires InHand(x, Commit2, from, doc) && DocValue(Commit2, doc) == value
    requires HoldsPending(x, n) && n.d.self == n.self
    ensures Path(x, n, OnCommit2(x.env, n, from, value, doc))
  {
    Stay(x, n);
    if Conflicts(n.d.commit2s, from, value) {
      ThenSend(x, n, n, EquivocationAbort(Commit2, from, SignedOr(n, Commit2, from), doc));
    } else if AcceptsCommit2(n.d, from) {
      var n1 := StoreSigned(n.(d := StoreCommit2(n.d, from, DocValue(Commit2, doc))), Commit2, from, doc);
      ThenAcceptCommit2(x, n, n, from, doc);
      var n2 := TryFlushReveal1(x.env, n1, from);
      TryFlushReveal1Path(x, n1, from);
      PathGrows(x, n1, n2);
      Join(x, n, n1, n2);
      TryStartReveal1Path(x, n2);
      Join(x, n, n2, TryStartReveal1(x.env, n2));
    }
  }

  function GossipEvidence(c: Crypto, from: PeerID, phase: Phase, author: Option<PeerID>, value: Bytes,
                          sig: Bytes): set<Evidence>
  {
    if SignedPhase(phase) && VerifySignedMsg(c, phase, from, author, value, sig) then {Evidence(phase, from, value)} else {}
  }

  lemma OnGossipPath(x: Ctx, n: NodeState, from: PeerID, phase: Phase, author: Option<PeerID>, value: Bytes, sig: Bytes)
    requires GossipEvidence(x.env.c, from, phase, author, value, sig) <= x.hand
    requires HoldsPending(x, n) && n.d.self == n.self
    ensures Path(x, n, OnGossip(x.env, n, from, phase, author, value, sig))
  {
    hide OnCommit2, ProcessReveal1, ProcessReveal2, Path, HoldsPending;
    Stay(x, n);
    if from != n.self && SignedPhase(phase) && VerifySignedMsg(x.env.c, phase, from, author, value, sig) {
      var doc := DocFor(phase, author, value, sig);
      assert Evidence(phase, from, value) in x.hand;
      assert InHand(x, phase, from, doc) && DocValue(phase, doc) == value;
      match phase
      case Commit2 => OnCommit2Path(x, n, from, value, doc);
      case Reveal1 =>
        if from in n.d.commit2s {
          ProcessReveal1Path(x, n, from, value, doc);
        } else if from !in n.pending1 {
          ThenHold1(x, n, n, from, doc);
        }
      case Reveal2 =>
        if from in n.d.reveal1s {
          ProcessReveal2Path(x, n, from, value, doc);
        } else if from !in n.pending2 {
          ThenHold2(x, n, n, from, doc);
        }
    }
  }

  lemma TryComputePath(x: Ctx, n: NodeState)
    requires n.d.self == n.self
    ensures Path(x, n, TryComputeRevealOrderAndProceed(x.env, n))
  {
    Stay(x, n);
    OrderAndTriggerPath(x, n);
  }

  lemma AbortPeerPath(x: Ctx, n: NodeState, target: PeerID, phase: Phase)
    requires n.d.self == n.self
    requires target !in n.aborted ==> Guard(x, n, Abort(target, phase))
    ensures Path(x, n, AbortPeer(x.env, n, target, phase))
  {
    Stay(x, n);
    if target !in n.aborted {
      var n1 := n.(aborted := n.aborted[target := phase]);
      ThenAbort(x, n, n, target, phase);
      match phase {
        case Commit2 => TryStartReveal1Path(x, n1);
        case Reveal1 => TryComputePath(x, n1);
        case Reveal2 => ContinueAfterPath(x, n1, target);
        case _ => Stay(x, n1);
      }
      Join(x, n, n1, AbortPeer(x.env, n, target, phase));
    }
  }

  lemma PublishSessionLockPath(x: Ctx, n: NodeState)
    ensures Path(x, n, TryPublishSessionLock(x.env, n))
  {
    Stay(x, n);
    if !n.sessionActive {
      var ps := Without(x.env.it(n.readyPeers), n.aborted.Keys);
      ThenSetProposer(x, n, n, NO_PEER);
      ThenSend(x, n, n, SessionLock(Some(ps)));
    }
  }

  lemma ReadyAckVotePath(x: Ctx, n: NodeState, from: PeerID, target: PeerID)
    requires x.event == Receive(from, TimeoutVote(ReadyAck, target))
    ensures Path(x, n, HandleReadyAckVote(x.env, n, from, target))
  {
    var key := Key(ReadyAck, target);
    var m := TimeoutDispute(ReadyAck, target, Malformed);
    var n1 := if target in n.readyPeers then Emit(n, m) else n;
    var n2 := NodeSpec.CountVote(n1, from, key);
    Stay(x, n);
    ThenSend(x, n, n, m);
    ThenAddVote(x, n, n1, from, key);
    if target !in n2.aborted {
      var n3 := n2.(aborted := n2.aborted[target := ReadyAck]);
      ThenAbort(x, n, n2, target, ReadyAck);
      PublishSessionLockPath(x, n3);
      Join(x, n, n3, TryPublishSessionLock(x.env, n3));
    }
  }

  /** A vote is answered with the signed message, if there is one, and counted. */
  function VoteCounted(n: NodeState, from: PeerID, key: Key): NodeState {
    NodeSpec.CountVote(if key in n.signed then Emit(n, TimeoutDispute(key.phase, key.peer, n.signed[key])) else n, from, key)
  }

  lemma VoteCountedPath(x: Ctx, n: NodeState, from: PeerID, key: Key)
    requires x.event == Receive(from, TimeoutVote(key.phase, key.peer))
    ensures Path(x, n, VoteCounted(n, from, key))
  {
    Stay(x, n);
    if key in n.signed {
      var m := TimeoutDispute(key.phase, key.peer, n.signed[key]);
      ThenSend(x, n, n, m);
      ThenAddVote(x, n, Emit(n, m), from, key);
    } else {
      ThenAddVote(x, n, n, from, key);
    }
  }

  lemma TimeoutVotePath(x: Ctx, n: NodeState, from: PeerID, phase: Phase, target: PeerID)
    requires x.event == Receive(from, TimeoutVote(phase, target)) && n.d.self == n.self
    ensures Path(x, n, HandleTimeoutVote(x.env, n, from, phase, target))
  {
    if phase == ReadyAck {
      ReadyAckVotePath(x, n, from, target);
    } else {
      var key := Key(phase, target);
      var n2 := VoteCounted(n, from, key);
      VoteCountedPath(x, n, from, key);
      PathGrows(x, n, n2);
      if |VotersFor(n2, key)| >= Majority(n2) {
        AbortPeerPath(x, n2, target, phase);
        Join(x, n, n2, AbortPeer(x.env, n2, target, phase));
      }
    }
  }

  lemma AcceptDisputedPath(x: Ctx, n: NodeState, phase: Phase, target: PeerID, doc: Doc)
    requires SignedPhase(phase) && (DocVerifies(x.env.c, phase, target, doc) ==> InHand(x, phase, target, doc))
    requires HoldsPending(x, n) && n.d.self == n.self
    ensures Path(x, n, AcceptDisputed(x.env, n, phase, target, doc))
  {
    Stay(x, n);
    if DocVerifies(x.env.c, phase, target, doc) {
      var value := DocValue(phase, doc);
      match phase
      case Commit2 =>
        if Conflicts(n.d.commit2s, target, value) {
          ThenSend(x, n, n, EquivocationAbort(Commit2, target, SignedOr(n, Commit2, target), doc));
        } else if AcceptsCommit2(n.d, target) {
          var n1 := StoreSigned(n.(d := StoreCommit2(n.d, target, DocValue(Commit2, doc))), Commit2, target, doc);
          ThenAcceptCommit2(x, n, n, target, doc);
          TryStartReveal1Path(x, n1);
          Join(x, n, n1, TryStartReveal1(x.env, n1));
        }
      case Reveal1 =>
        if Conflicts(n.d.reveal1s, target, value) {
          ThenSend(x, n, n, EquivocationAbort(Reveal1, target, SignedOr(n, Reveal1, target), doc));
        } else if AcceptsReveal1(x.env.c.H, n.d, target, value) {
          var n1 := StoreSigned(n.(d := StoreReveal1(n.d, target, DocValue(Reveal1, doc))), Reveal1, target, doc);
          ThenAcceptReveal1(x, n, n, target, doc);
          AcceptedReveal1Path(x, n1, target);
          Join(x, n, n1, AcceptedReveal1(x.env, n1, target));
        }
      case Reveal2 => ProcessReveal2Path(x, n, target, value, doc);
    }
  }

  lemma DisputeUpheldPath(x: Ctx, n: NodeState, m: NodeState, phase: Phase, target: PeerID, doc: Doc)
    requires Path(x, n, m) && SignedPhase(phase)
    requires DocVerifies(x.env.c, phase, target, doc) ==> InHand(x, phase, target, doc)
    requires HoldsPending(x, m) && m.d.self == m.self
    ensures Path(x, n, AcceptDisputed(x.env, m, phase, target, doc))
  {
    AcceptDisputedPath(x, m, phase, target, doc);
    Join(x, n, m, AcceptDisputed(x.env, m, phase, target, doc));
  }

  lemma ReadyUpheldPath(x: Ctx, n: NodeState, m: NodeState, target: PeerID)
    requires Path(x, n, m)
    ensures Path(x, n, TryPublishSessionLock(x.env, m.(readyPeers := m.readyPeers + {target})))
  {
    var m1 := m.(readyPeers := m.readyPeers + {target});
    ThenMarkReady(x, n, m, target);
    PublishSessionLockPath(x, m1);
    Join(x, n, m1, TryPublishSessionLock(x.env, m1));
  }

  /** The dispute is counted; at a majority the votes are cleared. */
  lemma DisputeCountedPath(x: Ctx, n: NodeState, from: PeerID, phase: Phase, target: PeerID, doc: Doc)
    requires x.event == Receive(from, TimeoutDispute(phase, target, doc))
    ensures var n1 := NodeSpec.CountDispute(n, from, Key(phase, target));
            && Path(x, n, n1)
            && (phase == ReadyAck || |DisputersFor(n1, Key(phase, target))| >= Majority(n1) ==>
                  Path(x, n, n1.(votes := n1.votes - {Key(phase, target)})))
  {
    hide Path, CountDispute;
    var key := Key(phase, target);
    var n1 := NodeSpec.CountDispute(n, from, key);
    assert Enabled(x, n, AddDispute(from, key));
    Stay(x, n);
    ThenAddDispute(x, n, n, from, key);
    if phase == ReadyAck || |DisputersFor(n1, key)| >= Majority(n1) {
      ThenClearVotes(x, n, n1, key);
    }
  }

  lemma DisputeOutcome(env: Env, n: NodeState, from: PeerID, phase: Phase, target: PeerID, doc: Doc)
    ensures var n1 := NodeSpec.CountDispute(n, from, Key(phase, target));
            var n2 := n1.(votes := n1.votes - {Key(phase, target)});
            var n' := HandleTimeoutDispute(env, n, from, phase, target, doc);
            || n' == n1
            || (phase == ReadyAck && n' == TryPublishSessionLock(env, n2.(readyPeers := n2.readyPeers + {target})))
            || (phase != ReadyAck && |DisputersFor(n1, Key(phase, target))| >= Majority(n1)
                && n' == if SignedPhase(phase) then AcceptDisputed(env, n2, phase, target, doc) else n2)
  {
    hide AcceptDisputed, TryPublishSessionLock, CountDispute, DisputersFor;
  }

  lemma TimeoutDisputePath(x: Ctx, n: NodeState, from: PeerID, phase: Phase, target: PeerID, doc: Doc)
    requires x.event == Receive(from, TimeoutDispute(phase, target, doc))
    requires DocVerifies(x.env.c, phase, target, doc) ==> InHand(x, phase, target, doc)
    requires HoldsPending(x, n) && n.d.self == n.self
    ensures Path(x, n, HandleTimeoutDispute(x.env, n, from, phase, target, doc))
  {
    hide HandleTimeoutDispute, AcceptDisputed, TryPublishSessionLock, Path, DocVerifies, DisputersFor;
    var key := Key(phase, target);
    var n1 := NodeSpec.CountDispute(n, from, key);
    var n2 := n1.(votes := n1.votes - {key});
    DisputeCountedPath(x, n, from, phase, target, doc);
    DisputeOutcome(x.env, n, from, phase, target, doc);
    if phase == ReadyAck {
      ReadyUpheldPath(x, n, n2, target);
    } else if |DisputersFor(n1, key)| >= Majority(n1) && SignedPhase(phase) {
      DisputeUpheldPath(x, n, n2, phase, target, doc);
    }
  }

  lemma EquivocationPath(x: Ctx, n: NodeState, phase: Phase, target: PeerID, first: Doc, second: Doc)
    requires DocVerifies(x.env.c, phase, target, first) ==> InHand(x, phase, target, first)
    requires DocVerifies(x.env.c, phase, target, second) ==> InHand(x, phase, target, second)
    requires n.d.self == n.self
    ensures Path(x, n, HandleEquivocationAbort(x.env, n, phase, target, first, second))
  {
    Stay(x, n);
    if target !in n.aborted && ProvesEquivocation(x.env.c, phase, target, first, second) {
      assert SignedPhase(phase);
      assert Evidence(phase, target, DocValue(phase, first)) in x.hand;
      assert Evidence(phase, target, DocValue(phase, second)) in x.hand;
      assert TwoValues(x.hand, phase, target);
      AbortPeerPath(x, n, target, phase);
    }
  }

  // --- session and timeouts ---

  lemma SessionLockPath(x: Ctx, n: NodeState, payload: Option<seq<PeerID>>)
    requires n.d.self == n.self && (!n.sessionActive ==> n.d.mySecret.None?)
    ensures Path(x, n, HandleSessionLock(x.env, n, payload))
  {
    Stay(x, n);
    if payload.Some? && !n.sessionActive {
      var n1 := LockSession(x.env, n, payload.value);
      ThenLock(x, n, n, payload.value);
      if !n.config.behavior.skipCommit {
        var n2 := n1.(d := DcrSpec.StartCommit2(x.env.c.H, n1.d, x.env.secret));
        var n3 := CommitOwn(x.env, n1);
        ThenOwnCommit2(x, n, n1);
        ThenPublish(x, n, n2, Commit2, n2.d.myCommit2.value);
        TryStartReveal1Path(x, n3);
        Join(x, n, n3, TryStartReveal1(x.env, n3));
      }
    }
  }

  lemma VotesAgainstLast(out: seq<Msg>, phase: Phase, ps: seq<PeerID>, spared: set<PeerID>)
    requires ps != []
    ensures var front := VotesAgainst(phase, ps[..|ps| - 1], spared);
            out + VotesAgainst(phase, ps, spared)
            == if ps[|ps| - 1] in spared then out + front else (out + front) + [TimeoutVote(phase, ps[|ps| - 1])]
  {
  }

  lemma {:induction false} VotesPath(x: Ctx, n: NodeState, phase: Phase, ps: seq<PeerID>, spared: set<PeerID>)
    requires forall p | p in ps && p !in spared :: VoteDue(x, n, phase, p)
    ensures Path(x, n, n.(out := n.out + VotesAgainst(phase, ps, spared)))
    decreases |ps|
  {
    if ps == [] {
      Stay(x, n);
      assert n.out + [] == n.out;
    } else {
      var front, p := ps[..|ps| - 1], ps[|ps| - 1];
      VotesPath(x, n, phase, front, spared);
      VotesAgainstLast(n.out, phase, ps, spared);
      if p !in spared {
        assert VoteDue(x, n, phase, p);
        ThenVote(x, n, n.(out := n.out + VotesAgainst(phase, front, spared)), phase, p);
      }
    }
  }

  lemma VoteAbsentPath(x: Ctx, n: NodeState, phase: Phase, responded: set<PeerID>)
    requires forall p | p !in responded || n.config.behavior.falseTimeoutVote :: VoteDue(x, n, phase, p)
    ensures Path(x, n, VoteAbsent(n, phase, responded))
  {
    var ps := n.participants;
    var n1 := n.(out := n.out + VotesAgainst(phase, ps, responded + n.aborted.Keys));
    VotesPath(x, n, phase, ps, responded + n.aborted.Keys);
    if n.config.behavior.falseTimeoutVote {
      VotesPath(x, n1, phase, ps, (SetOf(ps) - responded) + n.aborted.Keys + {n.self});
      Join(x, n, n1, VoteAbsent(n, phase, responded));
    } else {
      assert n1.out + [] == n1.out;
    }
  }

  lemma ReadyAckTimeoutPath(x: Ctx, n: NodeState)
    ensures Path(x, n, OnReadyAckTimeout(x.env, n))
  {
    Stay(x, n);
    PublishSessionLockPath(x, n);
    VotesPath(x, n, ReadyAck, x.env.peers, n.readyPeers);
  }

  lemma ProposeStartPath(x: Ctx, n: NodeState, from: PeerID)
    ensures Path(x, n, HandleProposeStart(n, from))
    ensures Path(x, n, LocalPropose(n))
  {
    Stay(x, n);
    ThenSend(x, n, n, ReadyAckMsg);
    ThenSetProposer(x, n, n, from);
    ThenSend(x, n, n.(sessionProposer := from), ReadyAckMsg);
    ThenSetProposer(x, n, n, n.self);
    ThenSend(x, n, n.(sessionProposer := n.self), ProposeStart);
  }

  lemma ReadyAckPath(x: Ctx, n: NodeState, from: PeerID)
    ensures Path(x, n, HandleReadyAck(x.env, n, from))
  {
    Stay(x, n);
    var n1 := n.(readyPeers := n.readyPeers + {from});
    ThenMarkReady(x, n, n, from);
    PublishSessionLockPath(x, n1);
    Join(x, n, n1, TryPublishSessionLock(x.env, n1));
  }

  // --- dispatch ---

  function DocEvidence(c: Crypto, phase: Phase, p: PeerID, doc: Doc): set<Evidence> {
    if DocVerifies(c, phase, p, doc) then {Evidence(phase, p, DocValue(phase, doc))} else {}
  }

  /** The signed values an event carries. */
  function EventEvidence(c: Crypto, e: Event): set<Evidence> {
    match e
    case Receive(from, Gossip(phase, author, value, sig)) => GossipEvidence(c, from, phase, author, value, sig)
    case Receive(_, TimeoutDispute(phase, target, doc)) => DocEvidence(c, phase, target, doc)
    case Receive(_, EquivocationAbort(phase, target, first, second)) =>
      DocEvidence(c, phase, target, first) + DocEvidence(c, phase, target, second)
    case _ => {}
  }

  function PendingEvidence(n: NodeState): set<Evidence> {
    (set p | p in n.pending1 :: Evidence(Reveal1, p, DocValue(Reveal1, n.pending1[p])))
    + (set p | p in n.pending2 :: Evidence(Reveal2, p, DocValue(Reveal2, n.pending2[p])))
  }

  function CtxOf(env: Env, n: NodeState, e: Event): Ctx {
    Ctx(env, e, EventEvidence(env.c, e) + PendingEvidence(n))
  }

  /** What every reachable node state satisfies (NodeRuns). */
  ghost predicate WellFormed(c: Crypto, n: NodeState) {
    && n.d.self == n.self
    && (!n.sessionActive ==> n.d.mySecret.None?)
    && (forall p | p in n.pending1 :: DocVerifies(c, Reveal1, p, n.pending1[p]))
    && (forall p | p in n.pending2 :: DocVerifies(c, Reveal2, p, n.pending2[p]))
  }

  lemma PendingInHand(env: Env, n: NodeState, e: Event)
    requires WellFormed(env.c, n)
    ensures HoldsPending(CtxOf(env, n, e), n)
  {
    var x := CtxOf(env, n, e);
    forall p | p in n.pending1 ensures InHand(x, Reveal1, p, n.pending1[p]) {
      assert Evidence(Reveal1, p, DocValue(Reveal1, n.pending1[p])) in PendingEvidence(n);
    }
    forall p | p in n.pending2 ensures InHand(x, Reveal2, p, n.pending2[p]) {
      assert Evidence(Reveal2, p, DocValue(Reveal2, n.pending2[p])) in PendingEvidence(n);
    }
  }

  /** Every handler is a path of permitted actions. */
  lemma HandlePath(env: Env, n: NodeState, e: Event)
    requires WellFormed(env.c, n)
    ensures Path(CtxOf(env, n, e), n, Handle(env, n, e))
  {
    var x := CtxOf(env, n, e);
    PendingInHand(env, n, e);
    Stay(x, n);
    match e
    case Receive(from, m) =>
      match m {
       case Gossip(phase, author, value, sig) => OnGossipPath(x, n, from, phase, author, value, sig);
       case ProposeStart => ProposeStartPath(x, n, from);
       case ReadyAckMsg => ReadyAckPath(x, n, from);
       case SessionLock(payload) => SessionLockPath(x, n, payload);
       case TimeoutVote(phase, target) => TimeoutVotePath(x, n, from, phase, target);
       case TimeoutDispute(phase, target, doc) => TimeoutDisputePath(x, n, from, phase, target, doc);
       case EquivocationAbort(phase, target, first, second) => EquivocationPath(x, n, phase, target, first, second);
      }
    case Propose => ProposeStartPath(x, n, n.self);
    case CommitTimeout => if n.sessionActive { VoteAbsentPath(x, n, Commit2, n.d.commit2s.Keys); }
    case Reveal1Timeout => if n.sessionActive { VoteAbsentPath(x, n, Reveal1, n.d.reveal1s.Keys); }
    case Reveal2Timeout(target) =>
      if target != NO_PEER && n.reveal2Target == target {
        ThenVote(x, n, n, Reveal2, target);
      }
    case ReadyAckTimeout => ReadyAckTimeoutPath(x, n);
  }
}
