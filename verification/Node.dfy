/** node/node.go, protocol.go, timeout.go and session.go: the mutable node. Each handler is one
    atomic step and is proved to do to the node's fields what NodeSpec says. */
module NodeClass {
  import opened Encoding
  import opened FiniteSets
  import opened DcrSpec
  import opened Dcr
  import opened VdfInput
  import opened Signing
  import opened NodeSpec

  class Node {
    const self: PeerID
    const config: Config
    const dcr: DoubleCommitReveal

    var vdf: Option<VdfRun>
    var sessionActive: bool
    var sessionSize: nat
    var sessionProposer: PeerID
    var sessionParticipants: seq<PeerID>
    var readyPeers: set<PeerID>
    var reveal1Triggered: bool
    var reveal2TimerTarget: PeerID
    var timeoutVotes: map<Key, set<PeerID>>
    var disputeVoters: map<Key, set<PeerID>>
    var abortedPeers: map<PeerID, Phase>
    var signedMsgs: map<Key, Doc>
    var pendingReveal1: map<PeerID, Doc>
    var pendingReveal2: map<PeerID, Doc>
    var loggedOrders: seq<seq<PeerID>>
    var published: seq<Msg>

    ghost function View(): NodeState
      reads this, dcr
    {
      NodeState(self, config, dcr.State(), vdf, sessionActive, sessionSize, sessionProposer, sessionParticipants,
                readyPeers, reveal1Triggered, reveal2TimerTarget, timeoutVotes, disputeVoters, abortedPeers,
                signedMsgs, pendingReveal1, pendingReveal2, loggedOrders, published)
    }

    ghost predicate Wired(env: Env) {
      dcr.H == env.c.H && dcr.self == self && ValidIter(env.it)
    }

    constructor (H: Hash, self: PeerID, config: Config)
      ensures this.self == self && this.config == config && dcr.H == H && dcr.self == self && fresh(dcr)
      ensures View() == InitNode(self, config)
    {
      this.self, this.config := self, config;
      dcr := new DoubleCommitReveal(H, self);
      vdf, sessionActive, sessionSize, sessionProposer, sessionParticipants := None, false, 0, NO_PEER, [];
      readyPeers, reveal1Triggered, reveal2TimerTarget := {}, false, NO_PEER;
      timeoutVotes, disputeVoters, abortedPeers, signedMsgs := map[], map[], map[], map[];
      pendingReveal1, pendingReveal2, loggedOrders, published := map[], map[], [], [];
    }

    // --- sizes and sets ---

    function Majority(): (m: nat)
      reads this
    {
      sessionSize / 2 + 1
    }

    /** `for _, phase := range abortedPeers`. */
    method EffectiveSize() returns (size: int)
      ensures size == NodeSpec.EffectiveSize(View())
    {
      var rest, postSession := abortedPeers.Keys, 0;
      while rest != {}
        invariant rest <= abortedPeers.Keys
        invariant postSession == |LateAborts(View()) - rest|
        decreases |rest|
      {
        var p :| p in rest;
        ghost var seen := LateAborts(View()) - rest;
        rest := rest - {p};
        if abortedPeers[p] != ReadyAck {
          postSession := postSession + 1;
          assert LateAborts(View()) - rest == seen + {p};
        } else {
          assert LateAborts(View()) - rest == seen;
        }
      }
      assert LateAborts(View()) - rest == LateAborts(View());
      size := sessionSize - postSession;
    }

    method AbortedInPhase(phase: Phase) returns (aborted: set<PeerID>)
      ensures aborted == AbortedIn(View(), phase)
    {
      var rest := abortedPeers.Keys;
      aborted := {};
      while rest != {}
        invariant rest <= abortedPeers.Keys
        invariant aborted == AbortedIn(View(), phase) - rest
        decreases |rest|
      {
        var p :| p in rest;
        rest := rest - {p};
        if abortedPeers[p] == phase {
          aborted := aborted + {p};
        }
      }
    }

    // --- publishing ---

    method Broadcast(m: Msg)
      modifies this`published
      ensures published == old(published) + [m]
    {
      published := published + [m];
    }

    method SignAndPublish(env: Env, phase: Phase, value: Bytes)
      modifies this`signedMsgs, this`published
      ensures View() == NodeSpec.SignAndPublish(env, old(View()), phase, value)
    {
      var sig := env.c.sign(self, SigningBytes(phase, self, value));
      signedMsgs := signedMsgs[Key(phase, self) := DocFor(phase, Some(self), value, sig)];
      Broadcast(Gossip(phase, Some(self), value, sig));
    }

    method BroadcastEquivocation(phase: Phase, p: PeerID, second: Doc)
      modifies this`published
      ensures View() == NodeSpec.BroadcastEquivocation(old(View()), phase, p, second)
    {
      var first := if Key(phase, p) in signedMsgs then signedMsgs[Key(phase, p)] else Malformed;
      Broadcast(EquivocationAbort(phase, p, first, second));
    }

    // --- reveal2 and the VDF ---

    method TryStartVdf()
      modifies this`vdf
      ensures View() == NodeSpec.TryStartVdf(old(View()))
    {
      if vdf.Some? || |dcr.revealOrder| == 0 {
        return;
      }
      var abortedR2 := AbortedInPhase(Reveal2);
      var got := dcr.Reveal2CountExcluding(abortedR2);
      if got < |dcr.revealOrder| - |abortedR2| {
        return;
      }
      var input := dcr.FinalInputWithFallback(abortedR2);
      vdf := Some(VdfRun(dcr.revealOrder, abortedR2, input));
    }

    method IsLastReveal2() returns (last: bool)
      requires dcr.self == self
      ensures last == VdfInput.IsLastReveal2(dcr.State(), AbortedIn(View(), Reveal2))
    {
      var order := dcr.revealOrder;
      if |order| == 0 {
        return false;
      }
      var abortedR2 := AbortedInPhase(Reveal2);
      var lastIdx := -1;
      for i := 0 to |order|
        invariant lastIdx == LastLive(order[..i], abortedR2) < i
      {
        assert order[..i + 1][..i] == order[..i];
        if order[i] !in abortedR2 {
          lastIdx := i;
        }
      }
      assert order[..|order|] == order;
      return lastIdx >= 0 && order[lastIdx] == self;
    }

    method PublishReveal2(env: Env)
      requires Wired(env)
      modifies this, dcr
      ensures View() == NodeSpec.PublishReveal2(env, old(View()))
    {
      hide NodeSpec.TryStartVdf, NodeSpec.SignAndPublish, ComputeBothInputs, AbortedIn, VdfInput.IsLastReveal2;
      if config.behavior.skipReveal2 {
        return;
      }
      if config.behavior.strategicReveal2 {
        var abortedR2 := AbortedInPhase(Reveal2);
        var both := dcr.ComputeBothVDFInputs(abortedR2);
        if both.Some? && BigEndian(both.value.ifAbort) < BigEndian(both.value.ifReveal) {
          return;
        }
      }
      var isLast := IsLastReveal2();
      var lastRevealerVDF := config.behavior.lastRevealerVdf && isLast;
      var s := dcr.StartReveal2();
      if s.None? {
        return;
      }
      if lastRevealerVDF {
        TryStartVdf();
      }
      SignAndPublish(env, Reveal2, s.value);
    }

    method NextPendingReveal2Peer(after: PeerID) returns (next: PeerID)
      ensures next == NextPendingPeer(View(), after)
    {
      var order, startFromNext := dcr.revealOrder, after == NO_PEER;
      ghost var skip := abortedPeers.Keys + dcr.reveal2s.Keys;
      assert order[0..] == order;
      for i := 0 to |order|
        invariant NextPendingPeer(View(), after) == NextPending(order[i..], startFromNext, after, skip)
      {
        assert order[i..][1..] == order[i + 1..];
        var p := order[i];
        if !startFromNext {
          if p == after {
            startFromNext := true;
          }
        } else if p !in abortedPeers && p !in dcr.reveal2s {
          return p;
        }
      }
      return NO_PEER;
    }

    method StartReveal2TimerFor(target: PeerID)
      modifies this`reveal2TimerTarget
      ensures reveal2TimerTarget == if config.reveal2Timeouts && target != NO_PEER then target else old(reveal2TimerTarget)
    {
      if !config.reveal2Timeouts || target == NO_PEER {
        return;
      }
      reveal2TimerTarget := target;
    }

    method ArmNext(after: PeerID)
      modifies this`reveal2TimerTarget
      ensures View() == NodeSpec.ArmNext(old(View()), after)
    {
      hide NextPendingPeer;
      var next := NextPendingReveal2Peer(after);
      StartReveal2TimerFor(next);
    }

    method TriggerReveal2IfFirst(env: Env)
      requires Wired(env)
      modifies this, dcr
      ensures View() == NodeSpec.TriggerReveal2IfFirst(env, old(View()))
    {
      hide NodeSpec.PublishReveal2, NodeSpec.ArmNext;
      var first := dcr.IsFirstReveal2();
      if !first {
        ArmNext(NO_PEER);
        return;
      }
      PublishReveal2(env);
    }

    method LogRevealOrder(env: Env)
      requires Wired(env)
      modifies this, dcr
      ensures View() == NodeSpec.LogRevealOrder(env, old(View()))
    {
      hide ComputeOrderExcluding;
      var order := dcr.ComputeRevealOrderExcluding(env.it, abortedPeers.Keys);
      loggedOrders := loggedOrders + [order];
    }

    /** The common tail of an accepted reveal2 and of an abort in reveal2. */
    method ContinueAfter(env: Env, from: PeerID)
      requires Wired(env)
      modifies this, dcr
      ensures View() == NodeSpec.ContinueAfter(env, old(View()), from)
    {
      hide NodeSpec.PublishReveal2, NodeSpec.ArmNext, NodeSpec.TryStartVdf, TurnAfter;
      var mine := dcr.MyTurnAfter(from);
      if mine {
        PublishReveal2(env);
      }
      ArmNext(from);
      TryStartVdf();
    }

    method ProcessReveal2(env: Env, from: PeerID, value: Bytes, doc: Doc)
      requires Wired(env)
      modifies this, dcr
      ensures View() == NodeSpec.ProcessReveal2(env, old(View()), from, value, doc)
    {
      hide NodeSpec.ContinueAfter, NodeSpec.BroadcastEquivocation;
      var accepted, equivocated := dcr.HandleReveal2(from, value);
      if equivocated {
        BroadcastEquivocation(Reveal2, from, doc);
        return;
      }
      if !accepted {
        return;
      }
      signedMsgs := signedMsgs[Key(Reveal2, from) := doc];
      ContinueAfter(env, from);
    }

    method BufferReveal2(from: PeerID, doc: Doc)
      modifies this`pendingReveal2
      ensures View() == NodeSpec.BufferReveal2(old(View()), from, doc)
    {
      if from !in pendingReveal2 {
        pendingReveal2 := pendingReveal2[from := doc];
      }
    }

    method TryFlushReveal2(env: Env, from: PeerID)
      requires Wired(env)
      modifies this, dcr
      ensures View() == NodeSpec.TryFlushReveal2(env, old(View()), from)
    {
      hide NodeSpec.ProcessReveal2;
      if from in pendingReveal2 {
        var doc := pendingReveal2[from];
        pendingReveal2 := pendingReveal2 - {from};
        ProcessReveal2(env, from, DocValue(Reveal2, doc), doc);
      }
    }

    // --- reveal1 ---

    method OrderAndTrigger(env: Env)
      requires Wired(env)
      modifies this, dcr
      ensures View() == NodeSpec.OrderAndTrigger(env, old(View()))
    {
      hide NodeSpec.LogRevealOrder, NodeSpec.TriggerReveal2IfFirst;
      LogRevealOrder(env);
      TriggerReveal2IfFirst(env);
    }

    /** The end of StartReveal1 callers: publish r and order if that was the last reveal1. */
    method RevealOwn1(env: Env)
      requires Wired(env)
      modifies this, dcr
      ensures View() == NodeSpec.RevealOwn1(env, old(View()))
    {
      hide NodeSpec.OrderAndTrigger, NodeSpec.SignAndPublish;
      var r, allReady := dcr.StartReveal1();
      if r.None? {
        return;
      }
      SignAndPublish(env, Reveal1, r.value);
      PublishKeepsViews(env, old(View()).(d := dcr.State()), Reveal1, r.value);
      if allReady {
        OrderAndTrigger(env);
      }
    }

    /** The position of self in the hypothetical order, and whether it is the last one. */
    method WouldBeLast(order: Option<seq<PeerID>>) returns (isLast: bool)
      ensures isLast == NodeSpec.WouldBeLast(order, self)
    {
      if order.None? || |order.value| == 0 {
        return false;
      }
      var ps, pos, i := order.value, -1, 0;
      assert ps[0..] == ps;
      while i < |ps|
        invariant 0 <= i <= |ps| && pos == -1
        invariant FirstIndex(ps, self) == (var k := FirstIndex(ps[i..], self); if k < 0 then -1 else k + i)
      {
        assert ps[i..][1..] == ps[i + 1..];
        if ps[i] == self {
          pos := i;
          break;
        }
        i := i + 1;
      }
      isLast := pos == |ps| - 1;
    }

    method TryStrategicReveal1(env: Env)
      requires Wired(env)
      modifies this, dcr
      ensures View() == NodeSpec.TryStrategicReveal1(env, old(View()))
    {
      hide NodeSpec.RevealOwn1, NodeSpec.EffectiveSize, NodeSpec.WouldBeLast, HypotheticalOrder;
      if !config.behavior.strategicReveal1 {
        return;
      }
      if self in dcr.reveal1s {
        return;
      }
      var size := EffectiveSize();
      if |dcr.reveal1s| < size - 1 {
        return;
      }
      var order := dcr.HypotheticalRevealOrderWithSelf(env.it, abortedPeers.Keys);
      var isLast := WouldBeLast(order);
      if !isLast {
        return;
      }
      RevealOwn1(env);
    }

    /** What follows an accepted reveal1, gossiped or disputed. */
    method AcceptedReveal1(env: Env, from: PeerID, allReady: bool)
      requires Wired(env) && allReady == AllReady(dcr.State())
      modifies this, dcr
      ensures View() == NodeSpec.AcceptedReveal1(env, old(View()), from)
    {
      hide NodeSpec.OrderAndTrigger, NodeSpec.TryFlushReveal2, NodeSpec.EffectiveSize;
      TryFlushReveal2(env, from);
      var size := EffectiveSize();
      if allReady || |dcr.reveal1s| >= size {
        OrderAndTrigger(env);
      }
    }

    method ProcessReveal1(env: Env, from: PeerID, value: Bytes, doc: Doc)
      requires Wired(env)
      modifies this, dcr
      ensures View() == NodeSpec.ProcessReveal1(env, old(View()), from, value, doc)
    {
      hide NodeSpec.AcceptedReveal1, NodeSpec.TryStrategicReveal1, NodeSpec.BroadcastEquivocation;
      var valid, allReady, equivocated := dcr.HandleReveal1(from, value);
      if equivocated {
        BroadcastEquivocation(Reveal1, from, doc);
        return;
      }
      if !valid {
        return;
      }
      signedMsgs := signedMsgs[Key(Reveal1, from) := doc];
      AcceptedReveal1(env, from, allReady);
      TryStrategicReveal1(env);
    }

    method BufferReveal1(from: PeerID, doc: Doc)
      modifies this`pendingReveal1
      ensures View() == NodeSpec.BufferReveal1(old(View()), from, doc)
    {
      if from !in pendingReveal1 {
        pendingReveal1 := pendingReveal1[from := doc];
      }
    }

    method TryFlushReveal1(env: Env, from: PeerID)
      requires Wired(env)
      modifies this, dcr
      ensures View() == NodeSpec.TryFlushReveal1(env, old(View()), from)
    {
      hide NodeSpec.ProcessReveal1;
      if from in pendingReveal1 {
        var doc := pendingReveal1[from];
        pendingReveal1 := pendingReveal1 - {from};
        ProcessReveal1(env, from, DocValue(Reveal1, doc), doc);
      }
    }

    method TryStartReveal1(env: Env)
      requires Wired(env)
      modifies this, dcr
      ensures View() == NodeSpec.TryStartReveal1(env, old(View()))
    {
      hide NodeSpec.RevealOwn1, NodeSpec.EffectiveSize;
      var effective := EffectiveSize();
      if !sessionActive || reveal1Triggered {
        return;
      }
      if |dcr.commit2s| < effective {
        return;
      }
      reveal1Triggered := true;
      if config.behavior.skipReveal1 {
        return;
      }
      RevealOwn1(env);
    }

    method TryComputeRevealOrderAndProceed(env: Env)
      requires Wired(env)
      modifies this, dcr
      ensures View() == NodeSpec.TryComputeRevealOrderAndProceed(env, old(View()))
    {
      hide NodeSpec.OrderAndTrigger, NodeSpec.EffectiveSize;
      if !sessionActive || !reveal1Triggered {
        return;
      }
      var size := EffectiveSize();
      if |dcr.reveal1s| < size {
        return;
      }
      OrderAndTrigger(env);
    }

    // --- gossip ---

    method AcceptCommit2(env: Env, from: PeerID, value: Bytes, doc: Doc)
      requires Wired(env)
      modifies this, dcr
      ensures View() == NodeSpec.OnCommit2(env, old(View()), from, value, doc)
    {
      hide NodeSpec.TryFlushReveal1, NodeSpec.TryStartReveal1, NodeSpec.BroadcastEquivocation;
      var accepted, equivocated := dcr.HandleCommit2(from, value);
      if equivocated {
        BroadcastEquivocation(Commit2, from, doc);
        return;
      }
      if !accepted {
        return;
      }
      signedMsgs := signedMsgs[Key(Commit2, from) := doc];
      TryFlushReveal1(env, from);
      TryStartReveal1(env);
    }

    method OnGossip(env: Env, from: PeerID, phase: Phase, author: Option<PeerID>, value: Bytes, sig: Bytes)
      requires Wired(env)
      modifies this, dcr
      ensures View() == NodeSpec.OnGossip(env, old(View()), from, phase, author, value, sig)
    {
      hide NodeSpec.OnCommit2, NodeSpec.ProcessReveal1, NodeSpec.ProcessReveal2, NodeSpec.BufferReveal1, NodeSpec.BufferReveal2,
           VerifySignedMsg;
      if from == self || from in abortedPeers {
        return;
      }
      if !VerifySignedMsg(env.c, phase, from, author, value, sig) {
        return;
      }
      var doc := DocFor(phase, author, value, sig);
      match phase {
        case Commit2 => AcceptCommit2(env, from, value, doc);
        case Reveal1 =>
          if from !in dcr.commit2s {
            BufferReveal1(from, doc);
          } else {
            ProcessReveal1(env, from, value, doc);
          }
        case Reveal2 =>
          if from !in dcr.reveal1s {
            BufferReveal2(from, doc);
          } else {
            ProcessReveal2(env, from, value, doc);
          }
        case _ =>
      }
    }

    // --- aborts, votes, disputes ---

    method AbortPeer(env: Env, target: PeerID, phase: Phase)
      requires Wired(env)
      modifies this, dcr
      ensures View() == NodeSpec.AbortPeer(env, old(View()), target, phase)
    {
      hide NodeSpec.TryStartReveal1, NodeSpec.TryComputeRevealOrderAndProceed, NodeSpec.ContinueAfter;
      if target in abortedPeers {
        return;
      }
      abortedPeers := abortedPeers[target := phase];
      match phase {
        case Commit2 => TryStartReveal1(env);
        case Reveal1 => TryComputeRevealOrderAndProceed(env);
        case Reveal2 => ContinueAfter(env, target);
        case _ =>
      }
    }

    /** Adds the voter and returns how many distinct ones there are. */
    method CountVote(from: PeerID, key: Key) returns (votes: nat)
      modifies this`timeoutVotes
      ensures View() == NodeSpec.CountVote(old(View()), from, key)
      ensures votes == |VotersFor(View(), key)|
    {
      if key !in timeoutVotes {
        timeoutVotes := timeoutVotes[key := {}];
      }
      timeoutVotes := timeoutVotes[key := timeoutVotes[key] + {from}];
      votes := |timeoutVotes[key]|;
      assert timeoutVotes == old(timeoutVotes)[key := VotersFor(old(View()), key) + {from}];
    }

    method CountDispute(from: PeerID, key: Key) returns (disputes: nat)
      modifies this`disputeVoters
      ensures View() == NodeSpec.CountDispute(old(View()), from, key)
      ensures disputes == |DisputersFor(View(), key)|
    {
      if key !in disputeVoters {
        disputeVoters := disputeVoters[key := {}];
      }
      disputeVoters := disputeVoters[key := disputeVoters[key] + {from}];
      disputes := |disputeVoters[key]|;
      assert disputeVoters == old(disputeVoters)[key := DisputersFor(old(View()), key) + {from}];
    }

    method HandleTimeoutVote(env: Env, from: PeerID, phase: Phase, target: PeerID)
      requires Wired(env)
      modifies this, dcr
      ensures View() == NodeSpec.HandleTimeoutVote(env, old(View()), from, phase, target)
    {
      hide NodeSpec.AbortPeer, NodeSpec.CountVote, NodeSpec.HandleReadyAckVote, VotersFor;
      if phase == ReadyAck {
        HandleReadyAckTimeoutVote(env, from, target);
        return;
      }
      var key := Key(phase, target);
      if key in signedMsgs {
        Broadcast(TimeoutDispute(phase, target, signedMsgs[key]));
      }
      var votes := CountVote(from, key);
      if votes >= Majority() {
        AbortPeer(env, target, phase);
      }
    }

    method HandleReadyAckTimeoutVote(env: Env, from: PeerID, target: PeerID)
      requires Wired(env)
      modifies this
      ensures View() == NodeSpec.HandleReadyAckVote(env, old(View()), from, target)
    {
      hide NodeSpec.ExcludeReadyAckPeer, NodeSpec.CountVote, VotersFor;
      if target in readyPeers {
        Broadcast(TimeoutDispute(ReadyAck, target, Malformed));
      }
      var votes := CountVote(from, Key(ReadyAck, target));
      if votes >= PeerMajority(env) {
        ExcludeReadyAckPeer(env, target);
      }
    }

    method ExcludeReadyAckPeer(env: Env, target: PeerID)
      requires Wired(env)
      modifies this
      ensures View() == NodeSpec.ExcludeReadyAckPeer(env, old(View()), target)
    {
      hide NodeSpec.TryPublishSessionLock;
      if target in abortedPeers {
        return;
      }
      abortedPeers := abortedPeers[target := ReadyAck];
      TryPublishSessionLock(env);
    }

    method AcceptDisputedCommit2(env: Env, target: PeerID, value: Bytes, doc: Doc)
      requires Wired(env)
      requires DocVerifies(env.c, Commit2, target, doc) && value == DocValue(Commit2, doc)
      modifies this, dcr
      ensures View() == NodeSpec.AcceptDisputed(env, old(View()), Commit2, target, doc)
    {
      hide NodeSpec.TryStartReveal1, NodeSpec.BroadcastEquivocation, DocVerifies, DocValue;
      var accepted, equivocated := dcr.HandleCommit2(target, value);
      if equivocated {
        BroadcastEquivocation(Commit2, target, doc);
        return;
      }
      if !accepted {
        return;
      }
      signedMsgs := signedMsgs[Key(Commit2, target) := doc];
      TryStartReveal1(env);
    }

    method AcceptDisputedReveal1(env: Env, target: PeerID, value: Bytes, doc: Doc)
      requires Wired(env)
      requires DocVerifies(env.c, Reveal1, target, doc) && value == DocValue(Reveal1, doc)
      modifies this, dcr
      ensures View() == NodeSpec.AcceptDisputed(env, old(View()), Reveal1, target, doc)
    {
      hide NodeSpec.AcceptedReveal1, NodeSpec.BroadcastEquivocation, DocVerifies, DocValue;
      var valid, allReady, equivocated := dcr.HandleReveal1(target, value);
      if equivocated {
        BroadcastEquivocation(Reveal1, target, doc);
        return;
      }
      if !valid {
        return;
      }
      signedMsgs := signedMsgs[Key(Reveal1, target) := doc];
      AcceptedReveal1(env, target, allReady);
    }

    method AcceptDisputed(env: Env, phase: Phase, target: PeerID, doc: Doc)
      requires Wired(env) && SignedPhase(phase)
      modifies this, dcr
      ensures View() == NodeSpec.AcceptDisputed(env, old(View()), phase, target, doc)
    {
      hide NodeSpec.TryStartReveal1, NodeSpec.AcceptedReveal1, NodeSpec.ProcessReveal2, NodeSpec.BroadcastEquivocation,
           DocVerifies, DocValue;
      if !DocVerifies(env.c, phase, target, doc) {
        return;
      }
      var value := DocValue(phase, doc);
      match phase {
        case Commit2 => AcceptDisputedCommit2(env, target, value, doc);
        case Reveal1 => AcceptDisputedReveal1(env, target, value, doc);
        case Reveal2 => ProcessReveal2(env, target, value, doc);
      }
    }

    method HandleTimeoutDispute(env: Env, from: PeerID, phase: Phase, target: PeerID, doc: Doc)
      requires Wired(env)
      modifies this, dcr
      ensures View() == NodeSpec.HandleTimeoutDispute(env, old(View()), from, phase, target, doc)
    {
      hide NodeSpec.AcceptDisputed, NodeSpec.CountDispute, NodeSpec.TryPublishSessionLock, DisputersFor;
      var key := Key(phase, target);
      var disputes := CountDispute(from, key);
      var majority := if phase == ReadyAck then PeerMajority(env) else Majority();
      if disputes < majority {
        return;
      }
      timeoutVotes := timeoutVotes - {key};
      match phase {
        case ReadyAck =>
          readyPeers := readyPeers + {target};
          TryPublishSessionLock(env);
        case Other(_) =>
        case _ => AcceptDisputed(env, phase, target, doc);
      }
    }

    method HandleEquivocationAbort(env: Env, phase: Phase, target: PeerID, first: Doc, second: Doc)
      requires Wired(env)
      modifies this, dcr
      ensures View() == NodeSpec.HandleEquivocationAbort(env, old(View()), phase, target, first, second)
    {
      hide NodeSpec.AbortPeer, DocVerifies, DocValue;
      if target in abortedPeers {
        return;
      }
      if !DocVerifies(env.c, phase, target, first) || !DocVerifies(env.c, phase, target, second) {
        return;
      }
      if DocValue(phase, first) == DocValue(phase, second) {
        return;
      }
      AbortPeer(env, target, phase);
    }

    // --- session ---

    method TryPublishSessionLock(env: Env)
      requires Wired(env)
      modifies this
      ensures View() == NodeSpec.TryPublishSessionLock(env, old(View()))
    {
      hide NodeSpec.PublishSessionLock, AbortedIn;
      if sessionProposer != self || sessionActive {
        return;
      }
      var excluded := AbortedInPhase(ReadyAck);
      if |readyPeers| + |excluded| >= |env.peers| + 1 {
        PublishSessionLock(env);
      }
    }

    method PublishSessionLock(env: Env)
      requires Wired(env)
      modifies this
      ensures View() == NodeSpec.PublishSessionLock(env, old(View()))
    {
      if sessionActive {
        return;
      }
      var ready, participants := env.it(readyPeers), [];
      for i := 0 to |ready|
        invariant participants == Without(ready[..i], abortedPeers.Keys)
      {
        assert ready[..i + 1][..i] == ready[..i];
        if ready[i] !in abortedPeers {
          participants := participants + [ready[i]];
        }
      }
      assert ready[..|ready|] == ready;
      if |participants| == 0 {
        sessionProposer := NO_PEER;
        return;
      }
      Broadcast(SessionLock(Some(participants)));
    }

    /** Peers connected but not listed are marked as excluded. */
    method ExcludeAbsent(peers: seq<PeerID>, ps: seq<PeerID>)
      modifies this`abortedPeers
      ensures abortedPeers == old(abortedPeers) + Absent(peers, ps, old(abortedPeers))
    {
      for i := 0 to |peers|
        invariant abortedPeers == old(abortedPeers) + Absent(peers[..i], ps, old(abortedPeers))
      {
        var p := peers[i];
        AbsentGrows(peers, i, ps, old(abortedPeers));
        if p !in ps && p !in abortedPeers {
          abortedPeers := abortedPeers[p := ReadyAck];
        }
      }
      assert peers[..|peers|] == peers;
    }

    method LockSession(env: Env, ps: seq<PeerID>)
      modifies this
      ensures View() == NodeSpec.LockSession(env, old(View()), ps)
    {
      sessionActive, sessionSize, sessionParticipants := true, |ps|, ps;
      ExcludeAbsent(env.peers, ps);
    }

    method HandleSessionLock(env: Env, payload: Option<seq<PeerID>>)
      requires Wired(env)
      modifies this, dcr
      ensures View() == NodeSpec.HandleSessionLock(env, old(View()), payload)
    {
      hide NodeSpec.LockSession, NodeSpec.TryStartReveal1, NodeSpec.SignAndPublish;
      if payload.None? || sessionActive {
        return;
      }
      LockSession(env, payload.value);
      if config.behavior.skipCommit {
        return;
      }
      var hash := dcr.StartCommit2(env.secret);
      SignAndPublish(env, Commit2, hash);
      TryStartReveal1(env);
    }

    method OnStartCommit2(env: Env)
      requires Wired(env)
      modifies this, dcr
      ensures View() == NodeSpec.OnStartCommit2(env, old(View()))
    {
      hide NodeSpec.SignAndPublish;
      if config.behavior.skipCommit {
        return;
      }
      var hash := dcr.StartCommit2(env.secret);
      SignAndPublish(env, Commit2, hash);
    }

    method ProposeStart()
      modifies this
      ensures View() == LocalPropose(old(View()))
    {
      if sessionProposer != NO_PEER {
        return;
      }
      sessionProposer := self;
      Broadcast(Msg.ProposeStart);
    }

    method HandleProposeStart(from: PeerID)
      modifies this
      ensures View() == NodeSpec.HandleProposeStart(old(View()), from)
    {
      if sessionActive {
        return;
      }
      if sessionProposer != NO_PEER && sessionProposer != from && sessionProposer != self {
        return;
      }
      if sessionProposer == NO_PEER {
        sessionProposer := from;
      }
      if config.behavior.skipReadyAck {
        return;
      }
      Broadcast(ReadyAckMsg);
    }

    method HandleReadyAck(env: Env, from: PeerID)
      requires Wired(env)
      modifies this
      ensures View() == NodeSpec.HandleReadyAck(env, old(View()), from)
    {
      hide NodeSpec.TryPublishSessionLock;
      if sessionActive {
        return;
      }
      readyPeers := readyPeers + {from};
      TryPublishSessionLock(env);
    }

    // --- timeouts ---

    /** `for _, p := range ps`: a TIMEOUT_VOTE for everybody outside `spared`. */
    method VoteAgainst(phase: Phase, ps: seq<PeerID>, spared: set<PeerID>) returns (voted: bool)
      modifies this`published
      ensures published == old(published) + VotesAgainst(phase, ps, spared)
      ensures voted <==> VotesAgainst(phase, ps, spared) != []
    {
      voted := false;
      for i := 0 to |ps|
        invariant published == old(published) + VotesAgainst(phase, ps[..i], spared)
        invariant voted <==> VotesAgainst(phase, ps[..i], spared) != []
      {
        assert ps[..i + 1][..i] == ps[..i];
        if ps[i] !in spared {
          Broadcast(TimeoutVote(phase, ps[i]));
          voted := true;
        }
      }
      assert ps[..|ps|] == ps;
    }

    method VoteAbsent(phase: Phase, responded: set<PeerID>)
      modifies this`published
      ensures View() == NodeSpec.VoteAbsent(old(View()), phase, responded)
    {
      var _ := VoteAgainst(phase, sessionParticipants, responded + abortedPeers.Keys);
      if config.behavior.falseTimeoutVote {
        var _ := VoteAgainst(phase, sessionParticipants, (SetOf(sessionParticipants) - responded) + abortedPeers.Keys + {self});
      }
    }

    method OnCommitTimeout()
      modifies this`published
      ensures View() == NodeSpec.OnCommitTimeout(old(View()))
    {
      hide NodeSpec.VoteAbsent;
      if !sessionActive {
        return;
      }
      VoteAbsent(Commit2, dcr.commit2s.Keys);
    }

    method OnReveal1Timeout()
      modifies this`published
      ensures View() == NodeSpec.OnReveal1Timeout(old(View()))
    {
      hide NodeSpec.VoteAbsent;
      if !sessionActive || !reveal1Triggered {
        return;
      }
      VoteAbsent(Reveal1, dcr.reveal1s.Keys);
    }

    method OnReveal2Timeout(target: PeerID)
      modifies this`published
      ensures View() == NodeSpec.OnReveal2Timeout(old(View()), target)
    {
      if reveal2TimerTarget != target {
        return;
      }
      Broadcast(TimeoutVote(Reveal2, target));
    }

    method OnReadyAckTimeout(env: Env)
      requires Wired(env)
      modifies this
      ensures View() == NodeSpec.OnReadyAckTimeout(env, old(View()))
    {
      hide NodeSpec.TryPublishSessionLock;
      if sessionActive {
        return;
      }
      var voted := VoteAgainst(ReadyAck, env.peers, readyPeers);
      if !voted {
        assert published == old(published);
        TryPublishSessionLock(env);
      }
    }

    // --- dispatch ---

    method HandleMsg(env: Env, from: PeerID, m: Msg)
      requires Wired(env)
      modifies this, dcr
      ensures View() == NodeSpec.HandleMsg(env, old(View()), from, m)
    {
      hide NodeSpec.OnGossip, NodeSpec.HandleProposeStart, NodeSpec.HandleReadyAck, NodeSpec.HandleSessionLock,
           NodeSpec.HandleTimeoutVote, NodeSpec.HandleTimeoutDispute, NodeSpec.HandleEquivocationAbort;
      match m {
        case Gossip(phase, author, value, sig) => OnGossip(env, from, phase, author, value, sig);
        case ProposeStart => HandleProposeStart(from);
        case ReadyAckMsg => HandleReadyAck(env, from);
        case SessionLock(payload) => HandleSessionLock(env, payload);
        case TimeoutVote(phase, target) => HandleTimeoutVote(env, from, phase, target);
        case TimeoutDispute(phase, target, doc) => HandleTimeoutDispute(env, from, phase, target, doc);
        case EquivocationAbort(phase, target, first, second) => HandleEquivocationAbort(env, phase, target, first, second);
      }
    }

    /** One event at the node, from a message or a timer. */
    method HandleEvent(env: Env, e: Event)
      requires Wired(env)
      modifies this, dcr
      ensures View() == NodeSpec.Handle(env, old(View()), e)
    {
      hide NodeSpec.HandleMsg, LocalPropose, NodeSpec.OnCommitTimeout, NodeSpec.OnReveal1Timeout, NodeSpec.OnReveal2Timeout,
           NodeSpec.OnReadyAckTimeout;
      match e {
        case Receive(from, m) => HandleMsg(env, from, m);
        case Propose => ProposeStart();
        case CommitTimeout => OnCommitTimeout();
        case Reveal1Timeout => OnReveal1Timeout();
        case Reveal2Timeout(target) =>
          if target != NO_PEER {
            OnReveal2Timeout(target);
          }
        case ReadyAckTimeout => OnReadyAckTimeout(env);
      }
    }

    method ResetSession()
      modifies this`sessionActive, this`sessionSize, this`sessionProposer, this`sessionParticipants, this`readyPeers,
               this`reveal1Triggered
      ensures !sessionActive && sessionSize == 0 && sessionProposer == NO_PEER && sessionParticipants == []
      ensures readyPeers == {} && !reveal1Triggered
    {
      sessionActive, sessionSize, sessionProposer, sessionParticipants := false, 0, NO_PEER, [];
      readyPeers, reveal1Triggered := {}, false;
    }

    method ResetTallies()
      modifies this`timeoutVotes, this`disputeVoters, this`abortedPeers, this`signedMsgs
      ensures timeoutVotes == map[] && disputeVoters == map[] && abortedPeers == map[] && signedMsgs == map[]
    {
      timeoutVotes, disputeVoters, abortedPeers, signedMsgs := map[], map[], map[], map[];
    }

    /** A new round: everything back to the start; what was published stays sent. */
    method Reset()
      requires dcr.self == self
      modifies this, dcr
      ensures View() == InitNode(self, config).(out := old(published))
    {
      ResetSession();
      ResetTallies();
      vdf, reveal2TimerTarget := None, NO_PEER;
      pendingReveal1, pendingReveal2, loggedOrders := map[], map[], [];
      dcr.Reset();
      assert dcr.State() == DcrSpec.Init(self);
      SameStart(View(), old(published));
    }
  }

  lemma SameStart(n: NodeState, out: seq<Msg>)
    requires n.d == DcrSpec.Init(n.self) && n.vdf.None? && !n.sessionActive && n.sessionSize == 0
    requires n.sessionProposer == NO_PEER && n.participants == [] && n.readyPeers == {} && !n.reveal1Triggered
    requires n.reveal2Target == NO_PEER && n.votes == map[] && n.disputes == map[] && n.aborted == map[]
    requires n.signed == map[] && n.pending1 == map[] && n.pending2 == map[] && n.orders == [] && n.out == out
    ensures n == InitNode(n.self, n.config).(out := out)
  {
  }

  function Absent(peers: seq<PeerID>, ps: seq<PeerID>, aborted: map<PeerID, Phase>): map<PeerID, Phase> {
    map p | p in peers && p !in ps && p !in aborted :: ReadyAck
  }

  lemma AbsentGrows(peers: seq<PeerID>, i: nat, ps: seq<PeerID>, aborted: map<PeerID, Phase>)
    requires i < |peers|
    ensures var p, before := peers[i], aborted + Absent(peers[..i], ps, aborted);
            aborted + Absent(peers[..i + 1], ps, aborted)
            == if p !in ps && p !in before then before[p := ReadyAck] else before
  {
    assert peers[..i + 1] == peers[..i] + [peers[i]];
  }

  lemma PublishKeepsViews(env: Env, n: NodeState, phase: Phase, value: Bytes)
    ensures NodeSpec.SignAndPublish(env, n, phase, value).d == n.d
  {
  }
}
