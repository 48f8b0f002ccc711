/** What one node makes of each message, timeout and call: node/protocol.go, timeout.go and
    session.go as functions of the node's state. Everything published is appended to `out`. */
module NodeSpec {
  import opened Encoding
  import opened FiniteSets
  import opened DcrSpec
  import opened VdfInput
  import opened Signing

  datatype Msg =
    | Gossip(phase: Phase, author: Option<PeerID>, value: Bytes, sig: Bytes)
    | ProposeStart
    | ReadyAckMsg
    | SessionLock(participants: Option<seq<PeerID>>)
    | TimeoutVote(phase: Phase, target: PeerID)
    | TimeoutDispute(phase: Phase, target: PeerID, doc: Doc)
    | EquivocationAbort(phase: Phase, target: PeerID, first: Doc, second: Doc)

  /** The attacker.go decisions that change the control flow; all false is the honest node. */
  datatype Behavior = Behavior(
    skipReadyAck: bool, skipCommit: bool, skipReveal1: bool, strategicReveal1: bool,
    skipReveal2: bool, strategicReveal2: bool, lastRevealerVdf: bool, falseTimeoutVote: bool)

  datatype Config = Config(behavior: Behavior, reveal2Timeouts: bool)

  /** The "phase:target" key of the vote and dispute maps, and of the signed messages. */
  datatype Key = Key(phase: Phase, peer: PeerID)

  /** The VDF computation launched: the order and fallback set it used, and its input. */
  datatype VdfRun = VdfRun(order: seq<PeerID>, fallback: set<PeerID>, input: Option<Bytes>)

  datatype NodeState = NodeState(
    self: PeerID,
    config: Config,
    d: DcrState,
    vdf: Option<VdfRun>,
    sessionActive: bool,
    sessionSize: nat,
    sessionProposer: PeerID,
    participants: seq<PeerID>,
    readyPeers: set<PeerID>,
    reveal1Triggered: bool,
    reveal2Target: PeerID,
    votes: map<Key, set<PeerID>>,
    disputes: map<Key, set<PeerID>>,
    aborted: map<PeerID, Phase>,
    signed: map<Key, Doc>,
    pending1: map<PeerID, Doc>,
    pending2: map<PeerID, Doc>,
    orders: seq<seq<PeerID>>,
    out: seq<Msg>)

  /** Inputs from outside: the primitives, a map iteration order, the connected peers, fresh randomness. */
  datatype Env = Env(c: Crypto, it: Iter, peers: seq<PeerID>, secret: Bytes)

  function InitNode(self: PeerID, config: Config): NodeState {
    NodeState(self, config, DcrSpec.Init(self), None, false, 0, NO_PEER, [], {}, false, NO_PEER,
              map[], map[], map[], map[], map[], map[], [], [])
  }

  // --- sizes and sets (timeout.go) ---

  function Majority(n: NodeState): nat { n.sessionSize / 2 + 1 }

  function PeerMajority(env: Env): nat { (|env.peers| + 1) / 2 + 1 }

  function AbortedIn(n: NodeState, phase: Phase): set<PeerID> {
    set p | p in n.aborted && n.aborted[p] == phase
  }

  function LateAborts(n: NodeState): set<PeerID> {
    set p | p in n.aborted && n.aborted[p] != ReadyAck
  }

  function EffectiveSize(n: NodeState): int { n.sessionSize - |LateAborts(n)| }

  // --- publishing ---

  function Emit(n: NodeState, m: Msg): NodeState { n.(out := n.out + [m]) }

  function StoreSigned(n: NodeState, phase: Phase, p: PeerID, doc: Doc): NodeState {
    n.(signed := n.signed[Key(phase, p) := doc])
  }

  function SignAndPublish(env: Env, n: NodeState, phase: Phase, value: Bytes): NodeState {
    var sig := env.c.sign(n.self, SigningBytes(phase, n.self, value));
    Emit(StoreSigned(n, phase, n.self, DocFor(phase, Some(n.self), value, sig)),
         Gossip(phase, Some(n.self), value, sig))
  }

  function SignedOr(n: NodeState, phase: Phase, p: PeerID): Doc {
    if Key(phase, p) in n.signed then n.signed[Key(phase, p)] else Malformed
  }

  function BroadcastEquivocation(n: NodeState, phase: Phase, p: PeerID, second: Doc): NodeState {
    Emit(n, EquivocationAbort(phase, p, SignedOr(n, phase, p), second))
  }

  // --- reveal2 and the VDF (protocol.go) ---

  function TryStartVdf(n: NodeState): NodeState {
    if n.vdf.Some? || n.d.revealOrder == [] || !VdfGate(n.d, AbortedIn(n, Reveal2)) then n
    else
      var fallback := AbortedIn(n, Reveal2);
      n.(vdf := Some(VdfRun(n.d.revealOrder, fallback, FinalInputWithFallback(n.d, fallback))))
  }

  /** last-revealer-abort-r2: aborting gives the smaller input. */
  predicate AbortPays(both: Option<BothInputs>) {
    both.Some? && BigEndian(both.value.ifAbort) < BigEndian(both.value.ifReveal)
  }

  function PublishReveal2(env: Env, n: NodeState): NodeState {
    var b := n.config.behavior;
    if b.skipReveal2 then n
    else if b.strategicReveal2 && AbortPays(ComputeBothInputs(n.d, AbortedIn(n, Reveal2))) then n
    else if n.d.mySecret.None? then n
    else
      var early := b.lastRevealerVdf && IsLastReveal2(n.d, AbortedIn(n, Reveal2));
      var n1 := n.(d := DcrSpec.StartReveal2(n.d));
      SignAndPublish(env, if early then TryStartVdf(n1) else n1, Reveal2, n.d.mySecret.value)
  }

  /** The loop of nextPendingReveal2Peer: first peer after `after` that is not in skip. */
  function NextPending(order: seq<PeerID>, started: bool, after: PeerID, skip: set<PeerID>): PeerID {
    if order == [] then NO_PEER
    else if !started then NextPending(order[1..], order[0] == after, after, skip)
    else if order[0] in skip then NextPending(order[1..], true, after, skip)
    else order[0]
  }

  function NextPendingPeer(n: NodeState, after: PeerID): PeerID {
    NextPending(n.d.revealOrder, after == NO_PEER, after, n.aborted.Keys + n.d.reveal2s.Keys)
  }

  /** startReveal2TimerFor(nextPendingReveal2Peer(after)). */
  function ArmNext(n: NodeState, after: PeerID): NodeState {
    var next := NextPendingPeer(n, after);
    if !n.config.reveal2Timeouts || next == NO_PEER then n else n.(reveal2Target := next)
  }

  function Claim(n: NodeState): NodeState { n.(d := ClaimTurn(n.d)) }

  function TriggerReveal2IfFirst(env: Env, n: NodeState): NodeState {
    if FirstTurn(n.d) then PublishReveal2(env, Claim(n)) else ArmNext(n, NO_PEER)
  }

  function LogRevealOrder(env: Env, n: NodeState): NodeState {
    var d := ComputeOrderExcluding(env.c.H, env.it, n.d, n.aborted.Keys);
    n.(d := d, orders := n.orders + [d.revealOrder])
  }

  /** What follows an accepted reveal2, and an abort in reveal2, of `from`. */
  function ContinueAfter(env: Env, n: NodeState, from: PeerID): NodeState {
    var n1 := if TurnAfter(n.d, from) then PublishReveal2(env, Claim(n)) else n;
    TryStartVdf(ArmNext(n1, from))
  }

  function ProcessReveal2(env: Env, n: NodeState, from: PeerID, value: Bytes, doc: Doc): NodeState {
    if Conflicts(n.d.reveal2s, from, value) then BroadcastEquivocation(n, Reveal2, from, doc)
    else if !AcceptsReveal2(env.c.H, n.d, from, value) then n
    else
      ContinueAfter(env, StoreSigned(n.(d := StoreReveal2(n.d, from, value)), Reveal2, from, doc), from)
  }

  function TryFlushReveal2(env: Env, n: NodeState, from: PeerID): NodeState {
    if from !in n.pending2 then n
    else
      var doc := n.pending2[from];
      ProcessReveal2(env, n.(pending2 := n.pending2 - {from}), from, DocValue(Reveal2, doc), doc)
  }

  // --- reveal1 ---

  function OrderAndTrigger(env: Env, n: NodeState): NodeState {
    TriggerReveal2IfFirst(env, LogRevealOrder(env, n))
  }

  function FirstIndex(order: seq<PeerID>, p: PeerID): int {
    if order == [] then -1
    else if order[0] == p then 0
    else
      var i := FirstIndex(order[1..], p);
      if i < 0 then -1 else i + 1
  }

  predicate WouldBeLast(order: Option<seq<PeerID>>, self: PeerID) {
    order.Some? && order.value != [] && FirstIndex(order.value, self) == |order.value| - 1
  }

  /** last-revealer-abort: publish reveal1 only when that leaves this node last. */
  function TryStrategicReveal1(env: Env, n: NodeState): NodeState {
    if !n.config.behavior.strategicReveal1 || n.self in n.d.reveal1s then n
    else if |n.d.reveal1s| < EffectiveSize(n) - 1 then n
    else if !WouldBeLast(HypotheticalOrder(env.c.H, env.it, n.d, n.aborted.Keys), n.self) then n
    else RevealOwn1(env, n)
  }

  /** StartReveal1, publish, and order if that was the last reveal1. */
  function RevealOwn1(env: Env, n: NodeState): NodeState {
    if n.d.myReveal1.None? then n
    else
      var n1 := SignAndPublish(env, n.(d := DcrSpec.StartReveal1(n.d)), Reveal1, n.d.myReveal1.value);
      if AllReady(n1.d) && |n1.d.commit2s| > 0 then OrderAndTrigger(env, n1) else n1
  }

  function AcceptedReveal1(env: Env, n: NodeState, from: PeerID): NodeState {
    var ready := AllReady(n.d);
    var n1 := TryFlushReveal2(env, n, from);
    if ready || |n1.d.reveal1s| >= EffectiveSize(n1) then OrderAndTrigger(env, n1) else n1
  }

  function ProcessReveal1(env: Env, n: NodeState, from: PeerID, value: Bytes, doc: Doc): NodeState {
    if Conflicts(n.d.reveal1s, from, value) then BroadcastEquivocation(n, Reveal1, from, doc)
    else if !AcceptsReveal1(env.c.H, n.d, from, value) then n
    else
      var n1 := StoreSigned(n.(d := StoreReveal1(n.d, from, value)), Reveal1, from, doc);
      TryStrategicReveal1(env, AcceptedReveal1(env, n1, from))
  }

  function TryFlushReveal1(env: Env, n: NodeState, from: PeerID): NodeState {
    if from !in n.pending1 then n
    else
      var doc := n.pending1[from];
      ProcessReveal1(env, n.(pending1 := n.pending1 - {from}), from, DocValue(Reveal1, doc), doc)
  }

  predicate CommitGate(n: NodeState) {
    n.sessionActive && !n.reveal1Triggered && |n.d.commit2s| >= EffectiveSize(n)
  }

  function TryStartReveal1(env: Env, n: NodeState): NodeState {
    if !CommitGate(n) then n
    else
      var n1 := n.(reveal1Triggered := true);
      if n.config.behavior.skipReveal1 then n1 else RevealOwn1(env, n1)
  }

  function TryComputeRevealOrderAndProceed(env: Env, n: NodeState): NodeState {
    if !n.sessionActive || !n.reveal1Triggered || |n.d.reveal1s| < EffectiveSize(n) then n
    else OrderAndTrigger(env, n)
  }

  // --- gossip handlers ---

  function OnCommit2(env: Env, n: NodeState, from: PeerID, value: Bytes, doc: Doc): NodeState {
    if Conflicts(n.d.commit2s, from, value) then BroadcastEquivocation(n, Commit2, from, doc)
    else if !AcceptsCommit2(n.d, from) then n
    else
      var n1 := StoreSigned(n.(d := StoreCommit2(n.d, from, value)), Commit2, from, doc);
      TryStartReveal1(env, TryFlushReveal1(env, n1, from))
  }

  function BufferReveal1(n: NodeState, from: PeerID, doc: Doc): NodeState {
    if from in n.pending1 then n else n.(pending1 := n.pending1[from := doc])
  }

  function BufferReveal2(n: NodeState, from: PeerID, doc: Doc): NodeState {
    if from in n.pending2 then n else n.(pending2 := n.pending2[from := doc])
  }

  function OnGossip(env: Env, n: NodeState, from: PeerID, phase: Phase, author: Option<PeerID>, value: Bytes,
                    sig: Bytes): NodeState
  {
    if from == n.self || from in n.aborted || !VerifySignedMsg(env.c, phase, from, author, value, sig) then n
    else
      var doc := DocFor(phase, author, value, sig);
      match phase
      case Commit2 => OnCommit2(env, n, from, value, doc)
      case Reveal1 => if from !in n.d.commit2s then BufferReveal1(n, from, doc) else ProcessReveal1(env, n, from, value, doc)
      case Reveal2 => if from !in n.d.reveal1s then BufferReveal2(n, from, doc) else ProcessReveal2(env, n, from, value, doc)
      case _ => n
  }

  // --- aborts, votes, disputes (timeout.go) ---

  function AbortPeer(env: Env, n: NodeState, target: PeerID, phase: Phase): NodeState {
    if target in n.aborted then n
    else
      var n1 := n.(aborted := n.aborted[target := phase]);
      match phase
      case Commit2 => TryStartReveal1(env, n1)
      case Reveal1 => TryComputeRevealOrderAndProceed(env, n1)
      case Reveal2 => ContinueAfter(env, n1, target)
      case _ => n1
  }

  function VotersFor(n: NodeState, key: Key): set<PeerID> {
    if key in n.votes then n.votes[key] else {}
  }

  function DisputersFor(n: NodeState, key: Key): set<PeerID> {
    if key in n.disputes then n.disputes[key] else {}
  }

  function CountVote(n: NodeState, from: PeerID, key: Key): NodeState {
    n.(votes := n.votes[key := VotersFor(n, key) + {from}])
  }

  function CountDispute(n: NodeState, from: PeerID, key: Key): NodeState {
    n.(disputes := n.disputes[key := DisputersFor(n, key) + {from}])
  }

  function HandleTimeoutVote(env: Env, n: NodeState, from: PeerID, phase: Phase, target: PeerID): NodeState {
    if phase == ReadyAck then HandleReadyAckVote(env, n, from, target)
    else
      var key := Key(phase, target);
      var n1 := if key in n.signed then Emit(n, TimeoutDispute(phase, target, n.signed[key])) else n;
      var n2 := CountVote(n1, from, key);
      if |VotersFor(n2, key)| >= Majority(n2) then AbortPeer(env, n2, target, phase) else n2
  }

  function HandleReadyAckVote(env: Env, n: NodeState, from: PeerID, target: PeerID): NodeState {
    var key := Key(ReadyAck, target);
    var n1 := if target in n.readyPeers then Emit(n, TimeoutDispute(ReadyAck, target, Malformed)) else n;
    var n2 := CountVote(n1, from, key);
    if |VotersFor(n2, key)| >= PeerMajority(env) then ExcludeReadyAckPeer(env, n2, target) else n2
  }

  function ExcludeReadyAckPeer(env: Env, n: NodeState, target: PeerID): NodeState {
    if target in n.aborted then n
    else TryPublishSessionLock(env, n.(aborted := n.aborted[target := ReadyAck]))
  }

  /** A disputed message is taken like a gossiped one, except that a reveal1 buffered behind a
      disputed commit2 is not flushed and a disputed reveal1 leads to no strategic decision. */
  function AcceptDisputed(env: Env, n: NodeState, phase: Phase, target: PeerID, doc: Doc): NodeState
    requires SignedPhase(phase)
  {
    var value := DocValue(phase, doc);
    if !DocVerifies(env.c, phase, target, doc) then n
    else match phase
      case Commit2 =>
        if Conflicts(n.d.commit2s, target, value) then BroadcastEquivocation(n, Commit2, target, doc)
        else if !AcceptsCommit2(n.d, target) then n
        else TryStartReveal1(env, StoreSigned(n.(d := StoreCommit2(n.d, target, value)), Commit2, target, doc))
      case Reveal1 =>
        if Conflicts(n.d.reveal1s, target, value) then BroadcastEquivocation(n, Reveal1, target, doc)
        else if !AcceptsReveal1(env.c.H, n.d, target, value) then n
        else AcceptedReveal1(env, StoreSigned(n.(d := StoreReveal1(n.d, target, value)), Reveal1, target, doc), target)
      case Reveal2 => ProcessReveal2(env, n, target, value, doc)
  }

  function HandleTimeoutDispute(env: Env, n: NodeState, from: PeerID, phase: Phase, target: PeerID, doc: Doc): NodeState {
    var key := Key(phase, target);
    var n1 := CountDispute(n, from, key);
    var majority := if phase == ReadyAck then PeerMajority(env) else Majority(n1);
    if |DisputersFor(n1, key)| < majority then n1
    else
      var n2 := n1.(votes := n1.votes - {key});
      match phase
      case ReadyAck => TryPublishSessionLock(env, n2.(readyPeers := n2.readyPeers + {target}))
      case Other(_) => n2
      case _ => AcceptDisputed(env, n2, phase, target, doc)
  }

  predicate ProvesEquivocation(c: Crypto, phase: Phase, target: PeerID, first: Doc, second: Doc) {
    && DocVerifies(c, phase, target, first) && DocVerifies(c, phase, target, second)
    && DocValue(phase, first) != DocValue(phase, second)
  }

  function HandleEquivocationAbort(env: Env, n: NodeState, phase: Phase, target: PeerID, first: Doc, second: Doc): NodeState {
    if target in n.aborted || !ProvesEquivocation(env.c, phase, target, first, second) then n
    else AbortPeer(env, n, target, phase)
  }

  // --- session (session.go) ---

  function HandleProposeStart(n: NodeState, from: PeerID): NodeState {
    if n.sessionActive then n
    else if n.sessionProposer != NO_PEER && n.sessionProposer != from && n.sessionProposer != n.self then n
    else
      var n1 := if n.sessionProposer == NO_PEER then n.(sessionProposer := from) else n;
      if n.config.behavior.skipReadyAck then n1 else Emit(n1, ReadyAckMsg)
  }

  function HandleReadyAck(env: Env, n: NodeState, from: PeerID): NodeState {
    if n.sessionActive then n else TryPublishSessionLock(env, n.(readyPeers := n.readyPeers + {from}))
  }

  function TryPublishSessionLock(env: Env, n: NodeState): NodeState {
    if n.sessionProposer != n.self || n.sessionActive then n
    else if |n.readyPeers| + |AbortedIn(n, ReadyAck)| >= |env.peers| + 1 then PublishSessionLock(env, n)
    else n
  }

  function Without(ps: seq<PeerID>, aborted: set<PeerID>): seq<PeerID> {
    if ps == [] then []
    else
      var front, p := Without(ps[..|ps| - 1], aborted), ps[|ps| - 1];
      if p in aborted then front else front + [p]
  }

  function PublishSessionLock(env: Env, n: NodeState): NodeState {
    if n.sessionActive then n
    else
      var ps := Without(env.it(n.readyPeers), n.aborted.Keys);
      if ps == [] then n.(sessionProposer := NO_PEER) else Emit(n, SessionLock(Some(ps)))
  }

  /** Peers connected but not listed are excluded everywhere. */
  function LockSession(env: Env, n: NodeState, ps: seq<PeerID>): NodeState {
    n.(sessionActive := true, sessionSize := |ps|, participants := ps,
       aborted := n.aborted + (map p | p in env.peers && p !in ps && p !in n.aborted :: ReadyAck))
  }

  function CommitOwn(env: Env, n: NodeState): NodeState {
    var d := DcrSpec.StartCommit2(env.c.H, n.d, env.secret);
    SignAndPublish(env, n.(d := d), Commit2, d.myCommit2.value)
  }

  function HandleSessionLock(env: Env, n: NodeState, payload: Option<seq<PeerID>>): NodeState {
    if payload.None? || n.sessionActive then n
    else
      var n1 := LockSession(env, n, payload.value);
      if n.config.behavior.skipCommit then n1 else TryStartReveal1(env, CommitOwn(env, n1))
  }

  /** The manual START_COMMIT2 control; it is not an event of the runs below. */
  function OnStartCommit2(env: Env, n: NodeState): NodeState {
    if n.config.behavior.skipCommit then n else CommitOwn(env, n)
  }

  function LocalPropose(n: NodeState): NodeState {
    if n.sessionProposer != NO_PEER then n else Emit(n.(sessionProposer := n.self), ProposeStart)
  }

  // --- timeouts ---

  /** One TIMEOUT_VOTE for each listed peer outside `spared`. */
  function VotesAgainst(phase: Phase, ps: seq<PeerID>, spared: set<PeerID>): seq<Msg> {
    if ps == [] then []
    else
      var front, p := VotesAgainst(phase, ps[..|ps| - 1], spared), ps[|ps| - 1];
      if p in spared then front else front + [TimeoutVote(phase, p)]
  }

  /** voteFalseTimeout: votes against those who did answer. */
  function FalseVotes(n: NodeState, phase: Phase, responded: set<PeerID>): seq<Msg> {
    if !n.config.behavior.falseTimeoutVote then []
    else VotesAgainst(phase, n.participants, (SetOf(n.participants) - responded) + n.aborted.Keys + {n.self})
  }

  function VoteAbsent(n: NodeState, phase: Phase, responded: set<PeerID>): NodeState {
    n.(out := n.out + VotesAgainst(phase, n.participants, responded + n.aborted.Keys) + FalseVotes(n, phase, responded))
  }

  function OnCommitTimeout(n: NodeState): NodeState {
    if !n.sessionActive then n else VoteAbsent(n, Commit2, n.d.commit2s.Keys)
  }

  function OnReveal1Timeout(n: NodeState): NodeState {
    if !n.sessionActive || !n.reveal1Triggered then n else VoteAbsent(n, Reveal1, n.d.reveal1s.Keys)
  }

  function OnReveal2Timeout(n: NodeState, target: PeerID): NodeState {
    if n.reveal2Target != target then n else Emit(n, TimeoutVote(Reveal2, target))
  }

  function OnReadyAckTimeout(env: Env, n: NodeState): NodeState {
    if n.sessionActive then n
    else
      var vs := VotesAgainst(ReadyAck, env.peers, n.readyPeers);
      if vs == [] then TryPublishSessionLock(env, n) else n.(out := n.out + vs)
  }

  // --- dispatch ---

  datatype Event =
    | Receive(from: PeerID, msg: Msg)
    | Propose
    | CommitTimeout
    | Reveal1Timeout
    | Reveal2Timeout(target: PeerID)
    | ReadyAckTimeout

  function HandleMsg(env: Env, n: NodeState, from: PeerID, m: Msg): NodeState {
    match m
    case Gossip(phase, author, value, sig) => OnGossip(env, n, from, phase, author, value, sig)
    case ProposeStart => HandleProposeStart(n, from)
    case ReadyAckMsg => HandleReadyAck(env, n, from)
    case SessionLock(payload) => HandleSessionLock(env, n, payload)
    case TimeoutVote(phase, target) => HandleTimeoutVote(env, n, from, phase, target)
    case TimeoutDispute(phase, target, doc) => HandleTimeoutDispute(env, n, from, phase, target, doc)
    case EquivocationAbort(phase, target, first, second) => HandleEquivocationAbort(env, n, phase, target, first, second)
  }

  function Handle(env: Env, n: NodeState, e: Event): NodeState {
    match e
    case Receive(from, m) => HandleMsg(env, n, from, m)
    case Propose => LocalPropose(n)
    case CommitTimeout => OnCommitTimeout(n)
    case Reveal1Timeout => OnReveal1Timeout(n)
    case Reveal2Timeout(target) => if target == NO_PEER then n else OnReveal2Timeout(n, target)
    case ReadyAckTimeout => OnReadyAckTimeout(env, n)
  }
}
