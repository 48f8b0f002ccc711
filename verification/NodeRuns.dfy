/** Invariants of one node over every run of a round, whatever messages of the modelled kinds
    (NodeSpec.Msg: no START_* and no RESET control) it receives. */
module NodeRuns {
  import opened Encoding
  import opened DcrSpec
  import opened VdfInput
  import opened DcrRuns
  import opened Signing
  import opened NodeSpec
  import opened Actions
  import opened Handlers

  function PhaseMap(d: DcrState, phase: Phase): map<PeerID, Bytes> {
    match phase
    case Commit2 => d.commit2s
    case Reveal1 => d.reveal1s
    case Reveal2 => d.reveal2s
    case _ => map[]
  }

  predicate Published(n: NodeState, phase: Phase, value: Bytes) {
    exists m | m in n.out :: m.Gossip? && m.phase == phase && m.value == value
  }

  /** A published value is the node's own c, r or s, already registered under self. */
  predicate OwnValue(d: DcrState, phase: Phase, value: Bytes) {
    match phase
    case Commit2 => d.myCommit2 == Some(value) && d.self in d.commit2s
    case Reveal1 => d.myReveal1 == Some(value) && d.self in d.reveal1s
    case Reveal2 => d.mySecret == Some(value) && d.self in d.reveal2s
    case _ => false
  }

  ghost predicate PublishesOwn(n: NodeState) {
    forall m | m in n.out && m.Gossip? :: OwnValue(n.d, m.phase, m.value)
  }

  /** p's message in a phase is kept exactly when its value was accepted, and it is p's signed form of it. */
  ghost predicate ProofKept(c: Crypto, n: NodeState, phase: Phase, p: PeerID) {
    var accepted := Get(PhaseMap(n.d, phase), p);
    && (accepted.Some? <==> Key(phase, p) in n.signed)
    && (accepted.Some? ==> DocVerifies(c, phase, p, n.signed[Key(phase, p)])
                           && DocValue(phase, n.signed[Key(phase, p)]) == accepted.value)
  }

  ghost predicate KeepsProof(c: Crypto, n: NodeState) {
    forall phase, p | p != n.self :: ProofKept(c, n, phase, p)
  }

  ghost predicate PendingApart(c: Crypto, n: NodeState) {
    && (forall p | p in n.pending1 :: p != n.self && DocVerifies(c, Reveal1, p, n.pending1[p]))
    && (forall p | p in n.pending2 :: p != n.self && DocVerifies(c, Reveal2, p, n.pending2[p]))
  }

  /** The input handed to the VDF is what its order and fallback set still give. */
  ghost predicate VdfFromViews(n: NodeState) {
    n.vdf.Some? && n.vdf.value.input.Some? ==>
      Gather(n.vdf.value.order, FallbackSource(n.d, n.vdf.value.fallback)) == n.vdf.value.input
  }

  /** A locked session has the size of its list, and reveal1 starts only in one. */
  ghost predicate SessionKept(n: NodeState) {
    && (n.sessionActive ==> n.sessionSize == |n.participants|)
    && (n.reveal1Triggered ==> n.sessionActive)
  }

  ghost predicate NodeInv(c: Crypto, n: NodeState) {
    && n.d.self == n.self
    && (!n.sessionActive ==> n.d.mySecret.None?)
    && SessionKept(n)
    && (n.self in n.d.reveal2s ==> Spoke(n))
    && PendingApart(c, n) && PublishesOwn(n) && KeepsProof(c, n)
    && Chain(c.H, n.d) && OrderFromBasis(c.H, n.d) && VdfFromViews(n)
  }

  /** Ideal signatures, seen from the node: values in hand under its own name are values it published. */
  ghost predicate OwnUnforged(hand: set<Evidence>, n: NodeState) {
    forall e | e in hand && e.peer == n.self :: Published(n, e.phase, e.value)
  }

  lemma OwnNeverAccepted(x: Ctx, n: NodeState, a: Action)
    requires NodeInv(x.env.c, n) && OwnUnforged(x.hand, n) && Enabled(x, n, a)
    requires a.AcceptCommit2? || a.AcceptReveal1? || a.AcceptReveal2?
    ensures a.p != n.self
  {
  }

  /** The state-machine operation an action performs, if any. */
  function OpOf(env: Env, n: NodeState, a: Action): Option<Op> {
    match a
    case AcceptCommit2(p, doc) => Some(ReceiveCommit2(p, DocValue(Commit2, doc)))
    case AcceptReveal1(p, doc) => Some(ReceiveReveal1(p, DocValue(Reveal1, doc)))
    case AcceptReveal2(p, doc) => Some(ReceiveReveal2(p, DocValue(Reveal2, doc)))
    case OwnCommit2 => Some(DrawSecret(env.secret))
    case OwnReveal1 => Some(RegisterReveal1)
    case Speak(_, _) => Some(RegisterReveal2)
    case SetOrder(_, _, _) => Some(ComputeOrder(env.it, n.aborted.Keys))
    case ClaimFirst => Some(AskFirst)
    case ClaimAfter(p) => Some(AskAfter(p))
    case _ => None
  }

  lemma ActionIsOp(x: Ctx, n: NodeState, a: Action)
    requires Enabled(x, n, a) && !a.SetOrder?
    ensures Do(x.env, n, a).d == match OpOf(x.env, n, a) case Some(op) => Apply(x.env.c.H, n.d, op) case None => n.d
  {
  }

  lemma SetOrderIsOp(x: Ctx, n: NodeState, a: Action)
    requires Computed(x, n, a) && a.SetOrder?
    ensures Do(x.env, n, a).d == Apply(x.env.c.H, n.d, ComputeOrder(x.env.it, n.aborted.Keys))
  {
  }

  lemma ActionKeepsChain(x: Ctx, n: NodeState, a: Action)
    requires NodeInv(x.env.c, n) && OwnUnforged(x.hand, n) && Guard(x, n, a) && ValidIter(x.env.it)
    ensures var d := Do(x.env, n, a).d;
            Chain(x.env.c.H, d) && OrderFromBasis(x.env.c.H, d) && WrittenOnce(n.d, d)
  {
    hide Do, ProofKept, VdfFromViews, Computed;
    ClaimKeepsChain(x.env.c.H, n.d);
    var op := OpOf(x.env, n, a);
    if op.None? {
      ActionIsOp(x, n, a);
    } else {
      if a.AcceptCommit2? || a.AcceptReveal1? || a.AcceptReveal2? {
        OwnNeverAccepted(x, n, a);
      }
      if a.SetOrder? {
        SetOrderIsOp(x, n, a);
      } else {
        ActionIsOp(x, n, a);
      }
      StepKeepsChain(x.env.c.H, n.d, op.value);
      StepKeepsOrder(x.env.c.H, n.d, op.value);
    }
  }

  lemma OwnValueStays(H: Hash, d: DcrState, d': DcrState, phase: Phase, value: Bytes)
    requires OwnChain(H, d) && OwnChain(H, d') && WrittenOnce(d, d') && OwnValue(d, phase, value)
    ensures OwnValue(d', phase, value)
  {
  }

  lemma NewGossip(x: Ctx, n: NodeState, a: Action, m: Msg)
    requires Enabled(x, n, a) && n.d.self == n.self && OwnChain(x.env.c.H, n.d)
    requires m in Do(x.env, n, a).out && m.Gossip? && m !in n.out
    ensures a.Publish? || a.Speak?
    ensures a.Publish? ==> OwnValue(n.d, m.phase, m.value)
    ensures a.Speak? ==> OwnValue(Do(x.env, n, a).d, m.phase, m.value)
  {
  }

  lemma ActionPublishesOwn(x: Ctx, n: NodeState, a: Action)
    requires NodeInv(x.env.c, n) && OwnUnforged(x.hand, n) && Guard(x, n, a) && ValidIter(x.env.it)
    ensures PublishesOwn(Do(x.env, n, a))
  {
    hide Enabled, Computed, Do, OwnUnforged, ProofKept, OrderFromBasis, VdfFromViews, OwnValue;
    var n' := Do(x.env, n, a);
    ActionKeepsChain(x, n, a);
    forall m | m in n'.out && m.Gossip? ensures OwnValue(n'.d, m.phase, m.value) {
      if m !in n.out {
        NewGossip(x, n, a, m);
      }
      if OwnValue(n.d, m.phase, m.value) {
        OwnValueStays(x.env.c.H, n.d, n'.d, m.phase, m.value);
      }
    }
  }

  /** The actions that keep a signed message. */
  predicate Notes(a: Action) {
    a.AcceptCommit2? || a.AcceptReveal1? || a.AcceptReveal2? || a.Publish? || a.Speak?
  }

  lemma OpLeavesOthers(H: Hash, d: DcrState, op: Op, phase: Phase, p: PeerID)
    requires p != d.self && !op.ReceiveCommit2? && !op.ReceiveReveal1? && !op.ReceiveReveal2?
    ensures Get(PhaseMap(Apply(H, d, op), phase), p) == Get(PhaseMap(d, phase), p)
  {
  }

  lemma OnlyNotesSign(env: Env, n: NodeState, a: Action)
    requires !Notes(a)
    ensures Do(env, n, a).signed == n.signed
  {
  }

  lemma Commit2KeepsProofOf(x: Ctx, n: NodeState, q: PeerID, doc: Doc, phase: Phase, p: PeerID)
    requires InHand(x, Commit2, q, doc) && ProofKept(x.env.c, n, phase, p)
    ensures ProofKept(x.env.c, Do(x.env, n, AcceptCommit2(q, doc)), phase, p)
  {
    hide DocVerifies, DocValue;
  }

  lemma Reveal1KeepsProofOf(x: Ctx, n: NodeState, q: PeerID, doc: Doc, phase: Phase, p: PeerID)
    requires InHand(x, Reveal1, q, doc) && ProofKept(x.env.c, n, phase, p)
    ensures ProofKept(x.env.c, Do(x.env, n, AcceptReveal1(q, doc)), phase, p)
  {
    hide DocVerifies, DocValue;
  }

  lemma Reveal2KeepsProofOf(x: Ctx, n: NodeState, q: PeerID, doc: Doc, phase: Phase, p: PeerID)
    requires InHand(x, Reveal2, q, doc) && ProofKept(x.env.c, n, phase, p)
    ensures ProofKept(x.env.c, Do(x.env, n, AcceptReveal2(q, doc)), phase, p)
  {
    hide DocVerifies, DocValue;
  }

  lemma AcceptKeepsProofOf(x: Ctx, n: NodeState, a: Action, phase: Phase, p: PeerID)
    requires a.AcceptCommit2? || a.AcceptReveal1? || a.AcceptReveal2?
    requires Enabled(x, n, a) && ProofKept(x.env.c, n, phase, p)
    ensures ProofKept(x.env.c, Do(x.env, n, a), phase, p)
  {
    hide ProofKept, Do, InHand;
    match a {
      case AcceptCommit2(q, doc) => Commit2KeepsProofOf(x, n, q, doc, phase, p);
      case AcceptReveal1(q, doc) => Reveal1KeepsProofOf(x, n, q, doc, phase, p);
      case AcceptReveal2(q, doc) => Reveal2KeepsProofOf(x, n, q, doc, phase, p);
    }
  }

  lemma PublishKeepsProofOf(env: Env, n: NodeState, own: Phase, value: Bytes, sig: Bytes, phase: Phase, p: PeerID)
    requires p != n.self && ProofKept(env.c, n, phase, p)
    ensures ProofKept(env.c, Do(env, n, Publish(own, value, sig)), phase, p)
  {
    hide DocVerifies, DocValue;
  }

  lemma SpeakKeepsProofOf(env: Env, n: NodeState, value: Bytes, sig: Bytes, phase: Phase, p: PeerID)
    requires p != n.self && n.d.self == n.self && ProofKept(env.c, n, phase, p)
    ensures ProofKept(env.c, Do(env, n, Speak(value, sig)), phase, p)
  {
  }

  lemma QuietKeepsProofOf(x: Ctx, n: NodeState, a: Action, phase: Phase, p: PeerID)
    requires Enabled(x, n, a) && n.d.self == n.self && !Notes(a) && !a.SetOrder?
    requires p != n.self && ProofKept(x.env.c, n, phase, p)
    ensures ProofKept(x.env.c, Do(x.env, n, a), phase, p)
  {
    hide DocVerifies, DocValue, Enabled, Do;
    OnlyNotesSign(x.env, n, a);
    ActionIsOp(x, n, a);
    var op := OpOf(x.env, n, a);
    if op.Some? {
      OpLeavesOthers(x.env.c.H, n.d, op.value, phase, p);
    }
  }

  lemma OrderKeepsProofOf(x: Ctx, n: NodeState, a: Action, phase: Phase, p: PeerID)
    requires a.SetOrder? && ProofKept(x.env.c, n, phase, p)
    ensures ProofKept(x.env.c, Do(x.env, n, a), phase, p)
  {
    hide DocVerifies, DocValue;
  }

  lemma ActionKeepsProofOf(x: Ctx, n: NodeState, a: Action, phase: Phase, p: PeerID)
    requires Enabled(x, n, a) && n.d.self == n.self
    requires p != n.self && ProofKept(x.env.c, n, phase, p)
    ensures ProofKept(x.env.c, Do(x.env, n, a), phase, p)
  {
    hide Enabled, Do, ProofKept;
    if a.Publish? {
      PublishKeepsProofOf(x.env, n, a.phase, a.value, a.sig, phase, p);
    } else if a.Speak? {
      SpeakKeepsProofOf(x.env, n, a.value, a.sig, phase, p);
    } else if Notes(a) {
      AcceptKeepsProofOf(x, n, a, phase, p);
    } else if a.SetOrder? {
      OrderKeepsProofOf(x, n, a, phase, p);
    } else {
      QuietKeepsProofOf(x, n, a, phase, p);
    }
  }

  lemma ActionKeepsProof(x: Ctx, n: NodeState, a: Action)
    requires KeepsProof(x.env.c, n) && Enabled(x, n, a) && n.d.self == n.self
    ensures KeepsProof(x.env.c, Do(x.env, n, a))
  {
    ActionKeepsNode(x, n, a);
    forall phase, p | p != n.self ensures ProofKept(x.env.c, Do(x.env, n, a), phase, p) {
      ActionKeepsProofOf(x, n, a, phase, p);
    }
  }

  lemma Pending1Untouched(env: Env, n: NodeState, a: Action)
    requires !a.Hold1? && !a.Release1?
    ensures Do(env, n, a).pending1 == n.pending1
  {
  }

  lemma Pending2Untouched(env: Env, n: NodeState, a: Action)
    requires !a.Hold2? && !a.Release2?
    ensures Do(env, n, a).pending2 == n.pending2
  {
  }

  lemma ActionKeepsPending(x: Ctx, n: NodeState, a: Action)
    requires PendingApart(x.env.c, n) && Enabled(x, n, a)
    ensures PendingApart(x.env.c, Do(x.env, n, a))
  {
    ActionKeepsNode(x, n, a);
    if !a.Hold1? && !a.Release1? {
      Pending1Untouched(x.env, n, a);
    }
    if !a.Hold2? && !a.Release2? {
      Pending2Untouched(x.env, n, a);
    }
  }

  lemma SecretNeedsSession(x: Ctx, n: NodeState, a: Action)
    requires Enabled(x, n, a) && (!n.sessionActive ==> n.d.mySecret.None?)
    ensures !Do(x.env, n, a).sessionActive ==> Do(x.env, n, a).d.mySecret.None?
  {
    if !a.SetOrder? {
      ActionIsOp(x, n, a);
    }
    ActionGrowsSession(x, n, a);
  }

  lemma ActionKeepsSession(x: Ctx, n: NodeState, a: Action)
    requires Enabled(x, n, a) && SessionKept(n)
    ensures SessionKept(Do(x.env, n, a))
  {
  }

  lemma SourceExtends(d: DcrState, d': DcrState, order: seq<PeerID>, fallback: set<PeerID>)
    requires WrittenOnce(d, d') && Gather(order, FallbackSource(d, fallback)).Some?
    ensures Gather(order, FallbackSource(d', fallback)) == Gather(order, FallbackSource(d, fallback))
  {
    GatherDefined(order, FallbackSource(d, fallback));
    GatherAgrees(order, FallbackSource(d', fallback), FallbackSource(d, fallback));
  }

  lemma ActionKeepsVdf(x: Ctx, n: NodeState, a: Action)
    requires NodeInv(x.env.c, n) && OwnUnforged(x.hand, n) && Guard(x, n, a) && ValidIter(x.env.it)
    ensures VdfFromViews(Do(x.env, n, a))
  {
    ActionKeepsChain(x, n, a);
    ActionKeepsLaunchedVdf(x, n, a);
    if n.vdf.Some? && n.vdf.value.input.Some? {
      SourceExtends(n.d, Do(x.env, n, a).d, n.vdf.value.order, n.vdf.value.fallback);
    }
  }

  lemma SpokenStays(n: NodeState, n': NodeState)
    requires LogsGrow(n, n') && Spoke(n)
    ensures Spoke(n')
  {
    var m :| m in n.out && m.Gossip? && m.phase == Reveal2;
    assert m in n'.out;
  }

  lemma SpeakSpeaks(env: Env, n: NodeState, value: Bytes, sig: Bytes)
    ensures Spoke(Do(env, n, Speak(value, sig)))
  {
    assert Gossip(Reveal2, Some(n.self), value, sig) in Do(env, n, Speak(value, sig)).out;
  }

  lemma OwnSecretOnlyBySpeaking(x: Ctx, n: NodeState, a: Action)
    requires n.d.self == n.self && (a.AcceptReveal2? ==> a.p != n.self) && !a.Speak?
    ensures var n' := Do(x.env, n, a);
            n'.d.self == n'.self == n.self && (n.self in n'.d.reveal2s ==> n.self in n.d.reveal2s)
  {
  }

  /** The secret is registered under self only together with being published. */
  lemma RegisteredIsSpoken(x: Ctx, n: NodeState, a: Action)
    requires n.d.self == n.self && (n.self in n.d.reveal2s ==> Spoke(n))
    requires a.AcceptReveal2? ==> a.p != n.self
    ensures var n' := Do(x.env, n, a); n'.d.self == n'.self && (n'.self in n'.d.reveal2s ==> Spoke(n'))
  {
    if a.Speak? {
      SpeakSpeaks(x.env, n, a.value, a.sig);
    } else {
      hide Do, Spoke, LogsGrow;
      OwnSecretOnlyBySpeaking(x, n, a);
      ActionGrowsLogs(x, n, a);
      if n.self in n.d.reveal2s {
        SpokenStays(n, Do(x.env, n, a));
      }
    }
  }

  lemma UnforgedStays(hand: set<Evidence>, n: NodeState, n': NodeState)
    requires OwnUnforged(hand, n) && LogsGrow(n, n') && n'.self == n.self
    ensures OwnUnforged(hand, n')
  {
  }

  lemma ActionKeepsInv(x: Ctx, n: NodeState, a: Action)
    requires NodeInv(x.env.c, n) && OwnUnforged(x.hand, n) && Guard(x, n, a) && ValidIter(x.env.it)
    ensures NodeInv(x.env.c, Do(x.env, n, a)) && OwnUnforged(x.hand, Do(x.env, n, a))
    ensures WrittenOnce(n.d, Do(x.env, n, a).d)
  {
    hide Do, Enabled, Computed, OwnUnforged, Chain, OrderFromBasis, WrittenOnce, PublishesOwn, KeepsProof, PendingApart, VdfFromViews,
         SessionKept, Spoke, ViewsGrow, AbortsGrow;
    ActionGrows(x, n, a);
    if a.AcceptReveal2? {
      OwnNeverAccepted(x, n, a);
    }
    RegisteredIsSpoken(x, n, a);
    UnforgedStays(x.hand, n, Do(x.env, n, a));
    ActionKeepsChain(x, n, a);
    ActionPublishesOwn(x, n, a);
    ActionKeepsProof(x, n, a);
    ActionKeepsPending(x, n, a);
    SecretNeedsSession(x, n, a);
    ActionKeepsSession(x, n, a);
    ActionKeepsVdf(x, n, a);
  }

  lemma WrittenOnceTransitive(d: DcrState, e: DcrState, f: DcrState)
    requires WrittenOnce(d, e) && WrittenOnce(e, f)
    ensures WrittenOnce(d, f)
  {
  }

  lemma {:induction false} ActionsKeepInv(x: Ctx, n: NodeState, acts: seq<Action>)
    requires NodeInv(x.env.c, n) && OwnUnforged(x.hand, n) && Permitted(x, n, acts) && ValidIter(x.env.it)
    ensures NodeInv(x.env.c, RunActs(x.env, n, acts))
    ensures WrittenOnce(n.d, RunActs(x.env, n, acts).d)
    decreases |acts|
  {
    if acts != [] {
      var m := Do(x.env, n, acts[0]);
      ActionKeepsInv(x, n, acts[0]);
      ActionsKeepInv(x, m, acts[1..]);
      WrittenOnceTransitive(n.d, m.d, RunActs(x.env, m, acts[1..]).d);
    }
  }

  // --- whole runs ---

  datatype Stimulus = Stimulus(env: Env, event: Event)

  /** Each event comes with some environment; nobody signs in the node's name. */
  ghost predicate FairStimulus(c: Crypto, n: NodeState, s: Stimulus) {
    && s.env.c == c && ValidIter(s.env.it)
    && OwnUnforged(EventEvidence(c, s.event), n)
  }

  lemma HandUnforged(c: Crypto, n: NodeState, s: Stimulus)
    requires NodeInv(c, n) && FairStimulus(c, n, s)
    ensures WellFormed(c, n) && OwnUnforged(CtxOf(s.env, n, s.event).hand, n)
  {
    hide EventEvidence, Published, DocVerifies, Chain, OrderFromBasis, ProofKept, VdfFromViews;
  }

  lemma HandleKeepsInv(c: Crypto, n: NodeState, s: Stimulus)
    requires NodeInv(c, n) && FairStimulus(c, n, s)
    ensures NodeInv(c, Handle(s.env, n, s.event))
    ensures WrittenOnce(n.d, Handle(s.env, n, s.event).d) && Grows(n, Handle(s.env, n, s.event))
  {
    hide NodeInv, Handle, WellFormed, OwnUnforged, EventEvidence, PendingEvidence, Permitted, RunActs, WrittenOnce, Grows;
    var x := CtxOf(s.env, n, s.event);
    HandUnforged(c, n, s);
    HandlePath(s.env, n, s.event);
    PathGrows(x, n, Handle(s.env, n, s.event));
    var acts: seq<Action> :| Permitted(x, n, acts) && RunActs(x.env, n, acts) == Handle(s.env, n, s.event);
    ActionsKeepInv(x, n, acts);
  }

  function RunNode(n: NodeState, steps: seq<Stimulus>): NodeState
    decreases |steps|
  {
    if steps == [] then n else RunNode(Handle(steps[0].env, n, steps[0].event), steps[1..])
  }

  ghost predicate FairRun(c: Crypto, n: NodeState, steps: seq<Stimulus>)
    decreases |steps|
  {
    steps == [] ||
    (FairStimulus(c, n, steps[0]) && FairRun(c, Handle(steps[0].env, n, steps[0].event), steps[1..]))
  }

  lemma InitInv(c: Crypto, self: PeerID, config: Config)
    ensures NodeInv(c, InitNode(self, config))
  {
  }

  /** Over every run of a node: the hash chain holds, stored values are written once, every
      accepted message is kept with its proof, and a node signs one value per phase. */
  lemma {:induction false} RunKeepsInv(c: Crypto, n: NodeState, steps: seq<Stimulus>)
    requires NodeInv(c, n) && FairRun(c, n, steps)
    ensures NodeInv(c, RunNode(n, steps)) && WrittenOnce(n.d, RunNode(n, steps).d) && Grows(n, RunNode(n, steps))
    decreases |steps|
  {
    if steps == [] {
      ClaimKeepsChain(c.H, n.d);
    } else {
      var m := Handle(steps[0].env, n, steps[0].event);
      HandleKeepsInv(c, n, steps[0]);
      RunKeepsInv(c, m, steps[1..]);
      WrittenOnceTransitive(n.d, m.d, RunNode(n, steps).d);
      GrowsTransitive(n, m, RunNode(n, steps));
    }
  }

  /** Without a manual START_COMMIT2 (FailingRuns.StartCommit2Equivocates) a node publishes one value per phase. */
  lemma OneValuePerPhaseOverRuns(c: Crypto, self: PeerID, config: Config, steps: seq<Stimulus>, phase: Phase,
                                 v: Bytes, w: Bytes)
    requires FairRun(c, InitNode(self, config), steps)
    requires Published(RunNode(InitNode(self, config), steps), phase, v)
    requires Published(RunNode(InitNode(self, config), steps), phase, w)
    ensures v == w
  {
    InitInv(c, self, config);
    RunKeepsInv(c, InitNode(self, config), steps);
  }

  // --- a detected equivocation convinces everybody ---

  /** When a second, different signed value arrives from a peer already heard in that phase, the node
      broadcasts a proof that aborts the peer at every node that has not aborted it yet. */
  lemma EquivocationIsProvable(env: Env, n: NodeState, from: PeerID, phase: Phase, value: Bytes, sig: Bytes,
                               env2: Env, other: NodeState)
    requires NodeInv(env.c, n) && env2.c == env.c && other.d.self == other.self
    requires SignedPhase(phase) && from != n.self && from !in n.aborted
    requires VerifySignedMsg(env.c, phase, from, Some(from), value, sig)
    requires Conflicts(PhaseMap(n.d, phase), from, value)
    ensures var first, second := SignedOr(n, phase, from), DocFor(phase, Some(from), value, sig);
            && OnGossip(env, n, from, phase, Some(from), value, sig) == Emit(n, EquivocationAbort(phase, from, first, second))
            && Get(HandleEquivocationAbort(env2, other, phase, from, first, second).aborted, from)
               == Some(if from in other.aborted then other.aborted[from] else phase)
  {
    var doc := DocFor(phase, Some(from), value, sig);
    ConflictBroadcasts(env, n, from, phase, value, sig);
    ConflictProves(env.c, n, from, phase, value, sig);
    AbortIsFinal(env2, other, from, phase);
    ProofConvinces(env2, other, phase, from, SignedOr(n, phase, from), doc);
  }

  lemma ConflictProves(c: Crypto, n: NodeState, from: PeerID, phase: Phase, value: Bytes, sig: Bytes)
    requires KeepsProof(c, n) && SignedPhase(phase) && from != n.self
    requires VerifySignedMsg(c, phase, from, Some(from), value, sig)
    requires Conflicts(PhaseMap(n.d, phase), from, value)
    ensures ProvesEquivocation(c, phase, from, SignedOr(n, phase, from), DocFor(phase, Some(from), value, sig))
  {
    assert ProofKept(c, n, phase, from);
  }

  lemma ProofConvinces(env: Env, n: NodeState, phase: Phase, target: PeerID, first: Doc, second: Doc)
    requires ProvesEquivocation(env.c, phase, target, first, second)
    ensures HandleEquivocationAbort(env, n, phase, target, first, second) == AbortPeer(env, n, target, phase)
  {
  }

  lemma ConflictBroadcasts(env: Env, n: NodeState, from: PeerID, phase: Phase, value: Bytes, sig: Bytes)
    requires NodeInv(env.c, n) && SignedPhase(phase) && from != n.self && from !in n.aborted
    requires VerifySignedMsg(env.c, phase, from, Some(from), value, sig)
    requires Conflicts(PhaseMap(n.d, phase), from, value)
    ensures OnGossip(env, n, from, phase, Some(from), value, sig)
            == BroadcastEquivocation(n, phase, from, DocFor(phase, Some(from), value, sig))
  {
    assert phase == Reveal1 ==> from in n.d.commit2s;
    assert phase == Reveal2 ==> from in n.d.reveal1s;
  }

  lemma AbortIsFinal(env: Env, n: NodeState, target: PeerID, phase: Phase)
    requires n.d.self == n.self
    ensures Get(AbortPeer(env, n, target, phase).aborted, target)
            == Some(if target in n.aborted then n.aborted[target] else phase)
  {
    if target !in n.aborted {
      var x := Ctx(env, Propose, {});
      var n1 := n.(aborted := n.aborted[target := phase]);
      match phase {
        case Commit2 => TryStartReveal1Path(x, n1);
        case Reveal1 => TryComputePath(x, n1);
        case Reveal2 => ContinueAfterPath(x, n1, target);
        case _ => Stay(x, n1);
      }
      PathGrows(x, n1, AbortPeer(env, n, target, phase));
    }
  }
}
