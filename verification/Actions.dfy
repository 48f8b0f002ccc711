/** Every handler is a sequence of guarded atomic actions; the run-level theorems are proved
    action by action. */
module Actions {
  import opened Encoding
  import opened DcrSpec
  import opened VdfInput
  import opened Signing
  import opened NodeSpec

  /** "peer signed value in phase". */
  datatype Evidence = Evidence(phase: Phase, peer: PeerID, value: Bytes)

  /** The handler at work: its inputs, its event, and the signed values it has in hand. */
  datatype Ctx = Ctx(env: Env, event: Event, hand: set<Evidence>)

  datatype Action =
    | AcceptCommit2(p: PeerID, doc: Doc)
    | AcceptReveal1(p: PeerID, doc: Doc)
    | AcceptReveal2(p: PeerID, doc: Doc)
    | OwnCommit2
    | OwnReveal1
    | Speak(value: Bytes, sig: Bytes)
    | Publish(phase: Phase, value: Bytes, sig: Bytes)
    | SetOrder(order: seq<PeerID>, dist: map<PeerID, Bytes>, basis: Basis)
    | ClaimFirst
    | ClaimAfter(p: PeerID)
    | Send(m: Msg)
    | Vote(phase: Phase, target: PeerID)
    | AddVote(from: PeerID, key: Key)
    | AddDispute(from: PeerID, key: Key)
    | ClearVotes(key: Key)
    | Abort(p: PeerID, phase: Phase)
    | Arm(after: PeerID, next: PeerID)
    | Hold1(p: PeerID, doc: Doc)
    | Hold2(p: PeerID, doc: Doc)
    | Release1(p: PeerID)
    | Release2(p: PeerID)
    | StartVdf(run: VdfRun)
    | TriggerReveal1
    | MarkReady(p: PeerID)
    | SetProposer(p: PeerID)
    | Lock(ps: seq<PeerID>, absent: map<PeerID, Phase>)

  // The effect of an action, field by field.

  function ViewsAfter(env: Env, d: DcrState, a: Action): DcrState {
    match a
    case AcceptCommit2(p, doc) => StoreCommit2(d, p, DocValue(Commit2, doc))
    case AcceptReveal1(p, doc) => StoreReveal1(d, p, DocValue(Reveal1, doc))
    case AcceptReveal2(p, doc) => StoreReveal2(d, p, DocValue(Reveal2, doc))
    case OwnCommit2 => DcrSpec.StartCommit2(env.c.H, d, env.secret)
    case OwnReveal1 => DcrSpec.StartReveal1(d)
    case Speak(_, _) => DcrSpec.StartReveal2(d)
    case SetOrder(order, dist, basis) => d.(revealOrder := order, revealDist := dist, basis := Some(basis))
    case ClaimFirst => ClaimTurn(d)
    case ClaimAfter(_) => ClaimTurn(d)
    case _ => d
  }

  function SignedAfter(n: NodeState, a: Action): map<Key, Doc> {
    match a
    case AcceptCommit2(p, doc) => n.signed[Key(Commit2, p) := doc]
    case AcceptReveal1(p, doc) => n.signed[Key(Reveal1, p) := doc]
    case AcceptReveal2(p, doc) => n.signed[Key(Reveal2, p) := doc]
    case Speak(value, sig) => n.signed[Key(Reveal2, n.self) := DocFor(Reveal2, Some(n.self), value, sig)]
    case Publish(phase, value, sig) => n.signed[Key(phase, n.self) := DocFor(phase, Some(n.self), value, sig)]
    case _ => n.signed
  }

  function OutAfter(n: NodeState, a: Action): seq<Msg> {
    match a
    case Speak(value, sig) => n.out + [Gossip(Reveal2, Some(n.self), value, sig)]
    case Publish(phase, value, sig) => n.out + [Gossip(phase, Some(n.self), value, sig)]
    case Send(m) => n.out + [m]
    case Vote(phase, t) => n.out + [TimeoutVote(phase, t)]
    case _ => n.out
  }

  function VotesAfter(n: NodeState, a: Action): map<Key, set<PeerID>> {
    match a
    case AddVote(from, key) => n.votes[key := VotersFor(n, key) + {from}]
    case ClearVotes(key) => n.votes - {key}
    case _ => n.votes
  }

  function AbortedAfter(n: NodeState, a: Action): map<PeerID, Phase> {
    match a
    case Abort(p, phase) => n.aborted[p := phase]
    case Lock(_, absent) => n.aborted + absent
    case _ => n.aborted
  }

  function Pending1After(n: NodeState, a: Action): map<PeerID, Doc> {
    match a
    case Hold1(p, doc) => n.pending1[p := doc]
    case Release1(p) => n.pending1 - {p}
    case _ => n.pending1
  }

  function Pending2After(n: NodeState, a: Action): map<PeerID, Doc> {
    match a
    case Hold2(p, doc) => n.pending2[p := doc]
    case Release2(p) => n.pending2 - {p}
    case _ => n.pending2
  }

  function Do(env: Env, n: NodeState, a: Action): NodeState {
    n.(d := ViewsAfter(env, n.d, a),
       vdf := (if a.StartVdf? then Some(a.run) else n.vdf),
       sessionActive := n.sessionActive || a.Lock?,
       sessionSize := (if a.Lock? then |a.ps| else n.sessionSize),
       participants := (if a.Lock? then a.ps else n.participants),
       sessionProposer := (if a.SetProposer? then a.p else n.sessionProposer),
       readyPeers := (if a.MarkReady? then n.readyPeers + {a.p} else n.readyPeers),
       reveal1Triggered := n.reveal1Triggered || a.TriggerReveal1?,
       reveal2Target := (if a.Arm? then a.next else n.reveal2Target),
       votes := VotesAfter(n, a),
       disputes := (if a.AddDispute? then n.disputes[a.key := DisputersFor(n, a.key) + {a.from}] else n.disputes),
       aborted := AbortedAfter(n, a),
       signed := SignedAfter(n, a),
       pending1 := Pending1After(n, a),
       pending2 := Pending2After(n, a),
       orders := (if a.SetOrder? then n.orders + [a.order] else n.orders),
       out := OutAfter(n, a))
  }

  predicate InHand(x: Ctx, phase: Phase, p: PeerID, doc: Doc) {
    DocVerifies(x.env.c, phase, p, doc) && Evidence(phase, p, DocValue(phase, doc)) in x.hand
  }

  /** p has just published, or been aborted in reveal2, in the eyes of n. */
  predicate Passed(n: NodeState, p: PeerID) {
    p in n.d.reveal2s || Get(n.aborted, p) == Some(Reveal2)
  }

  ghost predicate TwoValues(hand: set<Evidence>, phase: Phase, p: PeerID) {
    && SignedPhase(phase)
    && exists v, w :: v != w && Evidence(phase, p, v) in hand && Evidence(phase, p, w) in hand
  }

  predicate VoteDue(x: Ctx, n: NodeState, phase: Phase, t: PeerID) {
    match phase
    case Commit2 => x.event == CommitTimeout && (t !in n.d.commit2s || n.config.behavior.falseTimeoutVote)
    case Reveal1 => x.event == Reveal1Timeout && (t !in n.d.reveal1s || n.config.behavior.falseTimeoutVote)
    case Reveal2 => t != NO_PEER && t == n.reveal2Target
    case ReadyAck => true
    case Other(_) => false
  }

  /** n has published its secret. */
  predicate Spoke(n: NodeState) {
    exists m | m in n.out :: m.Gossip? && m.phase == Reveal2
  }

  /** When an action may be taken. */
  ghost predicate Enabled(x: Ctx, n: NodeState, a: Action) {
    match a
    case AcceptCommit2(p, doc) => InHand(x, Commit2, p, doc) && AcceptsCommit2(n.d, p)
    case AcceptReveal1(p, doc) => InHand(x, Reveal1, p, doc) && AcceptsReveal1(x.env.c.H, n.d, p, DocValue(Reveal1, doc))
    case AcceptReveal2(p, doc) => InHand(x, Reveal2, p, doc) && AcceptsReveal2(x.env.c.H, n.d, p, DocValue(Reveal2, doc))
    case OwnCommit2 => n.sessionActive && n.d.mySecret.None?
    case OwnReveal1 => n.d.myReveal1.Some?
    case Speak(value, _) => n.d.reveal2Sent && n.d.mySecret == Some(value)
    case Publish(phase, value, _) =>
      (match phase
       case Commit2 => n.d.myCommit2 == Some(value)
       case Reveal1 => n.d.myReveal1 == Some(value) && n.self in n.d.reveal1s
       case _ => false)
    case SetOrder(_, _, _) => true
    case ClaimFirst => FirstTurn(n.d)
    case ClaimAfter(p) => TurnAfter(n.d, p) && Passed(n, p)
    case Send(m) => !m.Gossip? && !m.TimeoutVote?
    case Vote(phase, t) => VoteDue(x, n, phase, t)
    case AddVote(from, key) => x.event == Receive(from, TimeoutVote(key.phase, key.peer))
    case AddDispute(from, key) =>
      && x.event.Receive? && x.event.from == from && x.event.msg.TimeoutDispute?
      && x.event.msg.phase == key.phase && x.event.msg.target == key.peer
    case ClearVotes(key) => key.phase != ReadyAck ==> |DisputersFor(n, key)| >= Majority(n)
    case Abort(p, phase) =>
      && p !in n.aborted
      && (|| phase == ReadyAck
          || |VotersFor(n, Key(phase, p))| >= Majority(n)
          || TwoValues(x.hand, phase, p))
    case Arm(after, next) => next != NO_PEER && (after == NO_PEER || Passed(n, after))
    case Hold1(p, doc) => InHand(x, Reveal1, p, doc) && p != n.self && p !in n.pending1 && p !in n.d.commit2s
    case Hold2(p, doc) => InHand(x, Reveal2, p, doc) && p != n.self && p !in n.pending2 && p !in n.d.reveal1s
    case Release1(_) => true
    case Release2(_) => true
    case StartVdf(_) => n.vdf.None?
    case TriggerReveal1 => CommitGate(n)
    case MarkReady(_) => true
    case SetProposer(_) => true
    case Lock(_, absent) => !n.sessionActive && (forall p | p in absent :: p !in n.aborted && absent[p] == ReadyAck)
  }

  /** The values an action writes are the ones the code computes. */
  ghost predicate Computed(x: Ctx, n: NodeState, a: Action) {
    match a
    case SetOrder(order, dist, basis) =>
      n.d.(revealOrder := order, revealDist := dist, basis := Some(basis))
      == ComputeOrderExcluding(x.env.c.H, x.env.it, n.d, n.aborted.Keys)
    case Arm(after, next) => next == NextPendingPeer(n, after)
    case StartVdf(run) =>
      var fallback := AbortedIn(n, Reveal2);
      VdfGate(n.d, fallback) && run == VdfRun(n.d.revealOrder, fallback, FinalInputWithFallback(n.d, fallback))
      && n.d.revealOrder != []
    case Speak(value, sig) => sig == x.env.c.sign(n.self, SigningBytes(Reveal2, n.self, value))
    case Publish(phase, value, sig) => sig == x.env.c.sign(n.self, SigningBytes(phase, n.self, value))
    case _ => true
  }

  ghost predicate Guard(x: Ctx, n: NodeState, a: Action) {
    Enabled(x, n, a) && Computed(x, n, a)
  }

  ghost predicate Permitted(x: Ctx, n: NodeState, acts: seq<Action>)
    decreases |acts|
  {
    acts == [] || (Guard(x, n, acts[0]) && Permitted(x, Do(x.env, n, acts[0]), acts[1..]))
  }

  function RunActs(env: Env, n: NodeState, acts: seq<Action>): NodeState
    decreases |acts|
  {
    if acts == [] then n else RunActs(env, Do(env, n, acts[0]), acts[1..])
  }

  /** n' is reached from n by permitted actions. */
  ghost predicate Path(x: Ctx, n: NodeState, n': NodeState) {
    exists acts: seq<Action> :: Permitted(x, n, acts) && RunActs(x.env, n, acts) == n'
  }

  lemma Stay(x: Ctx, n: NodeState)
    ensures Path(x, n, n)
  {
    assert Permitted(x, n, []) && RunActs(x.env, n, []) == n;
  }

  lemma Act(x: Ctx, n: NodeState, a: Action)
    requires Guard(x, n, a)
    ensures Path(x, n, Do(x.env, n, a))
  {
    assert [a][0] == a && [a][1..] == [];
    assert Permitted(x, Do(x.env, n, a), []);
    assert Permitted(x, n, [a]) && RunActs(x.env, n, [a]) == Do(x.env, n, a);
  }

  lemma RunCons(x: Ctx, n: NodeState, acts: seq<Action>)
    requires acts != []
    ensures RunActs(x.env, n, acts) == RunActs(x.env, Do(x.env, n, acts[0]), acts[1..])
    ensures Permitted(x, n, acts) <==> Guard(x, n, acts[0]) && Permitted(x, Do(x.env, n, acts[0]), acts[1..])
  {
  }

  lemma RunAfterNothing(x: Ctx, n: NodeState, b: seq<Action>)
    ensures Permitted(x, n, []) && RunActs(x.env, n, []) == n && [] + b == b
  {
  }

  lemma JoinAfterFirst(x: Ctx, n: NodeState, a: seq<Action>, b: seq<Action>)
    requires a != [] && Permitted(x, n, a)
    ensures var m := Do(x.env, n, a[0]);
            && Permitted(x, m, a[1..]) && RunActs(x.env, n, a) == RunActs(x.env, m, a[1..])
            && (Permitted(x, n, a + b) <==> Permitted(x, m, a[1..] + b))
            && RunActs(x.env, n, a + b) == RunActs(x.env, m, a[1..] + b)
  {
    hide Guard, Do;
    var c := a + b;
    assert c[0] == a[0] && c[1..] == a[1..] + b;
    RunCons(x, n, a);
    RunCons(x, n, c);
  }

  lemma {:induction false} RunJoin(x: Ctx, n: NodeState, a: seq<Action>, b: seq<Action>)
    requires Permitted(x, n, a) && Permitted(x, RunActs(x.env, n, a), b)
    ensures Permitted(x, n, a + b) && RunActs(x.env, n, a + b) == RunActs(x.env, RunActs(x.env, n, a), b)
    decreases |a|
  {
    hide Permitted, RunActs, Do;
    if a == [] {
      RunAfterNothing(x, n, b);
    } else {
      JoinAfterFirst(x, n, a, b);
      RunJoin(x, Do(x.env, n, a[0]), a[1..], b);
    }
  }

  lemma Join(x: Ctx, n: NodeState, m: NodeState, k: NodeState)
    requires Path(x, n, m) && Path(x, m, k)
    ensures Path(x, n, k)
  {
    var a: seq<Action> :| Permitted(x, n, a) && RunActs(x.env, n, a) == m;
    var b: seq<Action> :| Permitted(x, m, b) && RunActs(x.env, m, b) == k;
    RunJoin(x, n, a, b);
  }

  /** Joins one more action to a path. */
  lemma Next(x: Ctx, n: NodeState, m: NodeState, a: Action)
    requires Path(x, n, m) && Guard(x, m, a)
    ensures Path(x, n, Do(x.env, m, a))
  {
    Act(x, m, a);
    Join(x, n, m, Do(x.env, m, a));
  }

  // --- one more action, by the state it leads to ---

  lemma ThenAcceptCommit2(x: Ctx, n: NodeState, m: NodeState, p: PeerID, doc: Doc)
    requires Path(x, n, m) && Enabled(x, m, AcceptCommit2(p, doc))
    ensures Path(x, n, StoreSigned(m.(d := StoreCommit2(m.d, p, DocValue(Commit2, doc))), Commit2, p, doc))
  {
    Next(x, n, m, AcceptCommit2(p, doc));
  }

  lemma ThenAcceptReveal1(x: Ctx, n: NodeState, m: NodeState, p: PeerID, doc: Doc)
    requires Path(x, n, m) && Enabled(x, m, AcceptReveal1(p, doc))
    ensures Path(x, n, StoreSigned(m.(d := StoreReveal1(m.d, p, DocValue(Reveal1, doc))), Reveal1, p, doc))
  {
    Next(x, n, m, AcceptReveal1(p, doc));
  }

  lemma ThenAcceptReveal2(x: Ctx, n: NodeState, m: NodeState, p: PeerID, doc: Doc)
    requires Path(x, n, m) && Enabled(x, m, AcceptReveal2(p, doc))
    ensures Path(x, n, StoreSigned(m.(d := StoreReveal2(m.d, p, DocValue(Reveal2, doc))), Reveal2, p, doc))
  {
    Next(x, n, m, AcceptReveal2(p, doc));
  }

  lemma ThenOwnCommit2(x: Ctx, n: NodeState, m: NodeState)
    requires Path(x, n, m) && Enabled(x, m, OwnCommit2)
    ensures Path(x, n, m.(d := DcrSpec.StartCommit2(x.env.c.H, m.d, x.env.secret)))
  {
    Next(x, n, m, OwnCommit2);
  }

  lemma ThenOwnReveal1(x: Ctx, n: NodeState, m: NodeState)
    requires Path(x, n, m) && Enabled(x, m, OwnReveal1)
    ensures Path(x, n, m.(d := DcrSpec.StartReveal1(m.d)))
  {
    Next(x, n, m, OwnReveal1);
  }

  /** Publishing the secret and registering it touch different fields, so they are one action. */
  lemma ThenSpeak(x: Ctx, n: NodeState, m: NodeState, value: Bytes)
    requires Path(x, n, m) && Enabled(x, m, Speak(value, []))
    ensures Path(x, n, SignAndPublish(x.env, m, Reveal2, value).(d := DcrSpec.StartReveal2(m.d)))
  {
    Next(x, n, m, Speak(value, x.env.c.sign(m.self, SigningBytes(Reveal2, m.self, value))));
  }

  lemma ThenClaimFirst(x: Ctx, n: NodeState, m: NodeState)
    requires Path(x, n, m) && Enabled(x, m, ClaimFirst)
    ensures Path(x, n, Claim(m))
  {
    Next(x, n, m, ClaimFirst);
  }

  lemma ThenClaimAfter(x: Ctx, n: NodeState, m: NodeState, p: PeerID)
    requires Path(x, n, m) && Enabled(x, m, ClaimAfter(p))
    ensures Path(x, n, Claim(m))
  {
    Next(x, n, m, ClaimAfter(p));
  }

  lemma ThenSend(x: Ctx, n: NodeState, m: NodeState, msg: Msg)
    requires Path(x, n, m) && Enabled(x, m, Send(msg))
    ensures Path(x, n, Emit(m, msg))
  {
    Next(x, n, m, Send(msg));
  }

  lemma ThenVote(x: Ctx, n: NodeState, m: NodeState, phase: Phase, t: PeerID)
    requires Path(x, n, m) && Enabled(x, m, Vote(phase, t))
    ensures Path(x, n, Emit(m, TimeoutVote(phase, t)))
  {
    Next(x, n, m, Vote(phase, t));
  }

  lemma ThenAddVote(x: Ctx, n: NodeState, m: NodeState, from: PeerID, key: Key)
    requires Path(x, n, m) && Enabled(x, m, AddVote(from, key))
    ensures Path(x, n, NodeSpec.CountVote(m, from, key))
  {
    Next(x, n, m, AddVote(from, key));
  }

  lemma ThenAddDispute(x: Ctx, n: NodeState, m: NodeState, from: PeerID, key: Key)
    requires Path(x, n, m) && Enabled(x, m, AddDispute(from, key))
    ensures Path(x, n, NodeSpec.CountDispute(m, from, key))
  {
    Next(x, n, m, AddDispute(from, key));
  }

  lemma ThenClearVotes(x: Ctx, n: NodeState, m: NodeState, key: Key)
    requires Path(x, n, m) && Enabled(x, m, ClearVotes(key))
    ensures Path(x, n, m.(votes := m.votes - {key}))
  {
    Next(x, n, m, ClearVotes(key));
  }

  lemma ThenAbort(x: Ctx, n: NodeState, m: NodeState, p: PeerID, phase: Phase)
    requires Path(x, n, m) && Enabled(x, m, Abort(p, phase))
    ensures Path(x, n, m.(aborted := m.aborted[p := phase]))
  {
    Next(x, n, m, Abort(p, phase));
  }

  lemma ThenHold1(x: Ctx, n: NodeState, m: NodeState, p: PeerID, doc: Doc)
    requires Path(x, n, m) && Enabled(x, m, Hold1(p, doc))
    ensures Path(x, n, m.(pending1 := m.pending1[p := doc]))
  {
    Next(x, n, m, Hold1(p, doc));
  }

  lemma ThenHold2(x: Ctx, n: NodeState, m: NodeState, p: PeerID, doc: Doc)
    requires Path(x, n, m) && Enabled(x, m, Hold2(p, doc))
    ensures Path(x, n, m.(pending2 := m.pending2[p := doc]))
  {
    Next(x, n, m, Hold2(p, doc));
  }

  lemma ThenRelease1(x: Ctx, n: NodeState, m: NodeState, p: PeerID)
    requires Path(x, n, m) && Enabled(x, m, Release1(p))
    ensures Path(x, n, m.(pending1 := m.pending1 - {p}))
  {
    Next(x, n, m, Release1(p));
  }

  lemma ThenRelease2(x: Ctx, n: NodeState, m: NodeState, p: PeerID)
    requires Path(x, n, m) && Enabled(x, m, Release2(p))
    ensures Path(x, n, m.(pending2 := m.pending2 - {p}))
  {
    Next(x, n, m, Release2(p));
  }

  lemma ThenTriggerReveal1(x: Ctx, n: NodeState, m: NodeState)
    requires Path(x, n, m) && Enabled(x, m, TriggerReveal1)
    ensures Path(x, n, m.(reveal1Triggered := true))
  {
    Next(x, n, m, TriggerReveal1);
  }

  lemma ThenMarkReady(x: Ctx, n: NodeState, m: NodeState, p: PeerID)
    requires Path(x, n, m) && Enabled(x, m, MarkReady(p))
    ensures Path(x, n, m.(readyPeers := m.readyPeers + {p}))
  {
    Next(x, n, m, MarkReady(p));
  }

  lemma ThenSetProposer(x: Ctx, n: NodeState, m: NodeState, p: PeerID)
    requires Path(x, n, m) && Enabled(x, m, SetProposer(p))
    ensures Path(x, n, m.(sessionProposer := p))
  {
    Next(x, n, m, SetProposer(p));
  }

  /** Nothing to do, or one more action. */
  lemma ThenVdf(x: Ctx, n: NodeState, m: NodeState)
    requires Path(x, n, m)
    ensures Path(x, n, TryStartVdf(m))
  {
    if TryStartVdf(m) != m {
      Next(x, n, m, StartVdf(TryStartVdf(m).vdf.value));
    }
  }

  lemma ThenArm(x: Ctx, n: NodeState, m: NodeState, after: PeerID)
    requires Path(x, n, m) && (after == NO_PEER || Passed(m, after))
    ensures Path(x, n, ArmNext(m, after))
  {
    var next := NextPendingPeer(m, after);
    if next != NO_PEER {
      Next(x, n, m, Arm(after, next));
    }
  }

  lemma ThenOrder(x: Ctx, n: NodeState, m: NodeState)
    requires Path(x, n, m)
    ensures Path(x, n, LogRevealOrder(x.env, m))
  {
    var d := ComputeOrderExcluding(x.env.c.H, x.env.it, m.d, m.aborted.Keys);
    Next(x, n, m, SetOrder(d.revealOrder, d.revealDist, d.basis.value));
  }

  lemma ThenPublish(x: Ctx, n: NodeState, m: NodeState, phase: Phase, value: Bytes)
    requires Path(x, n, m) && Enabled(x, m, Publish(phase, value, []))
    ensures Path(x, n, SignAndPublish(x.env, m, phase, value))
  {
    Next(x, n, m, Publish(phase, value, x.env.c.sign(m.self, SigningBytes(phase, m.self, value))));
  }

  lemma ThenLock(x: Ctx, n: NodeState, m: NodeState, ps: seq<PeerID>)
    requires Path(x, n, m) && !m.sessionActive
    ensures Path(x, n, LockSession(x.env, m, ps))
  {
    Next(x, n, m, Lock(ps, map p | p in x.env.peers && p !in ps && p !in m.aborted :: ReadyAck));
  }

  // --- what no action undoes ---

  ghost predicate ViewsGrow(d: DcrState, d': DcrState) {
    && d'.self == d.self
    && d.commit2s.Keys <= d'.commit2s.Keys
    && d.reveal1s.Keys <= d'.reveal1s.Keys
    && d.reveal2s.Keys <= d'.reveal2s.Keys
    && (d.reveal2Sent ==> d'.reveal2Sent)
  }

  ghost predicate LogsGrow(n: NodeState, n': NodeState) {
    n.out <= n'.out && n.orders <= n'.orders
  }

  ghost predicate SameNode(n: NodeState, n': NodeState) {
    n'.self == n.self && n'.config == n.config
  }

  ghost predicate SessionGrows(n: NodeState, n': NodeState) {
    && (n.sessionActive ==> n'.sessionActive && n'.sessionSize == n.sessionSize && n'.participants == n.participants)
    && (n.reveal1Triggered ==> n'.reveal1Triggered)
  }

  ghost predicate VdfStays(n: NodeState, n': NodeState) {
    n.vdf.Some? ==> n'.vdf == n.vdf
  }

  ghost predicate AbortsGrow(aborted: map<PeerID, Phase>, aborted': map<PeerID, Phase>) {
    forall p | p in aborted :: p in aborted' && aborted'[p] == aborted[p]
  }

  /** Nothing recorded is forgotten within a round. */
  ghost predicate Grows(n: NodeState, n': NodeState) {
    ViewsGrow(n.d, n'.d) && SameNode(n, n') && LogsGrow(n, n') && SessionGrows(n, n') && VdfStays(n, n')
    && AbortsGrow(n.aborted, n'.aborted)
  }

  lemma ActionGrowsViews(x: Ctx, n: NodeState, a: Action)
    ensures ViewsGrow(n.d, Do(x.env, n, a).d)
  {
  }

  lemma ActionGrowsLogs(x: Ctx, n: NodeState, a: Action)
    ensures LogsGrow(n, Do(x.env, n, a))
  {
  }

  lemma ActionKeepsNode(x: Ctx, n: NodeState, a: Action)
    ensures SameNode(n, Do(x.env, n, a))
  {
  }

  lemma ActionKeepsLaunchedVdf(x: Ctx, n: NodeState, a: Action)
    requires Enabled(x, n, a)
    ensures VdfStays(n, Do(x.env, n, a))
  {
  }

  lemma ActionGrowsSession(x: Ctx, n: NodeState, a: Action)
    requires Enabled(x, n, a)
    ensures SessionGrows(n, Do(x.env, n, a))
  {
  }

  lemma ActionGrowsAborts(x: Ctx, n: NodeState, a: Action)
    requires Enabled(x, n, a)
    ensures AbortsGrow(n.aborted, Do(x.env, n, a).aborted)
  {
  }

  lemma ActionGrows(x: Ctx, n: NodeState, a: Action)
    requires Enabled(x, n, a)
    ensures Grows(n, Do(x.env, n, a))
  {
    ActionGrowsViews(x, n, a);
    ActionGrowsLogs(x, n, a);
    ActionKeepsNode(x, n, a);
    ActionKeepsLaunchedVdf(x, n, a);
    ActionGrowsSession(x, n, a);
    ActionGrowsAborts(x, n, a);
  }

  lemma GrowsTransitive(n: NodeState, m: NodeState, k: NodeState)
    requires Grows(n, m) && Grows(m, k)
    ensures Grows(n, k)
  {
  }

  lemma {:induction false} RunGrows(x: Ctx, n: NodeState, acts: seq<Action>)
    requires Permitted(x, n, acts)
    ensures Grows(n, RunActs(x.env, n, acts))
    decreases |acts|
  {
    if acts != [] {
      var m := Do(x.env, n, acts[0]);
      ActionGrows(x, n, acts[0]);
      RunGrows(x, m, acts[1..]);
      GrowsTransitive(n, m, RunActs(x.env, n, acts));
    }
  }

  lemma PathGrows(x: Ctx, n: NodeState, n': NodeState)
    requires Path(x, n, n')
    ensures Grows(n, n')
  {
    var acts: seq<Action> :| Permitted(x, n, acts) && RunActs(x.env, n, acts) == n';
    RunGrows(x, n, acts);
  }
}
