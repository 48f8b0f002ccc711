/** A closed network of two honest nodes goes through a whole round: one order, both secrets in turn,
    one VDF input at both. */
module TwoNodes {
  import opened Encoding
  import opened FiniteSets
  import opened Sorting
  import opened DcrSpec
  import opened RevealOrder
  import opened DcrRuns
  import opened Signing
  import opened NodeSpec
  import opened Actions
  import opened Handlers
  import opened NodeRuns
  import opened Net = System
  import opened TurnOrder
  import opened Confluence
  import opened FailingRuns
  import opened Receipts
  import opened Openings
  import opened Secrets
  import SessionLaws

  // --- the network of the two ---

  function Start(p: PeerID, q: PeerID, configs: map<PeerID, Config>): Sys
    requires p in configs && q in configs
  {
    Sys(map[p := InitNode(p, configs[p]), q := InitNode(q, configs[q])], {})
  }

  ghost predicate GoodRun(c: Crypto, init: Sys, steps: seq<Step>) {
    LegalRun(c, init, steps) && UnforgedRun(c, init, steps) && ClosedRun(c, init, steps)
  }

  ghost predicate GoodStep(c: Crypto, sys: Sys, s: Step) {
    Legal(c, sys, s) && Unforged(c, sys, s) && Closed(c, sys, s)
  }

  lemma {:induction false} GoodRunsJoin(c: Crypto, sys: Sys, steps: seq<Step>, s: Step)
    requires GoodRun(c, sys, steps) && GoodStep(c, RunSys(sys, steps), s)
    ensures GoodRun(c, sys, steps + [s]) && RunSys(sys, steps + [s]) == Net.Next(RunSys(sys, steps), s)
    decreases |steps|
  {
    hide Legal, Unforged, Closed, Net.Next;
    var all := steps + [s];
    if steps == [] {
      assert all[0] == s && all[1..] == [];
      assert RunSys(sys, steps) == sys;
      assert GoodRun(c, Net.Next(sys, s), all[1..]) && RunSys(Net.Next(sys, s), all[1..]) == Net.Next(sys, s);
    } else {
      assert all[0] == steps[0] && all[1..] == steps[1..] + [s];
      GoodRunsJoin(c, Net.Next(sys, steps[0]), steps[1..], s);
    }
  }

  ghost predicate PairOf(sys: Sys, p: PeerID, q: PeerID, m: NodeState, n: NodeState) {
    && sys.nodes == map[p := m, q := n]
    && (forall msg | msg in m.out :: (p, msg) in sys.sent) && (forall msg | msg in n.out :: (q, msg) in sys.sent)
  }

  /** Some closed run from the start leads p to m and q to n. */
  ghost predicate Pair(c: Crypto, init: Sys, p: PeerID, q: PeerID, m: NodeState, n: NodeState) {
    exists steps: seq<Step> :: GoodRun(c, init, steps) && PairOf(RunSys(init, steps), p, q, m, n)
  }

  lemma PairSwaps(c: Crypto, init: Sys, p: PeerID, q: PeerID, m: NodeState, n: NodeState)
    requires p != q && Pair(c, init, p, q, m, n)
    ensures Pair(c, init, q, p, n, m)
  {
    hide GoodRun, RunSys;
    var steps: seq<Step> :| GoodRun(c, init, steps) && PairOf(RunSys(init, steps), p, q, m, n);
    assert map[p := m, q := n] == map[q := n, p := m];
    assert PairOf(RunSys(init, steps), q, p, n, m);
  }

  /** A message one of the two has sent, with nothing signed in it but what its author published. */
  ghost predicate Available(c: Crypto, p: PeerID, q: PeerID, m: NodeState, n: NodeState, e: Event) {
    && (e.Receive? ==> (e.from == p && e.msg in m.out) || (e.from == q && e.msg in n.out))
    && (forall ev | ev in EventEvidence(c, e) ::
          (ev.peer == p && Published(m, ev.phase, ev.value)) || (ev.peer == q && Published(n, ev.phase, ev.value)))
  }

  lemma AvailableIsGood(c: Crypto, sys: Sys, p: PeerID, q: PeerID, m: NodeState, n: NodeState, env: Env, e: Event)
    requires p != q && PairOf(sys, p, q, m, n) && env.c == c && ValidIter(env.it) && Available(c, p, q, m, n, e)
    ensures GoodStep(c, sys, At(p, Stimulus(env, e)))
  {
    hide EventEvidence, Published, ValidIter;
  }

  lemma MovedPair(sys: Sys, p: PeerID, q: PeerID, m: NodeState, n: NodeState, m': NodeState)
    requires p != q && PairOf(sys, p, q, m, n)
    ensures PairOf(Moved(sys, p, m'), p, q, m', n)
  {
  }

  lemma PairNext(c: Crypto, init: Sys, p: PeerID, q: PeerID, m: NodeState, n: NodeState, env: Env, e: Event)
    requires p != q && InitSys(init) && Pair(c, init, p, q, m, n)
    requires env.c == c && ValidIter(env.it) && Available(c, p, q, m, n, e)
    ensures Pair(c, init, p, q, Handle(env, m, e), n) && Grows(m, Handle(env, m, e))
  {
    hide Handle, GoodRun, RunSys, PairOf, GoodStep, Available, Grows, InitSys, ValidIter, Net.Next;
    var steps: seq<Step> :| GoodRun(c, init, steps) && PairOf(RunSys(init, steps), p, q, m, n);
    var sys, s := RunSys(init, steps), At(p, Stimulus(env, e));
    AvailableIsGood(c, sys, p, q, m, n, env, e);
    GoodRunsJoin(c, init, steps, s);
    MoverMoves(sys, p, q, m, n, env, e);
    MovedPair(sys, p, q, m, n, Handle(env, m, e));
    assert PairOf(RunSys(init, steps + [s]), p, q, Handle(env, m, e), n);
    MoverGrows(c, init, steps, p, q, m, n, env, e);
  }

  lemma MoverMoves(sys: Sys, p: PeerID, q: PeerID, m: NodeState, n: NodeState, env: Env, e: Event)
    requires PairOf(sys, p, q, m, n) && p != q
    ensures Net.Next(sys, At(p, Stimulus(env, e))) == Moved(sys, p, Handle(env, m, e))
  {
    hide Handle, Moved;
  }

  lemma MoverGrows(c: Crypto, init: Sys, steps: seq<Step>, p: PeerID, q: PeerID, m: NodeState, n: NodeState,
                   env: Env, e: Event)
    requires InitSys(init) && GoodRun(c, init, steps) && p != q && PairOf(RunSys(init, steps), p, q, m, n)
    requires GoodStep(c, RunSys(init, steps), At(p, Stimulus(env, e)))
    ensures Grows(m, Handle(env, m, e))
  {
    hide Handle, RunSys, Grows, InitSys, SysInv, LegalRun, UnforgedRun, ClosedRun, Legal, Unforged, Closed;
    var sys, s := RunSys(init, steps), At(p, Stimulus(env, e));
    InitSysInv(c, init);
    RunKeepsSysInv(c, init, steps);
    Accountability.StepGrows(c, sys, s);
    assert sys.nodes[p] == m && Net.Next(sys, s).nodes[p] == Handle(env, m, e);
  }

  // --- agreeing to start ---

  /** A node that has only talked about starting. */
  ghost predicate Talking(n: NodeState, self: PeerID, config: Config) {
    n == InitNode(self, config).(out := n.out, sessionProposer := n.sessionProposer, readyPeers := n.readyPeers)
  }

  lemma ProposeStep(env: Env, n: NodeState, self: PeerID, config: Config)
    requires Talking(n, self, config) && n.sessionProposer == NO_PEER
    ensures var m := Handle(env, n, Propose);
            && Talking(m, self, config) && m.out == n.out + [Msg.ProposeStart]
            && m.sessionProposer == self && m.readyPeers == n.readyPeers
  {
  }

  lemma AnswerStep(env: Env, n: NodeState, self: PeerID, config: Config, from: PeerID)
    requires Talking(n, self, config) && Honest(config) && (n.sessionProposer == NO_PEER || n.sessionProposer == from)
    ensures var m := Handle(env, n, Event.Receive(from, Msg.ProposeStart));
            && Talking(m, self, config) && m.out == n.out + [ReadyAckMsg]
            && m.sessionProposer == from && m.readyPeers == n.readyPeers
  {
  }

  lemma FirstAckStep(env: Env, n: NodeState, self: PeerID, config: Config, from: PeerID)
    requires Talking(n, self, config) && n.sessionProposer == self && n.readyPeers == {} && |env.peers| == 1
    ensures var m := Handle(env, n, Event.Receive(from, ReadyAckMsg));
            Talking(m, self, config) && m.out == n.out && m.sessionProposer == self && m.readyPeers == {from}
  {
    var n1 := n.(readyPeers := n.readyPeers + {from});
    assert n1.readyPeers == {from} && AbortedIn(n1, ReadyAck) == {};
  }

  /** The second acknowledgement completes the two, and the lock goes out. */
  lemma SecondAckStep(env: Env, n: NodeState, self: PeerID, config: Config, from: PeerID) returns (ps: seq<PeerID>)
    requires Talking(n, self, config) && n.sessionProposer == self && n.readyPeers == {self} && from != self
    requires |env.peers| == 1
    requires ValidIter(env.it)
    ensures NoDuplicates(ps) && SetOf(ps) == {self, from}
    ensures var m := Handle(env, n, Event.Receive(from, ReadyAckMsg));
            Talking(m, self, config) && m.out == n.out + [SessionLock(Some(ps))]
  {
    hide NodeSpec.Without, ValidIter;
    var n1 := n.(readyPeers := n.readyPeers + {from});
    assert n1.readyPeers == {self, from} && AbortedIn(n1, ReadyAck) == {};
    SessionLaws.IterationIsDistinct(env.it, n1.readyPeers);
    SessionLaws.WithoutFilters(env.it(n1.readyPeers), n1.aborted.Keys);
    ps := NodeSpec.Without(env.it(n1.readyPeers), n1.aborted.Keys);
    assert |{self, from}| == 2;
    assert ps != [] by { assert self in SetOf(ps); }
    assert TryPublishSessionLock(env, n1) == Emit(n1, SessionLock(Some(ps)));
  }

  // --- the round at one node ---

  /** An honest node of a locked session of two, with this view. */
  ghost predicate InRound(n: NodeState, d: DcrState, orders: seq<seq<PeerID>>, vdf: Option<VdfRun>, revealing: bool) {
    && n.self == n.d.self && n.d == d && Honest(n.config) && n.sessionActive && n.sessionSize == 2
    && n.pending1 == map[] && n.pending2 == map[] && n.aborted == map[] && n.orders == orders && n.vdf == vdf
    && n.reveal1Triggered == revealing
  }

  function Committed(c: Crypto, self: PeerID, secret: Bytes): DcrState {
    DcrSpec.StartCommit2(c.H, Init(self), secret)
  }

  lemma LockInRound(env: Env, n: NodeState, self: PeerID, config: Config, from: PeerID, ps: seq<PeerID>)
    requires Talking(n, self, config) && Honest(config) && |ps| == 2 && (forall p | p in env.peers :: p in ps)
    ensures var m := Handle(env, n, Event.Receive(from, SessionLock(Some(ps))));
            && InRound(m, Committed(env.c, self, env.secret), [], None, false)
            && OwnGossip(env.c, Commit2, self, env.c.H(env.c.H(env.secret))) in m.out
  {
    hide RevealOwn1, SigningBytes;
    var n1 := LockSession(env, n, ps);
    assert n1.aborted == map[];
    var n2 := CommitOwn(env, n1);
    assert n2.d.commit2s.Keys == {self};
    assert LateAborts(n2) == {};
    assert |n2.d.commit2s| == 1;
    assert !CommitGate(n2);
  }

  function Revealing(c: Crypto, self: PeerID, secret: Bytes, other: PeerID, c2: Bytes): DcrState {
    DcrSpec.StartReveal1(StoreCommit2(Committed(c, self, secret), other, c2))
  }

  lemma CommitInRound(env: Env, n: NodeState, self: PeerID, secret: Bytes, other: PeerID, c2: Bytes)
    requires SignaturesVerify(env.c) && InRound(n, Committed(env.c, self, secret), [], None, false) && other != self
    ensures var m := Handle(env, n, GossipOf(env.c, Commit2, other, c2));
            && InRound(m, Revealing(env.c, self, secret, other, c2), [], None, true)
            && OwnGossip(env.c, Reveal1, self, env.c.H(secret)) in m.out
  {
    hide Handle, OrderAndTrigger;
    NoAbortsNoLoss(n);
    assert |n.d.commit2s| == |n.d.commit2s.Keys| == 1;
    LastCommitOpens(env, n, other, c2);
    var doc := DocFor(Commit2, Some(other), c2, SignedLetter(env.c, Commit2, other, c2).sig);
    RevealAlone(env, WithCommit2(n, other, c2, doc).(reveal1Triggered := true), self, secret, other, c2);
  }

  lemma RevealAlone(env: Env, n: NodeState, self: PeerID, secret: Bytes, other: PeerID, c2: Bytes)
    requires other != self && InRound(n, StoreCommit2(Committed(env.c, self, secret), other, c2), [], None, true)
    ensures var m := RevealOwn1(env, n);
            && InRound(m, Revealing(env.c, self, secret, other, c2), [], None, true)
            && OwnGossip(env.c, Reveal1, self, env.c.H(secret)) in m.out
  {
    hide OrderAndTrigger;
    var d := DcrSpec.StartReveal1(n.d);
    assert d.commit2s.Keys == {self, other} && d.reveal1s.Keys == {self};
    assert |d.commit2s| == |d.commit2s.Keys| == 2 && |d.reveal1s| == |d.reveal1s.Keys| == 1;
    assert !AllReady(d);
  }

  function Opened(c: Crypto, self: PeerID, secret: Bytes, other: PeerID, otherSecret: Bytes): DcrState {
    StoreReveal1(Revealing(c, self, secret, other, c.H(c.H(otherSecret))), other, c.H(otherSecret))
  }

  function Ordering(c: Crypto, it: Iter, self: PeerID, secret: Bytes, other: PeerID, otherSecret: Bytes): DcrState {
    ComputeOrderExcluding(c.H, it, Opened(c, self, secret, other, otherSecret), {})
  }

  lemma OrderingFields(c: Crypto, it: Iter, self: PeerID, secret: Bytes, other: PeerID, otherSecret: Bytes)
    requires other != self
    ensures var d, cs, rs := Ordering(c, it, self, secret, other, otherSecret),
                             map[self := c.H(c.H(secret)), other := c.H(c.H(otherSecret))],
                             map[self := c.H(secret), other := c.H(otherSecret)];
            && d.self == self && d.mySecret == Some(secret) && d.commit2s == cs && d.reveal1s == rs && d.reveal2s == map[]
            && !d.reveal2Sent && d.basis == Some(Basis(cs, rs, {}))
  {
    hide OrderFrom, Distances, Omega, RevealEntries;
  }

  lemma TwoReveals(env: Env, n: NodeState, self: PeerID, secret: Bytes, other: PeerID, otherSecret: Bytes)
    requires SignaturesVerify(env.c) && other != self
    requires InRound(n, Revealing(env.c, self, secret, other, env.c.H(env.c.H(otherSecret))), [], None, true)
    ensures var r := env.c.H(otherSecret);
            var n1 := WithReveal1(n, other, r, DocFor(Reveal1, Some(other), r, SignedLetter(env.c, Reveal1, other, r).sig));
            Handle(env, n, GossipOf(env.c, Reveal1, other, r)) == OrderAndTrigger(env, n1)
  {
    hide Handle, OrderAndTrigger, EffectiveSize;
    var r := env.c.H(otherSecret);
    Reveal1Cases(env, n, other, r);
    var d := StoreReveal1(n.d, other, r);
    assert d.reveal1s.Keys == {self, other} == d.commit2s.Keys;
    assert |d.reveal1s| == |d.reveal1s.Keys| && |d.commit2s| == |d.commit2s.Keys|;
  }

  /** The order is computed; the first in it speaks at once. */
  lemma RevealInRound(env: Env, n: NodeState, self: PeerID, secret: Bytes, other: PeerID, otherSecret: Bytes)
    requires SignaturesVerify(env.c) && other != self
    requires InRound(n, Revealing(env.c, self, secret, other, env.c.H(env.c.H(otherSecret))), [], None, true)
    ensures var m, d := Handle(env, n, GossipOf(env.c, Reveal1, other, env.c.H(otherSecret))),
                        Ordering(env.c, env.it, self, secret, other, otherSecret);
            && (d.revealOrder == [self, other] ==>
                  && InRound(m, DcrSpec.StartReveal2(ClaimTurn(d)), [d.revealOrder], None, true)
                  && OwnGossip(env.c, Reveal2, self, secret) in m.out)
            && (d.revealOrder == [other, self] ==> InRound(m, d, [d.revealOrder], None, true))
  {
    hide Handle, OrderAndTrigger, Ordering;
    var r := env.c.H(otherSecret);
    TwoReveals(env, n, self, secret, other, otherSecret);
    OrderingFields(env.c, env.it, self, secret, other, otherSecret);
    TriggerInRound(env, WithReveal1(n, other, r, DocFor(Reveal1, Some(other), r, SignedLetter(env.c, Reveal1, other, r).sig)),
                   self, secret, other, otherSecret);
  }

  lemma LoggedOrder(env: Env, n: NodeState, self: PeerID, secret: Bytes, other: PeerID, otherSecret: Bytes)
    requires InRound(n, Opened(env.c, self, secret, other, otherSecret), [], None, true)
    ensures var d := Ordering(env.c, env.it, self, secret, other, otherSecret);
            InRound(LogRevealOrder(env, n), d, [d.revealOrder], None, true)
  {
    hide ComputeOrderExcluding;
    assert n.aborted.Keys == {};
    var d := Ordering(env.c, env.it, self, secret, other, otherSecret);
    OrderTouches(env.c.H, env.it, n.d, {});
    assert [] + [d.revealOrder] == [d.revealOrder];
  }

  lemma TriggerInRound(env: Env, n: NodeState, self: PeerID, secret: Bytes, other: PeerID, otherSecret: Bytes)
    requires other != self
    requires InRound(n, Opened(env.c, self, secret, other, otherSecret), [], None, true)
    ensures var m, d := OrderAndTrigger(env, n), Ordering(env.c, env.it, self, secret, other, otherSecret);
            && (d.revealOrder == [self, other] ==>
                  && InRound(m, DcrSpec.StartReveal2(ClaimTurn(d)), [d.revealOrder], None, true)
                  && OwnGossip(env.c, Reveal2, self, secret) in m.out)
            && (d.revealOrder == [other, self] ==> InRound(m, d, [d.revealOrder], None, true))
  {
    hide LogRevealOrder, PublishReveal2, NextPendingPeer, Ordering;
    var n1 := LogRevealOrder(env, n);
    LoggedOrder(env, n, self, secret, other, otherSecret);
    OrderingFields(env.c, env.it, self, secret, other, otherSecret);
    HonestSpeaks(env, Claim(n1));
  }

  // --- the secrets ---

  /** With both secrets held the VDF is launched on their concatenation. */
  lemma BothLaunch(n: NodeState, x: PeerID, y: PeerID, first: Bytes, second: Bytes)
    requires x != y && n.vdf.None? && n.aborted == map[] && n.d.revealOrder == [x, y]
    requires n.d.reveal2s == map[x := first, y := second]
    ensures NodeSpec.TryStartVdf(n) == n.(vdf := Some(VdfRun([x, y], {}, Some(first + second))))
  {
    hide Gather;
    assert AbortedIn(n, Reveal2) == {};
    assert n.d.reveal2s.Keys - {} == {x, y} && |{x, y}| == 2;
    PairInput(FallbackSource(n.d, {}), x, y);
  }

  lemma PairInput(source: map<PeerID, Bytes>, x: PeerID, y: PeerID)
    requires x in source && y in source
    ensures Gather([x, y], source) == Some(source[x] + source[y])
  {
    assert [x, y][..1] == [x] && [x][..0] == [];
    assert Gather([], source) == Some([]);
    assert Gather([x], source) == Some([] + source[x]) && [] + source[x] == source[x];
  }

  /** The one who has spoken takes the other's secret. */
  lemma FirstHears(env: Env, n: NodeState, d: DcrState, self: PeerID, secret: Bytes, other: PeerID, otherSecret: Bytes)
    requires SignaturesVerify(env.c) && other != self && d.self == self && d.revealOrder == [self, other]
    requires InRound(n, d, [[self, other]], None, true) && d.reveal2Sent && d.reveal2s == map[self := secret]
    requires Get(d.reveal1s, other) == Some(env.c.H(otherSecret))
    ensures InRound(Handle(env, n, GossipOf(env.c, Reveal2, other, otherSecret)), StoreReveal2(d, other, otherSecret),
                    [[self, other]], Some(VdfRun([self, other], {}, Some(secret + otherSecret))), true)
  {
    hide Handle, NodeSpec.TryStartVdf, NextPendingPeer, PublishReveal2;
    GossipedReveal2(env, n, other, otherSecret);
    var doc := DocFor(Reveal2, Some(other), otherSecret, SignedLetter(env.c, Reveal2, other, otherSecret).sig);
    var n1 := StoreSigned(n.(d := StoreReveal2(n.d, other, otherSecret)), Reveal2, other, doc);
    BothLaunch(NodeSpec.ArmNext(n1, other), self, other, secret, otherSecret);
  }

  /** The second takes the first's secret, speaks and launches. */
  lemma SecondHears(env: Env, n: NodeState, d: DcrState, self: PeerID, secret: Bytes, other: PeerID, otherSecret: Bytes)
    requires SignaturesVerify(env.c) && other != self && d.self == self && d.revealOrder == [other, self]
    requires InRound(n, d, [[other, self]], None, true) && !d.reveal2Sent && d.reveal2s == map[] && d.mySecret == Some(secret)
    requires Get(d.reveal1s, other) == Some(env.c.H(otherSecret))
    ensures var m := Handle(env, n, GossipOf(env.c, Reveal2, other, otherSecret));
            && InRound(m, DcrSpec.StartReveal2(ClaimTurn(StoreReveal2(d, other, otherSecret))),
                       [[other, self]], Some(VdfRun([other, self], {}, Some(otherSecret + secret))), true)
            && OwnGossip(env.c, Reveal2, self, secret) in m.out
  {
    hide Handle, NodeSpec.TryStartVdf, NextPendingPeer, PublishReveal2, TurnAfter;
    GossipedReveal2(env, n, other, otherSecret);
    var doc := DocFor(Reveal2, Some(other), otherSecret, SignedLetter(env.c, Reveal2, other, otherSecret).sig);
    var n1 := StoreSigned(n.(d := StoreReveal2(n.d, other, otherSecret)), Reveal2, other, doc);
    SecondsTurn(n1.d, self, other);
    HonestSpeaks(env, Claim(n1));
    BothLaunch(NodeSpec.ArmNext(PublishReveal2(env, Claim(n1)), other), other, self, otherSecret, secret);
  }

  lemma SecondsTurn(d: DcrState, self: PeerID, other: PeerID)
    requires self != other && d.self == self && d.revealOrder == [other, self] && !d.reveal2Sent
    ensures TurnAfter(d, other)
  {
    var o := d.revealOrder;
    assert o[..1] == [other];
    assert LastIndex([other], other) == 0;
  }

  // --- the run ---

  lemma StillSent(n: NodeState, n': NodeState, msg: Msg)
    requires Grows(n, n') && msg in n.out
    ensures msg in n'.out
  {
    Accountability.GrowsLogs(n, n');
  }

  /** A move on an unsigned message of either, or on none. */
  lemma TalkNext(c: Crypto, init: Sys, p: PeerID, q: PeerID, m: NodeState, n: NodeState, env: Env, e: Event)
    requires p != q && InitSys(init) && Pair(c, init, p, q, m, n) && env.c == c && ValidIter(env.it)
    requires e.Receive? ==> (e.from == p && e.msg in m.out) || (e.from == q && e.msg in n.out)
    requires e == Propose || (e.Receive? && (e.msg.ProposeStart? || e.msg.ReadyAckMsg? || e.msg.SessionLock?))
    ensures Pair(c, init, p, q, Handle(env, m, e), n) && Grows(m, Handle(env, m, e))
  {
    hide Pair, Handle, InitSys, ValidIter, Grows;
    assert EventEvidence(c, e) == {};
    PairNext(c, init, p, q, m, n, env, e);
  }

  /** A move on a value the other has published. */
  lemma GossipNext(c: Crypto, init: Sys, p: PeerID, q: PeerID, m: NodeState, n: NodeState, env: Env, phase: Phase,
                   value: Bytes)
    requires p != q && InitSys(init) && Pair(c, init, p, q, m, n) && env.c == c && ValidIter(env.it)
    requires OwnGossip(c, phase, q, value) in n.out
    ensures var m' := Handle(env, m, GossipOf(c, phase, q, value)); Pair(c, init, p, q, m', n) && Grows(m, m')
  {
    hide Pair, Handle, InitSys, ValidIter, Grows;
    assert Available(c, p, q, m, n, GossipOf(c, phase, q, value)) by {
      forall ev | ev in EventEvidence(c, GossipOf(c, phase, q, value))
        ensures ev.peer == q && Published(n, ev.phase, ev.value)
      {
        assert ev == Evidence(phase, q, value);
      }
    }
    PairNext(c, init, p, q, m, n, env, GossipOf(c, phase, q, value));
  }

  lemma FreshPair(c: Crypto, p: PeerID, q: PeerID, configs: map<PeerID, Config>)
    requires p in configs && q in configs && p != q
    ensures var init := Start(p, q, configs);
            InitSys(init) && Pair(c, init, p, q, InitNode(p, configs[p]), InitNode(q, configs[q]))
  {
    var init := Start(p, q, configs);
    assert GoodRun(c, init, []) && PairOf(RunSys(init, []), p, q, InitNode(p, configs[p]), InitNode(q, configs[q]));
  }

  /** p has proposed, both have acknowledged, and the lock is out. */
  lemma LockIsOut(c: Crypto, it: Iter, p: PeerID, q: PeerID, config1: Config, config2: Config, init: Sys)
      returns (m: NodeState, n: NodeState, ps: seq<PeerID>)
    requires p != q && ValidIter(it) && Honest(config1) && Honest(config2) && InitSys(init)
    requires Pair(c, init, p, q, InitNode(p, config1), InitNode(q, config2))
    ensures Pair(c, init, p, q, m, n) && Talking(m, p, config1) && Talking(n, q, config2)
    ensures NoDuplicates(ps) && SetOf(ps) == {p, q} && SessionLock(Some(ps)) in m.out
  {
    hide Pair, Handle, InitSys, ValidIter, Grows, Talking;
    var env1, env2 := Env(c, it, [q], []), Env(c, it, [p], []);
    var m0, n0 := InitNode(p, config1), InitNode(q, config2);
    assert Talking(m0, p, config1) && Talking(n0, q, config2) by { FreshTalks(p, config1); FreshTalks(q, config2); }
    TalkNext(c, init, p, q, m0, n0, env1, Propose);
    ProposeStep(env1, m0, p, config1);
    var m1 := Handle(env1, m0, Propose);
    TalkNext(c, init, p, q, m1, n0, env1, Event.Receive(p, Msg.ProposeStart));
    AnswerStep(env1, m1, p, config1, p);
    var m2 := Handle(env1, m1, Event.Receive(p, Msg.ProposeStart));
    PairSwaps(c, init, p, q, m2, n0);
    TalkNext(c, init, q, p, n0, m2, env2, Event.Receive(p, Msg.ProposeStart));
    AnswerStep(env2, n0, q, config2, p);
    n := Handle(env2, n0, Event.Receive(p, Msg.ProposeStart));
    PairSwaps(c, init, q, p, n, m2);
    m, ps := Acknowledged(c, it, p, q, config1, config2, init, m2, n);
  }

  lemma FreshTalks(self: PeerID, config: Config)
    ensures Talking(InitNode(self, config), self, config)
  {
  }

  lemma Acknowledged(c: Crypto, it: Iter, p: PeerID, q: PeerID, config1: Config, config2: Config, init: Sys,
                     m: NodeState, n: NodeState) returns (m': NodeState, ps: seq<PeerID>)
    requires p != q && ValidIter(it) && InitSys(init) && Pair(c, init, p, q, m, n) && Talking(m, p, config1)
    requires m.sessionProposer == p && m.readyPeers == {} && ReadyAckMsg in m.out && ReadyAckMsg in n.out
    ensures Pair(c, init, p, q, m', n) && Talking(m', p, config1)
    ensures NoDuplicates(ps) && SetOf(ps) == {p, q} && SessionLock(Some(ps)) in m'.out
  {
    hide Pair, Handle, InitSys, ValidIter, Grows, Talking;
    var env := Env(c, it, [q], []);
    TalkNext(c, init, p, q, m, n, env, Event.Receive(p, ReadyAckMsg));
    FirstAckStep(env, m, p, config1, p);
    var m1 := Handle(env, m, Event.Receive(p, ReadyAckMsg));
    TalkNext(c, init, p, q, m1, n, env, Event.Receive(q, ReadyAckMsg));
    ps := SecondAckStep(env, m1, p, config1, q);
    m' := Handle(env, m1, Event.Receive(q, ReadyAckMsg));
  }

  /** Each hears what the other has published in a phase. */
  lemma BothHear(c: Crypto, it: Iter, init: Sys, p: PeerID, q: PeerID, m: NodeState, n: NodeState,
                 phase: Phase, v: Bytes, w: Bytes)
    requires p != q && ValidIter(it) && InitSys(init) && Pair(c, init, p, q, m, n)
    requires OwnGossip(c, phase, p, v) in m.out && OwnGossip(c, phase, q, w) in n.out
    ensures var env := Quiet(c, it, []);
            var m', n' := Handle(env, m, GossipOf(c, phase, q, w)), Handle(env, n, GossipOf(c, phase, p, v));
            Pair(c, init, p, q, m', n') && Grows(m, m') && Grows(n, n')
  {
    hide Pair, Handle, InitSys, ValidIter, Grows, OwnGossip, GossipOf;
    var env := Quiet(c, it, []);
    GossipNext(c, init, p, q, m, n, env, phase, w);
    var m' := Handle(env, m, GossipOf(c, phase, q, w));
    PairSwaps(c, init, p, q, m', n);
    StillSent(m, m', OwnGossip(c, phase, p, v));
    GossipNext(c, init, q, p, n, m', env, phase, v);
    PairSwaps(c, init, q, p, Handle(env, n, GossipOf(c, phase, p, v)), m');
  }

  /** Both have locked and committed. */
  lemma BothCommit(c: Crypto, it: Iter, p: PeerID, q: PeerID, config1: Config, config2: Config, init: Sys, s: Bytes, t: Bytes)
      returns (m: NodeState, n: NodeState)
    requires p != q && ValidIter(it) && Honest(config1) && Honest(config2) && InitSys(init)
    requires Pair(c, init, p, q, InitNode(p, config1), InitNode(q, config2))
    ensures Pair(c, init, p, q, m, n)
    ensures InRound(m, Committed(c, p, s), [], None, false) && OwnGossip(c, Commit2, p, c.H(c.H(s))) in m.out
    ensures InRound(n, Committed(c, q, t), [], None, false) && OwnGossip(c, Commit2, q, c.H(c.H(t))) in n.out
  {
    hide Pair, Handle, InitSys, ValidIter, Grows, Talking, Honest, Committed, OwnGossip, InRound;
    var m0, n0, ps := LockIsOut(c, it, p, q, config1, config2, init);
    DistinctSize(ps);
    assert |{p, q}| == 2 && p in SetOf(ps) && q in SetOf(ps);
    var env1, env2, lock := Env(c, it, [q], s), Env(c, it, [p], t), SessionLock(Some(ps));
    TalkNext(c, init, p, q, m0, n0, env1, Event.Receive(p, lock));
    LockInRound(env1, m0, p, config1, p, ps);
    m := Handle(env1, m0, Event.Receive(p, lock));
    StillSent(m0, m, lock);
    PairSwaps(c, init, p, q, m, n0);
    TalkNext(c, init, q, p, n0, m, env2, Event.Receive(p, lock));
    LockInRound(env2, n0, q, config2, p, ps);
    n := Handle(env2, n0, Event.Receive(p, lock));
    PairSwaps(c, init, q, p, n, m);
  }

  /** Both have opened their commits. */
  lemma BothReveal(c: Crypto, it: Iter, p: PeerID, q: PeerID, config1: Config, config2: Config, init: Sys, s: Bytes, t: Bytes)
      returns (m: NodeState, n: NodeState)
    requires p != q && ValidIter(it) && Honest(config1) && Honest(config2) && InitSys(init) && SignaturesVerify(c)
    requires Pair(c, init, p, q, InitNode(p, config1), InitNode(q, config2))
    ensures Pair(c, init, p, q, m, n)
    ensures InRound(m, Revealing(c, p, s, q, c.H(c.H(t))), [], None, true) && OwnGossip(c, Reveal1, p, c.H(s)) in m.out
    ensures InRound(n, Revealing(c, q, t, p, c.H(c.H(s))), [], None, true) && OwnGossip(c, Reveal1, q, c.H(t)) in n.out
  {
    hide Pair, Handle, InitSys, ValidIter, Grows, Honest, Committed, Revealing, OwnGossip, InRound, SignaturesVerify;
    var env := Quiet(c, it, []);
    var m0, n0 := BothCommit(c, it, p, q, config1, config2, init, s, t);
    BothHear(c, it, init, p, q, m0, n0, Commit2, c.H(c.H(s)), c.H(c.H(t)));
    CommitInRound(env, m0, p, s, q, c.H(c.H(t)));
    CommitInRound(env, n0, q, t, p, c.H(c.H(s)));
    m, n := Handle(env, m0, GossipOf(c, Commit2, q, c.H(c.H(t)))), Handle(env, n0, GossipOf(c, Commit2, p, c.H(c.H(s))));
  }

  /** Before the secrets: x is first in the order and has spoken, y is second. */
  ghost predicate XThenY(c: Crypto, it: Iter, init: Sys, x: PeerID, y: PeerID, m: NodeState, n: NodeState, s: Bytes,
                         t: Bytes) {
    var d, e := Ordering(c, it, x, s, y, t), Ordering(c, it, y, t, x, s);
    && Pair(c, init, x, y, m, n) && d.revealOrder == [x, y] && e.revealOrder == [x, y]
    && InRound(m, DcrSpec.StartReveal2(ClaimTurn(d)), [[x, y]], None, true) && OwnGossip(c, Reveal2, x, s) in m.out
    && InRound(n, e, [[x, y]], None, true)
  }

  /** Both have ordered the peers; one of them is first. */
  lemma BothOrder(c: Crypto, it: Iter, p: PeerID, q: PeerID, config1: Config, config2: Config, init: Sys, s: Bytes, t: Bytes)
      returns (m: NodeState, n: NodeState)
    requires p != q && ValidIter(it) && Honest(config1) && Honest(config2) && InitSys(init) && SignaturesVerify(c)
    requires Pair(c, init, p, q, InitNode(p, config1), InitNode(q, config2)) && WellSpread(c.H, BasisOfTwo(c, p, q, s, t))
    ensures XThenY(c, it, init, p, q, m, n, s, t) || XThenY(c, it, init, q, p, n, m, t, s)
  {
    hide Pair, Handle, InitSys, ValidIter, Grows, Honest, Revealing, Ordering, OwnGossip, InRound,
      SignaturesVerify, WellSpread, BasisOfTwo;
    var env := Quiet(c, it, []);
    var m0, n0 := BothReveal(c, it, p, q, config1, config2, init, s, t);
    BothHear(c, it, init, p, q, m0, n0, Reveal1, c.H(s), c.H(t));
    RevealInRound(env, m0, p, s, q, t);
    RevealInRound(env, n0, q, t, p, s);
    m, n := Handle(env, m0, GossipOf(c, Reveal1, q, c.H(t))), Handle(env, n0, GossipOf(c, Reveal1, p, c.H(s)));
    OneOrderOfTwo(c, it, p, q, s, t);
    PairSwaps(c, init, p, q, m, n);
  }

  /** What both nodes order: two commits and their openings. */
  function BasisOfTwo(c: Crypto, p: PeerID, q: PeerID, s: Bytes, t: Bytes): Basis {
    Basis(map[p := c.H(c.H(s)), q := c.H(c.H(t))], map[p := c.H(s), q := c.H(t)], {})
  }

  lemma OneOrderOfTwo(c: Crypto, it: Iter, p: PeerID, q: PeerID, s: Bytes, t: Bytes)
    requires p != q && ValidIter(it) && WellSpread(c.H, BasisOfTwo(c, p, q, s, t))
    ensures Ordering(c, it, p, s, q, t).revealOrder == Ordering(c, it, q, t, p, s).revealOrder
    ensures Ordering(c, it, p, s, q, t).revealOrder == [p, q] || Ordering(c, it, p, s, q, t).revealOrder == [q, p]
  {
    hide Ordering, ValidIter, ValidOrder, WellSpread, BasisOfTwo;
    var b := BasisOfTwo(c, p, q, s, t);
    var o1, o2 := Ordering(c, it, p, s, q, t).revealOrder, Ordering(c, it, q, t, p, s).revealOrder;
    ValidOfTwo(c, it, p, q, s, t);
    ValidOfTwo(c, it, q, p, t, s);
    BasisEitherWay(c, p, q, s, t);
    SpreadOrders(c.H, b, o1, o2);
    ValidOrderMembers(c.H, b.commit2s, b.reveal1s, {}, o1);
    TwoMembers(o1, p, q);
  }

  lemma BasisEitherWay(c: Crypto, p: PeerID, q: PeerID, s: Bytes, t: Bytes)
    requires p != q
    ensures var b := BasisOfTwo(c, p, q, s, t); b == BasisOfTwo(c, q, p, t, s) && b.commit2s.Keys == {p, q} && b.excluded == {}
  {
  }

  lemma SpreadOrders(H: Hash, b: Basis, o1: seq<PeerID>, o2: seq<PeerID>)
    requires WellSpread(H, b) && b.excluded == {}
    requires ValidOrder(H, b.commit2s, b.reveal1s, {}, o1) && ValidOrder(H, b.commit2s, b.reveal1s, {}, o2)
    ensures o1 == o2
  {
    hide ValidOrder, OmegaOf, DistinctDistances, Unambiguous;
    OrderIsCanonical(H, b.commit2s, b.reveal1s, {}, o1, o2);
  }

  lemma ValidOfTwo(c: Crypto, it: Iter, p: PeerID, q: PeerID, s: Bytes, t: Bytes)
    requires p != q && ValidIter(it)
    ensures var b := BasisOfTwo(c, p, q, s, t);
            ValidOrder(c.H, b.commit2s, b.reveal1s, {}, Ordering(c, it, p, s, q, t).revealOrder)
  {
    hide ValidIter, ValidOrder, ComputeOrderExcluding;
    var d := Opened(c, p, s, q, t);
    ComputedOrderIsValid(c.H, it, d, {});
    assert d.commit2s == BasisOfTwo(c, p, q, s, t).commit2s && d.reveal1s == BasisOfTwo(c, p, q, s, t).reveal1s;
  }

  lemma TwoMembers(order: seq<PeerID>, p: PeerID, q: PeerID)
    requires p != q && NoDuplicates(order) && SetOf(order) == {p, q}
    ensures order == [p, q] || order == [q, p]
  {
    DistinctSize(order);
    assert |{p, q}| == 2;
    assert order[0] in SetOf(order) && order[1] in SetOf(order);
  }

  // --- the end of the round ---

  /** The node has the two commits open, one order, and has launched on both secrets. */
  ghost predicate Through(n: NodeState, b: Basis, secrets: map<PeerID, Bytes>, order: seq<PeerID>, run: VdfRun) {
    && n.d.commit2s == b.commit2s && n.d.reveal1s == b.reveal1s && n.d.reveal2s == secrets && n.d.basis == Some(b)
    && n.d.revealOrder == order && n.orders == [order] && n.vdf == Some(run) && Spoke(n)
  }

  lemma SaidIt(c: Crypto, n: NodeState, self: PeerID, secret: Bytes)
    requires OwnGossip(c, Reveal2, self, secret) in n.out
    ensures Spoke(n)
  {
  }

  lemma OrderingOfTwo(c: Crypto, it: Iter, self: PeerID, secret: Bytes, other: PeerID, otherSecret: Bytes)
    requires other != self
    ensures var d, b := Ordering(c, it, self, secret, other, otherSecret), BasisOfTwo(c, self, other, secret, otherSecret);
            && d.self == self && d.mySecret == Some(secret) && d.commit2s == b.commit2s && d.reveal1s == b.reveal1s
            && d.reveal2s == map[] && !d.reveal2Sent && d.basis == Some(b)
            && Get(d.reveal1s, other) == Some(c.H(otherSecret))
  {
    hide Ordering;
    OrderingFields(c, it, self, secret, other, otherSecret);
  }

  lemma SecondIsThrough(c: Crypto, it: Iter, x: PeerID, y: PeerID, n: NodeState, s: Bytes, t: Bytes)
    requires SignaturesVerify(c) && x != y
    requires var e := Ordering(c, it, y, t, x, s); e.revealOrder == [x, y] && InRound(n, e, [[x, y]], None, true)
    ensures var n' := Handle(Quiet(c, it, []), n, GossipOf(c, Reveal2, x, s));
            && Through(n', BasisOfTwo(c, x, y, s, t), map[x := s, y := t], [x, y], VdfRun([x, y], {}, Some(s + t)))
            && OwnGossip(c, Reveal2, y, t) in n'.out
  {
    hide Handle, Ordering, Spoke, SignaturesVerify, OwnGossip, GossipOf;
    OrderingOfTwo(c, it, y, t, x, s);
    BasisEitherWay(c, x, y, s, t);
    SecondHears(Quiet(c, it, []), n, Ordering(c, it, y, t, x, s), y, t, x, s);
    var n' := Handle(Quiet(c, it, []), n, GossipOf(c, Reveal2, x, s));
    SaidIt(c, n', y, t);
    assert n'.d.reveal2s == map[x := s, y := t];
    assert n'.d.basis == Some(BasisOfTwo(c, x, y, s, t));
  }

  lemma FirstIsThrough(c: Crypto, it: Iter, x: PeerID, y: PeerID, m: NodeState, s: Bytes, t: Bytes)
    requires SignaturesVerify(c) && x != y && OwnGossip(c, Reveal2, x, s) in m.out
    requires Grows(m, Handle(Quiet(c, it, []), m, GossipOf(c, Reveal2, y, t)))
    requires var d := Ordering(c, it, x, s, y, t);
             d.revealOrder == [x, y] && InRound(m, DcrSpec.StartReveal2(ClaimTurn(d)), [[x, y]], None, true)
    ensures var m' := Handle(Quiet(c, it, []), m, GossipOf(c, Reveal2, y, t));
            Through(m', BasisOfTwo(c, x, y, s, t), map[x := s, y := t], [x, y], VdfRun([x, y], {}, Some(s + t)))
  {
    hide Handle, Ordering, Spoke, SignaturesVerify, Grows, OwnGossip, GossipOf;
    OrderingOfTwo(c, it, x, s, y, t);
    FirstHears(Quiet(c, it, []), m, DcrSpec.StartReveal2(ClaimTurn(Ordering(c, it, x, s, y, t))), x, s, y, t);
    var m' := Handle(Quiet(c, it, []), m, GossipOf(c, Reveal2, y, t));
    StillSent(m, m', OwnGossip(c, Reveal2, x, s));
    SaidIt(c, m', x, s);
  }

  lemma BothSpeak(c: Crypto, it: Iter, init: Sys, x: PeerID, y: PeerID, m: NodeState, n: NodeState, s: Bytes, t: Bytes)
      returns (m': NodeState, n': NodeState)
    requires x != y && ValidIter(it) && InitSys(init) && SignaturesVerify(c) && XThenY(c, it, init, x, y, m, n, s, t)
    ensures Pair(c, init, x, y, m', n')
    ensures var b, secrets, run := BasisOfTwo(c, x, y, s, t), map[x := s, y := t], VdfRun([x, y], {}, Some(s + t));
            Through(m', b, secrets, [x, y], run) && Through(n', b, secrets, [x, y], run)
  {
    hide Pair, Handle, InitSys, ValidIter, Grows, Ordering, OwnGossip, InRound, SignaturesVerify, Through, GossipOf;
    var env := Quiet(c, it, []);
    SecondIsThrough(c, it, x, y, n, s, t);
    n' := Handle(env, n, GossipOf(c, Reveal2, x, s));
    PairSwaps(c, init, x, y, m, n);
    GossipNext(c, init, y, x, n, m, env, Reveal2, s);
    PairSwaps(c, init, y, x, n', m);
    GossipNext(c, init, x, y, m, n', env, Reveal2, t);
    m' := Handle(env, m, GossipOf(c, Reveal2, y, t));
    FirstIsThrough(c, it, x, y, m, s, t);
  }

  lemma ValuesOfTwo(m: map<PeerID, Bytes>, x: PeerID, y: PeerID, v: Bytes, w: Bytes)
    requires m == map[x := v, y := w] && x != y
    ensures m.Values <= {v, w}
  {
    assert forall p | p in m :: p == x || p == y;
  }

  lemma NothingElseInPlay(H: Hash, d: DcrState, x: PeerID, y: PeerID, s: Bytes, t: Bytes)
    requires d.reveal1s == map[x := H(s), y := H(t)] && d.reveal2s == map[x := s, y := t] && x != y
    ensures InPlay(H, d) <= {s, t, H(s), H(t)}
  {
    ValuesOfTwo(d.reveal1s, x, y, H(s), H(t));
    ValuesOfTwo(d.reveal2s, x, y, s, t);
  }

  lemma FewerCollide(H: Hash, few: set<Bytes>, many: set<Bytes>)
    requires few <= many && InjectiveOn(H, many)
    ensures InjectiveOn(H, few)
  {
  }

  /** What the theorems about the network suppose of two nodes, and what they conclude. */
  ghost predicate FinishedTogether(c: Crypto, sys: Sys, p: PeerID, q: PeerID, ord: seq<PeerID>, input: Bytes) {
    && sys.nodes.Keys == {p, q} && SharedOrder(ord, sys) && SetOf(ord) == {p, q}
    && var m, n := sys.nodes[p], sys.nodes[q];
       && m.d.commit2s == n.d.commit2s && m.d.basis == n.d.basis && SameOrderBasis(m.d, n.d) && WellSpread(c.H, m.d.basis.value)
       && InjectiveOn(c.H, InPlay(c.H, m.d) + InPlay(c.H, n.d))
       && m.d.revealOrder == n.d.revealOrder == ord && Spoke(m) && Spoke(n)
       && m.vdf == n.vdf == Some(VdfRun(ord, {}, Some(input)))
  }

  lemma OrderShared(sys: Sys, x: PeerID, y: PeerID, m: NodeState, n: NodeState)
    requires x != y && PairOf(sys, x, y, m, n) && m.orders == n.orders == [[x, y]]
    ensures SharedOrder([x, y], sys)
  {
  }

  lemma ThroughTogether(c: Crypto, sys: Sys, x: PeerID, y: PeerID, m: NodeState, n: NodeState, s: Bytes, t: Bytes)
    requires x != y && PairOf(sys, x, y, m, n) && InjectiveOn(c.H, {s, t, c.H(s), c.H(t)})
    requires WellSpread(c.H, BasisOfTwo(c, x, y, s, t))
    requires var b, secrets, run := BasisOfTwo(c, x, y, s, t), map[x := s, y := t], VdfRun([x, y], {}, Some(s + t));
             Through(m, b, secrets, [x, y], run) && Through(n, b, secrets, [x, y], run)
    ensures FinishedTogether(c, sys, x, y, [x, y], s + t)
  {
    hide WellSpread, Spoke, InPlay, InjectiveOn, SharedOrder;
    OrderShared(sys, x, y, m, n);
    NothingElseInPlay(c.H, m.d, x, y, s, t);
    NothingElseInPlay(c.H, n.d, x, y, s, t);
    FewerCollide(c.H, InPlay(c.H, m.d) + InPlay(c.H, n.d), {s, t, c.H(s), c.H(t)});
    assert sys.nodes[x] == m && sys.nodes[y] == n;
  }

  lemma TogetherEitherWay(c: Crypto, sys: Sys, p: PeerID, q: PeerID, ord: seq<PeerID>, input: Bytes)
    requires FinishedTogether(c, sys, q, p, ord, input)
    ensures FinishedTogether(c, sys, p, q, ord, input)
  {
    hide WellSpread, Spoke, InPlay, SharedOrder, InjectiveOn, OmegaOf;
    var m, n := sys.nodes[p], sys.nodes[q];
    assert InPlay(c.H, m.d) + InPlay(c.H, n.d) == InPlay(c.H, n.d) + InPlay(c.H, m.d);
  }

  lemma XThenYFinishes(c: Crypto, it: Iter, init: Sys, x: PeerID, y: PeerID, m: NodeState, n: NodeState, s: Bytes, t: Bytes)
      returns (steps: seq<Step>)
    requires x != y && ValidIter(it) && InitSys(init) && SignaturesVerify(c) && XThenY(c, it, init, x, y, m, n, s, t)
    requires WellSpread(c.H, BasisOfTwo(c, x, y, s, t)) && InjectiveOn(c.H, {s, t, c.H(s), c.H(t)})
    ensures GoodRun(c, init, steps) && FinishedTogether(c, RunSys(init, steps), x, y, [x, y], s + t)
  {
    hide ValidIter, InitSys, SignaturesVerify, XThenY, WellSpread, BasisOfTwo, InjectiveOn, Through, GoodRun, RunSys,
      PairOf, FinishedTogether;
    var m', n' := BothSpeak(c, it, init, x, y, m, n, s, t);
    steps :| GoodRun(c, init, steps) && PairOf(RunSys(init, steps), x, y, m', n');
    ThroughTogether(c, RunSys(init, steps), x, y, m', n', s, t);
  }

  /** A closed network of two honest nodes can go through: whatever the two secrets are, if H has no
      collision among them and their hashes and their distances differ, some closed run without
      forgeries from the start meets every hypothesis of System.Agreement and
      TurnOrder.SecretsComeOutInOrder, with one order of both, both secrets out, and both VDFs
      launched on the secrets in that order. */
  lemma RoundOfTwoGoesThrough(c: Crypto, it: Iter, p: PeerID, q: PeerID, configs: map<PeerID, Config>, s: Bytes, t: Bytes)
      returns (steps: seq<Step>, ord: seq<PeerID>)
    requires p != q && configs.Keys == {p, q} && Honest(configs[p]) && Honest(configs[q])
    requires ValidIter(it) && SignaturesVerify(c)
    requires WellSpread(c.H, BasisOfTwo(c, p, q, s, t)) && InjectiveOn(c.H, {s, t, c.H(s), c.H(t)})
    ensures var init := Start(p, q, configs);
            InitSys(init) && LegalRun(c, init, steps) && UnforgedRun(c, init, steps) && ClosedRun(c, init, steps)
    ensures FinishedTogether(c, RunSys(Start(p, q, configs), steps), p, q, ord, if ord == [p, q] then s + t else t + s)
    ensures ord == [p, q] || ord == [q, p]
  {
    hide ValidIter, InitSys, SignaturesVerify, Honest, XThenY, WellSpread, BasisOfTwo, InjectiveOn,
      LegalRun, UnforgedRun, ClosedRun, RunSys, Pair, FinishedTogether, Start, InitNode;
    var init := Start(p, q, configs);
    FreshPair(c, p, q, configs);
    var m, n := BothOrder(c, it, p, q, configs[p], configs[q], init, s, t);
    if XThenY(c, it, init, p, q, m, n, s, t) {
      steps := XThenYFinishes(c, it, init, p, q, m, n, s, t);
      ord := [p, q];
    } else {
      BasisEitherWay(c, p, q, s, t);
      assert {s, t, c.H(s), c.H(t)} == {t, s, c.H(t), c.H(s)};
      steps := XThenYFinishes(c, it, init, q, p, n, m, t, s);
      ord := [q, p];
      TogetherEitherWay(c, RunSys(init, steps), p, q, ord, t + s);
    }
  }

  // --- the same round, with one secret ahead of its reveal1 ---

  function Ahead(n: NodeState, c: Crypto, x: PeerID, s: Bytes): NodeState {
    n.(pending2 := map[x := DocFor(Reveal2, Some(x), s, SignedLetter(c, Reveal2, x, s).sig)])
  }

  lemma SecretIsBuffered(env: Env, n: NodeState, x: PeerID, y: PeerID, s: Bytes, t: Bytes)
    requires SignaturesVerify(env.c) && x != y
    requires InRound(n, Revealing(env.c, y, t, x, env.c.H(env.c.H(s))), [], None, true)
    ensures Handle(env, n, GossipOf(env.c, Reveal2, x, s)) == Ahead(n, env.c, x, s)
  {
    hide Handle, Heeded;
    SecretWaits(env.c, n, x, y, s, t);
    EarlyRevealWaits(env, n, x, Reveal2, s, SignedLetter(env.c, Reveal2, x, s).sig);
  }

  lemma OrderIgnoresSecrets(H: Hash, it: Iter, d: DcrState, secrets: map<PeerID, Bytes>)
    ensures var o := ComputeOrderExcluding(H, it, d, {});
            ComputeOrderExcluding(H, it, d.(reveal2s := secrets), {}) == o.(reveal2s := secrets) && o.reveal1s == d.reveal1s
  {
    hide OrderFrom, Distances, Omega;
  }

  /** The reveal1 then finds the secret waiting. */
  lemma AheadIsReady(c: Crypto, it: Iter, n: NodeState, x: PeerID, y: PeerID, s: Bytes, t: Bytes)
    requires SignaturesVerify(c) && ValidIter(it) && x != y && x != NO_PEER && y != NO_PEER
    requires InRound(n, Revealing(c, y, t, x, c.H(c.H(s))), [], None, true)
    ensures var n1 := Ahead(n, c, x, s); var k := Revealed1(n1, x, c.H(s));
            && OrderSound(n1) && ViewsSound(Quiet(c, it, []), n1) && EnoughRevealed(k) && n1.aborted == map[]
            && x !in n1.d.reveal1s && n1.d.reveal2s == map[] && Get(n1.d.commit2s, x) == Some(c.H(c.H(s)))
            && DocValue(Reveal2, n1.pending2[x]) == s && k.d == Opened(c, y, t, x, s)
            && VerifySignedMsg(c, Reveal1, x, Some(x), c.H(s), SignedLetter(c, Reveal1, x, c.H(s)).sig)
  {
    hide EffectiveSize, ValidIter;
    var k := Revealed1(Ahead(n, c, x, s), x, c.H(s));
    assert k.d.reveal1s.Keys == {x, y} == k.d.commit2s.Keys;
    assert |k.d.reveal1s| == |k.d.reveal1s.Keys| && |k.d.commit2s| == |k.d.commit2s.Keys|;
  }

  /** A node that has opened its own commit hears the other's secret and then its reveal1, which leaves its own turn
      behind it. */
  lemma HeardAhead(c: Crypto, it: Iter, n: NodeState, x: PeerID, y: PeerID, s: Bytes, t: Bytes)
    requires SignaturesVerify(c) && ValidIter(it) && x != y && x != NO_PEER && y != NO_PEER
    requires InRound(n, Revealing(c, y, t, x, c.H(c.H(s))), [], None, true)
    requires Ordering(c, it, y, t, x, s).revealOrder == [x, y]
    ensures var env := Quiet(c, it, []);
            var m := Handle(env, Handle(env, n, GossipOf(c, Reveal2, x, s)), GossipOf(c, Reveal1, x, c.H(s)));
            Stalled(m, x, y, s)
  {
    hide Handle, SignaturesVerify, ValidIter, OrderedOver, GoesOn, ComputeOrderExcluding, InRound, Revealing,
      ViewsSound, EnoughRevealed;
    var env, n1 := Quiet(c, it, []), Ahead(n, c, x, s);
    SecretIsBuffered(env, n, x, y, s, t);
    AheadIsReady(c, it, n, x, y, s, t);
    assert n1.self == y && Honest(n1.config) by { InRoundIs(c, n, y, t, x, c.H(c.H(s))); }
    var sig := SignedLetter(c, Reveal1, x, c.H(s)).sig;
    var k := SecretThenOrder(env, n1, x, c.H(s), sig, s);
    var d := Opened(c, y, t, x, s);
    OpenedFields(c, y, t, x, s);
    NoOrderNoTurn(c, n1, SecretTaken(d, x, s), k, x);
    OrderIgnoresSecrets(c.H, it, d, map[x := s]);
    StillSound(env, n1, k, d, x, s);
    assert k.d == d.(reveal2s := map[x := s]) && k.aborted.Keys == {};
    EarlySecretIsNotFollowed(env, k, Handle(env, n1, GossipOf(c, Reveal1, x, c.H(s))), x, sig);
  }

  lemma OpenedFields(c: Crypto, y: PeerID, t: Bytes, x: PeerID, s: Bytes)
    requires x != y
    ensures var d := Opened(c, y, t, x, s);
            d.revealOrder == [] && d.reveal2s == map[] && d.self == y && d.commit2s.Keys == {x, y} == d.reveal1s.Keys
  {
  }

  /** x's secret is held, y has not spoken, and y waits for itself. */
  ghost predicate Stalled(m: NodeState, x: PeerID, y: PeerID, s: Bytes) {
    && m.self == y && m.d.revealOrder == [x, y] && m.d.reveal2s == map[x := s] && x in m.d.reveal1s
    && (m.config.reveal2Timeouts ==> m.reveal2Target == y)
  }

  lemma InRoundIs(c: Crypto, n: NodeState, y: PeerID, t: Bytes, x: PeerID, c2: Bytes)
    requires InRound(n, Revealing(c, y, t, x, c2), [], None, true)
    ensures n.self == y && Honest(n.config)
  {
  }

  lemma NoOrderNoTurn(c: Crypto, n: NodeState, d: DcrState, k: NodeState, p: PeerID)
    requires GoesOn(c, n, d, k, p) && d.revealOrder == []
    ensures k.d == d
  {
    hide Said, Watches, Launched;
  }

  lemma StillSound(env: Env, n: NodeState, k: NodeState, d: DcrState, x: PeerID, s: Bytes)
    requires ViewsSound(env, n) && k.d == SecretTaken(d, x, s) && d.self == k.self && d.commit2s.Keys == n.d.commit2s.Keys
    ensures ViewsSound(env, k)
  {
    hide ValidIter;
  }

  lemma SecretWaits(c: Crypto, n: NodeState, x: PeerID, y: PeerID, s: Bytes, t: Bytes)
    requires SignaturesVerify(c) && x != y
    requires InRound(n, Revealing(c, y, t, x, c.H(c.H(s))), [], None, true)
    ensures Heeded(c, n, x, Reveal2, Some(x), s, SignedLetter(c, Reveal2, x, s).sig) && Expected(n.d, Reveal2, x).None?
  {
  }

  /** Before the secrets, with y's mail about to come the other way round: x is first and has spoken. */
  lemma BothOpenOneOrders(c: Crypto, it: Iter, init: Sys, x: PeerID, y: PeerID, m0: NodeState, n0: NodeState,
                          s: Bytes, t: Bytes)
      returns (m: NodeState, n: NodeState)
    requires x != y && x != NO_PEER && y != NO_PEER && ValidIter(it) && InitSys(init) && SignaturesVerify(c)
    requires Pair(c, init, x, y, m0, n0)
    requires InRound(m0, Revealing(c, x, s, y, c.H(c.H(t))), [], None, true) && OwnGossip(c, Reveal1, x, c.H(s)) in m0.out
    requires InRound(n0, Revealing(c, y, t, x, c.H(c.H(s))), [], None, true) && OwnGossip(c, Reveal1, y, c.H(t)) in n0.out
    requires Ordering(c, it, x, s, y, t).revealOrder == [x, y] == Ordering(c, it, y, t, x, s).revealOrder
    ensures Pair(c, init, x, y, m, n) && Spoke(m) && Stalled(n, x, y, s)
  {
    hide Pair, Handle, InitSys, ValidIter, Grows, Revealing, Ordering, InRound, SignaturesVerify, Spoke, OwnGossip,
      GossipOf, Stalled;
    var env := Quiet(c, it, []);
    GossipNext(c, init, x, y, m0, n0, env, Reveal1, c.H(t));
    RevealInRound(env, m0, x, s, y, t);
    m := Handle(env, m0, GossipOf(c, Reveal1, y, c.H(t)));
    StillSent(m0, m, OwnGossip(c, Reveal1, x, c.H(s)));
    SaidIt(c, m, x, s);
    PairSwaps(c, init, x, y, m, n0);
    GossipNext(c, init, y, x, n0, m, env, Reveal2, s);
    var n1 := Handle(env, n0, GossipOf(c, Reveal2, x, s));
    GossipNext(c, init, y, x, n1, m, env, Reveal1, c.H(s));
    HeardAhead(c, it, n0, x, y, s, t);
    n := Handle(env, n1, GossipOf(c, Reveal1, x, c.H(s)));
    PairSwaps(c, init, y, x, n, m);
  }

  /** After some closed run without forgeries of the two honest nodes, x has spoken, and y, next in the order, holds
      x's secret, has not spoken, and awaits nobody but itself. */
  ghost predicate StallsAt(c: Crypto, init: Sys, steps: seq<Step>, x: PeerID, y: PeerID, s: Bytes) {
    && LegalRun(c, init, steps) && UnforgedRun(c, init, steps) && ClosedRun(c, init, steps)
    && var nodes := RunSys(init, steps).nodes;
       nodes.Keys == {x, y} && Spoke(nodes[x]) && !Spoke(nodes[y]) && Stalled(nodes[y], x, y, s)
  }

  lemma StalledRun(c: Crypto, init: Sys, x: PeerID, y: PeerID, m: NodeState, n: NodeState,
                   s: Bytes) returns (steps: seq<Step>)
    requires x != y && InitSys(init) && Pair(c, init, x, y, m, n) && Spoke(m) && Stalled(n, x, y, s)
    ensures StallsAt(c, init, steps, x, y, s)
  {
    hide InitSys, Spoke, RunSys, LegalRun, UnforgedRun, ClosedRun, Stalled;
    assert n.self == y && n.self !in n.d.reveal2s by { StalledFields(n, x, y, s); }
    steps :| GoodRun(c, init, steps) && PairOf(RunSys(init, steps), x, y, m, n);
    SecondKeepsInv(c, init, steps, x, y, m, n);
    UnspokenWithoutSecret(c, n);
    assert RunSys(init, steps).nodes[x] == m && RunSys(init, steps).nodes[y] == n;
  }

  lemma StalledFields(n: NodeState, x: PeerID, y: PeerID, s: Bytes)
    requires Stalled(n, x, y, s) && x != y
    ensures n.self == y && y !in n.d.reveal2s
  {
  }

  lemma SecondKeepsInv(c: Crypto, init: Sys, steps: seq<Step>, x: PeerID, y: PeerID, m: NodeState, n: NodeState)
    requires InitSys(init) && GoodRun(c, init, steps) && PairOf(RunSys(init, steps), x, y, m, n) && x != y
    ensures NodeInv(c, n)
  {
    hide InitSys, RunSys, LegalRun, UnforgedRun, ClosedRun, SysInv, NodeInv;
    InitSysInv(c, init);
    RunKeepsSysInv(c, init, steps);
    NodeOf(c, RunSys(init, steps), y);
  }

  lemma NodeOf(c: Crypto, sys: Sys, i: PeerID)
    requires SysInv(c, sys) && i in sys.nodes
    ensures NodeInv(c, sys.nodes[i])
  {
    hide NodeInv;
  }

  lemma UnspokenWithoutSecret(c: Crypto, n: NodeState)
    requires NodeInv(c, n) && n.self !in n.d.reveal2s
    ensures !Spoke(n)
  {
    hide Chain, OrderFromBasis, VdfFromViews, KeepsProof, PendingApart;
  }

  /** The round of two can also stall: under the same conditions, if the first peer's secret reaches the second ahead
      of its reveal1, the second never takes its turn, and no copy of that secret changes it. */
  lemma RoundOfTwoCanStall(c: Crypto, it: Iter, p: PeerID, q: PeerID, configs: map<PeerID, Config>, s: Bytes, t: Bytes)
      returns (steps: seq<Step>, x: PeerID, y: PeerID)
    requires p != q && p != NO_PEER && q != NO_PEER && configs.Keys == {p, q} && Honest(configs[p]) && Honest(configs[q])
    requires ValidIter(it) && SignaturesVerify(c) && WellSpread(c.H, BasisOfTwo(c, p, q, s, t))
    ensures InitSys(Start(p, q, configs)) && (x, y) in {(p, q), (q, p)}
    ensures StallsAt(c, Start(p, q, configs), steps, x, y, if x == p then s else t)
  {
    hide ValidIter, InitSys, SignaturesVerify, Honest, WellSpread, BasisOfTwo, Pair, Start, InitNode, StallsAt, InRound, Revealing, Ordering,
      Stalled, Spoke, OwnGossip;
    var init := Start(p, q, configs);
    FreshPair(c, p, q, configs);
    var m0, n0 := BothReveal(c, it, p, q, configs[p], configs[q], init, s, t);
    OneOrderOfTwo(c, it, p, q, s, t);
    if Ordering(c, it, p, s, q, t).revealOrder == [p, q] {
      x, y := p, q;
      var m, n := BothOpenOneOrders(c, it, init, p, q, m0, n0, s, t);
      steps := StalledRun(c, init, p, q, m, n, s);
    } else {
      x, y := q, p;
      PairSwaps(c, init, p, q, m0, n0);
      var m, n := BothOpenOneOrders(c, it, init, q, p, n0, m0, t, s);
      steps := StalledRun(c, init, q, p, m, n, t);
    }
  }

  /** A stalled node ignores every further copy of the secret it is stalled on. */
  lemma CopiesChangeNothing(env: Env, n: NodeState, x: PeerID, y: PeerID, s: Bytes, sig: Bytes)
    requires Stalled(n, x, y, s)
    ensures Handle(env, n, Event.Receive(x, Gossip(Reveal2, Some(x), s, sig))) == n
  {
    hide Handle;
    RepeatedOrWrongIsDropped(env, n, x, Reveal2, s, sig);
  }

  // --- the conditions on H can be met ---

  function ShortDigest(k: byte): Digest { seq(31, _ => 0) + [k] }

  /** The last byte, one up. */
  function CountingHash(x: Bytes): Digest {
    if x == [] || x[|x| - 1] == 255 then ShortDigest(0) else ShortDigest(x[|x| - 1] + 1)
  }

  lemma {:induction false} ZerosAreZero(b: Bytes)
    requires forall i | 0 <= i < |b| :: b[i] == 0
    ensures BigEndian(b) == 0
  {
    if b != [] {
      ZerosAreZero(b[..|b| - 1]);
    }
  }

  lemma ShortDigestValue(k: byte)
    ensures BigEndian(ShortDigest(k)) == k as nat && ShortDigest(k)[31] == k
  {
    ZerosAreZero(ShortDigest(k)[..31]);
  }

  lemma CountingOmega(p: PeerID, q: PeerID)
    requires p != q
    ensures OmegaOf(CountingHash, map[p := ShortDigest(11), q := ShortDigest(21)]) == ShortDigest(12)
  {
    hide OmegaOf;
    var m := map[p := ShortDigest(11), q := ShortDigest(21)];
    var es := [Entry(q, ShortDigest(21)), Entry(p, ShortDigest(11))];
    ShortDigestValue(11);
    ShortDigestValue(21);
    assert p in m && q in m && Entry(p, m[p]) == es[1] && Entry(q, m[q]) == es[0];
    assert Items(m) == {es[0], es[1]};
    assert multiset(es) == multiset{es[0], es[1]} == multiset({es[0], es[1]});
    OneLengthIsUnambiguous(m, 32);
    OmegaIsCanonical(CountingHash, m, es);
  }

  lemma CountingSpreads(c: Crypto, p: PeerID, q: PeerID)
    requires p != q && c.H == CountingHash
    ensures WellSpread(c.H, BasisOfTwo(c, p, q, [10], [20]))
  {
    hide OmegaOf, Unambiguous;
    var b := BasisOfTwo(c, p, q, [10], [20]);
    CountingValues();
    assert b.reveal1s - {} == b.reveal1s == map[p := ShortDigest(11), q := ShortDigest(21)];
    assert b.commit2s - {} == b.commit2s == map[p := ShortDigest(12), q := ShortDigest(22)];
    OneLengthIsUnambiguous(b.reveal1s, 32);
    CountingOmega(p, q);
    CountingDistances();
  }

  lemma CountingValues()
    ensures CountingHash([10]) == ShortDigest(11) && CountingHash([20]) == ShortDigest(21)
    ensures CountingHash(ShortDigest(11)) == ShortDigest(12) && CountingHash(ShortDigest(21)) == ShortDigest(22)
  {
  }

  lemma CountingDistances()
    ensures BigEndian(Distance(CountingHash, ShortDigest(12), ShortDigest(12))) == 0
    ensures BigEndian(Distance(CountingHash, ShortDigest(12), ShortDigest(22))) == 11
  {
    ShortDigestValue(12);
    ShortDigestValue(22);
    ShortDigestValue(0);
    ShortDigestValue(11);
    assert MinBytes(0) == [] && MinBytes(10) == [10];
  }

  /** So the theorem is about something: with this H the secrets 10 and 20 meet its conditions. */
  lemma TheConditionsCanBeMet(p: PeerID, q: PeerID) returns (c: Crypto)
    requires p != q
    ensures SignaturesVerify(c) && WellSpread(c.H, BasisOfTwo(c, p, q, [10], [20]))
    ensures InjectiveOn(c.H, {[10], [20], c.H([10]), c.H([20])})
  {
    hide WellSpread;
    c := Crypto(CountingHash, (_, bytes, sig) => sig == bytes, (_, bytes) => bytes);
    CountingSpreads(c, p, q);
    CountingValues();
    ShortDigestValue(11);
    ShortDigestValue(12);
    ShortDigestValue(21);
    ShortDigestValue(22);
  }
}
