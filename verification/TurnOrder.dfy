/** Secrets come out in order: over every run of a closed network that shares one reveal order,
    nobody publishes before every earlier peer has published or been aborted. */
module TurnOrder {
  import opened Encoding
  import opened FiniteSets
  import opened DcrSpec
  import opened Signing
  import opened NodeSpec
  import opened Actions
  import opened Handlers
  import opened NodeRuns
  import opened Net = System
  import opened Accountability

  type Nodes = map<PeerID, NodeState>

  /** p has published its secret, or has been aborted somewhere. */
  ghost predicate Done(nodes: Nodes, p: PeerID) {
    (p in nodes && Spoke(nodes[p])) || exists i | i in nodes :: p in nodes[i].aborted
  }

  /** Everybody before p is done. */
  ghost predicate Ready(nodes: Nodes, ord: seq<PeerID>, p: PeerID) {
    forall a, b | 0 <= a < b < |ord| && ord[b] == p :: Done(nodes, ord[a])
  }

  predicate Ordered(ord: seq<PeerID>, n: NodeState) {
    forall o | o in n.orders :: o == ord
  }

  ghost predicate HeldAreSpoken(nodes: Nodes, n: NodeState) {
    forall p | p in n.d.reveal2s :: p in nodes && Spoke(nodes[p])
  }

  ghost predicate AbortsReady(nodes: Nodes, ord: seq<PeerID>, n: NodeState) {
    forall p | p in n.aborted && n.aborted[p] == Reveal2 :: Ready(nodes, ord, p)
  }

  ghost predicate VotesReady(nodes: Nodes, ord: seq<PeerID>, n: NodeState) {
    forall p | TimeoutVote(Reveal2, p) in n.out :: Ready(nodes, ord, p)
  }

  /** Nothing a node has done in reveal2 was out of turn. */
  ghost predicate InTurn(nodes: Nodes, ord: seq<PeerID>, n: NodeState) {
    && HeldAreSpoken(nodes, n)
    && (n.d.reveal2Sent ==> Ready(nodes, ord, n.self))
    && (Spoke(n) ==> n.d.reveal2Sent)
    && (n.reveal2Target != NO_PEER ==> Ready(nodes, ord, n.reveal2Target))
    && AbortsReady(nodes, ord, n) && VotesReady(nodes, ord, n)
    && (n.d.revealOrder == [] || n.d.revealOrder in n.orders)
    && n.d.self == n.self
  }

  ghost predicate AllInTurn(nodes: Nodes, ord: seq<PeerID>) {
    forall i | i in nodes :: nodes[i].self == i && InTurn(nodes, ord, nodes[i])
  }

  // --- what is done stays done ---

  ghost predicate NodesGrow(nodes: Nodes, nodes': Nodes) {
    nodes.Keys == nodes'.Keys && forall i | i in nodes :: Grows(nodes[i], nodes'[i])
  }

  lemma DoneStays(nodes: Nodes, nodes': Nodes, p: PeerID)
    requires NodesGrow(nodes, nodes') && Done(nodes, p)
    ensures Done(nodes', p)
  {
    hide Spoke, Grows;
    if p in nodes && Spoke(nodes[p]) {
      GrowsLogs(nodes[p], nodes'[p]);
      SpokenStays(nodes[p], nodes'[p]);
    } else {
      var i :| i in nodes && p in nodes[i].aborted;
      GrowsLogs(nodes[i], nodes'[i]);
      assert i in nodes' && p in nodes'[i].aborted;
    }
  }

  lemma ReadyStays(nodes: Nodes, nodes': Nodes, ord: seq<PeerID>, p: PeerID)
    requires NodesGrow(nodes, nodes') && Ready(nodes, ord, p)
    ensures Ready(nodes', ord, p)
  {
    hide Done, Grows;
    forall a, b | 0 <= a < b < |ord| && ord[b] == p ensures Done(nodes', ord[a]) {
      DoneStays(nodes, nodes', ord[a]);
    }
  }

  lemma HeldStay(nodes: Nodes, nodes': Nodes, n: NodeState)
    requires NodesGrow(nodes, nodes') && HeldAreSpoken(nodes, n)
    ensures HeldAreSpoken(nodes', n)
  {
    hide Spoke, Grows;
    forall p | p in n.d.reveal2s ensures p in nodes' && Spoke(nodes'[p]) {
      GrowsLogs(nodes[p], nodes'[p]);
      SpokenStays(nodes[p], nodes'[p]);
    }
  }

  lemma InTurnStays(nodes: Nodes, nodes': Nodes, ord: seq<PeerID>, n: NodeState)
    requires NodesGrow(nodes, nodes') && InTurn(nodes, ord, n)
    ensures InTurn(nodes', ord, n)
  {
    hide Ready, Grows, HeldAreSpoken, Spoke;
    HeldStay(nodes, nodes', n);
    forall p | Ready(nodes, ord, p) ensures Ready(nodes', ord, p) {
      ReadyStays(nodes, nodes', ord, p);
    }
  }

  // --- who may come next ---

  lemma {:induction false} LastIndexFinds(order: seq<PeerID>, p: PeerID)
    ensures var i := LastIndex(order, p);
            -1 <= i < |order| && (i >= 0 ==> order[i] == p) && (i < 0 ==> p !in order)
  {
    if order != [] && order[|order| - 1] != p {
      LastIndexFinds(order[..|order| - 1], p);
      assert order == order[..|order| - 1] + [order[|order| - 1]];
    }
  }

  /** Once a peer that was ready is done, its successor is ready. */
  lemma SuccessorReady(nodes: Nodes, ord: seq<PeerID>, k: nat)
    requires NoDuplicates(ord) && k + 1 < |ord| && Ready(nodes, ord, ord[k]) && Done(nodes, ord[k])
    ensures Ready(nodes, ord, ord[k + 1])
  {
    hide Done;
    forall a, b | 0 <= a < b < |ord| && ord[b] == ord[k + 1] ensures Done(nodes, ord[a]) {
      assert b == k + 1;
      assert a < k ==> Done(nodes, ord[a]);
    }
  }

  lemma FirstReady(nodes: Nodes, ord: seq<PeerID>)
    requires NoDuplicates(ord) && ord != []
    ensures Ready(nodes, ord, ord[0])
  {
  }

  /** The loop of nextPendingReveal2Peer: between `after` (or the start) and the answer, all are skipped. */
  lemma {:induction false} NextPendingSkips(ord: seq<PeerID>, started: bool, after: PeerID, skip: set<PeerID>)
    returns (from: nat, at: nat)
    requires NextPending(ord, started, after, skip) != NO_PEER
    ensures from <= at < |ord| && ord[at] == NextPending(ord, started, after, skip)
    ensures if started then from == 0 else 0 < from && ord[from - 1] == after
    ensures forall k | from <= k < at :: ord[k] in skip
  {
    if started && ord[0] !in skip {
      return 0, 0;
    } else {
      from, at := NextPendingSkips(ord[1..], started || ord[0] == after, after, skip);
      from, at := if started then 0 else from + 1, at + 1;
    }
  }

  // --- one action at node i ---

  /** What is in hand was published by nodes, one value per phase. */
  ghost predicate HandSpoken(nodes: Nodes, hand: set<Evidence>) {
    && (forall e | e in hand && e.phase == Reveal2 :: e.peer in nodes && Spoke(nodes[e.peer]))
    && (forall phase, p :: !TwoValues(hand, phase, p))
  }

  ghost predicate VotesCast(nodes: Nodes, sent: Mail) {
    forall e | e in sent :: e.0 in nodes && e.1 in nodes[e.0].out
  }

  ghost predicate Setting(x: Ctx, nodes: Nodes, sent: Mail, ord: seq<PeerID>, i: PeerID, a: Action) {
    && i in nodes && NoDuplicates(ord) && AllInTurn(nodes, ord) && HandSpoken(nodes, x.hand) && VotesCast(nodes, sent)
    && TalliesHeard(sent, nodes[i]) && Guard(x, nodes[i], a) && Ordered(ord, Do(x.env, nodes[i], a))
  }

  lemma PassedIsReady(nodes: Nodes, ord: seq<PeerID>, i: PeerID, p: PeerID)
    requires i in nodes && AllInTurn(nodes, ord) && Passed(nodes[i], p)
    ensures Done(nodes, p) && Ready(nodes, ord, p)
  {
    hide Ready, VotesReady, Spoke;
    if p in nodes[i].d.reveal2s {
      assert HeldAreSpoken(nodes, nodes[i]);
      assert InTurn(nodes, ord, nodes[p]);
    } else {
      assert AbortsReady(nodes, ord, nodes[i]);
    }
  }

  /** The order a node works with is the shared one. */
  lemma OrderIsShared(nodes: Nodes, ord: seq<PeerID>, i: PeerID)
    requires i in nodes && InTurn(nodes, ord, nodes[i]) && Ordered(ord, nodes[i]) && nodes[i].d.revealOrder != []
    ensures nodes[i].d.revealOrder == ord
  {
  }

  lemma ClaimedInTurn(x: Ctx, nodes: Nodes, sent: Mail, ord: seq<PeerID>, i: PeerID, a: Action)
    requires Setting(x, nodes, sent, ord, i, a) && Ordered(ord, nodes[i]) && (a.ClaimFirst? || a.ClaimAfter?)
    ensures Ready(nodes, ord, nodes[i].self)
  {
    hide Ready, Done, HandSpoken, VotesCast, TalliesHeard, AllInTurn, Ordered, Passed, NoDuplicates, Do;
    var n := nodes[i];
    AtNode(nodes, ord, i);
    OrderIsShared(nodes, ord, i);
    if a.ClaimFirst? {
      FirstReady(nodes, ord);
    } else {
      PassedIsReady(nodes, ord, i, a.p);
      LastIndexFinds(ord, n.self);
      LastIndexFinds(ord, a.p);
      SuccessorReady(nodes, ord, LastIndex(ord, a.p));
    }
  }

  lemma SkippedAreDone(nodes: Nodes, ord: seq<PeerID>, i: PeerID, p: PeerID)
    requires i in nodes && AllInTurn(nodes, ord) && p in nodes[i].aborted.Keys + nodes[i].d.reveal2s.Keys
    ensures Done(nodes, p)
  {
    assert HeldAreSpoken(nodes, nodes[i]);
  }

  lemma ArmedInTurn(x: Ctx, nodes: Nodes, sent: Mail, ord: seq<PeerID>, i: PeerID, a: Action)
    requires Setting(x, nodes, sent, ord, i, a) && Ordered(ord, nodes[i]) && a.Arm?
    ensures Ready(nodes, ord, a.next)
  {
    hide Done, HandSpoken, VotesCast, TalliesHeard, AllInTurn, Spoke;
    var n := nodes[i];
    assert InTurn(nodes, ord, n) by { AtNode(nodes, ord, i); }
    assert n.d.revealOrder != [];
    OrderIsShared(nodes, ord, i);
    var skip := n.aborted.Keys + n.d.reveal2s.Keys;
    var from, at := NextPendingSkips(ord, a.after == NO_PEER, a.after, skip);
    if a.after != NO_PEER {
      PassedIsReady(nodes, ord, i, a.after);
    }
    forall k, b | 0 <= k < b < |ord| && ord[b] == a.next ensures Done(nodes, ord[k]) {
      assert b == at;
      if k >= from {
        SkippedAreDone(nodes, ord, i, ord[k]);
      } else {
        assert ord[from - 1] == a.after;
      }
    }
  }

  lemma AtNode(nodes: Nodes, ord: seq<PeerID>, i: PeerID)
    requires i in nodes && AllInTurn(nodes, ord)
    ensures InTurn(nodes, ord, nodes[i]) && nodes[i].self == i
  {
  }

  lemma AbortedInTurn(x: Ctx, nodes: Nodes, sent: Mail, ord: seq<PeerID>, i: PeerID, p: PeerID)
    requires Setting(x, nodes, sent, ord, i, Abort(p, Reveal2))
    ensures Ready(nodes, ord, p)
  {
    hide Ready, Done, HeldAreSpoken, Spoke, AbortsReady;
    var key := Key(Reveal2, p);
    var n := nodes[i];
    assert !TwoValues(x.hand, Reveal2, p);
    assert |VotersFor(n, key)| >= 1;
    var q :| q in VotersFor(n, key);
    assert VotersFor(n, key) <= Voters(sent, key);
    assert (q, TimeoutVote(Reveal2, p)) in sent;
    assert TimeoutVote(Reveal2, p) in nodes[q].out;
    AtNode(nodes, ord, q);
    assert VotesReady(nodes, ord, nodes[q]);
  }

  lemma VotedInTurn(x: Ctx, nodes: Nodes, sent: Mail, ord: seq<PeerID>, i: PeerID, p: PeerID)
    requires Setting(x, nodes, sent, ord, i, Vote(Reveal2, p))
    ensures Ready(nodes, ord, p)
  {
    hide Ready, Done, HeldAreSpoken, Spoke, AbortsReady, VotesReady, TalliesHeard, VotesCast, HandSpoken;
    AtNode(nodes, ord, i);
  }

  lemma ActionHeld(x: Ctx, nodes: Nodes, i: PeerID, a: Action)
    requires i in nodes && HeldAreSpoken(nodes, nodes[i]) && HandSpoken(nodes, x.hand) && Enabled(x, nodes[i], a)
    requires nodes[i].self == i && nodes[i].d.self == i
    ensures HeldAreSpoken(nodes[i := Do(x.env, nodes[i], a)], Do(x.env, nodes[i], a))
  {
    var n, n' := nodes[i], Do(x.env, nodes[i], a);
    var nodes' := nodes[i := n'];
    ActionGrowsLogs(x, n, a);
    forall p | p in n'.d.reveal2s ensures p in nodes' && Spoke(nodes'[p]) {
      NewHeld(x, n, a, p);
      if p in nodes && Spoke(nodes[p]) && p == i {
        SpokenStays(n, n');
      }
    }
  }

  lemma NewHeld(x: Ctx, n: NodeState, a: Action, p: PeerID)
    requires Enabled(x, n, a) && n.d.self == n.self && p in Do(x.env, n, a).d.reveal2s
    ensures || p in n.d.reveal2s
            || (p == n.self && Spoke(Do(x.env, n, a)))
            || (exists e :: e in x.hand && e.phase == Reveal2 && e.peer == p)
  {
    if a.AcceptReveal2? && p == a.p {
      assert Evidence(Reveal2, p, DocValue(Reveal2, a.doc)) in x.hand;
    } else if a.Speak? && p == n.self {
      assert Gossip(Reveal2, Some(n.self), a.value, a.sig) in Do(x.env, n, a).out;
    }
  }

  lemma ActionSpeaks(x: Ctx, n: NodeState, a: Action)
    requires Enabled(x, n, a) && (Spoke(n) ==> n.d.reveal2Sent)
    ensures Spoke(Do(x.env, n, a)) ==> Do(x.env, n, a).d.reveal2Sent
  {
    ActionGrowsViews(x, n, a);
  }

  lemma ActionClaims(x: Ctx, n: NodeState, a: Action)
    requires Do(x.env, n, a).d.reveal2Sent
    ensures n.d.reveal2Sent || a.ClaimFirst? || a.ClaimAfter?
  {
  }

  lemma ActionTargets(x: Ctx, n: NodeState, a: Action)
    ensures Do(x.env, n, a).reveal2Target == if a.Arm? then a.next else n.reveal2Target
  {
  }

  lemma ActionAborts(x: Ctx, n: NodeState, a: Action, p: PeerID)
    requires Enabled(x, n, a) && Get(Do(x.env, n, a).aborted, p) == Some(Reveal2)
    ensures Get(n.aborted, p) == Some(Reveal2) || a == Abort(p, Reveal2)
  {
  }

  lemma ActionVotes(x: Ctx, n: NodeState, a: Action, p: PeerID)
    requires Enabled(x, n, a) && TimeoutVote(Reveal2, p) in Do(x.env, n, a).out
    ensures TimeoutVote(Reveal2, p) in n.out || a == Vote(Reveal2, p)
  {
  }

  lemma ActionOrders(x: Ctx, n: NodeState, a: Action)
    requires n.d.revealOrder == [] || n.d.revealOrder in n.orders
    ensures Do(x.env, n, a).d.revealOrder == [] || Do(x.env, n, a).d.revealOrder in Do(x.env, n, a).orders
  {
  }

  lemma ReplaceGrows(nodes: Nodes, i: PeerID, n': NodeState)
    requires i in nodes && Grows(nodes[i], n')
    ensures NodesGrow(nodes, nodes[i := n'])
  {
    hide Grows;
    forall j | j in nodes ensures Grows(nodes[j], nodes[i := n'][j]) {
      GrowsRefl(nodes[j]);
    }
  }

  lemma ActionKeepsTurn(x: Ctx, nodes: Nodes, sent: Mail, ord: seq<PeerID>, i: PeerID, a: Action)
    requires Setting(x, nodes, sent, ord, i, a) && Ordered(ord, nodes[i])
    ensures InTurn(nodes[i := Do(x.env, nodes[i], a)], ord, Do(x.env, nodes[i], a))
  {
    hide Ready, Done, HeldAreSpoken, Spoke, TalliesHeard, VotesCast, HandSpoken, Enabled, Computed, Do, Grows, Ordered;
    var n, n' := nodes[i], Do(x.env, nodes[i], a);
    var nodes' := nodes[i := n'];
    AtNode(nodes, ord, i);
    ActionKeepsNode(x, n, a);
    ActionGrows(x, n, a);
    ReplaceGrows(nodes, i, n');
    ActionHeld(x, nodes, i, a);
    ActionSpeaks(x, n, a);
    ActionOrders(x, n, a);
    ActionTargets(x, n, a);
    KeepsSelf(x, n, a);
    forall p | Ready(nodes, ord, p) ensures Ready(nodes', ord, p) {
      ReadyStays(nodes, nodes', ord, p);
    }
    if n'.d.reveal2Sent {
      ActionClaims(x, n, a);
      if a.ClaimFirst? || a.ClaimAfter? {
        ClaimedInTurn(x, nodes, sent, ord, i, a);
      }
    }
    if a.Arm? {
      ArmedInTurn(x, nodes, sent, ord, i, a);
    }
    forall p | Get(n'.aborted, p) == Some(Reveal2) ensures Ready(nodes', ord, p) {
      ActionAborts(x, n, a, p);
      if a == Abort(p, Reveal2) {
        AbortedInTurn(x, nodes, sent, ord, i, p);
      } else {
        assert AbortsReady(nodes, ord, n);
      }
    }
    forall p | TimeoutVote(Reveal2, p) in n'.out ensures Ready(nodes', ord, p) {
      ActionVotes(x, n, a, p);
      if a == Vote(Reveal2, p) {
        VotedInTurn(x, nodes, sent, ord, i, p);
      } else {
        assert VotesReady(nodes, ord, n);
      }
    }
  }

  lemma KeepsSelf(x: Ctx, n: NodeState, a: Action)
    ensures Do(x.env, n, a).d.self == n.d.self
  {
  }

  // --- one handler ---

  lemma HandStays(nodes: Nodes, nodes': Nodes, hand: set<Evidence>)
    requires NodesGrow(nodes, nodes') && HandSpoken(nodes, hand)
    ensures HandSpoken(nodes', hand)
  {
    hide Spoke, Grows, TwoValues;
    forall e | e in hand && e.phase == Reveal2 ensures e.peer in nodes' && Spoke(nodes'[e.peer]) {
      GrowsLogs(nodes[e.peer], nodes'[e.peer]);
      SpokenStays(nodes[e.peer], nodes'[e.peer]);
    }
  }

  lemma CastStay(nodes: Nodes, nodes': Nodes, sent: Mail)
    requires NodesGrow(nodes, nodes') && VotesCast(nodes, sent)
    ensures VotesCast(nodes', sent)
  {
    hide Grows;
    forall e | e in sent ensures e.0 in nodes' && e.1 in nodes'[e.0].out {
      GrowsLogs(nodes[e.0], nodes'[e.0]);
    }
  }

  lemma AllStay(nodes: Nodes, ord: seq<PeerID>, i: PeerID, n': NodeState)
    requires i in nodes && AllInTurn(nodes, ord) && Grows(nodes[i], n') && InTurn(nodes[i := n'], ord, n') && n'.self == i
    ensures AllInTurn(nodes[i := n'], ord)
  {
    hide InTurn, Grows;
    ReplaceGrows(nodes, i, n');
    forall j | j in nodes ensures InTurn(nodes[i := n'], ord, nodes[i := n'][j]) {
      if j != i {
        InTurnStays(nodes, nodes[i := n'], ord, nodes[j]);
      }
    }
  }

  lemma OrderedPrefix(orders: seq<seq<PeerID>>, orders': seq<seq<PeerID>>, ord: seq<PeerID>)
    requires orders <= orders' && forall o | o in orders' :: o == ord
    ensures forall o | o in orders :: o == ord
  {
    forall o | o in orders ensures o == ord {
      var k: nat :| k < |orders| && orders[k] == o;
      assert orders'[k] == o && o in orders';
    }
  }

  lemma OrderedBefore(x: Ctx, n: NodeState, acts: seq<Action>, ord: seq<PeerID>)
    requires Permitted(x, n, acts) && Ordered(ord, RunActs(x.env, n, acts))
    ensures Ordered(ord, n)
  {
    RunGrows(x, n, acts);
    OrderedPrefix(n.orders, RunActs(x.env, n, acts).orders, ord);
  }

  /** One action at node i keeps everything the next one relies on. */
  lemma ActionKeepsSetting(x: Ctx, nodes: Nodes, sent: Mail, ord: seq<PeerID>, i: PeerID, a: Action)
    requires Setting(x, nodes, sent, ord, i, a) && Ordered(ord, nodes[i]) && Delivered(sent, x.event)
    ensures var m := Do(x.env, nodes[i], a); var nodes1 := nodes[i := m];
            && AllInTurn(nodes1, ord) && HandSpoken(nodes1, x.hand) && VotesCast(nodes1, sent) && TalliesHeard(sent, m)
  {
    hide AllInTurn, HandSpoken, VotesCast, TalliesHeard, Enabled, Computed, Do, Ordered, Grows, InTurn, Delivered, NodesGrow,
         NoDuplicates;
    var m := Do(x.env, nodes[i], a);
    ActionGrows(x, nodes[i], a);
    ActionKeepsNode(x, nodes[i], a);
    ReplaceGrows(nodes, i, m);
    ActionKeepsTurn(x, nodes, sent, ord, i, a);
    AtNodeSelf(nodes, ord, i);
    AllStay(nodes, ord, i, m);
    HandStays(nodes, nodes[i := m], x.hand);
    CastStay(nodes, nodes[i := m], sent);
    ActionKeepsTallies(x, sent, nodes[i], a);
  }

  lemma {:induction false} ActionsKeepTurn(x: Ctx, nodes: Nodes, sent: Mail, ord: seq<PeerID>, i: PeerID, acts: seq<Action>)
    requires i in nodes && NoDuplicates(ord) && AllInTurn(nodes, ord) && HandSpoken(nodes, x.hand) && VotesCast(nodes, sent)
    requires Delivered(sent, x.event) && TalliesHeard(sent, nodes[i])
    requires Permitted(x, nodes[i], acts) && Ordered(ord, RunActs(x.env, nodes[i], acts))
    ensures AllInTurn(nodes[i := RunActs(x.env, nodes[i], acts)], ord)
    decreases |acts|
  {
    if acts == [] {
      assert nodes[i := nodes[i]] == nodes;
    } else {
      hide AllInTurn, HandSpoken, VotesCast, TalliesHeard, Enabled, Computed, Do, Ordered, Delivered, NoDuplicates;
      var n, m := nodes[i], Do(x.env, nodes[i], acts[0]);
      OrderedBefore(x, n, acts, ord);
      OrderedBefore(x, m, acts[1..], ord);
      ActionKeepsSetting(x, nodes, sent, ord, i, acts[0]);
      ActionsKeepTurn(x, nodes[i := m], sent, ord, i, acts[1..]);
      assert nodes[i := m][i := RunActs(x.env, m, acts[1..])] == nodes[i := RunActs(x.env, n, acts)];
    }
  }

  lemma AtNodeSelf(nodes: Nodes, ord: seq<PeerID>, i: PeerID)
    requires i in nodes && AllInTurn(nodes, ord)
    ensures nodes[i].self == i
  {
  }

  // --- the network ---

  /** A closed network: every step is a node's, and only nodes sign. */
  ghost predicate Closed(c: Crypto, sys: Sys, s: Step) {
    s.At? && forall e | e in EventEvidence(c, s.stimulus.event) :: e.peer in sys.nodes
  }

  ghost predicate ClosedRun(c: Crypto, sys: Sys, steps: seq<Step>)
    decreases |steps|
  {
    steps == [] || (Closed(c, sys, steps[0]) && ClosedRun(c, Net.Next(sys, steps[0]), steps[1..]))
  }

  ghost predicate PendingFromNodes(nodes: Nodes, n: NodeState) {
    forall e | e in PendingEvidence(n) :: e.peer in nodes
  }

  ghost predicate TurnInv(c: Crypto, ord: seq<PeerID>, sys: Sys) {
    && Records(c, sys) && AllInTurn(sys.nodes, ord) && VotesCast(sys.nodes, sys.sent)
    && forall i | i in sys.nodes :: PendingFromNodes(sys.nodes, sys.nodes[i])
  }

  lemma HandFromNodes(c: Crypto, sys: Sys, s: Step, e: Evidence)
    requires s.At? && s.i in sys.nodes && s.stimulus.env.c == c && Closed(c, sys, s)
    requires PendingFromNodes(sys.nodes, sys.nodes[s.i])
    requires e in CtxOf(s.stimulus.env, sys.nodes[s.i], s.stimulus.event).hand
    ensures e.peer in sys.nodes
  {
  }

  lemma PublishedSpoke(n: NodeState, value: Bytes)
    requires Published(n, Reveal2, value)
    ensures Spoke(n)
  {
  }

  lemma HandIsSpoken(c: Crypto, sys: Sys, s: Step)
    requires Records(c, sys) && Legal(c, sys, s) && Unforged(c, sys, s) && Closed(c, sys, s)
    requires PendingFromNodes(sys.nodes, sys.nodes[s.i])
    ensures HandSpoken(sys.nodes, CtxOf(s.stimulus.env, sys.nodes[s.i], s.stimulus.event).hand)
  {
    hide SysInv, Unforged, PendingEvidence, EventEvidence, TalliesHeard, CtxOf, Spoke, Published, PendingFromNodes;
    var hand := CtxOf(s.stimulus.env, sys.nodes[s.i], s.stimulus.event).hand;
    assert RecordsOf(c, sys, s.i);
    HandIsGenuine(c, sys, s);
    GenuineProofs(c, sys, hand);
    forall e | e in hand && e.phase == Reveal2 ensures e.peer in sys.nodes && Spoke(sys.nodes[e.peer]) {
      HandFromNodes(c, sys, s, e);
      assert Genuine(c, sys.nodes, e);
      PublishedSpoke(sys.nodes[e.peer], e.value);
    }
    forall phase, p ensures !TwoValues(hand, phase, p) {
      if TwoValues(hand, phase, p) {
        var v: Bytes, w: Bytes :| v != w && Evidence(phase, p, v) in hand && Evidence(phase, p, w) in hand;
        HandFromNodes(c, sys, s, Evidence(phase, p, v));
        assert false;
      }
    }
  }

  lemma HandleKeepsTurn(c: Crypto, ord: seq<PeerID>, sys: Sys, s: Step)
    requires TurnInv(c, ord, sys) && Legal(c, sys, s) && Unforged(c, sys, s) && Closed(c, sys, s) && NoDuplicates(ord)
    requires Ordered(ord, Net.Next(sys, s).nodes[s.i])
    ensures AllInTurn(Net.Next(sys, s).nodes, ord)
  {
    hide SysInv, Handle, WellFormed, EventEvidence, PendingEvidence, TalliesHeard, Permitted, RunActs, CtxOf,
         AllInTurn, VotesCast, HandSpoken, Unforged, AllGenuine, Ordered;
    var env, n, e := s.stimulus.env, sys.nodes[s.i], s.stimulus.event;
    var x := CtxOf(env, n, e);
    CtxParts(env, n, e);
    NodeWellFormed(c, sys, s.i);
    HandIsSpoken(c, sys, s);
    HandlePath(env, n, e);
    var acts: seq<Action> :| Permitted(x, n, acts) && RunActs(x.env, n, acts) == Handle(env, n, e);
    assert RecordsOf(c, sys, s.i);
    ActionsKeepTurn(x, sys.nodes, sys.sent, ord, s.i, acts);
  }

  lemma CtxParts(env: Env, n: NodeState, e: Event)
    ensures CtxOf(env, n, e).env == env && CtxOf(env, n, e).event == e
  {
  }

  lemma MovedVotes(sys: Sys, i: PeerID, n': NodeState)
    requires i in sys.nodes && VotesCast(sys.nodes, sys.sent) && Grows(sys.nodes[i], n')
    ensures VotesCast(Moved(sys, i, n').nodes, Moved(sys, i, n').sent)
  {
    ReplaceGrows(sys.nodes, i, n');
    CastStay(sys.nodes, sys.nodes[i := n'], sys.sent);
  }

  lemma PendingStaysFromNodes(c: Crypto, sys: Sys, s: Step)
    requires Records(c, sys) && Legal(c, sys, s) && Closed(c, sys, s) && PendingFromNodes(sys.nodes, sys.nodes[s.i])
    ensures PendingFromNodes(sys.nodes, Handle(s.stimulus.env, sys.nodes[s.i], s.stimulus.event))
  {
    hide SysInv, Handle, WellFormed, EventEvidence, PendingEvidence, TalliesHeard, AllGenuine;
    NodeWellFormed(c, sys, s.i);
    assert RecordsOf(c, sys, s.i);
    HandleKeepsTallies(sys, s);
    forall e | e in PendingEvidence(Handle(s.stimulus.env, sys.nodes[s.i], s.stimulus.event)) ensures e.peer in sys.nodes {
      HandFromNodes(c, sys, s, e);
    }
  }

  lemma StepKeepsTurn(c: Crypto, ord: seq<PeerID>, sys: Sys, s: Step)
    requires TurnInv(c, ord, sys) && Legal(c, sys, s) && Unforged(c, sys, s) && Closed(c, sys, s) && NoDuplicates(ord)
    requires Ordered(ord, Net.Next(sys, s).nodes[s.i])
    ensures TurnInv(c, ord, Net.Next(sys, s))
  {
    hide SysInv, Handle, PendingFromNodes, AllInTurn, VotesCast, Unforged, Ordered, RecordsOf, Grows;
    StepKeepsRecords(c, sys, s);
    StepGrows(c, sys, s);
    HandleKeepsTurn(c, ord, sys, s);
    MovedVotes(sys, s.i, Net.Next(sys, s).nodes[s.i]);
    PendingStaysFromNodes(c, sys, s);
    forall i | i in sys.nodes ensures PendingFromNodes(Net.Next(sys, s).nodes, Net.Next(sys, s).nodes[i]) {
      SameNames(sys.nodes, Net.Next(sys, s).nodes, Net.Next(sys, s).nodes[i]);
    }
  }

  lemma SameNames(nodes: Nodes, nodes': Nodes, n: NodeState)
    requires nodes.Keys == nodes'.Keys && PendingFromNodes(nodes, n)
    ensures PendingFromNodes(nodes', n)
  {
  }

  // --- whole runs ---

  /** One order is shared: whatever order any node has computed, it is this one. */
  ghost predicate SharedOrder(ord: seq<PeerID>, sys: Sys) {
    NoDuplicates(ord) && forall i | i in sys.nodes :: Ordered(ord, sys.nodes[i])
  }

  lemma SharedBefore(sys: Sys, sys': Sys, ord: seq<PeerID>)
    requires NetGrows(sys, sys') && SharedOrder(ord, sys')
    ensures SharedOrder(ord, sys)
  {
    hide Grows;
    forall i | i in sys.nodes ensures Ordered(ord, sys.nodes[i]) {
      GrowsLogs(sys.nodes[i], sys'.nodes[i]);
      OrderedPrefix(sys.nodes[i].orders, sys'.nodes[i].orders, ord);
    }
  }

  lemma InitTurn(c: Crypto, ord: seq<PeerID>, sys: Sys)
    requires InitSys(sys)
    ensures TurnInv(c, ord, sys)
  {
    InitRecords(c, sys);
    forall i | i in sys.nodes ensures PendingFromNodes(sys.nodes, sys.nodes[i]) && InTurn(sys.nodes, ord, sys.nodes[i]) {
      assert sys.nodes[i] == InitNode(i, sys.nodes[i].config);
    }
  }

  lemma {:induction false} RunKeepsTurn(c: Crypto, ord: seq<PeerID>, sys: Sys, steps: seq<Step>)
    requires TurnInv(c, ord, sys) && LegalRun(c, sys, steps) && UnforgedRun(c, sys, steps) && ClosedRun(c, sys, steps)
    requires SharedOrder(ord, RunSys(sys, steps))
    ensures TurnInv(c, ord, RunSys(sys, steps))
    decreases |steps|
  {
    if steps != [] {
      hide TurnInv, Legal, Unforged, Net.Next, SharedOrder, Records, NetGrows;
      var mid := Net.Next(sys, steps[0]);
      TurnRecords(c, ord, sys);
      StepKeepsRecords(c, sys, steps[0]);
      RunKeepsRecords(c, mid, steps[1..]);
      SharedBefore(mid, RunSys(sys, steps), ord);
      SharedAt(c, ord, sys, steps[0]);
      StepKeepsTurn(c, ord, sys, steps[0]);
      RunKeepsTurn(c, ord, mid, steps[1..]);
    }
  }

  lemma TurnRecords(c: Crypto, ord: seq<PeerID>, sys: Sys)
    requires TurnInv(c, ord, sys)
    ensures Records(c, sys)
  {
  }

  lemma SharedAt(c: Crypto, ord: seq<PeerID>, sys: Sys, s: Step)
    requires SharedOrder(ord, Net.Next(sys, s)) && Legal(c, sys, s) && Closed(c, sys, s)
    ensures NoDuplicates(ord) && Ordered(ord, Net.Next(sys, s).nodes[s.i])
  {
    hide Handle, EventEvidence;
  }

  /** Turn order over whole runs: when the peer at index k has published its secret, every peer
      before it has published or been aborted; likewise when it has been voted against or aborted
      in reveal2. */
  lemma SecretsComeOutInOrder(c: Crypto, ord: seq<PeerID>, init: Sys, steps: seq<Step>, k: nat, j: nat)
    requires InitSys(init) && LegalRun(c, init, steps) && UnforgedRun(c, init, steps) && ClosedRun(c, init, steps)
    requires SharedOrder(ord, RunSys(init, steps)) && j < k < |ord|
    requires var nodes := RunSys(init, steps).nodes;
             || (ord[k] in nodes && Spoke(nodes[ord[k]]))
             || (exists i | i in nodes :: Get(nodes[i].aborted, ord[k]) == Some(Reveal2))
             || (exists i | i in nodes :: TimeoutVote(Reveal2, ord[k]) in nodes[i].out)
    ensures Done(RunSys(init, steps).nodes, ord[j])
  {
    hide LegalRun, UnforgedRun, ClosedRun, RunSys, Done, Records, Spoke, VotesCast, PendingFromNodes;
    InitTurn(c, ord, init);
    RunKeepsTurn(c, ord, init, steps);
    var nodes := RunSys(init, steps).nodes;
    assert Ready(nodes, ord, ord[k]) by { SpokenIsReady(nodes, ord, ord[k]); }
  }

  lemma SpokenIsReady(nodes: Nodes, ord: seq<PeerID>, p: PeerID)
    requires AllInTurn(nodes, ord)
    requires || (p in nodes && Spoke(nodes[p]))
             || (exists i | i in nodes :: Get(nodes[i].aborted, p) == Some(Reveal2))
             || (exists i | i in nodes :: TimeoutVote(Reveal2, p) in nodes[i].out)
    ensures Ready(nodes, ord, p)
  {
    hide Ready, Spoke, HeldAreSpoken;
    if p in nodes && Spoke(nodes[p]) {
      AtNode(nodes, ord, p);
    } else if exists i | i in nodes :: Get(nodes[i].aborted, p) == Some(Reveal2) {
      var i :| i in nodes && Get(nodes[i].aborted, p) == Some(Reveal2);
      AtNode(nodes, ord, i);
    } else {
      var i :| i in nodes && TimeoutVote(Reveal2, p) in nodes[i].out;
      AtNode(nodes, ord, i);
    }
  }
}
