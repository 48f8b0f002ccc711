/** Who is answerable for an abort, over every run of the network: votes are counted once per
    sender, every abort after the lock has its majority of voters or its two signed values, and
    vote and dispute majorities meet. */
module Accountability {
  import opened Encoding
  import opened FiniteSets
  import opened Signing
  import opened NodeSpec
  import opened Actions
  import opened Handlers
  import opened NodeRuns
  import opened Net = System

  type Mail = set<(PeerID, Msg)>

  /** Everybody who ever voted against key.peer in key.phase. */
  function Voters(sent: Mail, key: Key): set<PeerID> {
    set e | e in sent && e.1 == TimeoutVote(key.phase, key.peer) :: e.0
  }

  function Disputers(sent: Mail, key: Key): set<PeerID> {
    set e | e in sent && e.1.TimeoutDispute? && e.1.phase == key.phase && e.1.target == key.peer :: e.0
  }

  /** Nobody is counted who did not send. */
  ghost predicate TalliesHeard(sent: Mail, n: NodeState) {
    forall key :: VotersFor(n, key) <= Voters(sent, key) && DisputersFor(n, key) <= Disputers(sent, key)
  }

  ghost predicate VotedOut(sent: Mail, n: NodeState, key: Key) {
    |Voters(sent, key)| >= Majority(n)
  }

  ghost predicate Equivocator(c: Crypto, phase: Phase, p: PeerID) {
    exists first, second :: ProvesEquivocation(c, phase, p, first, second)
  }

  /** Every abort after `before`, other than a READY_ACK exclusion, has its reason. */
  ghost predicate Accounted(c: Crypto, honest: set<PeerID>, sent: Mail, before: set<PeerID>, n: NodeState) {
    forall p | p in n.aborted && p !in before && n.aborted[p] != ReadyAck ::
      VotedOut(sent, n, Key(n.aborted[p], p)) || (p !in honest && Equivocator(c, n.aborted[p], p))
  }

  /** A pair of values in hand against p is a proof, and p does not run the code. */
  ghost predicate ProofsReal(c: Crypto, honest: set<PeerID>, hand: set<Evidence>) {
    forall phase, p | TwoValues(hand, phase, p) :: p !in honest && Equivocator(c, phase, p)
  }

  ghost predicate Delivered(sent: Mail, e: Event) {
    e.Receive? ==> (e.from, e.msg) in sent
  }

  // --- one action ---

  lemma ActionKeepsVoters(x: Ctx, sent: Mail, n: NodeState, a: Action, key: Key)
    requires Enabled(x, n, a) && Delivered(sent, x.event) && VotersFor(n, key) <= Voters(sent, key)
    ensures VotersFor(Do(x.env, n, a), key) <= Voters(sent, key)
  {
    if a.AddVote? {
      assert (a.from, TimeoutVote(a.key.phase, a.key.peer)) in sent;
    }
  }

  lemma ActionKeepsDisputers(x: Ctx, sent: Mail, n: NodeState, a: Action, key: Key)
    requires Enabled(x, n, a) && Delivered(sent, x.event) && DisputersFor(n, key) <= Disputers(sent, key)
    ensures DisputersFor(Do(x.env, n, a), key) <= Disputers(sent, key)
  {
    if a.AddDispute? {
      assert (x.event.from, x.event.msg) in sent;
    }
  }

  lemma ActionKeepsTallies(x: Ctx, sent: Mail, n: NodeState, a: Action)
    requires Enabled(x, n, a) && Delivered(sent, x.event) && TalliesHeard(sent, n)
    ensures TalliesHeard(sent, Do(x.env, n, a))
  {
    hide Enabled, Do;
    forall key ensures var n' := Do(x.env, n, a);
                       VotersFor(n', key) <= Voters(sent, key) && DisputersFor(n', key) <= Disputers(sent, key) {
      ActionKeepsVoters(x, sent, n, a, key);
      ActionKeepsDisputers(x, sent, n, a, key);
    }
  }

  lemma AbortHasReason(x: Ctx, honest: set<PeerID>, sent: Mail, n: NodeState, p: PeerID, phase: Phase)
    requires Enabled(x, n, Abort(p, phase)) && phase != ReadyAck
    requires TalliesHeard(sent, n) && ProofsReal(x.env.c, honest, x.hand)
    ensures VotedOut(sent, n, Key(phase, p)) || (p !in honest && Equivocator(x.env.c, phase, p))
  {
    if |VotersFor(n, Key(phase, p))| >= Majority(n) {
      SubsetSize(VotersFor(n, Key(phase, p)), Voters(sent, Key(phase, p)));
    }
  }

  lemma NewAborts(x: Ctx, n: NodeState, a: Action, p: PeerID)
    requires Enabled(x, n, a) && n.sessionActive && p in Do(x.env, n, a).aborted
    ensures (p in n.aborted && Do(x.env, n, a).aborted[p] == n.aborted[p])
            || a == Abort(p, Do(x.env, n, a).aborted[p])
  {
  }

  lemma ActionKeepsAccounts(x: Ctx, honest: set<PeerID>, sent: Mail, before: set<PeerID>, n: NodeState, a: Action)
    requires Enabled(x, n, a) && n.sessionActive && TalliesHeard(sent, n)
    requires ProofsReal(x.env.c, honest, x.hand) && Accounted(x.env.c, honest, sent, before, n)
    ensures Accounted(x.env.c, honest, sent, before, Do(x.env, n, a))
  {
    hide Enabled, Do, ProofsReal, TalliesHeard, Voters, Equivocator;
    var n' := Do(x.env, n, a);
    ActionGrowsSession(x, n, a);
    forall p | p in n'.aborted && p !in before && n'.aborted[p] != ReadyAck
      ensures VotedOut(sent, n', Key(n'.aborted[p], p)) || (p !in honest && Equivocator(x.env.c, n'.aborted[p], p))
    {
      NewAborts(x, n, a, p);
      if a == Abort(p, n'.aborted[p]) {
        AbortHasReason(x, honest, sent, n, p, n'.aborted[p]);
      }
    }
  }

  lemma ActionKeepsPendingInHand(x: Ctx, n: NodeState, a: Action)
    requires Enabled(x, n, a) && PendingEvidence(n) <= x.hand
    ensures PendingEvidence(Do(x.env, n, a)) <= x.hand
  {
    var n' := Do(x.env, n, a);
    forall p | p in n'.pending1 ensures Evidence(Reveal1, p, DocValue(Reveal1, n'.pending1[p])) in x.hand {
      if p in n.pending1 && n'.pending1[p] == n.pending1[p] {
        assert Evidence(Reveal1, p, DocValue(Reveal1, n.pending1[p])) in PendingEvidence(n);
      }
    }
    forall p | p in n'.pending2 ensures Evidence(Reveal2, p, DocValue(Reveal2, n'.pending2[p])) in x.hand {
      if p in n.pending2 && n'.pending2[p] == n.pending2[p] {
        assert Evidence(Reveal2, p, DocValue(Reveal2, n.pending2[p])) in PendingEvidence(n);
      }
    }
  }

  // --- one handler ---

  lemma {:induction false} ActionsKeepTallies(x: Ctx, sent: Mail, n: NodeState, acts: seq<Action>)
    requires Permitted(x, n, acts) && Delivered(sent, x.event) && TalliesHeard(sent, n)
    requires PendingEvidence(n) <= x.hand
    ensures TalliesHeard(sent, RunActs(x.env, n, acts)) && PendingEvidence(RunActs(x.env, n, acts)) <= x.hand
    decreases |acts|
  {
    if acts != [] {
      hide Enabled, Computed, Do, TalliesHeard, PendingEvidence;
      ActionKeepsTallies(x, sent, n, acts[0]);
      ActionKeepsPendingInHand(x, n, acts[0]);
      ActionsKeepTallies(x, sent, Do(x.env, n, acts[0]), acts[1..]);
    }
  }

  lemma {:induction false} ActionsKeepAccounts(x: Ctx, honest: set<PeerID>, sent: Mail, before: set<PeerID>,
                                                 n: NodeState, acts: seq<Action>)
    requires Permitted(x, n, acts) && Delivered(sent, x.event) && TalliesHeard(sent, n) && n.sessionActive
    requires ProofsReal(x.env.c, honest, x.hand) && Accounted(x.env.c, honest, sent, before, n)
    ensures Accounted(x.env.c, honest, sent, before, RunActs(x.env, n, acts))
    decreases |acts|
  {
    if acts != [] {
      hide Enabled, Computed, Do, TalliesHeard, ProofsReal, Accounted;
      ActionKeepsTallies(x, sent, n, acts[0]);
      ActionKeepsAccounts(x, honest, sent, before, n, acts[0]);
      ActionGrowsSession(x, n, acts[0]);
      ActionsKeepAccounts(x, honest, sent, before, Do(x.env, n, acts[0]), acts[1..]);
    }
  }

  // --- evidence ---

  /** A value is evidence against p only if p signed it, and, for a node, if it published it. */
  ghost predicate Genuine(c: Crypto, nodes: map<PeerID, NodeState>, e: Evidence) {
    && (exists doc :: DocVerifies(c, e.phase, e.peer, doc) && DocValue(e.phase, doc) == e.value)
    && (e.peer in nodes ==> Published(nodes[e.peer], e.phase, e.value))
  }

  ghost predicate AllGenuine(c: Crypto, nodes: map<PeerID, NodeState>, hand: set<Evidence>) {
    forall e | e in hand :: Genuine(c, nodes, e)
  }

  lemma CarriedIsSigned(c: Crypto, event: Event, e: Evidence)
    requires e in EventEvidence(c, event)
    ensures exists doc :: DocVerifies(c, e.phase, e.peer, doc) && DocValue(e.phase, doc) == e.value
  {
    match event {
      case Receive(from, Gossip(phase, author, value, sig)) =>
        var doc := DocFor(phase, author, value, sig);
        assert DocVerifies(c, e.phase, e.peer, doc) && DocValue(e.phase, doc) == e.value;
      case Receive(_, TimeoutDispute(phase, target, doc)) =>
        assert DocVerifies(c, e.phase, e.peer, doc) && DocValue(e.phase, doc) == e.value;
      case Receive(_, EquivocationAbort(phase, target, first, second)) =>
        assert e in DocEvidence(c, phase, target, first) || e in DocEvidence(c, phase, target, second);
      case _ =>
    }
  }

  lemma HandIsGenuine(c: Crypto, sys: Sys, s: Step)
    requires s.At? && s.i in sys.nodes && s.stimulus.env.c == c && Unforged(c, sys, s)
    requires AllGenuine(c, sys.nodes, PendingEvidence(sys.nodes[s.i]))
    ensures AllGenuine(c, sys.nodes, CtxOf(s.stimulus.env, sys.nodes[s.i], s.stimulus.event).hand)
  {
    hide EventEvidence, PendingEvidence;
    var n := sys.nodes[s.i];
    forall e | e in CtxOf(s.stimulus.env, n, s.stimulus.event).hand ensures Genuine(c, sys.nodes, e) {
      if e in EventEvidence(c, s.stimulus.event) {
        CarriedIsSigned(c, s.stimulus.event, e);
      } else {
        assert e in PendingEvidence(n);
      }
    }
  }

  lemma OnePublishedValue(n: NodeState, phase: Phase, v: Bytes, w: Bytes)
    requires PublishesOwn(n) && Published(n, phase, v) && Published(n, phase, w)
    ensures v == w
  {
  }

  lemma GenuineProofs(c: Crypto, sys: Sys, hand: set<Evidence>)
    requires SysInv(c, sys) && AllGenuine(c, sys.nodes, hand)
    ensures ProofsReal(c, sys.nodes.Keys, hand)
  {
    hide NodeInv, DocVerifies;
    forall phase, p | TwoValues(hand, phase, p) ensures p !in sys.nodes && Equivocator(c, phase, p) {
      var v: Bytes, w: Bytes :| v != w && Evidence(phase, p, v) in hand && Evidence(phase, p, w) in hand;
      assert Genuine(c, sys.nodes, Evidence(phase, p, v)) && Genuine(c, sys.nodes, Evidence(phase, p, w));
      var first :| DocVerifies(c, phase, p, first) && DocValue(phase, first) == v;
      var second :| DocVerifies(c, phase, p, second) && DocValue(phase, second) == w;
      assert ProvesEquivocation(c, phase, p, first, second);
      if p in sys.nodes {
        assert PublishesOwn(sys.nodes[p]) by { InvPublishesOwn(c, sys.nodes[p]); }
        OnePublishedValue(sys.nodes[p], phase, v, w);
      }
    }
  }

  lemma InvPublishesOwn(c: Crypto, n: NodeState)
    requires NodeInv(c, n)
    ensures PublishesOwn(n) && WellFormed(c, n)
  {
  }

  // --- the network ---

  ghost predicate RecordsOf(c: Crypto, sys: Sys, i: PeerID)
    requires i in sys.nodes
  {
    AllGenuine(c, sys.nodes, PendingEvidence(sys.nodes[i])) && TalliesHeard(sys.sent, sys.nodes[i])
  }

  ghost predicate Records(c: Crypto, sys: Sys) {
    SysInv(c, sys) && forall i | i in sys.nodes :: RecordsOf(c, sys, i)
  }

  /** More messages, and the same nodes having published more. */
  ghost predicate NetGrows(sys: Sys, sys': Sys) {
    && sys.sent <= sys'.sent && sys.nodes.Keys == sys'.nodes.Keys
    && forall i | i in sys.nodes :: Grows(sys.nodes[i], sys'.nodes[i])
  }

  lemma PublishedStays(n: NodeState, n': NodeState, phase: Phase, value: Bytes)
    requires LogsGrow(n, n') && Published(n, phase, value)
    ensures Published(n', phase, value)
  {
  }

  lemma GenuineStays(c: Crypto, sys: Sys, sys': Sys, hand: set<Evidence>)
    requires NetGrows(sys, sys') && AllGenuine(c, sys.nodes, hand)
    ensures AllGenuine(c, sys'.nodes, hand)
  {
    hide Grows, Published;
    forall e | e in hand ensures Genuine(c, sys'.nodes, e) {
      assert Genuine(c, sys.nodes, e);
      if e.peer in sys.nodes {
        GrowsLogs(sys.nodes[e.peer], sys'.nodes[e.peer]);
        PublishedStays(sys.nodes[e.peer], sys'.nodes[e.peer], e.phase, e.value);
      }
    }
  }

  lemma GrowsLogs(n: NodeState, n': NodeState)
    requires Grows(n, n')
    ensures LogsGrow(n, n') && AbortsGrow(n.aborted, n'.aborted)
    ensures n.sessionActive ==> n'.sessionActive && Majority(n') == Majority(n)
  {
  }

  lemma MoreMail(sent: Mail, sent': Mail, key: Key)
    requires sent <= sent'
    ensures Voters(sent, key) <= Voters(sent', key) && Disputers(sent, key) <= Disputers(sent', key)
  {
  }

  lemma TalliesStay(sent: Mail, sent': Mail, n: NodeState)
    requires sent <= sent' && TalliesHeard(sent, n)
    ensures TalliesHeard(sent', n)
  {
    hide VotersFor, DisputersFor, Voters, Disputers;
    forall key ensures VotersFor(n, key) <= Voters(sent', key) && DisputersFor(n, key) <= Disputers(sent', key) {
      MoreMail(sent, sent', key);
    }
  }

  lemma GrowsRefl(n: NodeState)
    ensures Grows(n, n)
  {
  }

  lemma StepGrows(c: Crypto, sys: Sys, s: Step)
    requires SysInv(c, sys) && Legal(c, sys, s) && Unforged(c, sys, s)
    ensures NetGrows(sys, Net.Next(sys, s))
  {
    hide Handle, NodeInv, EventEvidence, Grows;
    forall i | i in sys.nodes ensures Grows(sys.nodes[i], Net.Next(sys, s).nodes[i]) {
      GrowsRefl(sys.nodes[i]);
      if s.At? && i == s.i {
        assert OwnUnforged(EventEvidence(c, s.stimulus.event), sys.nodes[i]);
        HandleKeepsInv(c, sys.nodes[i], s.stimulus);
      }
    }
  }

  lemma HandleKeepsTallies(sys: Sys, s: Step)
    requires s.At? && s.i in sys.nodes && Delivered(sys.sent, s.stimulus.event) && TalliesHeard(sys.sent, sys.nodes[s.i])
    requires WellFormed(s.stimulus.env.c, sys.nodes[s.i])
    ensures var n, n' := sys.nodes[s.i], Handle(s.stimulus.env, sys.nodes[s.i], s.stimulus.event);
            TalliesHeard(sys.sent, n') && PendingEvidence(n') <= CtxOf(s.stimulus.env, n, s.stimulus.event).hand
  {
    hide Handle, WellFormed, EventEvidence, PendingEvidence, TalliesHeard, Permitted, RunActs;
    var env, n, e := s.stimulus.env, sys.nodes[s.i], s.stimulus.event;
    var x := CtxOf(env, n, e);
    HandlePath(env, n, e);
    var acts: seq<Action> :| Permitted(x, n, acts) && RunActs(x.env, n, acts) == Handle(env, n, e);
    ActionsKeepTallies(x, sys.sent, n, acts);
  }

  lemma StepKeepsRecords(c: Crypto, sys: Sys, s: Step)
    requires Records(c, sys) && Legal(c, sys, s) && Unforged(c, sys, s)
    ensures Records(c, Net.Next(sys, s))
  {
    hide SysInv, Handle, Unforged, PendingEvidence, TalliesHeard, Grows, AllGenuine, CtxOf;
    var sys' := Net.Next(sys, s);
    StepKeepsSysInv(c, sys, s);
    StepGrows(c, sys, s);
    forall i | i in sys'.nodes ensures RecordsOf(c, sys', i) {
      assert RecordsOf(c, sys, i);
      if s.At? && i == s.i {
        NodeWellFormed(c, sys, i);
        HandIsGenuine(c, sys, s);
        HandleKeepsTallies(sys, s);
        var hand := CtxOf(s.stimulus.env, sys.nodes[i], s.stimulus.event).hand;
        GenuineStays(c, sys, sys', hand);
        FewerGenuine(c, sys'.nodes, hand, PendingEvidence(sys'.nodes[i]));
      } else {
        GenuineStays(c, sys, sys', PendingEvidence(sys.nodes[i]));
      }
      TalliesStay(sys.sent, sys'.sent, sys'.nodes[i]);
    }
  }

  lemma FewerGenuine(c: Crypto, nodes: map<PeerID, NodeState>, hand: set<Evidence>, less: set<Evidence>)
    requires AllGenuine(c, nodes, hand) && less <= hand
    ensures AllGenuine(c, nodes, less)
  {
  }

  lemma NodeWellFormed(c: Crypto, sys: Sys, i: PeerID)
    requires SysInv(c, sys) && i in sys.nodes
    ensures WellFormed(c, sys.nodes[i]) && PublishesOwn(sys.nodes[i]) && sys.nodes[i].self == i
  {
    hide NodeInv;
    InvPublishesOwn(c, sys.nodes[i]);
  }

  lemma InitRecords(c: Crypto, sys: Sys)
    requires InitSys(sys)
    ensures Records(c, sys)
  {
    hide SysInv;
    InitSysInv(c, sys);
    forall i | i in sys.nodes ensures RecordsOf(c, sys, i) {
      assert PendingEvidence(sys.nodes[i]) == {};
    }
  }

  lemma {:induction false} RunKeepsRecords(c: Crypto, sys: Sys, steps: seq<Step>)
    requires Records(c, sys) && LegalRun(c, sys, steps) && UnforgedRun(c, sys, steps)
    ensures Records(c, RunSys(sys, steps)) && NetGrows(sys, RunSys(sys, steps))
    decreases |steps|
  {
    hide Records, Legal, Unforged, Net.Next, Grows;
    if steps == [] {
      forall i | i in sys.nodes ensures Grows(sys.nodes[i], sys.nodes[i]) { GrowsRefl(sys.nodes[i]); }
    } else {
      var mid := Net.Next(sys, steps[0]);
      StepKeepsRecords(c, sys, steps[0]);
      StepGrows(c, sys, steps[0]) by { assert Records(c, sys); assert SysInv(c, sys) by { RecordsSys(c, sys); } }
      RunKeepsRecords(c, mid, steps[1..]);
      forall i | i in sys.nodes ensures Grows(sys.nodes[i], RunSys(sys, steps).nodes[i]) {
        GrowsTransitive(sys.nodes[i], mid.nodes[i], RunSys(sys, steps).nodes[i]);
      }
    }
  }

  lemma RecordsSys(c: Crypto, sys: Sys)
    requires Records(c, sys)
    ensures SysInv(c, sys)
  {
  }

  // --- every abort after the lock has its reason ---

  lemma AccountsStay(c: Crypto, honest: set<PeerID>, sent: Mail, sent': Mail, before: set<PeerID>, n: NodeState)
    requires sent <= sent' && Accounted(c, honest, sent, before, n)
    ensures Accounted(c, honest, sent', before, n)
  {
    hide Voters, Equivocator;
    forall p | p in n.aborted && p !in before && n.aborted[p] != ReadyAck
      ensures VotedOut(sent', n, Key(n.aborted[p], p)) || (p !in honest && Equivocator(c, n.aborted[p], p))
    {
      var key := Key(n.aborted[p], p);
      MoreMail(sent, sent', key);
      SubsetSize(Voters(sent, key), Voters(sent', key));
    }
  }

  lemma HandleKeepsAccounts(c: Crypto, sys: Sys, s: Step, before: set<PeerID>)
    requires Records(c, sys) && Legal(c, sys, s) && Unforged(c, sys, s) && s.At?
    requires sys.nodes[s.i].sessionActive && Accounted(c, sys.nodes.Keys, sys.sent, before, sys.nodes[s.i])
    ensures Accounted(c, sys.nodes.Keys, sys.sent, before, Handle(s.stimulus.env, sys.nodes[s.i], s.stimulus.event))
  {
    hide SysInv, Handle, Unforged, WellFormed, PendingEvidence, EventEvidence, TalliesHeard, Permitted, RunActs,
         Accounted, AllGenuine;
    var env, n, e := s.stimulus.env, sys.nodes[s.i], s.stimulus.event;
    var x := CtxOf(env, n, e);
    NodeWellFormed(c, sys, s.i);
    assert RecordsOf(c, sys, s.i);
    HandIsGenuine(c, sys, s);
    GenuineProofs(c, sys, x.hand);
    HandlePath(env, n, e);
    var acts: seq<Action> :| Permitted(x, n, acts) && RunActs(x.env, n, acts) == Handle(env, n, e);
    ActionsKeepAccounts(x, sys.nodes.Keys, sys.sent, before, n, acts);
  }

  lemma StepKeepsAccounts(c: Crypto, sys: Sys, s: Step, i: PeerID, before: set<PeerID>)
    requires Records(c, sys) && Legal(c, sys, s) && Unforged(c, sys, s) && i in sys.nodes
    requires sys.nodes[i].sessionActive && Accounted(c, sys.nodes.Keys, sys.sent, before, sys.nodes[i])
    ensures var sys' := Net.Next(sys, s); Accounted(c, sys.nodes.Keys, sys'.sent, before, sys'.nodes[i])
  {
    hide SysInv, Handle, Records, Unforged, Accounted;
    if s.At? && s.i == i {
      HandleKeepsAccounts(c, sys, s, before);
    }
    var sys' := Net.Next(sys, s);
    AccountsStay(c, sys.nodes.Keys, sys.sent, sys'.sent, before, sys'.nodes[i]);
  }

  lemma {:induction false} RunKeepsAccounts(c: Crypto, sys: Sys, steps: seq<Step>, i: PeerID, before: set<PeerID>)
    requires Records(c, sys) && LegalRun(c, sys, steps) && UnforgedRun(c, sys, steps) && i in sys.nodes
    requires sys.nodes[i].sessionActive && Accounted(c, sys.nodes.Keys, sys.sent, before, sys.nodes[i])
    ensures var sys' := RunSys(sys, steps);
            i in sys'.nodes && Accounted(c, sys.nodes.Keys, sys'.sent, before, sys'.nodes[i])
    decreases |steps|
  {
    if steps != [] {
      hide Records, Legal, Unforged, Net.Next, Grows, Accounted;
      var mid := Net.Next(sys, steps[0]);
      RecordsSys(c, sys);
      StepGrows(c, sys, steps[0]);
      GrowsLogs(sys.nodes[i], mid.nodes[i]);
      StepKeepsRecords(c, sys, steps[0]);
      StepKeepsAccounts(c, sys, steps[0], i, before);
      RunKeepsAccounts(c, mid, steps[1..], i, before);
    }
  }

  /** Two consecutive stretches of one run: node i is locked after the first. */
  ghost predicate LockedThen(c: Crypto, init: Sys, pre: seq<Step>, post: seq<Step>, i: PeerID) {
    && InitSys(init) && LegalRun(c, init, pre) && UnforgedRun(c, init, pre)
    && LegalRun(c, RunSys(init, pre), post) && UnforgedRun(c, RunSys(init, pre), post)
    && i in RunSys(init, pre).nodes && RunSys(init, pre).nodes[i].sessionActive
  }

  /** Over every run: whoever a node aborts after its lock was voted out by a majority of distinct
      senders, or signed two values in that phase, and then it is no node running the code. */
  lemma EveryAbortIsAccountedFor(c: Crypto, init: Sys, pre: seq<Step>, post: seq<Step>, i: PeerID, p: PeerID)
    requires LockedThen(c, init, pre, post, i)
    requires var n, n' := RunSys(init, pre).nodes[i], RunSys(RunSys(init, pre), post).nodes;
             i in n' && p !in n.aborted && p in n'[i].aborted && n'[i].aborted[p] != ReadyAck
    ensures var sys := RunSys(RunSys(init, pre), post);
            var phase := sys.nodes[i].aborted[p];
            || |Voters(sys.sent, Key(phase, p))| >= Majority(sys.nodes[i])
            || (p !in sys.nodes && Equivocator(c, phase, p))
  {
    hide Records, Legal, Unforged, Net.Next, Grows, RunSys, LegalRun, UnforgedRun, Voters, Equivocator;
    var mid := RunSys(init, pre);
    InitRecords(c, init);
    RunKeepsRecords(c, init, pre);
    assert Accounted(c, mid.nodes.Keys, mid.sent, mid.nodes[i].aborted.Keys, mid.nodes[i]);
    RunKeepsAccounts(c, mid, post, i, mid.nodes[i].aborted.Keys);
    RunKeepsRecords(c, mid, post);
  }

  lemma OneValueSignerIsNoEquivocator(c: Crypto, p: PeerID, log: set<(Phase, Bytes)>, phase: Phase)
    requires SignsOnly(c, p, log) && OneValuePerPhase(log)
    ensures !Equivocator(c, phase, p)
  {
    hide SignsOnly, OneValuePerPhase, DocVerifies;
    forall first, second ensures !ProvesEquivocation(c, phase, p, first, second) {
      if ProvesEquivocation(c, phase, p, first, second) {
        HonestSignerNeverEquivocates(c, p, log, phase, first, second);
      }
    }
  }

  /** No framing: whatever votes, disputes and proofs anybody sends, a peer that signs one value per phase is
      aborted after the lock only by a majority of votes. */
  lemma OnlyVotesAbortAnHonestSigner(c: Crypto, init: Sys, pre: seq<Step>, post: seq<Step>, i: PeerID, p: PeerID,
                                     log: set<(Phase, Bytes)>)
    requires LockedThen(c, init, pre, post, i) && SignsOnly(c, p, log) && OneValuePerPhase(log)
    requires var n, n' := RunSys(init, pre).nodes[i], RunSys(RunSys(init, pre), post).nodes;
             i in n' && p !in n.aborted && p in n'[i].aborted && n'[i].aborted[p] != ReadyAck
    ensures var sys := RunSys(RunSys(init, pre), post);
            |Voters(sys.sent, Key(sys.nodes[i].aborted[p], p))| >= Majority(sys.nodes[i])
  {
    hide RunSys, LockedThen, SignsOnly, OneValuePerPhase, Equivocator, Voters;
    EveryAbortIsAccountedFor(c, init, pre, post, i, p);
    OneValueSignerIsNoEquivocator(c, p, log, RunSys(RunSys(init, pre), post).nodes[i].aborted[p]);
  }

  // --- no false timeout abort ---

  /** No timer of a correct node fires before p's message of that phase is stored there. */
  ghost predicate Punctual(correct: set<PeerID>, phase: Phase, p: PeerID, sys: Sys, s: Step) {
    s.At? && s.i in correct * sys.nodes.Keys && s.stimulus.event == (if phase == Commit2 then CommitTimeout else Reveal1Timeout)
    ==> p in PhaseMap(sys.nodes[s.i].d, phase)
  }

  ghost predicate PunctualRun(correct: set<PeerID>, phase: Phase, p: PeerID, sys: Sys, steps: seq<Step>)
    decreases |steps|
  {
    steps == [] ||
    (Punctual(correct, phase, p, sys, steps[0]) && PunctualRun(correct, phase, p, Net.Next(sys, steps[0]), steps[1..]))
  }

  predicate Accuses(n: NodeState, phase: Phase, p: PeerID) {
    TimeoutVote(phase, p) in n.out
  }

  lemma ActionAccusesFairly(x: Ctx, n: NodeState, a: Action, phase: Phase, p: PeerID)
    requires Enabled(x, n, a) && !Accuses(n, phase, p) && !n.config.behavior.falseTimeoutVote
    requires phase == Commit2 ==> x.event != CommitTimeout || p in n.d.commit2s
    requires phase == Reveal1 ==> x.event != Reveal1Timeout || p in n.d.reveal1s
    requires phase == Commit2 || phase == Reveal1
    ensures !Accuses(Do(x.env, n, a), phase, p)
  {
  }

  lemma {:induction false} ActionsAccuseFairly(x: Ctx, n: NodeState, acts: seq<Action>, phase: Phase, p: PeerID)
    requires Permitted(x, n, acts) && !Accuses(n, phase, p) && !n.config.behavior.falseTimeoutVote
    requires phase == Commit2 ==> x.event != CommitTimeout || p in n.d.commit2s
    requires phase == Reveal1 ==> x.event != Reveal1Timeout || p in n.d.reveal1s
    requires phase == Commit2 || phase == Reveal1
    ensures !Accuses(RunActs(x.env, n, acts), phase, p)
    decreases |acts|
  {
    if acts != [] {
      hide Enabled, Computed, Do, Accuses;
      ActionAccusesFairly(x, n, acts[0], phase, p);
      ActionGrowsViews(x, n, acts[0]);
      ActionKeepsNode(x, n, acts[0]);
      ActionsAccuseFairly(x, Do(x.env, n, acts[0]), acts[1..], phase, p);
    }
  }

  /** No correct node has voted against p in this phase. */
  ghost predicate Unaccused(correct: set<PeerID>, phase: Phase, p: PeerID, sys: Sys) {
    && correct <= sys.nodes.Keys
    && (forall i | i in correct :: !sys.nodes[i].config.behavior.falseTimeoutVote && !Accuses(sys.nodes[i], phase, p))
    && Voters(sys.sent, Key(phase, p)) !! correct
  }

  lemma HandleAccusesFairly(correct: set<PeerID>, phase: Phase, p: PeerID, sys: Sys, s: Step)
    requires s.At? && s.i in correct && s.i in sys.nodes && WellFormed(s.stimulus.env.c, sys.nodes[s.i])
    requires !Accuses(sys.nodes[s.i], phase, p) && !sys.nodes[s.i].config.behavior.falseTimeoutVote
    requires Punctual(correct, phase, p, sys, s) && (phase == Commit2 || phase == Reveal1)
    ensures !Accuses(Handle(s.stimulus.env, sys.nodes[s.i], s.stimulus.event), phase, p)
  {
    hide Handle, WellFormed, EventEvidence, PendingEvidence, Permitted, RunActs, Accuses;
    var env, n, e := s.stimulus.env, sys.nodes[s.i], s.stimulus.event;
    var x := CtxOf(env, n, e);
    HandlePath(env, n, e);
    var acts: seq<Action> :| Permitted(x, n, acts) && RunActs(x.env, n, acts) == Handle(env, n, e);
    ActionsAccuseFairly(x, n, acts, phase, p);
  }

  lemma StepKeepsUnaccused(c: Crypto, correct: set<PeerID>, phase: Phase, p: PeerID, sys: Sys, s: Step)
    requires Records(c, sys) && Legal(c, sys, s) && Unforged(c, sys, s)
    requires Unaccused(correct, phase, p, sys) && Punctual(correct, phase, p, sys, s) && (phase == Commit2 || phase == Reveal1)
    ensures Unaccused(correct, phase, p, Net.Next(sys, s))
  {
    hide SysInv, Unforged, Handle, Grows;
    RecordsSys(c, sys);
    StepGrows(c, sys, s);
    var sys' := Net.Next(sys, s);
    forall i | i in correct ensures !sys'.nodes[i].config.behavior.falseTimeoutVote && !Accuses(sys'.nodes[i], phase, p) {
      assert sys'.nodes[i].config == sys.nodes[i].config by { GrowsNode(sys.nodes[i], sys'.nodes[i]); }
      if s.At? && s.i == i {
        NodeWellFormed(c, sys, i);
        HandleAccusesFairly(correct, phase, p, sys, s);
      }
    }
    forall i | i in correct ensures i !in Voters(sys'.sent, Key(phase, p)) {
      assert i !in Voters(sys.sent, Key(phase, p));
    }
  }

  lemma GrowsNode(n: NodeState, n': NodeState)
    requires Grows(n, n')
    ensures n'.config == n.config && n'.self == n.self
  {
  }

  lemma {:induction false} RunKeepsUnaccused(c: Crypto, correct: set<PeerID>, phase: Phase, p: PeerID, sys: Sys,
                                             steps: seq<Step>)
    requires Records(c, sys) && LegalRun(c, sys, steps) && UnforgedRun(c, sys, steps)
    requires Unaccused(correct, phase, p, sys) && PunctualRun(correct, phase, p, sys, steps)
    requires phase == Commit2 || phase == Reveal1
    ensures Unaccused(correct, phase, p, RunSys(sys, steps))
    decreases |steps|
  {
    if steps != [] {
      hide Records, Legal, Unforged, Net.Next, Unaccused, Punctual;
      StepKeepsUnaccused(c, correct, phase, p, sys, steps[0]);
      StepKeepsRecords(c, sys, steps[0]);
      RunKeepsUnaccused(c, correct, phase, p, Net.Next(sys, steps[0]), steps[1..]);
    }
  }

  /** With fewer faulty senders than a majority, no node that every correct node heard in time in a
      phase is aborted in that phase at any locked node; and any other peer only for equivocating. */
  lemma NoFalseTimeoutAbort(c: Crypto, init: Sys, pre: seq<Step>, post: seq<Step>, i: PeerID, p: PeerID,
                            phase: Phase, correct: set<PeerID>, faulty: set<PeerID>)
    requires LockedThen(c, init, pre, post, i) && (phase == Commit2 || phase == Reveal1)
    requires correct <= init.nodes.Keys && forall j | j in correct :: !init.nodes[j].config.behavior.falseTimeoutVote
    requires PunctualRun(correct, phase, p, init, pre) && PunctualRun(correct, phase, p, RunSys(init, pre), post)
    requires p !in RunSys(init, pre).nodes[i].aborted
    requires var sys := RunSys(RunSys(init, pre), post);
             && |faulty| < Majority(RunSys(init, pre).nodes[i])
             && (forall e | e in sys.sent :: e.0 in correct + faulty)
    ensures var sys := RunSys(RunSys(init, pre), post);
            i in sys.nodes && (Get(sys.nodes[i].aborted, p) == Some(phase) ==> p !in sys.nodes && Equivocator(c, phase, p))
  {
    hide Records, Legal, Unforged, Net.Next, Grows, RunSys, LegalRun, UnforgedRun, PunctualRun, Equivocator;
    var mid := RunSys(init, pre);
    var sys := RunSys(mid, post);
    InitRecords(c, init);
    assert Unaccused(correct, phase, p, init);
    RunKeepsRecords(c, init, pre);
    RunKeepsUnaccused(c, correct, phase, p, init, pre);
    RunKeepsRecords(c, mid, post);
    RunKeepsUnaccused(c, correct, phase, p, mid, post);
    GrowsLogs(mid.nodes[i], sys.nodes[i]);
    if Get(sys.nodes[i].aborted, p) == Some(phase) {
      EveryAbortIsAccountedFor(c, init, pre, post, i, p);
      assert Voters(sys.sent, Key(phase, p)) <= faulty;
      SubsetSize(Voters(sys.sent, Key(phase, p)), faulty);
    }
  }

  // --- vote and dispute majorities ---

  /** A majority of senders disputed the accusation at this node. */
  predicate DisputeUpheld(n: NodeState, key: Key) {
    |DisputersFor(n, key)| >= Majority(n)
  }

  /** Over one set of participants of the session size, an abort by vote at any node and an upheld
      dispute at any node, for one phase and target, have a participant who did both. */
  lemma AbortAndDisputeShareAMember(c: Crypto, init: Sys, pre: seq<Step>, post: seq<Step>, i: PeerID, j: PeerID,
                                    p: PeerID, phase: Phase, all: set<PeerID>)
    requires LockedThen(c, init, pre, post, i) && p !in RunSys(init, pre).nodes[i].aborted && phase != ReadyAck
    requires var sys := RunSys(RunSys(init, pre), post);
             && i in sys.nodes && j in sys.nodes
             && Get(sys.nodes[i].aborted, p) == Some(phase) && (p in sys.nodes || !Equivocator(c, phase, p))
             && DisputeUpheld(sys.nodes[j], Key(phase, p))
             && sys.nodes[i].sessionSize == sys.nodes[j].sessionSize == |all|
             && Voters(sys.sent, Key(phase, p)) + Disputers(sys.sent, Key(phase, p)) <= all
    ensures var sent := RunSys(RunSys(init, pre), post).sent;
            Voters(sent, Key(phase, p)) * Disputers(sent, Key(phase, p)) != {}
  {
    hide Records, Legal, Unforged, Net.Next, Grows, RunSys, LegalRun, UnforgedRun, Equivocator, Voters, Disputers;
    var mid := RunSys(init, pre);
    var sys := RunSys(mid, post);
    var key := Key(phase, p);
    InitRecords(c, init);
    RunKeepsRecords(c, init, pre);
    RunKeepsRecords(c, mid, post);
    EveryAbortIsAccountedFor(c, init, pre, post, i, p);
    assert DisputersFor(sys.nodes[j], key) <= Disputers(sys.sent, key) by { RecordsTallies(c, sys, j, key); }
    SubsetSize(DisputersFor(sys.nodes[j], key), Disputers(sys.sent, key));
    QuorumsMeet(Voters(sys.sent, key), Disputers(sys.sent, key), all);
  }

  lemma RecordsTallies(c: Crypto, sys: Sys, i: PeerID, key: Key)
    requires Records(c, sys) && i in sys.nodes
    ensures VotersFor(sys.nodes[i], key) <= Voters(sys.sent, key)
    ensures DisputersFor(sys.nodes[i], key) <= Disputers(sys.sent, key)
  {
    assert RecordsOf(c, sys, i);
  }
}
