/** A network of nodes and everything ever sent. Delivery is arbitrary: any sent message may reach
    any node at any time, any number of times, in any order; timers may fire at any time; peers
    outside `nodes` send any message of the kinds in Msg. START_* and RESET controls are not among them. */
module System {
  import opened Encoding
  import opened DcrSpec
  import opened DcrRuns
  import opened Signing
  import opened NodeSpec
  import opened Handlers
  import opened NodeRuns

  datatype Sys = Sys(nodes: map<PeerID, NodeState>, sent: set<(PeerID, Msg)>)

  datatype Step =
    | At(i: PeerID, stimulus: Stimulus)
    | Outside(from: PeerID, msg: Msg)

  function SentBy(i: PeerID, out: seq<Msg>): set<(PeerID, Msg)> {
    set m | m in out :: (i, m)
  }

  /** Node i moves to n; what it published is sent. */
  function Moved(sys: Sys, i: PeerID, n: NodeState): Sys {
    Sys(sys.nodes[i := n], sys.sent + SentBy(i, n.out))
  }

  function Next(sys: Sys, s: Step): Sys {
    match s
    case At(i, st) => if i in sys.nodes then Moved(sys, i, Handle(st.env, sys.nodes[i], st.event)) else sys
    case Outside(from, m) => sys.(sent := sys.sent + {(from, m)})
  }

  /** A node handles what was sent; only outsiders send freely. */
  ghost predicate Legal(c: Crypto, sys: Sys, s: Step) {
    match s
    case At(i, st) =>
      && i in sys.nodes && st.env.c == c && ValidIter(st.env.it)
      && (st.event.Receive? ==> (st.event.from, st.event.msg) in sys.sent)
    case Outside(from, _) => from !in sys.nodes
  }

  ghost predicate LegalRun(c: Crypto, sys: Sys, steps: seq<Step>)
    decreases |steps|
  {
    steps == [] || (Legal(c, sys, steps[0]) && LegalRun(c, Next(sys, steps[0]), steps[1..]))
  }

  function RunSys(sys: Sys, steps: seq<Step>): Sys
    decreases |steps|
  {
    if steps == [] then sys else RunSys(Next(sys, steps[0]), steps[1..])
  }

  /** Ideal signatures: a signed value an event carries, if its author is a node, was published by it. */
  ghost predicate Unforged(c: Crypto, sys: Sys, s: Step) {
    s.At? ==>
      forall e | e in EventEvidence(c, s.stimulus.event) && e.peer in sys.nodes :: Published(sys.nodes[e.peer], e.phase, e.value)
  }

  ghost predicate UnforgedRun(c: Crypto, sys: Sys, steps: seq<Step>)
    decreases |steps|
  {
    steps == [] || (Unforged(c, sys, steps[0]) && UnforgedRun(c, Next(sys, steps[0]), steps[1..]))
  }

  ghost predicate Named(sys: Sys) {
    forall i | i in sys.nodes :: sys.nodes[i].self == i
  }

  ghost predicate SysInv(c: Crypto, sys: Sys) {
    Named(sys) && forall i | i in sys.nodes :: NodeInv(c, sys.nodes[i])
  }

  /** The network before the round: fresh nodes, nothing sent. */
  ghost predicate InitSys(sys: Sys) {
    sys.sent == {} && forall i | i in sys.nodes :: sys.nodes[i] == InitNode(i, sys.nodes[i].config)
  }

  lemma InitSysInv(c: Crypto, sys: Sys)
    requires InitSys(sys)
    ensures SysInv(c, sys)
  {
    forall i | i in sys.nodes ensures NodeInv(c, sys.nodes[i]) {
      InitInv(c, i, sys.nodes[i].config);
    }
  }

  lemma StepKeepsSysInv(c: Crypto, sys: Sys, s: Step)
    requires SysInv(c, sys) && Legal(c, sys, s) && Unforged(c, sys, s)
    ensures SysInv(c, Next(sys, s))
  {
    hide Handle, NodeInv, EventEvidence;
    if s.At? {
      var n := sys.nodes[s.i];
      assert OwnUnforged(EventEvidence(c, s.stimulus.event), n);
      HandleKeepsInv(c, n, s.stimulus);
    }
  }

  lemma StepKeepsNames(c: Crypto, sys: Sys, s: Step)
    requires Legal(c, sys, s)
    ensures Next(sys, s).nodes.Keys == sys.nodes.Keys
  {
    hide Handle, ValidIter;
  }

  /** Over every run with ideal signatures, every node keeps its invariant. */
  lemma {:induction false} RunKeepsSysInv(c: Crypto, sys: Sys, steps: seq<Step>)
    requires SysInv(c, sys) && LegalRun(c, sys, steps) && UnforgedRun(c, sys, steps)
    ensures SysInv(c, RunSys(sys, steps)) && RunSys(sys, steps).nodes.Keys == sys.nodes.Keys
    decreases |steps|
  {
    if steps != [] {
      hide SysInv, Legal, Unforged, Next;
      StepKeepsSysInv(c, sys, steps[0]);
      StepKeepsNames(c, sys, steps[0]);
      RunKeepsSysInv(c, Next(sys, steps[0]), steps[1..]);
    }
  }

  // --- agreement ---

  /** Two nodes of one run that hold the same commits and ordered the same peers have the same order,
      and compute the same input for the same fallback set, whatever messages of the modelled kinds anybody sent and
      however they were delivered. */
  lemma Agreement(c: Crypto, init: Sys, steps: seq<Step>, i: PeerID, j: PeerID, fallback: set<PeerID>)
    requires InitSys(init) && LegalRun(c, init, steps) && UnforgedRun(c, init, steps)
    requires i in RunSys(init, steps).nodes && j in RunSys(init, steps).nodes
    requires var a, b := RunSys(init, steps).nodes[i].d, RunSys(init, steps).nodes[j].d;
             && a.commit2s == b.commit2s && SameOrderBasis(a, b) && WellSpread(c.H, a.basis.value)
             && InjectiveOn(c.H, InPlay(c.H, a) + InPlay(c.H, b))
    ensures var a, b := RunSys(init, steps).nodes[i].d, RunSys(init, steps).nodes[j].d;
            && a.revealOrder == b.revealOrder
            && (FinalInputWithFallback(a, fallback).Some? && FinalInputWithFallback(b, fallback).Some? ==>
                  FinalInputWithFallback(a, fallback) == FinalInputWithFallback(b, fallback))
  {
    InitSysInv(c, init);
    RunKeepsSysInv(c, init, steps);
    NodesAgree(c, RunSys(init, steps).nodes[i], RunSys(init, steps).nodes[j], fallback);
  }

  lemma NodesAgree(c: Crypto, n: NodeState, m: NodeState, fallback: set<PeerID>)
    requires NodeInv(c, n) && NodeInv(c, m) && n.d.commit2s == m.d.commit2s
    requires SameOrderBasis(n.d, m.d) && WellSpread(c.H, n.d.basis.value)
    requires InjectiveOn(c.H, InPlay(c.H, n.d) + InPlay(c.H, m.d))
    ensures n.d.revealOrder == m.d.revealOrder
    ensures FinalInputWithFallback(n.d, fallback).Some? && FinalInputWithFallback(m.d, fallback).Some? ==>
              FinalInputWithFallback(n.d, fallback) == FinalInputWithFallback(m.d, fallback)
  {
    hide Chain, OrderFromBasis, InPlay, InjectiveOn, WellSpread, SameOrderBasis, VdfFromViews, FallbackSource;
    OrdersAgree(c.H, n.d, m.d);
    if FinalInputWithFallback(n.d, fallback).Some? && FinalInputWithFallback(m.d, fallback).Some? {
      InputsAgree(c.H, n.d, m.d, n.d.revealOrder, fallback);
    }
  }

  /** Two VDF computations launched on the same order and fallback set run on the same input. */
  lemma VdfInputsAgree(c: Crypto, init: Sys, steps: seq<Step>, i: PeerID, j: PeerID)
    requires InitSys(init) && LegalRun(c, init, steps) && UnforgedRun(c, init, steps)
    requires i in RunSys(init, steps).nodes && j in RunSys(init, steps).nodes
    requires var n, m := RunSys(init, steps).nodes[i], RunSys(init, steps).nodes[j];
             && n.d.commit2s == m.d.commit2s && InjectiveOn(c.H, InPlay(c.H, n.d) + InPlay(c.H, m.d))
             && n.vdf.Some? && m.vdf.Some? && n.vdf.value.input.Some? && m.vdf.value.input.Some?
             && n.vdf.value.order == m.vdf.value.order && n.vdf.value.fallback == m.vdf.value.fallback
    ensures RunSys(init, steps).nodes[i].vdf == RunSys(init, steps).nodes[j].vdf
  {
    InitSysInv(c, init);
    RunKeepsSysInv(c, init, steps);
    LaunchesAgree(c, RunSys(init, steps).nodes[i], RunSys(init, steps).nodes[j]);
  }

  lemma LaunchesAgree(c: Crypto, n: NodeState, m: NodeState)
    requires NodeInv(c, n) && NodeInv(c, m) && n.d.commit2s == m.d.commit2s
    requires InjectiveOn(c.H, InPlay(c.H, n.d) + InPlay(c.H, m.d))
    requires n.vdf.Some? && m.vdf.Some? && n.vdf.value.input.Some? && m.vdf.value.input.Some?
    requires n.vdf.value.order == m.vdf.value.order && n.vdf.value.fallback == m.vdf.value.fallback
    ensures n.vdf == m.vdf
  {
    hide Chain, OrderFromBasis, InPlay, InjectiveOn, FallbackSource;
    InputsAgree(c.H, n.d, m.d, n.vdf.value.order, n.vdf.value.fallback);
  }
}
