/** The VDF launch over whole runs: while the order stands and only its members are aborted in
    reveal2 or heard, a launch always has its input. */
module VdfRuns {
  import opened Encoding
  import opened FiniteSets
  import opened DcrSpec
  import opened VdfInput
  import opened Signing
  import opened NodeSpec
  import opened Actions
  import opened Handlers
  import opened DcrRuns
  import opened NodeRuns

  /** An order is fixed and every member has revealed r. */
  ghost predicate OrderStands(n: NodeState) {
    NoDuplicates(n.d.revealOrder) && n.d.revealOrder != [] && SetOf(n.d.revealOrder) <= n.d.reveal1s.Keys
  }

  /** Only members are aborted in reveal2 or have their secret stored. */
  ghost predicate OnlyMembers(order: seq<PeerID>, n: NodeState) {
    AbortedIn(n, Reveal2) <= SetOf(order) && n.d.reveal2s.Keys <= SetOf(order)
  }

  /** The launch flag is never set without an input. */
  predicate LaunchHasInput(n: NodeState) {
    n.vdf.Some? ==> n.vdf.value.input.Some?
  }

  lemma OnlyMembersBefore(order: seq<PeerID>, n: NodeState, n': NodeState)
    requires Grows(n, n') && OnlyMembers(order, n')
    ensures OnlyMembers(order, n)
  {
  }

  lemma ActionKeepsOrder(x: Ctx, n: NodeState, a: Action)
    requires Enabled(x, n, a) && Do(x.env, n, a).orders == n.orders && OrderStands(n)
    ensures Do(x.env, n, a).d.revealOrder == n.d.revealOrder && OrderStands(Do(x.env, n, a))
  {
    ActionGrowsViews(x, n, a);
    assert a.SetOrder? ==> |Do(x.env, n, a).orders| == |n.orders| + 1;
  }

  lemma OpenGateHasInput(n: NodeState)
    requires OrderStands(n) && OnlyMembers(n.d.revealOrder, n) && VdfGate(n.d, AbortedIn(n, Reveal2))
    ensures FinalInputWithFallback(n.d, AbortedIn(n, Reveal2)).Some?
  {
    GateIsExact(n.d, AbortedIn(n, Reveal2));
    hide FinalInputWithFallback, VdfGate;
  }

  lemma LaunchUntouched(x: Ctx, n: NodeState, a: Action)
    ensures Do(x.env, n, a).vdf == if a.StartVdf? then Some(a.run) else n.vdf
  {
  }

  lemma ActionLaunchesWithInput(x: Ctx, n: NodeState, a: Action)
    requires Computed(x, n, a) && OrderStands(n) && OnlyMembers(n.d.revealOrder, n) && LaunchHasInput(n)
    ensures LaunchHasInput(Do(x.env, n, a))
  {
    hide Do, OrderStands, OnlyMembers, VdfGate, FinalInputWithFallback;
    LaunchUntouched(x, n, a);
    if a.StartVdf? {
      OpenGateHasInput(n);
    }
  }

  lemma {:induction false} ActionsLaunchWithInput(x: Ctx, n: NodeState, acts: seq<Action>)
    requires Permitted(x, n, acts) && OrderStands(n) && LaunchHasInput(n)
    requires RunActs(x.env, n, acts).orders == n.orders && OnlyMembers(n.d.revealOrder, RunActs(x.env, n, acts))
    ensures LaunchHasInput(RunActs(x.env, n, acts))
    ensures OrderStands(RunActs(x.env, n, acts)) && RunActs(x.env, n, acts).d.revealOrder == n.d.revealOrder
    decreases |acts|
  {
    if acts != [] {
      hide Enabled, Computed, Do, Grows, OrderStands, OnlyMembers, LaunchHasInput;
      var m := Do(x.env, n, acts[0]);
      RunGrows(x, n, acts);
      RunGrows(x, m, acts[1..]);
      ActionGrows(x, n, acts[0]);
      SameOrders(n, m, RunActs(x.env, m, acts[1..]));
      OnlyMembersBefore(n.d.revealOrder, n, RunActs(x.env, n, acts));
      ActionKeepsOrder(x, n, acts[0]);
      ActionLaunchesWithInput(x, n, acts[0]);
      ActionsLaunchWithInput(x, m, acts[1..]);
    }
  }

  lemma SameOrders(n: NodeState, m: NodeState, k: NodeState)
    requires Grows(n, m) && Grows(m, k) && k.orders == n.orders
    ensures m.orders == n.orders
  {
  }

  lemma HandleLaunchesWithInput(c: Crypto, n: NodeState, s: Stimulus)
    requires NodeInv(c, n) && FairStimulus(c, n, s) && OrderStands(n) && LaunchHasInput(n)
    requires var n' := Handle(s.env, n, s.event); n'.orders == n.orders && OnlyMembers(n.d.revealOrder, n')
    ensures var n' := Handle(s.env, n, s.event);
            LaunchHasInput(n') && OrderStands(n') && n'.d.revealOrder == n.d.revealOrder
  {
    hide NodeInv, Handle, WellFormed, OwnUnforged, EventEvidence, PendingEvidence, Permitted, RunActs, OrderStands, OnlyMembers,
         LaunchHasInput;
    var x := CtxOf(s.env, n, s.event);
    HandUnforged(c, n, s);
    HandlePath(s.env, n, s.event);
    var acts: seq<Action> :| Permitted(x, n, acts) && RunActs(x.env, n, acts) == Handle(s.env, n, s.event);
    ActionsLaunchWithInput(x, n, acts);
  }

  lemma StandingGate(n: NodeState)
    requires OrderStands(n) && OnlyMembers(n.d.revealOrder, n)
    ensures GateConditions(n.d, AbortedIn(n, Reveal2))
  {
  }

  /** Over every run from a standing order that is not computed again, with only members aborted in
      reveal2 and only members' secrets taken: the gate stays exact and the launch is never burned. */
  lemma {:induction false} LaunchIsNeverBurned(c: Crypto, n: NodeState, steps: seq<Stimulus>)
    requires NodeInv(c, n) && FairRun(c, n, steps) && OrderStands(n) && LaunchHasInput(n)
    requires var m := RunNode(n, steps); m.orders == n.orders && OnlyMembers(n.d.revealOrder, m)
    ensures var m := RunNode(n, steps);
            LaunchHasInput(m) && m.d.revealOrder == n.d.revealOrder && GateConditions(m.d, AbortedIn(m, Reveal2))
    decreases |steps|
  {
    hide NodeInv, FairStimulus, Handle, Grows, WrittenOnce, OrderStands, OnlyMembers, LaunchHasInput, GateConditions,
      AbortedIn;
    if steps == [] {
      StandingGate(n);
    } else {
      var m := Handle(steps[0].env, n, steps[0].event);
      HandleKeepsInv(c, n, steps[0]);
      RunKeepsInv(c, m, steps[1..]);
      SameOrders(n, m, RunNode(m, steps[1..]));
      OnlyMembersBefore(n.d.revealOrder, m, RunNode(m, steps[1..]));
      HandleLaunchesWithInput(c, n, steps[0]);
      LaunchIsNeverBurned(c, m, steps[1..]);
    }
  }
}
