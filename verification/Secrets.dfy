/** What follows a reveal2, however it arrives, and an abort in reveal2: whose turn comes, what is
    published, whom the timer watches, and whether the VDF starts. */
module Secrets {
  import opened Encoding
  import opened FiniteSets
  import opened Sorting
  import opened DcrSpec
  import opened VdfInput
  import opened Turns
  import opened Signing
  import opened NodeSpec
  import opened Handlers
  import opened Gates
  import opened Confluence
  import opened FailingRuns

  // --- outcomes ---

  function OwnDoc(c: Crypto, phase: Phase, self: PeerID, value: Bytes): Doc {
    DocFor(phase, Some(self), value, c.sign(self, SigningBytes(phase, self, value)))
  }

  function OwnGossip(c: Crypto, phase: Phase, self: PeerID, value: Bytes): Msg {
    Gossip(phase, Some(self), value, c.sign(self, SigningBytes(phase, self, value)))
  }

  /** n has published this value in a phase and keeps the signed form for disputes. */
  ghost predicate Said(c: Crypto, n: NodeState, phase: Phase, value: Bytes) {
    OwnGossip(c, phase, n.self, value) in n.out && Get(n.signed, Key(phase, n.self)) == Some(OwnDoc(c, phase, n.self, value))
  }

  /** Nothing signed has been published since. */
  ghost predicate Silent(n: NodeState, m: NodeState) {
    forall msg | msg in m.out && msg.Gossip? :: msg in n.out
  }

  /** Nothing but own signed messages has been published since, and those of everybody else are kept as they were. */
  ghost predicate OwnWordsOnly(n: NodeState, m: NodeState) {
    && n.out <= m.out && (forall i | |n.out| <= i < |m.out| :: m.out[i].Gossip?)
    && forall key: Key | key.peer != n.self :: Get(m.signed, key) == Get(n.signed, key)
  }

  /** The first member from an index on that is not to be skipped. */
  ghost predicate DueFrom(order: seq<PeerID>, start: nat, skip: set<PeerID>, next: PeerID) {
    exists j :: start <= j < |order| && order[j] == next && next !in skip && forall k | start <= k < j :: order[k] in skip
  }

  /** The first member after `after` (the first of all, after nobody) neither aborted nor heard. */
  ghost predicate NextDue(n: NodeState, after: PeerID, next: PeerID) {
    var order, skip := n.d.revealOrder, n.aborted.Keys + n.d.reveal2s.Keys;
    if after == NO_PEER then DueFrom(order, 0, skip, next)
    else exists i :: 0 <= i < |order| && order[i] == after && DueFrom(order, i + 1, skip, next)
  }

  /** The timer watches the next peer due, if timeouts are on and one is due. */
  ghost predicate Watches(n: NodeState, m: NodeState, after: PeerID) {
    && (forall next | NextDue(m, after, next) && n.config.reveal2Timeouts :: m.reveal2Target == next)
    && ((forall next :: !NextDue(m, after, next)) || !n.config.reveal2Timeouts ==> m.reveal2Target == n.reveal2Target)
  }

  /** A first launch comes exactly when the missing secrets do not outnumber what the gate takes for
      them, on the input of the moment; a launch is never repeated. */
  ghost function Launched(vdf: Option<VdfRun>, d: DcrState, aborted: set<PeerID>): Option<VdfRun> {
    if vdf.Some? then vdf
    else if d.revealOrder != [] && |Missing(d, aborted)| <= |Strays(d, aborted)| + |ForeignAborts(d, aborted)| then
      Some(VdfRun(d.revealOrder, aborted, FinalInputWithFallback(d, aborted)))
    else None
  }

  /** p is done, and the views are d: the peer after p speaks if this is it, the timer watches the next
      one, and the VDF starts if all is there. */
  ghost predicate GoesOn(c: Crypto, n: NodeState, d: DcrState, m: NodeState, p: PeerID) {
    var mine := !d.reveal2Sent && Follows(d.revealOrder, p, n.self);
    && (mine && Honest(n.config) && d.mySecret.Some? ==>
          && Said(c, m, Reveal2, d.mySecret.value)
          && m.d == d.(reveal2Sent := true, reveal2s := d.reveal2s[n.self := d.mySecret.value]))
    && (mine && (n.config.behavior.skipReveal2 || d.mySecret.None?) ==> Silent(n, m) && m.d == d.(reveal2Sent := true))
    && (!mine ==> Silent(n, m) && m.d == d)
    && Watches(n, m, p) && m.vdf == Launched(n.vdf, m.d, AbortedIn(m, Reveal2))
  }

  // --- the next peer due ---

  lemma {:induction false} PendingIsDue(order: seq<PeerID>, after: PeerID, skip: set<PeerID>, q: PeerID)
    requires NO_PEER !in order
    ensures var next := NextPending(order, true, after, skip); DueFrom(order, 0, skip, q) <==> q == next != NO_PEER
  {
    if order != [] {
      var rest := order[1..];
      PendingIsDue(rest, after, skip, q);
      DueShifts(order, 1, skip, q);
      if order[0] in skip {
        if DueFrom(order, 0, skip, q) {
          var j :| 0 <= j < |order| && order[j] == q && q !in skip && forall k | 0 <= k < j :: order[k] in skip;
          assert DueFrom(order, 1, skip, q);
        }
        if DueFrom(order, 1, skip, q) {
          var j :| 1 <= j < |order| && order[j] == q && q !in skip && forall k | 1 <= k < j :: order[k] in skip;
          assert DueFrom(order, 0, skip, q);
        }
      } else {
        assert order[0] != NO_PEER;
      }
    }
  }

  lemma DueShifts(order: seq<PeerID>, i: nat, skip: set<PeerID>, q: PeerID)
    requires i <= |order|
    ensures DueFrom(order, i, skip, q) <==> DueFrom(order[i..], 0, skip, q)
  {
    var rest := order[i..];
    if DueFrom(order, i, skip, q) {
      var j :| i <= j < |order| && order[j] == q && q !in skip && forall k | i <= k < j :: order[k] in skip;
      assert rest[j - i] == q;
      forall k | 0 <= k < j - i ensures rest[k] in skip { assert order[k + i] in skip; }
    }
    if DueFrom(rest, 0, skip, q) {
      var j :| 0 <= j < |rest| && rest[j] == q && q !in skip && forall k | 0 <= k < j :: rest[k] in skip;
      assert order[j + i] == q;
      forall k | i <= k < j + i ensures order[k] in skip { assert rest[k - i] in skip; }
    }
  }

  lemma {:induction false} PendingStarts(order: seq<PeerID>, i: nat, after: PeerID, skip: set<PeerID>)
    requires i < |order| && order[i] == after && NoDuplicates(order)
    ensures NextPending(order, false, after, skip) == NextPending(order[i + 1..], true, after, skip)
  {
    if i > 0 {
      PendingStarts(order[1..], i - 1, after, skip);
      assert order[1..][i..] == order[i + 1..];
    }
  }

  lemma {:induction false} PendingNeverStarts(order: seq<PeerID>, after: PeerID, skip: set<PeerID>)
    requires after !in order
    ensures NextPending(order, false, after, skip) == NO_PEER
  {
    if order != [] {
      PendingNeverStarts(order[1..], after, skip);
    }
  }

  /** nextPendingReveal2Peer answers the next peer due, and nobody exactly when nobody is. */
  lemma NextPendingIsDue(n: NodeState, after: PeerID, q: PeerID)
    requires NoDuplicates(n.d.revealOrder) && NO_PEER !in n.d.revealOrder
    ensures NextDue(n, after, q) <==> q == NextPendingPeer(n, after) != NO_PEER
  {
    hide DueFrom;
    var order, skip := n.d.revealOrder, n.aborted.Keys + n.d.reveal2s.Keys;
    if after == NO_PEER {
      PendingIsDue(order, after, skip, q);
    } else if after in order {
      var i: nat :| i < |order| && order[i] == after;
      PendingStarts(order, i, after, skip);
      PendingIsDue(order[i + 1..], after, skip, q);
      DueShifts(order, i + 1, skip, q);
    } else {
      PendingNeverStarts(order, after, skip);
    }
  }

  lemma ArmWatches(n: NodeState, after: PeerID)
    requires NoDuplicates(n.d.revealOrder) && NO_PEER !in n.d.revealOrder
    ensures var m := NodeSpec.ArmNext(n, after); m == n.(reveal2Target := m.reveal2Target) && Watches(n, m, after)
  {
    hide NextPendingPeer, NextDue;
    var m, due := NodeSpec.ArmNext(n, after), NextPendingPeer(n, after);
    forall q ensures NextDue(m, after, q) <==> q == due != NO_PEER {
      NextPendingIsDue(n, after, q);
      SameDue(n, m, after, q);
    }
    WatchingDue(n, m, after, due);
  }

  lemma WatchingDue(n: NodeState, m: NodeState, after: PeerID, due: PeerID)
    requires forall q :: NextDue(m, after, q) <==> q == due != NO_PEER
    requires m.reveal2Target == if !n.config.reveal2Timeouts || due == NO_PEER then n.reveal2Target else due
    ensures Watches(n, m, after)
  {
    hide NextDue;
    assert due != NO_PEER ==> NextDue(m, after, due);
  }

  lemma SameDue(n: NodeState, m: NodeState, after: PeerID, q: PeerID)
    requires m.d.revealOrder == n.d.revealOrder && m.d.reveal2s == n.d.reveal2s && m.aborted == n.aborted
    ensures NextDue(m, after, q) <==> NextDue(n, after, q)
  {
    hide DueFrom;
  }

  // --- the launch ---

  lemma TryLaunches(n: NodeState)
    requires NoDuplicates(n.d.revealOrder)
    ensures NodeSpec.TryStartVdf(n) == n.(vdf := Launched(n.vdf, n.d, AbortedIn(n, Reveal2)))
  {
    hide VdfGate, FinalInputWithFallback, Missing, Strays, ForeignAborts;
    GateMeaning(n.d, AbortedIn(n, Reveal2));
  }

  /** Under the gate's conditions that is a launch exactly when the input exists. */
  lemma LaunchUnderConditions(d: DcrState, aborted: set<PeerID>)
    requires GateConditions(d, aborted)
    ensures var input := FinalInputWithFallback(d, aborted);
            Launched(None, d, aborted) == if input.Some? then Some(VdfRun(d.revealOrder, aborted, input)) else None
  {
    hide FinalInputWithFallback, VdfGate;
    GateIsExact(d, aborted);
    GateMeaning(d, aborted);
  }

  /** What is launched on: in reveal order, r of each member aborted in reveal2 and s of every other. */
  lemma LaunchedOnTheValues(n: NodeState, values: seq<Bytes>)
    requires |values| == |n.d.revealOrder| > 0
    requires forall i | 0 <= i < |values| ::
               var p := n.d.revealOrder[i];
               Get(if Get(n.aborted, p) == Some(Reveal2) then n.d.reveal1s else n.d.reveal2s, p) == Some(values[i])
    ensures var run := Launched(None, n.d, AbortedIn(n, Reveal2)); run.Some? ==> run.value.input == Some(Concat(values))
  {
    hide FinalInputWithFallback, Missing, Strays, ForeignAborts;
    forall i | 0 <= i < |values|
      ensures var p := n.d.revealOrder[i];
              Get(if p in AbortedIn(n, Reveal2) then n.d.reveal1s else n.d.reveal2s, p) == Some(values[i])
    {
      var p := n.d.revealOrder[i];
      assert p in AbortedIn(n, Reveal2) <==> Get(n.aborted, p) == Some(Reveal2);
    }
    InputIsTheValuesInOrder(n.d, AbortedIn(n, Reveal2), values);
  }

  // --- one step on ---

  /** What every profile leaves alone when its turn has come. */
  ghost predicate OnlySpeaks(n: NodeState, m: NodeState) {
    m == n.(d := n.d.(reveal2s := m.d.reveal2s), vdf := m.vdf, signed := m.signed, out := m.out)
  }

  lemma Publishing(env: Env, n: NodeState, phase: Phase, value: Bytes)
    ensures var m := SignAndPublish(env, n, phase, value);
            m == n.(signed := m.signed, out := m.out) && Said(env.c, m, phase, value) && OwnWordsOnly(n, m)
  {
    hide SigningBytes;
  }

  /** Whether a node whose turn it is publishes, and whether it launches before it does. */
  predicate Speaks(n: NodeState, aborted: set<PeerID>) {
    && !n.config.behavior.skipReveal2 && n.d.mySecret.Some?
    && !(n.config.behavior.strategicReveal2 && AbortPays(ComputeBothInputs(n.d, aborted)))
  }

  predicate LaunchesEarly(n: NodeState, aborted: set<PeerID>) {
    n.config.behavior.lastRevealerVdf && VdfInput.IsLastReveal2(n.d, aborted)
  }

  lemma SpeakingIs(env: Env, n: NodeState)
    ensures var aborted, k := AbortedIn(n, Reveal2), n.(d := DcrSpec.StartReveal2(n.d));
            PublishReveal2(env, n)
            == if !Speaks(n, aborted) then n
               else SignAndPublish(env, if LaunchesEarly(n, aborted) then NodeSpec.TryStartVdf(k) else k, Reveal2, n.d.mySecret.value)
  {
    hide ComputeBothInputs, VdfInput.IsLastReveal2, AbortPays, AbortedIn, NodeSpec.TryStartVdf, SignAndPublish,
      DcrSpec.StartReveal2;
  }

  lemma LaunchingOnly(n: NodeState)
    ensures NodeSpec.TryStartVdf(n) == n.(vdf := NodeSpec.TryStartVdf(n).vdf)
  {
    hide VdfGate, FinalInputWithFallback, AbortedIn;
    var aborted := AbortedIn(n, Reveal2);
    if n.vdf.Some? || n.d.revealOrder == [] || !VdfGate(n.d, aborted) {
      assert NodeSpec.TryStartVdf(n) == n;
    } else {
      var run := VdfRun(n.d.revealOrder, aborted, FinalInputWithFallback(n.d, aborted));
      assert NodeSpec.TryStartVdf(n) == n.(vdf := Some(run));
    }
  }

  /** Publishing the secret: silence, or the secret out and counted, perhaps with a launch on the way. */
  lemma Speaking(env: Env, n: NodeState)
    requires n.d.self == n.self
    ensures var m := PublishReveal2(env, n);
            && OnlySpeaks(n, m) && OwnWordsOnly(n, m)
            && (m.vdf == n.vdf || m.vdf == NodeSpec.TryStartVdf(n.(d := m.d)).vdf)
            && (n.d.mySecret.None? || n.config.behavior.skipReveal2 ==> m == n)
            && (Honest(n.config) && n.d.mySecret.Some? ==>
                  && Said(env.c, m, Reveal2, n.d.mySecret.value)
                  && m.d == n.d.(reveal2s := n.d.reveal2s[n.self := n.d.mySecret.value]))
  {
    hide PublishReveal2, NodeSpec.TryStartVdf, SignAndPublish, Said, LaunchesEarly, ComputeBothInputs;
    SpeakingIs(env, n);
    if Honest(n.config) {
      HonestSpeaks(env, n);
    }
    if n.d.mySecret.Some? {
      var k := n.(d := DcrSpec.StartReveal2(n.d));
      LaunchingOnly(k);
      Publishing(env, k, Reveal2, n.d.mySecret.value);
      Publishing(env, NodeSpec.TryStartVdf(k), Reveal2, n.d.mySecret.value);
    }
  }

  lemma WatchStays(n: NodeState, n1: NodeState, n2: NodeState, m: NodeState, p: PeerID)
    requires Watches(n1, n2, p) && n1.config == n.config && n1.reveal2Target == n.reveal2Target && m == n2.(vdf := m.vdf)
    ensures Watches(n, m, p)
  {
    hide NextDue;
    forall q ensures NextDue(m, p, q) <==> NextDue(n2, p, q) {
      SameDue(n2, m, p, q);
    }
  }

  lemma SameAbortedIn(n: NodeState, m: NodeState)
    requires m.aborted == n.aborted
    ensures AbortedIn(m, Reveal2) == AbortedIn(n, Reveal2)
  {
  }

  /** Whether a launch was tried on the way makes no difference. */
  lemma LaunchOnce(vdf: Option<VdfRun>, vdf1: Option<VdfRun>, d: DcrState, aborted: set<PeerID>)
    requires vdf1 == vdf || vdf1 == Launched(vdf, d, aborted)
    ensures Launched(vdf1, d, aborted) == Launched(vdf, d, aborted)
  {
  }

  /** The state once the turn, if it is this node's, has been taken. */
  function TurnTaken(env: Env, n: NodeState, p: PeerID): NodeState {
    if TurnAfter(n.d, p) then PublishReveal2(env, Claim(n)) else n
  }

  lemma TurnTakenViews(env: Env, n: NodeState, p: PeerID)
    requires n.d.self == n.self && NoDuplicates(n.d.revealOrder)
    ensures var m := TurnTaken(env, n, p); var mine := !n.d.reveal2Sent && Follows(n.d.revealOrder, p, n.self);
            && m == n.(d := m.d, vdf := m.vdf, signed := m.signed, out := m.out) && m.d.revealOrder == n.d.revealOrder
            && OwnWordsOnly(n, m)
            && (m.vdf == n.vdf || m.vdf == NodeSpec.TryStartVdf(n.(d := m.d)).vdf)
            && (mine && Honest(n.config) && n.d.mySecret.Some? ==>
                  && Said(env.c, m, Reveal2, n.d.mySecret.value)
                  && m.d == n.d.(reveal2Sent := true, reveal2s := n.d.reveal2s[n.self := n.d.mySecret.value]))
            && (mine && (n.config.behavior.skipReveal2 || n.d.mySecret.None?) ==>
                  Silent(n, m) && m.d == n.d.(reveal2Sent := true))
            && (!mine ==> m == n && Silent(n, m))
  {
    hide PublishReveal2, NodeSpec.TryStartVdf, Said, TurnAfter, Follows;
    TurnAfterMeaning(n.d, p);
    Speaking(env, Claim(n));
  }

  lemma TurnTakenLaunches(env: Env, n: NodeState, p: PeerID)
    requires n.d.self == n.self && NoDuplicates(n.d.revealOrder)
    ensures var m := TurnTaken(env, n, p);
            Launched(m.vdf, m.d, AbortedIn(n, Reveal2)) == Launched(n.vdf, m.d, AbortedIn(n, Reveal2))
  {
    hide TurnTaken, Launched, Said, Follows, AbortedIn, NodeSpec.TryStartVdf, Silent;
    TurnTakenViews(env, n, p);
    var m := TurnTaken(env, n, p);
    TryLaunches(n.(d := m.d));
    SameAbortedIn(n, n.(d := m.d));
    LaunchOnce(n.vdf, m.vdf, m.d, AbortedIn(n, Reveal2));
  }

  lemma ContinueFrame(env: Env, n: NodeState, p: PeerID)
    requires n.d.self == n.self && NoDuplicates(n.d.revealOrder) && NO_PEER !in n.d.revealOrder
    ensures var m, k := ContinueAfter(env, n, p), TurnTaken(env, n, p);
            && m == k.(reveal2Target := m.reveal2Target, vdf := m.vdf)
            && Watches(n, m, p) && m.vdf == Launched(n.vdf, m.d, AbortedIn(m, Reveal2))
  {
    hide TurnTaken, PublishReveal2, NodeSpec.TryStartVdf, NodeSpec.ArmNext, Said, Watches, Launched, Follows,
      AbortedIn, Silent;
    var k := TurnTaken(env, n, p);
    ContinueParts(env, n, p);
    TurnTakenViews(env, n, p);
    TurnTakenLaunches(env, n, p);
    ArmWatches(k, p);
    var n2 := NodeSpec.ArmNext(k, p);
    TryLaunches(n2);
    var m := ContinueAfter(env, n, p);
    SameAbortedIn(n, n2);
    SameAbortedIn(n, m);
    WatchStays(n, k, n2, m, p);
  }

  lemma ContinueParts(env: Env, n: NodeState, p: PeerID)
    ensures ContinueAfter(env, n, p) == NodeSpec.TryStartVdf(NodeSpec.ArmNext(TurnTaken(env, n, p), p))
  {
    hide PublishReveal2, NodeSpec.TryStartVdf, NodeSpec.ArmNext, TurnAfter;
  }

  lemma ContinueGoesOn(env: Env, n: NodeState, p: PeerID)
    requires n.d.self == n.self && NoDuplicates(n.d.revealOrder) && NO_PEER !in n.d.revealOrder
    ensures GoesOn(env.c, n, n.d, ContinueAfter(env, n, p), p)
    ensures var m := ContinueAfter(env, n, p);
            && m == n.(d := m.d, vdf := m.vdf, reveal2Target := m.reveal2Target, signed := m.signed, out := m.out)
            && OwnWordsOnly(n, m)
  {
    hide ContinueAfter, TurnTaken, NodeSpec.TryStartVdf, Said, Watches, Launched, Follows, AbortedIn;
    TurnTakenViews(env, n, p);
    ContinueFrame(env, n, p);
    SaidStays(env.c, TurnTaken(env, n, p), ContinueAfter(env, n, p), Reveal2, if n.d.mySecret.Some? then n.d.mySecret.value else []);
  }

  lemma SaidStays(c: Crypto, n: NodeState, m: NodeState, phase: Phase, value: Bytes)
    requires m.self == n.self && m.out == n.out && m.signed == n.signed
    ensures Said(c, n, phase, value) ==> Said(c, m, phase, value)
  {
  }

  // --- the events ---

  ghost predicate SameBefore(n: NodeState, n1: NodeState) {
    n1.self == n.self && n1.config == n.config && n1.vdf == n.vdf && n1.reveal2Target == n.reveal2Target && Silent(n, n1)
  }

  lemma GoesOnFrom(c: Crypto, n: NodeState, n1: NodeState, d: DcrState, m: NodeState, p: PeerID)
    requires SameBefore(n, n1) && GoesOn(c, n1, d, m, p)
    ensures GoesOn(c, n, d, m, p)
  {
    hide Said, Launched, Follows, AbortedIn, NextDue;
  }

  /** One order without repetitions, of real identifiers, as every computed order of real peers is. */
  predicate OrderSound(n: NodeState) {
    n.d.self == n.self && NoDuplicates(n.d.revealOrder) && NO_PEER !in n.d.revealOrder
  }

  function SecretTaken(d: DcrState, p: PeerID, secret: Bytes): DcrState {
    d.(reveal2s := d.reveal2s[p := secret])
  }

  lemma TakenGoesOn(env: Env, n: NodeState, p: PeerID, secret: Bytes, doc: Doc)
    requires OrderSound(n) && p !in n.d.reveal2s && Get(n.d.reveal1s, p) == Some(env.c.H(secret))
    ensures var m := ProcessReveal2(env, n, p, secret, doc);
            && GoesOn(env.c, n, SecretTaken(n.d, p, secret), m, p)
            && m == n.(d := m.d, vdf := m.vdf, reveal2Target := m.reveal2Target, signed := m.signed, out := m.out)
            && (p != n.self ==> Get(m.signed, Key(Reveal2, p)) == Some(doc))
  {
    hide ContinueAfter, GoesOn;
    var n1 := StoreSigned(n.(d := StoreReveal2(n.d, p, secret)), Reveal2, p, doc);
    ContinueGoesOn(env, n1, p);
    GoesOnFrom(env.c, n, n1, n1.d, ContinueAfter(env, n1, p), p);
  }

  lemma ArmingOnly(n: NodeState, after: PeerID)
    ensures NodeSpec.ArmNext(n, after) == n.(reveal2Target := NodeSpec.ArmNext(n, after).reveal2Target)
  {
    hide NextPendingPeer;
  }

  /** A gossiped secret that matches is stored with its signed form, and the round goes on after its owner. */
  lemma SecretGoesOn(env: Env, n: NodeState, p: PeerID, secret: Bytes, sig: Bytes)
    requires OrderSound(n) && p != n.self && p !in n.aborted && VerifySignedMsg(env.c, Reveal2, p, Some(p), secret, sig)
    requires p !in n.d.reveal2s && Get(n.d.reveal1s, p) == Some(env.c.H(secret))
    ensures var m := Handle(env, n, Event.Receive(p, Gossip(Reveal2, Some(p), secret, sig)));
            && GoesOn(env.c, n, SecretTaken(n.d, p, secret), m, p) && m.aborted == n.aborted
            && Get(m.signed, Key(Reveal2, p)) == Some(DocFor(Reveal2, Some(p), secret, sig))
  {
    hide ProcessReveal2, GoesOn, VerifySignedMsg;
    TakenGoesOn(env, n, p, secret, DocFor(Reveal2, Some(p), secret, sig));
  }

  lemma VotedSilently(n: NodeState, from: PeerID, key: Key)
    ensures var n1 := VoteCounted(n, from, key);
            n1 == n.(votes := n1.votes, out := n1.out) && SameBefore(n, n1)
  {
    hide VotersFor, SameBefore;
    var answered := if key in n.signed then Emit(n, TimeoutDispute(key.phase, key.peer, n.signed[key])) else n;
    assert VoteCounted(n, from, key) == CountVote(answered, from, key);
    AnsweredSilently(n, answered, CountVote(answered, from, key), key);
  }

  lemma AnsweredSilently(n: NodeState, answered: NodeState, m: NodeState, key: Key)
    requires answered == if key in n.signed then Emit(n, TimeoutDispute(key.phase, key.peer, n.signed[key])) else n
    requires m == answered.(votes := m.votes)
    ensures SameBefore(n, m)
  {
  }

  /** A vote that reaches the majority aborts its target in reveal2, and the round goes on after it. */
  lemma VotedOutGoesOn(env: Env, n: NodeState, from: PeerID, target: PeerID)
    requires OrderSound(n) && target !in n.aborted && 2 * |VotersFor(n, Key(Reveal2, target)) + {from}| > n.sessionSize
    ensures var m := Handle(env, n, Event.Receive(from, TimeoutVote(Reveal2, target)));
            m.aborted == n.aborted[target := Reveal2] && GoesOn(env.c, n, n.d, m, target)
  {
    hide ContinueAfter, GoesOn, VoteCounted;
    var key := Key(Reveal2, target);
    var n1 := VoteCounted(n, from, key);
    VoteOutcome(env, n, from, Reveal2, target);
    VotedSilently(n, from, key);
    VoterAdded(n, from, key);
    var n2 := n1.(aborted := n1.aborted[target := Reveal2]);
    ContinueGoesOn(env, n2, target);
    GoesOnFrom(env.c, n, n2, n2.d, ContinueAfter(env, n2, target), target);
  }

  lemma VoterAdded(n: NodeState, from: PeerID, key: Key)
    ensures VotersFor(VoteCounted(n, from, key), key) == VotersFor(n, key) + {from}
  {
  }

  /** So does a proof that the target signed two secrets. */
  lemma ProvedOutGoesOn(env: Env, n: NodeState, from: PeerID, target: PeerID, first: Doc, second: Doc)
    requires OrderSound(n) && target !in n.aborted && ProvesEquivocation(env.c, Reveal2, target, first, second)
    ensures var m := Handle(env, n, Event.Receive(from, EquivocationAbort(Reveal2, target, first, second)));
            m.aborted == n.aborted[target := Reveal2] && GoesOn(env.c, n, n.d, m, target)
  {
    hide ContinueAfter, GoesOn, ProvesEquivocation;
    var n2 := n.(aborted := n.aborted[target := Reveal2]);
    ContinueGoesOn(env, n2, target);
    GoesOnFrom(env.c, n, n2, n2.d, ContinueAfter(env, n2, target), target);
  }

  lemma UpheldSecret(env: Env, n: NodeState, from: PeerID, p: PeerID, doc: Doc)
    requires DocVerifies(env.c, Reveal2, p, doc) && 2 * |DisputersFor(n, Key(Reveal2, p)) + {from}| > n.sessionSize
    ensures var key := Key(Reveal2, p); var n1 := CountDispute(n, from, key);
            HandleTimeoutDispute(env, n, from, Reveal2, p, doc)
            == ProcessReveal2(env, n1.(votes := n1.votes - {key}), p, DocValue(Reveal2, doc), doc)
  {
    hide ProcessReveal2, DocVerifies, DocValue, HandleTimeoutDispute, CountDispute;
    UpheldTakesTheMessage(env, n, from, Reveal2, p, doc);
  }

  /** A secret that the majority disputes is taken like a gossiped one, the votes against it are cleared,
      and the round goes on. */
  lemma DisputedSecretGoesOn(env: Env, n: NodeState, from: PeerID, p: PeerID, doc: Doc)
    requires OrderSound(n) && 2 * |DisputersFor(n, Key(Reveal2, p)) + {from}| > n.sessionSize
    requires DocVerifies(env.c, Reveal2, p, doc)
    requires p !in n.d.reveal2s && Get(n.d.reveal1s, p) == Some(env.c.H(DocValue(Reveal2, doc)))
    ensures var m := Handle(env, n, Event.Receive(from, TimeoutDispute(Reveal2, p, doc)));
            && GoesOn(env.c, n, SecretTaken(n.d, p, DocValue(Reveal2, doc)), m, p)
            && m.aborted == n.aborted && m.votes == n.votes - {Key(Reveal2, p)}
            && m.pending1 == n.pending1 && m.pending2 == n.pending2
            && (p != n.self ==> Get(m.signed, Key(Reveal2, p)) == Some(doc))
  {
    hide ProcessReveal2, GoesOn, DocVerifies, DocValue, HandleTimeoutDispute;
    var key := Key(Reveal2, p);
    var n1 := CountDispute(n, from, key);
    var n2 := n1.(votes := n1.votes - {key});
    UpheldSecret(env, n, from, p, doc);
    TakenGoesOn(env, n2, p, DocValue(Reveal2, doc), doc);
    GoesOnFrom(env.c, n, n2, SecretTaken(n.d, p, DocValue(Reveal2, doc)), ProcessReveal2(env, n2, p, DocValue(Reveal2, doc), doc), p);
  }

  /** A secret that conflicts with the one held is answered with the proof, and nothing else happens. */
  lemma ConflictingSecretIsProved(env: Env, n: NodeState, from: PeerID, p: PeerID, doc: Doc)
    requires 2 * |DisputersFor(n, Key(Reveal2, p)) + {from}| > n.sessionSize
    requires DocVerifies(env.c, Reveal2, p, doc) && p in n.d.reveal2s && n.d.reveal2s[p] != DocValue(Reveal2, doc)
    requires Key(Reveal2, p) in n.signed
    ensures var m := Handle(env, n, Event.Receive(from, TimeoutDispute(Reveal2, p, doc)));
            && m.out == n.out + [EquivocationAbort(Reveal2, p, n.signed[Key(Reveal2, p)], doc)]
            && m.d == n.d && m.signed == n.signed && m.aborted == n.aborted && m.vdf == n.vdf
  {
    hide DocVerifies, DocValue, HandleTimeoutDispute, ContinueAfter;
    UpheldSecret(env, n, from, p, doc);
  }

  // --- a disputed message is a gossiped one ---

  /** The same node with other tallies; nothing but the counting looks at them. */
  function Tallied(n: NodeState, votes: map<Key, set<PeerID>>, disputes: map<Key, set<PeerID>>): NodeState {
    n.(votes := votes, disputes := disputes)
  }

  lemma AbortedUntallied(n: NodeState, votes: map<Key, set<PeerID>>, disputes: map<Key, set<PeerID>>)
    ensures AbortedIn(Tallied(n, votes, disputes), Reveal2) == AbortedIn(n, Reveal2)
  {
  }

  lemma LaunchUntallied(n: NodeState, votes: map<Key, set<PeerID>>, disputes: map<Key, set<PeerID>>)
    ensures NodeSpec.TryStartVdf(Tallied(n, votes, disputes)) == Tallied(NodeSpec.TryStartVdf(n), votes, disputes)
  {
    hide VdfGate, FinalInputWithFallback, AbortedIn;
    AbortedUntallied(n, votes, disputes);
  }

  lemma ArmUntallied(n: NodeState, after: PeerID, votes: map<Key, set<PeerID>>, disputes: map<Key, set<PeerID>>)
    ensures NodeSpec.ArmNext(Tallied(n, votes, disputes), after) == Tallied(NodeSpec.ArmNext(n, after), votes, disputes)
  {
    hide NextPending;
  }

  lemma PublishUntallied(env: Env, n: NodeState, phase: Phase, value: Bytes,
                         votes: map<Key, set<PeerID>>, disputes: map<Key, set<PeerID>>)
    ensures SignAndPublish(env, Tallied(n, votes, disputes), phase, value)
            == Tallied(SignAndPublish(env, n, phase, value), votes, disputes)
  {
    hide SigningBytes;
  }

  lemma SpeakUntallied(env: Env, n: NodeState, votes: map<Key, set<PeerID>>, disputes: map<Key, set<PeerID>>)
    ensures PublishReveal2(env, Tallied(n, votes, disputes)) == Tallied(PublishReveal2(env, n), votes, disputes)
  {
    hide PublishReveal2, NodeSpec.TryStartVdf, AbortedIn, ComputeBothInputs, AbortPays, VdfInput.IsLastReveal2, SignAndPublish,
      DcrSpec.StartReveal2;
    var k := n.(d := DcrSpec.StartReveal2(n.d));
    SpeakingIs(env, n);
    SpeakingIs(env, Tallied(n, votes, disputes));
    AbortedUntallied(n, votes, disputes);
    LaunchUntallied(k, votes, disputes);
    if n.d.mySecret.Some? {
      PublishUntallied(env, k, Reveal2, n.d.mySecret.value, votes, disputes);
      PublishUntallied(env, NodeSpec.TryStartVdf(k), Reveal2, n.d.mySecret.value, votes, disputes);
    }
  }

  lemma TurnUntallied(env: Env, n: NodeState, p: PeerID, votes: map<Key, set<PeerID>>, disputes: map<Key, set<PeerID>>)
    ensures TurnTaken(env, Tallied(n, votes, disputes), p) == Tallied(TurnTaken(env, n, p), votes, disputes)
  {
    hide PublishReveal2, TurnAfter;
    SpeakUntallied(env, Claim(n), votes, disputes);
  }

  lemma ContinueUntallied(env: Env, n: NodeState, p: PeerID, votes: map<Key, set<PeerID>>, disputes: map<Key, set<PeerID>>)
    ensures ContinueAfter(env, Tallied(n, votes, disputes), p) == Tallied(ContinueAfter(env, n, p), votes, disputes)
  {
    hide ContinueAfter, TurnTaken, NodeSpec.ArmNext, NodeSpec.TryStartVdf, Tallied;
    ContinueParts(env, n, p);
    ContinueParts(env, Tallied(n, votes, disputes), p);
    TurnUntallied(env, n, p, votes, disputes);
    ArmUntallied(TurnTaken(env, n, p), p, votes, disputes);
    LaunchUntallied(NodeSpec.ArmNext(TurnTaken(env, n, p), p), votes, disputes);
  }

  lemma SecretUntallied(env: Env, n: NodeState, p: PeerID, secret: Bytes, doc: Doc,
                        votes: map<Key, set<PeerID>>, disputes: map<Key, set<PeerID>>)
    ensures ProcessReveal2(env, Tallied(n, votes, disputes), p, secret, doc)
            == Tallied(ProcessReveal2(env, n, p, secret, doc), votes, disputes)
  {
    hide ContinueAfter;
    ContinueUntallied(env, StoreSigned(n.(d := StoreReveal2(n.d, p, secret)), Reveal2, p, doc), p, votes, disputes);
  }

  /** An upheld dispute about a reveal2 leaves exactly what gossip of the same message would have left,
      the tallies aside, whether its value is new, repeated, wrong or in conflict. */
  lemma DisputedSecretIsGossip(env: Env, n: NodeState, from: PeerID, p: PeerID, secret: Bytes, sig: Bytes)
    requires p != n.self && p !in n.aborted && p in n.d.reveal1s && VerifySignedMsg(env.c, Reveal2, p, Some(p), secret, sig)
    requires 2 * |DisputersFor(n, Key(Reveal2, p)) + {from}| > n.sessionSize
    ensures var gossip := Event.Receive(p, Gossip(Reveal2, Some(p), secret, sig));
            var dispute := Event.Receive(from, TimeoutDispute(Reveal2, p, DocFor(Reveal2, Some(p), secret, sig)));
            Handle(env, n, dispute).(votes := n.votes, disputes := n.disputes) == Handle(env, n, gossip)
  {
    hide ProcessReveal2, VerifySignedMsg, HandleTimeoutDispute, CountDispute;
    var key, doc := Key(Reveal2, p), DocFor(Reveal2, Some(p), secret, sig);
    assert DocVerifies(env.c, Reveal2, p, doc) && DocValue(Reveal2, doc) == secret;
    UpheldSecret(env, n, from, p, doc);
    var n1 := CountDispute(n, from, key);
    DisputeTallies(n, from, key);
    SecretUntallied(env, n, p, secret, doc, n.votes - {key}, n1.disputes);
    SecretUntallied(env, n, p, secret, doc, n.votes, n.disputes);
    assert Tallied(n, n.votes, n.disputes) == n;
  }

  lemma DisputeTallies(n: NodeState, from: PeerID, key: Key)
    ensures CountDispute(n, from, key) == Tallied(n, n.votes, CountDispute(n, from, key).disputes)
  {
  }

  // --- the last-revealer-vdf profile ---

  /** self is the last order member that is not aborted in reveal2. */
  ghost predicate LastStanding(d: DcrState, aborted: set<PeerID>) {
    exists i :: 0 <= i < |d.revealOrder| && d.revealOrder[i] == d.self && d.self !in aborted
                && forall k | i < k < |d.revealOrder| :: d.revealOrder[k] in aborted
  }

  lemma LastStandingIsLast(d: DcrState, aborted: set<PeerID>)
    ensures VdfInput.IsLastReveal2(d, aborted) <==> LastStanding(d, aborted)
  {
    LastLiveIsLast(d.revealOrder, aborted);
    var last := LastLive(d.revealOrder, aborted);
    if LastStanding(d, aborted) {
      var i :| 0 <= i < |d.revealOrder| && d.revealOrder[i] == d.self && d.self !in aborted
               && forall k | i < k < |d.revealOrder| :: d.revealOrder[k] in aborted;
      assert last == i;
    }
  }

  /** On its turn this profile launches, on the views that include its own secret, exactly when it stands
      last and the gate lets it; then it publishes all the same. */
  lemma LastRevealerLaunchesFirst(env: Env, n: NodeState)
    requires n.config.behavior == Behavior(false, false, false, false, false, false, true, false)
    requires n.d.self == n.self && n.d.mySecret.Some? && NoDuplicates(n.d.revealOrder)
    ensures var m, aborted := PublishReveal2(env, n), AbortedIn(n, Reveal2);
            && Said(env.c, m, Reveal2, n.d.mySecret.value)
            && m.d == n.d.(reveal2s := n.d.reveal2s[n.self := n.d.mySecret.value])
            && m.vdf == if LastStanding(n.d, aborted) then Launched(n.vdf, m.d, aborted) else n.vdf
  {
    hide PublishReveal2, NodeSpec.TryStartVdf, SignAndPublish, Said, ComputeBothInputs, VdfInput.IsLastReveal2, LastStanding,
      AbortedIn, Launched;
    var k := n.(d := DcrSpec.StartReveal2(n.d));
    SpeakingIs(env, n);
    LastStandingIsLast(n.d, AbortedIn(n, Reveal2));
    TryLaunches(k);
    SameAbortedIn(n, k);
    Publishing(env, k, Reveal2, n.d.mySecret.value);
    Publishing(env, NodeSpec.TryStartVdf(k), Reveal2, n.d.mySecret.value);
  }
}
