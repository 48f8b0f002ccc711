/** What follows a commit2, a reveal1 and an abort in either phase: when the node opens its own commit,
    when it computes the order, and what the first in the order does. */
module Openings {
  import opened Encoding
  import opened FiniteSets
  import opened DcrSpec
  import opened RevealOrder
  import opened Signing
  import opened NodeSpec
  import opened Handlers
  import opened Gates
  import opened Confluence
  import opened FailingRuns
  import opened Receipts
  import opened Secrets

  // --- outcomes ---

  /** No secret has been published since. */
  ghost predicate NoSecretOut(n: NodeState, m: NodeState) {
    forall msg | msg in m.out && msg.Gossip? && msg.phase == Reveal2 :: msg in n.out
  }

  ghost predicate FirstInLine(d: DcrState, self: PeerID) {
    !d.reveal2Sent && d.revealOrder != [] && d.revealOrder[0] == self
  }

  /** The views have become o, with a new order in them: this node speaks if it is first, and otherwise
      watches the first one due. */
  ghost predicate OrderedAs(c: Crypto, n: NodeState, o: DcrState, m: NodeState) {
    && m.orders == n.orders + [o.revealOrder]
    && (FirstInLine(o, n.self) && Honest(n.config) && o.mySecret.Some? ==>
          && Said(c, m, Reveal2, o.mySecret.value) && m.reveal2Target == n.reveal2Target
          && m.d == o.(reveal2Sent := true, reveal2s := o.reveal2s[n.self := o.mySecret.value]))
    && (!FirstInLine(o, n.self) ==> NoSecretOut(n, m) && m.d == o && Watches(n, m, NO_PEER))
  }

  /** The order has been computed over the views d, leaving out everybody aborted. */
  ghost predicate OrderedOver(env: Env, n: NodeState, d: DcrState, m: NodeState) {
    OrderedAs(env.c, n, ComputeOrderExcluding(env.c.H, env.it, d, m.aborted.Keys), m)
  }

  /** The views are d and no order has been computed. */
  ghost predicate Unordered(n: NodeState, d: DcrState, m: NodeState) {
    m.d == d && m.orders == n.orders && NoSecretOut(n, m) && m.reveal2Target == n.reveal2Target
  }

  function Opened1(d: DcrState, p: PeerID, r: Bytes): DcrState {
    d.(reveal1s := d.reveal1s[p := r])
  }

  /** The node has opened its own commit, and orders at once if nobody else is missing. */
  ghost predicate OpensOwn(env: Env, n: NodeState, d: DcrState, m: NodeState)
    requires d.myReveal1.Some?
  {
    var r := d.myReveal1.value;
    var d1 := Opened1(d, n.self, r);
    && Said(env.c, m, Reveal1, r)
    && if |d1.reveal1s| == |d1.commit2s| then OrderedOver(env, n, d1, m) else Unordered(n, d1, m)
  }

  // --- ordering ---

  /** Real identifiers only, so that every computed order is sound. */
  ghost predicate ViewsSound(env: Env, n: NodeState) {
    n.d.self == n.self && NO_PEER !in n.d.commit2s && ValidIter(env.it)
  }

  lemma ComputedOrderSound(env: Env, n: NodeState)
    requires ViewsSound(env, n)
    ensures OrderSound(n.(d := ComputeOrderExcluding(env.c.H, env.it, n.d, n.aborted.Keys)))
  {
    hide ComputeOrderExcluding, ValidOrder, ValidIter;
    var o := ComputeOrderExcluding(env.c.H, env.it, n.d, n.aborted.Keys);
    ComputedOrderIsValid(env.c.H, env.it, n.d, n.aborted.Keys);
    ValidOrderMembers(env.c.H, n.d.commit2s, n.d.reveal1s, n.aborted.Keys, o.revealOrder);
    assert o.self == n.d.self by { ComputedSelf(env, n); }
    assert NO_PEER !in SetOf(o.revealOrder);
  }

  lemma ComputedSelf(env: Env, n: NodeState)
    ensures var o := ComputeOrderExcluding(env.c.H, env.it, n.d, n.aborted.Keys);
            o == n.d.(revealOrder := o.revealOrder, revealDist := o.revealDist, basis := o.basis)
  {
    hide OrderFrom, Distances, RevealEntries;
  }

  lemma FirstSpeaks(env: Env, n: NodeState, n1: NodeState)
    requires n1 == n.(d := n1.d, orders := n.orders + [n1.d.revealOrder]) && n1.d.self == n1.self && FirstTurn(n1.d)
    ensures var m := PublishReveal2(env, Claim(n1));
            && m == n1.(d := m.d, vdf := m.vdf, signed := m.signed, out := m.out) && OwnWordsOnly(n, m)
            && OrderedAs(env.c, n, n1.d, m) && (Honest(n.config) ==> m.vdf == n.vdf)
  {
    hide PublishReveal2, Said, NodeSpec.TryStartVdf, SignAndPublish;
    var k := Claim(n1);
    Speaking(env, k);
    if Honest(n.config) {
      HonestSpeaks(env, k);
      if k.d.mySecret.Some? {
        Publishing(env, k.(d := DcrSpec.StartReveal2(k.d)), Reveal2, k.d.mySecret.value);
      }
    }
  }

  lemma OthersWait(env: Env, n: NodeState, n1: NodeState)
    requires n1 == n.(d := n1.d, orders := n.orders + [n1.d.revealOrder]) && OrderSound(n1) && !FirstTurn(n1.d)
    ensures var m := NodeSpec.ArmNext(n1, NO_PEER);
            m == n1.(reveal2Target := m.reveal2Target) && OrderedAs(env.c, n, n1.d, m) && OwnWordsOnly(n, m)
  {
    hide NodeSpec.ArmNext, Said, Watches;
    ArmWatches(n1, NO_PEER);
    WatchedSince(n, n1, NodeSpec.ArmNext(n1, NO_PEER), NO_PEER);
  }

  lemma Ordering(env: Env, n: NodeState)
    requires ViewsSound(env, n)
    ensures var m := OrderAndTrigger(env, n);
            && OrderedOver(env, n, n.d, m) && (Honest(n.config) ==> m.vdf == n.vdf)
            && OwnWordsOnly(n, m)
            && m == n.(d := m.d, vdf := m.vdf, orders := m.orders, reveal2Target := m.reveal2Target, signed := m.signed, out := m.out)
  {
    hide ComputeOrderExcluding, PublishReveal2, NodeSpec.ArmNext, OrderedAs, ViewsSound, OrderAndTrigger, Honest, FirstTurn, OwnWordsOnly,
      OrderSound;
    var o := ComputeOrderExcluding(env.c.H, env.it, n.d, n.aborted.Keys);
    var n1 := n.(d := o, orders := n.orders + [o.revealOrder]);
    ComputedOrderSound(env, n);
    assert OrderSound(n1) && o.self == n1.self by { SoundElsewhere(n.(d := o), n1); }
    OrderingParts(env, n);
    if FirstTurn(o) {
      FirstSpeaks(env, n, n1);
    } else {
      OthersWait(env, n, n1);
    }
  }

  lemma SoundElsewhere(n: NodeState, m: NodeState)
    requires OrderSound(n) && m.d == n.d && m.self == n.self
    ensures OrderSound(m) && m.d.self == m.self
  {
  }

  lemma OrderingParts(env: Env, n: NodeState)
    ensures var o := ComputeOrderExcluding(env.c.H, env.it, n.d, n.aborted.Keys);
            var n1 := n.(d := o, orders := n.orders + [o.revealOrder]);
            OrderAndTrigger(env, n) == if FirstTurn(o) then PublishReveal2(env, Claim(n1)) else NodeSpec.ArmNext(n1, NO_PEER)
  {
    hide ComputeOrderExcluding, PublishReveal2, NodeSpec.ArmNext;
  }

  lemma WatchedSince(n: NodeState, n1: NodeState, m: NodeState, p: PeerID)
    requires Watches(n1, m, p) && n1.config == n.config && n1.reveal2Target == n.reveal2Target
    ensures Watches(n, m, p)
  {
    hide NextDue;
  }

  ghost predicate SameUntilNow(n: NodeState, n1: NodeState) {
    n1.self == n.self && n1.config == n.config && n1.orders == n.orders && n1.reveal2Target == n.reveal2Target && NoSecretOut(n, n1)
  }

  lemma OrderedFrom(c: Crypto, n: NodeState, n1: NodeState, o: DcrState, m: NodeState)
    requires SameUntilNow(n, n1) && OrderedAs(c, n1, o, m)
    ensures OrderedAs(c, n, o, m)
  {
    hide Said, NextDue;
  }

  lemma SpeakingKeeps(env: Env, n: NodeState, phase: Phase, value: Bytes)
    requires phase != Reveal2 && Said(env.c, n, phase, value)
    ensures Said(env.c, PublishReveal2(env, n), phase, value)
  {
    hide PublishReveal2, NodeSpec.TryStartVdf, LaunchesEarly, ComputeBothInputs, SigningBytes, DcrSpec.StartReveal2;
    SpeakingIs(env, n);
    LaunchingOnly(n.(d := DcrSpec.StartReveal2(n.d)));
  }

  lemma OrderingKeeps(env: Env, n: NodeState, phase: Phase, value: Bytes)
    requires phase != Reveal2 && Said(env.c, n, phase, value)
    ensures Said(env.c, OrderAndTrigger(env, n), phase, value)
  {
    hide ComputeOrderExcluding, PublishReveal2, NodeSpec.ArmNext, OrderAndTrigger, FirstTurn, OwnGossip, OwnDoc;
    OrderingParts(env, n);
    var o := ComputeOrderExcluding(env.c.H, env.it, n.d, n.aborted.Keys);
    var n1 := n.(d := o, orders := n.orders + [o.revealOrder]);
    SpeakingKeeps(env, Claim(n1), phase, value);
    ArmingOnly(n1, NO_PEER);
  }

  // --- opening the own commit ---

  lemma Opening(env: Env, n: NodeState)
    requires ViewsSound(env, n) && n.d.myReveal1.Some?
    ensures var m := RevealOwn1(env, n);
            && OpensOwn(env, n, n.d, m) && (Honest(n.config) ==> m.vdf == n.vdf)
            && OwnWordsOnly(n, m)
            && m == n.(d := m.d, vdf := m.vdf, orders := m.orders, reveal2Target := m.reveal2Target, signed := m.signed, out := m.out)
  {
    hide OrderAndTrigger, OrderedAs, ComputeOrderExcluding, ValidIter, SignAndPublish, Said, Honest;
    var r := n.d.myReveal1.value;
    var n0 := n.(d := Opened1(n.d, n.self, r));
    var n1 := SignAndPublish(env, n0, Reveal1, r);
    Publishing(env, n0, Reveal1, r);
    PublishedOpening(env, n0, r);
    OpeningParts(env, n);
    Ordering(env, n1);
    OrderingKeeps(env, n1, Reveal1, r);
    OrderedFrom(env.c, n, n1, ComputeOrderExcluding(env.c.H, env.it, n1.d, n1.aborted.Keys), OrderAndTrigger(env, n1));
  }

  lemma PublishedOpening(env: Env, n: NodeState, r: Bytes)
    ensures NoSecretOut(n, SignAndPublish(env, n, Reveal1, r))
  {
    hide SigningBytes;
  }

  lemma OpeningParts(env: Env, n: NodeState)
    requires n.d.myReveal1.Some? && n.d.self == n.self
    ensures var r := n.d.myReveal1.value; var d1 := Opened1(n.d, n.self, r);
            var n1 := SignAndPublish(env, n.(d := d1), Reveal1, r);
            RevealOwn1(env, n) == if |d1.reveal1s| == |d1.commit2s| then OrderAndTrigger(env, n1) else n1
  {
    hide OrderAndTrigger, SigningBytes;
    assert n.self in Opened1(n.d, n.self, n.d.myReveal1.value).reveal1s;
  }

  // --- the commit gate ---

  /** The node counts enough commits and opens its own, unless it withholds it; otherwise nothing happens. */
  ghost predicate GateTried(env: Env, n: NodeState, k: NodeState, m: NodeState) {
    if k.sessionActive && !k.reveal1Triggered && |k.d.commit2s| >= EffectiveSize(k) then
      && m.reveal1Triggered
      && (!k.config.behavior.skipReveal1 && k.d.myReveal1.Some? ==> OpensOwn(env, n, k.d, m))
      && (k.config.behavior.skipReveal1 || k.d.myReveal1.None? ==> Unordered(n, k.d, m) && Silent(n, m))
    else Unordered(n, k.d, m) && Silent(n, m) && m.reveal1Triggered == n.reveal1Triggered
  }

  lemma Trying(env: Env, n: NodeState)
    requires ViewsSound(env, n)
    ensures var m := TryStartReveal1(env, n);
            && GateTried(env, n, n, m) && (Honest(n.config) ==> m.vdf == n.vdf)
            && OwnWordsOnly(n, m)
            && m == n.(d := m.d, vdf := m.vdf, orders := m.orders, reveal2Target := m.reveal2Target, signed := m.signed, out := m.out,
                       reveal1Triggered := m.reveal1Triggered)
  {
    hide RevealOwn1, OpensOwn, EffectiveSize, Honest, ValidIter;
    var n1 := n.(reveal1Triggered := true);
    if n.d.myReveal1.Some? {
      Opening(env, n1);
      OpensFrom(env, n, n1, n.d, RevealOwn1(env, n1));
    } else {
      NothingToOpen(env, n1);
    }
  }

  lemma NothingToOpen(env: Env, n: NodeState)
    requires n.d.myReveal1.None?
    ensures RevealOwn1(env, n) == n
  {
    hide OrderAndTrigger;
  }

  lemma OpensFrom(env: Env, n: NodeState, n1: NodeState, d: DcrState, m: NodeState)
    requires SameUntilNow(n, n1) && d.myReveal1.Some? && OpensOwn(env, n1, d, m)
    ensures OpensOwn(env, n, d, m)
  {
    hide OrderedAs, ComputeOrderExcluding, Said;
    var o := ComputeOrderExcluding(env.c.H, env.it, Opened1(d, n.self, d.myReveal1.value), m.aborted.Keys);
    if OrderedAs(env.c, n1, o, m) {
      OrderedFrom(env.c, n, n1, o, m);
    }
  }

  // --- commits ---

  function Committed2(n: NodeState, p: PeerID, value: Bytes): NodeState {
    n.(d := n.d.(commit2s := n.d.commit2s[p := value]))
  }

  lemma TakenCommit(env: Env, n: NodeState, p: PeerID, value: Bytes, doc: Doc)
    requires ViewsSound(env, n) && p != n.self && p != NO_PEER && p !in n.d.commit2s && p !in n.pending1
    ensures var m := OnCommit2(env, n, p, value, doc);
            && GateTried(env, n, Committed2(n, p, value), m)
            && Get(m.signed, Key(Commit2, p)) == Some(doc) && m.aborted == n.aborted
            && m == TryStartReveal1(env, WithCommit2(n, p, value, doc))
  {
    hide TryStartReveal1, TryFlushReveal1, OpensOwn, EffectiveSize, ValidIter;
    var n1 := WithCommit2(n, p, value, doc);
    NothingToFlush1(env, n1, p);
    Trying(env, n1);
    GateFrom(env, n, n1, Committed2(n, p, value), TryStartReveal1(env, n1));
  }

  lemma GateFrom(env: Env, n: NodeState, n1: NodeState, k: NodeState, m: NodeState)
    requires SameUntilNow(n, n1) && Silent(n, n1) && GateTried(env, n1, n1, m) && n1.reveal1Triggered == n.reveal1Triggered
    requires k.d == n1.d && k.sessionActive == n1.sessionActive && k.reveal1Triggered == n1.reveal1Triggered
             && k.sessionSize == n1.sessionSize && k.aborted == n1.aborted && k.config == n1.config
    ensures GateTried(env, n, k, m)
  {
    hide OpensOwn;
    assert LateAborts(k) == LateAborts(n1);
    if n1.d.myReveal1.Some? && OpensOwn(env, n1, n1.d, m) {
      OpensFrom(env, n, n1, n1.d, m);
    }
  }

  /** A first gossiped commit2 is stored with its signed form, and the gate is tried with it. */
  lemma CommitTriesGate(env: Env, n: NodeState, p: PeerID, value: Bytes, sig: Bytes)
    requires ViewsSound(env, n) && p != n.self && p != NO_PEER && p !in n.aborted && p !in n.d.commit2s && p !in n.pending1
    requires VerifySignedMsg(env.c, Commit2, p, Some(p), value, sig)
    ensures var m := Handle(env, n, Event.Receive(p, Gossip(Commit2, Some(p), value, sig)));
            && GateTried(env, n, Committed2(n, p, value), m)
            && Get(m.signed, Key(Commit2, p)) == Some(DocFor(Commit2, Some(p), value, sig)) && m.aborted == n.aborted
  {
    hide OnCommit2, GateTried, ViewsSound, VerifySignedMsg;
    TakenCommit(env, n, p, value, DocFor(Commit2, Some(p), value, sig));
  }

  function AbortedNow(n: NodeState, target: PeerID, phase: Phase): NodeState {
    n.(aborted := n.aborted[target := phase])
  }

  lemma AbortTriesGate(env: Env, n: NodeState, n1: NodeState, target: PeerID)
    requires ViewsSound(env, n) && target !in n.aborted && SameUntilNow(n, n1) && Silent(n, n1)
    requires n1 == n.(votes := n1.votes, out := n1.out)
    ensures var m := AbortPeer(env, n1, target, Commit2);
            GateTried(env, n, AbortedNow(n, target, Commit2), m) && m.aborted == n.aborted[target := Commit2]
  {
    hide TryStartReveal1, OpensOwn, EffectiveSize, ValidIter, GateTried;
    var n2 := n1.(aborted := n1.aborted[target := Commit2]);
    Trying(env, n2);
    GateFrom(env, n, n2, AbortedNow(n, target, Commit2), TryStartReveal1(env, n2));
  }

  /** A vote or a proof that aborts in commit2 tries the gate with the smaller size. */
  lemma VotedOutTriesGate(env: Env, n: NodeState, from: PeerID, target: PeerID)
    requires ViewsSound(env, n) && target !in n.aborted && 2 * |VotersFor(n, Key(Commit2, target)) + {from}| > n.sessionSize
    ensures var m := Handle(env, n, Event.Receive(from, TimeoutVote(Commit2, target)));
            GateTried(env, n, AbortedNow(n, target, Commit2), m) && m.aborted == n.aborted[target := Commit2]
  {
    hide AbortPeer, GateTried, VoteCounted, ViewsSound;
    var key := Key(Commit2, target);
    VoteOutcome(env, n, from, Commit2, target);
    VotedSilently(n, from, key);
    VoterAdded(n, from, key);
    AbortTriesGate(env, n, VoteCounted(n, from, key), target);
  }

  lemma ProvedOutTriesGate(env: Env, n: NodeState, from: PeerID, target: PeerID, first: Doc, second: Doc)
    requires ViewsSound(env, n) && target !in n.aborted && ProvesEquivocation(env.c, Commit2, target, first, second)
    ensures var m := Handle(env, n, Event.Receive(from, EquivocationAbort(Commit2, target, first, second)));
            GateTried(env, n, AbortedNow(n, target, Commit2), m) && m.aborted == n.aborted[target := Commit2]
  {
    hide AbortPeer, GateTried, ViewsSound, ProvesEquivocation;
    AbortTriesGate(env, n, n, target);
  }

  /** A commit also takes the reveal1 buffered behind it, before the gate is tried; here, before enough have
      revealed. */
  lemma CommitFreesTheReveal1(env: Env, n: NodeState, p: PeerID, value: Bytes, sig: Bytes, r: Bytes)
    requires ViewsSound(env, n) && p != n.self && p != NO_PEER && p !in n.aborted && p !in n.d.commit2s && p !in n.d.reveal1s
    requires VerifySignedMsg(env.c, Commit2, p, Some(p), value, sig) && Honest(n.config) && p !in n.pending2
    requires p in n.pending1 && DocValue(Reveal1, n.pending1[p]) == r && env.c.H(r) == value
    requires !EnoughRevealed(Revealed1(Committed2(n, p, value), p, r))
    ensures var m := Handle(env, n, Event.Receive(p, Gossip(Commit2, Some(p), value, sig)));
            && GateTried(env, n, Revealed1(Committed2(n, p, value), p, r), m)
            && m.pending1 == n.pending1 - {p} && Get(m.signed, Key(Reveal1, p)) == Some(n.pending1[p])
            && Get(m.signed, Key(Commit2, p)) == Some(DocFor(Commit2, Some(p), value, sig))
  {
    hide VerifySignedMsg, DocValue, TryStartReveal1, TryFlushReveal1, GateTried, EffectiveSize, Honest, ValidIter;
    SameSize(WithCommit2(n, p, value, DocFor(Commit2, Some(p), value, sig)), n);
    SameSize(Committed2(n, p, value), n);
    SameSize(Revealed1(Committed2(n, p, value), p, r), n);
    SameSize(Revealed1(WithCommit2(n, p, value, DocFor(Commit2, Some(p), value, sig)), p, r), n);
    var doc := DocFor(Commit2, Some(p), value, sig);
    var n1 := WithCommit2(n, p, value, doc);
    var n2 := n1.(pending1 := n1.pending1 - {p});
    var n3 := WithReveal1(n2, p, r, n.pending1[p]);
    FlushedReveal1(env, n1, p, r);
    Trying(env, n3);
    GateFrom(env, n, n3, Revealed1(Committed2(n, p, value), p, r), TryStartReveal1(env, n3));
  }

  lemma FlushedReveal1(env: Env, n: NodeState, p: PeerID, r: Bytes)
    requires p in n.pending1 && DocValue(Reveal1, n.pending1[p]) == r && Get(n.d.commit2s, p) == Some(env.c.H(r))
    requires Honest(n.config)
    requires p !in n.pending2 && p !in n.d.reveal1s && !EnoughRevealed(Revealed1(n, p, r))
    ensures TryFlushReveal1(env, n, p) == WithReveal1(n.(pending1 := n.pending1 - {p}), p, r, n.pending1[p])
  {
    hide ProcessReveal1, TryFlushReveal1, EffectiveSize, DocValue, Honest;
    var n2 := n.(pending1 := n.pending1 - {p});
    var n3 := WithReveal1(n2, p, r, n.pending1[p]);
    FlushIs(env, n, p, r);
    Process1Cases(env, n2, p, r, n.pending1[p]);
    SameSize(n3, Revealed1(n, p, r));
    NotYetEnough(env, n3, p);
    NoStrategy(env, n3);
  }

  lemma FlushIs(env: Env, n: NodeState, p: PeerID, r: Bytes)
    requires p in n.pending1 && DocValue(Reveal1, n.pending1[p]) == r
    ensures TryFlushReveal1(env, n, p) == ProcessReveal1(env, n.(pending1 := n.pending1 - {p}), p, r, n.pending1[p])
  {
    hide ProcessReveal1, DocValue;
  }

  // --- reveals ---

  /** Enough reveal1s are there to order: those of everybody who committed, or as many as the effective size. */
  predicate EnoughRevealed(k: NodeState) {
    |k.d.reveal1s| == |k.d.commit2s| || |k.d.reveal1s| >= EffectiveSize(k)
  }

  function Revealed1(n: NodeState, p: PeerID, r: Bytes): NodeState {
    n.(d := Opened1(n.d, p, r))
  }

  lemma TakenReveal1(env: Env, n: NodeState, p: PeerID, r: Bytes, doc: Doc)
    requires ViewsSound(env, n) && p != n.self && p !in n.d.reveal1s && Get(n.d.commit2s, p) == Some(env.c.H(r))
    requires p !in n.pending2
    ensures var m := AcceptedReveal1(env, WithReveal1(n, p, r, doc), p); var k := Revealed1(n, p, r);
            && (if EnoughRevealed(k) then OrderedOver(env, n, k.d, m) else Unordered(n, k.d, m) && Silent(n, m))
            && Get(m.signed, Key(Reveal1, p)) == Some(doc) && m.aborted == n.aborted && (Honest(n.config) ==> m.vdf == n.vdf)
  {
    hide OrderAndTrigger, OrderedAs, ComputeOrderExcluding, ValidIter, Honest, EffectiveSize;
    var n1 := WithReveal1(n, p, r, doc);
    AcceptedCases(env, n1, p);
    SameSize(n, n1);
    SameSize(n, Revealed1(n, p, r));
    Ordering(env, n1);
    OrderedFrom(env.c, n, n1, ComputeOrderExcluding(env.c.H, env.it, n1.d, n1.aborted.Keys), OrderAndTrigger(env, n1));
  }

  lemma SameSize(n: NodeState, m: NodeState)
    requires m.aborted == n.aborted && m.sessionSize == n.sessionSize
    ensures EffectiveSize(m) == EffectiveSize(n)
  {
    assert LateAborts(m) == LateAborts(n);
  }

  /** A gossiped reveal1 that matches its commit is stored with its signed form; the order is computed exactly
      when enough have been revealed with it. */
  lemma Reveal1Orders(env: Env, n: NodeState, p: PeerID, r: Bytes, sig: Bytes)
    requires ViewsSound(env, n) && p != n.self && p !in n.aborted && VerifySignedMsg(env.c, Reveal1, p, Some(p), r, sig)
    requires p !in n.d.reveal1s && Get(n.d.commit2s, p) == Some(env.c.H(r)) && p !in n.pending2 && Honest(n.config)
    ensures var m := Handle(env, n, Event.Receive(p, Gossip(Reveal1, Some(p), r, sig))); var k := Revealed1(n, p, r);
            && (if EnoughRevealed(k) then OrderedOver(env, n, k.d, m) else Unordered(n, k.d, m) && Silent(n, m))
            && Get(m.signed, Key(Reveal1, p)) == Some(DocFor(Reveal1, Some(p), r, sig)) && m.aborted == n.aborted && m.vdf == n.vdf
  {
    hide AcceptedReveal1, TryStrategicReveal1, OrderedOver, Unordered, EnoughRevealed, ViewsSound, VerifySignedMsg,
      ProcessReveal1, Honest;
    var doc := DocFor(Reveal1, Some(p), r, sig);
    var n1 := AcceptedReveal1(env, WithReveal1(n, p, r, doc), p);
    Process1Cases(env, n, p, r, doc);
    TakenReveal1(env, n, p, r, doc);
    AcceptingKeepsConfig(env, WithReveal1(n, p, r, doc), p);
    NoStrategy(env, n1);
  }

  lemma AcceptingKeepsConfig(env: Env, n: NodeState, p: PeerID)
    requires p !in n.pending2 && Honest(n.config)
    ensures AcceptedReveal1(env, n, p).config == n.config
  {
    hide OrderAndTrigger, AcceptedReveal1, EffectiveSize;
    AcceptedCases(env, n, p);
    OrderingStays(env, n);
  }

  lemma AbortMayOrder(env: Env, n: NodeState, n1: NodeState, target: PeerID)
    requires ViewsSound(env, n) && target !in n.aborted && SameUntilNow(n, n1) && Silent(n, n1)
    requires n1 == n.(votes := n1.votes, out := n1.out)
    ensures var m, k := AbortPeer(env, n1, target, Reveal1), AbortedNow(n, target, Reveal1);
            && m.aborted == k.aborted
            && if n.sessionActive && n.reveal1Triggered && |n.d.reveal1s| >= EffectiveSize(k) then OrderedOver(env, n, n.d, m)
               else Unordered(n, n.d, m) && Silent(n, m)
  {
    hide OrderAndTrigger, OrderedAs, ComputeOrderExcluding, ValidIter, EffectiveSize;
    var n2 := n1.(aborted := n1.aborted[target := Reveal1]);
    SameSize(AbortedNow(n, target, Reveal1), n2);
    Ordering(env, n2);
    OrderedFrom(env.c, n, n2, ComputeOrderExcluding(env.c.H, env.it, n2.d, n2.aborted.Keys), OrderAndTrigger(env, n2));
  }

  /** A vote or a proof that aborts in reveal1 leads to an order exactly when reveal1 has started and the
      reveals held then reach the smaller size. */
  lemma VotedOutMayOrder(env: Env, n: NodeState, from: PeerID, target: PeerID)
    requires ViewsSound(env, n) && target !in n.aborted && 2 * |VotersFor(n, Key(Reveal1, target)) + {from}| > n.sessionSize
    ensures var m, k := Handle(env, n, Event.Receive(from, TimeoutVote(Reveal1, target))), AbortedNow(n, target, Reveal1);
            && m.aborted == k.aborted
            && if n.sessionActive && n.reveal1Triggered && |n.d.reveal1s| >= EffectiveSize(k) then OrderedOver(env, n, n.d, m)
               else Unordered(n, n.d, m) && Silent(n, m)
  {
    hide AbortPeer, OrderedOver, VoteCounted, ViewsSound, EffectiveSize;
    var key := Key(Reveal1, target);
    VoteOutcome(env, n, from, Reveal1, target);
    VotedSilently(n, from, key);
    VoterAdded(n, from, key);
    AbortMayOrder(env, n, VoteCounted(n, from, key), target);
  }

  lemma ProvedOutMayOrder(env: Env, n: NodeState, from: PeerID, target: PeerID, first: Doc, second: Doc)
    requires ViewsSound(env, n) && target !in n.aborted && ProvesEquivocation(env.c, Reveal1, target, first, second)
    ensures var m := Handle(env, n, Event.Receive(from, EquivocationAbort(Reveal1, target, first, second)));
            var k := AbortedNow(n, target, Reveal1);
            && m.aborted == k.aborted
            && if n.sessionActive && n.reveal1Triggered && |n.d.reveal1s| >= EffectiveSize(k) then OrderedOver(env, n, n.d, m)
               else Unordered(n, n.d, m) && Silent(n, m)
  {
    hide AbortPeer, OrderedOver, ViewsSound, ProvesEquivocation, EffectiveSize;
    AbortMayOrder(env, n, n, target);
  }

  /** The secret buffered behind a reveal1 is taken with it; here, before enough have revealed. */
  lemma Reveal1FreesTheSecret(env: Env, n: NodeState, p: PeerID, r: Bytes, sig: Bytes, secret: Bytes)
    requires OrderSound(n) && p != n.self && p !in n.aborted && VerifySignedMsg(env.c, Reveal1, p, Some(p), r, sig)
    requires p !in n.d.reveal1s && p !in n.d.reveal2s && Get(n.d.commit2s, p) == Some(env.c.H(r)) && Honest(n.config)
    requires p in n.pending2 && DocValue(Reveal2, n.pending2[p]) == secret && env.c.H(secret) == r
    requires !EnoughRevealed(Revealed1(n, p, r))
    ensures var m := Handle(env, n, Event.Receive(p, Gossip(Reveal1, Some(p), r, sig)));
            && GoesOn(env.c, n, SecretTaken(Opened1(n.d, p, r), p, secret), m, p) && m.orders == n.orders
            && m.pending2 == n.pending2 - {p} && Get(m.signed, Key(Reveal2, p)) == Some(n.pending2[p])
  {
    hide GoesOn, VerifySignedMsg, ProcessReveal1, ProcessReveal2, TryStrategicReveal1, OrderAndTrigger, EffectiveSize, AcceptedReveal1,
      DocValue, Honest;
    var doc := DocFor(Reveal1, Some(p), r, sig);
    var n1 := WithReveal1(n, p, r, doc);
    var n2 := n1.(pending2 := n1.pending2 - {p});
    var m := ProcessReveal2(env, n2, p, secret, n.pending2[p]);
    Process1Cases(env, n, p, r, doc);
    TakenGoesOn(env, n2, p, secret, n.pending2[p]);
    GoesOnFrom(env.c, n, n2, SecretTaken(n2.d, p, secret), m, p);
    SameSize(n, Revealed1(n, p, r));
    SameSize(n, m);
    GoingOnKeepsReveals(env.c, n, SecretTaken(n1.d, p, secret), m, p);
    FlushedOnly(env, n1, p, m);
    NoStrategy(env, m);
  }

  lemma GoingOnKeepsReveals(c: Crypto, n: NodeState, d: DcrState, m: NodeState, p: PeerID)
    requires GoesOn(c, n, d, m, p) && Honest(n.config)
    ensures m.d.reveal1s == d.reveal1s && m.d.commit2s == d.commit2s && m.d.self == d.self
  {
    hide Said, Turns.Follows, Launched, Watches, AbortedIn;
  }

  lemma FlushedOnly(env: Env, n: NodeState, p: PeerID, m: NodeState)
    requires p in n.pending2 && m == TryFlushReveal2(env, n, p) && !AllReady(n.d) && |m.d.reveal1s| < EffectiveSize(m)
    ensures AcceptedReveal1(env, n, p) == m
  {
    hide TryFlushReveal2, OrderAndTrigger, EffectiveSize;
  }

  /** With enough revealed, the buffered secret is taken first, by the order there was, and then the order is
      computed. */
  lemma SecretThenOrder(env: Env, n: NodeState, p: PeerID, r: Bytes, sig: Bytes, secret: Bytes) returns (k: NodeState)
    requires OrderSound(n) && ViewsSound(env, n) && p != n.self && p !in n.aborted
    requires VerifySignedMsg(env.c, Reveal1, p, Some(p), r, sig)
    requires p !in n.d.reveal1s && p !in n.d.reveal2s && Get(n.d.commit2s, p) == Some(env.c.H(r)) && Honest(n.config)
    requires p in n.pending2 && DocValue(Reveal2, n.pending2[p]) == secret && env.c.H(secret) == r
    requires EnoughRevealed(Revealed1(n, p, r))
    ensures GoesOn(env.c, n, SecretTaken(Opened1(n.d, p, r), p, secret), k, p) && k.orders == n.orders
    ensures k.self == n.self && k.aborted == n.aborted && k.config == n.config
    ensures var m := Handle(env, n, Event.Receive(p, Gossip(Reveal1, Some(p), r, sig)));
            OrderedOver(env, k, k.d, m) && m.self == n.self && m.aborted == n.aborted && m.config == n.config
  {
    hide GoesOn, VerifySignedMsg, ProcessReveal1, ProcessReveal2, TryStrategicReveal1, OrderAndTrigger, EffectiveSize, AcceptedReveal1,
      DocValue, Honest, OrderedAs, ComputeOrderExcluding, ValidIter;
    var doc := DocFor(Reveal1, Some(p), r, sig);
    var n1 := WithReveal1(n, p, r, doc);
    var n2 := n1.(pending2 := n1.pending2 - {p});
    k := ProcessReveal2(env, n2, p, secret, n.pending2[p]);
    Process1Cases(env, n, p, r, doc);
    TakenGoesOn(env, n2, p, secret, n.pending2[p]);
    GoesOnFrom(env.c, n, n2, SecretTaken(n2.d, p, secret), k, p);
    SameSize(n, Revealed1(n, p, r));
    SameSize(n, k);
    GoingOnKeepsReveals(env.c, n, SecretTaken(n1.d, p, secret), k, p);
    FlushedThenOrdered(env, n1, p, k);
    Ordering(env, k);
    NoStrategy(env, OrderAndTrigger(env, k));
  }

  lemma FlushedThenOrdered(env: Env, n: NodeState, p: PeerID, m: NodeState)
    requires p in n.pending2 && m == TryFlushReveal2(env, n, p) && (AllReady(n.d) || |m.d.reveal1s| >= EffectiveSize(m))
    ensures AcceptedReveal1(env, n, p) == OrderAndTrigger(env, m)
  {
    hide TryFlushReveal2, OrderAndTrigger, EffectiveSize;
  }

  /** A secret that came before the order is not followed up by it: the successor stays silent and is itself the
      one awaited, and sending the secret again changes nothing. */
  lemma EarlySecretIsNotFollowed(env: Env, n: NodeState, m: NodeState, p: PeerID, sig: Bytes)
    requires ViewsSound(env, n) && OrderedOver(env, n, n.d, m) && m.aborted == n.aborted && m.self == n.self
    requires p in n.d.reveal2s && n.self !in n.d.reveal2s && n.self != p && n.self !in n.aborted && n.self != NO_PEER
    requires var o := ComputeOrderExcluding(env.c.H, env.it, n.d, n.aborted.Keys).revealOrder;
             |o| >= 2 && o[0] == p && o[1] == n.self
    ensures NoSecretOut(n, m) && m.d == ComputeOrderExcluding(env.c.H, env.it, n.d, n.aborted.Keys)
    ensures n.self !in m.d.reveal2s && (n.config.reveal2Timeouts ==> m.reveal2Target == n.self)
    ensures p in m.d.reveal1s ==> Handle(env, m, Event.Receive(p, Gossip(Reveal2, Some(p), n.d.reveal2s[p], sig))) == m
  {
    hide ComputeOrderExcluding, Said, ViewsSound, Handle;
    var o := ComputeOrderExcluding(env.c.H, env.it, n.d, n.aborted.Keys);
    ComputedSelf(env, n);
    assert !FirstInLine(o, n.self);
    assert o.revealOrder[1] == n.self;
    assert DueFrom(m.d.revealOrder, 0, m.aborted.Keys + m.d.reveal2s.Keys, n.self);
    assert Watches(n, m, NO_PEER) && NextDue(m, NO_PEER, n.self);
    if p in m.d.reveal1s {
      RepeatedOrWrongIsDropped(env, m, p, Reveal2, n.d.reveal2s[p], sig);
    }
  }

  // --- a disputed message is a gossiped one ---

  lemma OrderingUntallied(env: Env, n: NodeState, votes: map<Key, set<PeerID>>, disputes: map<Key, set<PeerID>>)
    ensures OrderAndTrigger(env, Tallied(n, votes, disputes)) == Tallied(OrderAndTrigger(env, n), votes, disputes)
  {
    hide ComputeOrderExcluding, PublishReveal2, NodeSpec.ArmNext, OrderAndTrigger, FirstTurn;
    var o := ComputeOrderExcluding(env.c.H, env.it, n.d, n.aborted.Keys);
    var n1 := n.(d := o, orders := n.orders + [o.revealOrder]);
    OrderingParts(env, n);
    OrderingParts(env, Tallied(n, votes, disputes));
    SpeakUntallied(env, Claim(n1), votes, disputes);
    ArmUntallied(n1, NO_PEER, votes, disputes);
  }

  lemma OpeningUntallied(env: Env, n: NodeState, votes: map<Key, set<PeerID>>, disputes: map<Key, set<PeerID>>)
    ensures RevealOwn1(env, Tallied(n, votes, disputes)) == Tallied(RevealOwn1(env, n), votes, disputes)
  {
    hide OrderAndTrigger, SignAndPublish;
    if n.d.myReveal1.Some? {
      var r, n0 := n.d.myReveal1.value, n.(d := DcrSpec.StartReveal1(n.d));
      PublishUntallied(env, n0, Reveal1, r, votes, disputes);
      OrderingUntallied(env, SignAndPublish(env, n0, Reveal1, r), votes, disputes);
    }
  }

  lemma TryUntallied(env: Env, n: NodeState, votes: map<Key, set<PeerID>>, disputes: map<Key, set<PeerID>>)
    ensures TryStartReveal1(env, Tallied(n, votes, disputes)) == Tallied(TryStartReveal1(env, n), votes, disputes)
  {
    hide RevealOwn1, EffectiveSize;
    SameSize(n, Tallied(n, votes, disputes));
    OpeningUntallied(env, n.(reveal1Triggered := true), votes, disputes);
  }

  lemma FlushUntallied(env: Env, n: NodeState, p: PeerID, votes: map<Key, set<PeerID>>, disputes: map<Key, set<PeerID>>)
    ensures TryFlushReveal2(env, Tallied(n, votes, disputes), p) == Tallied(TryFlushReveal2(env, n, p), votes, disputes)
  {
    hide ProcessReveal2;
    if p in n.pending2 {
      SecretUntallied(env, n.(pending2 := n.pending2 - {p}), p, DocValue(Reveal2, n.pending2[p]), n.pending2[p], votes, disputes);
    }
  }

  lemma AcceptedUntallied(env: Env, n: NodeState, p: PeerID, votes: map<Key, set<PeerID>>, disputes: map<Key, set<PeerID>>)
    ensures AcceptedReveal1(env, Tallied(n, votes, disputes), p) == Tallied(AcceptedReveal1(env, n, p), votes, disputes)
  {
    hide TryFlushReveal2, OrderAndTrigger, EffectiveSize;
    var n1 := TryFlushReveal2(env, n, p);
    FlushUntallied(env, n, p, votes, disputes);
    SameSize(n1, Tallied(n1, votes, disputes));
    OrderingUntallied(env, n1, votes, disputes);
  }

  /** An upheld dispute about a commit2 leaves exactly what gossip of the same message would have left, the
      tallies aside, as long as no reveal1 waits behind it. */
  lemma DisputedCommitIsGossip(env: Env, n: NodeState, from: PeerID, p: PeerID, value: Bytes, sig: Bytes)
    requires p != n.self && p !in n.aborted && p !in n.pending1 && VerifySignedMsg(env.c, Commit2, p, Some(p), value, sig)
    requires 2 * |DisputersFor(n, Key(Commit2, p)) + {from}| > n.sessionSize
    ensures var gossip := Event.Receive(p, Gossip(Commit2, Some(p), value, sig));
            var dispute := Event.Receive(from, TimeoutDispute(Commit2, p, DocFor(Commit2, Some(p), value, sig)));
            Handle(env, n, dispute).(votes := n.votes, disputes := n.disputes) == Handle(env, n, gossip)
  {
    hide VerifySignedMsg, HandleTimeoutDispute, AcceptDisputed, CountDispute, OnCommit2;
    var doc := DocFor(Commit2, Some(p), value, sig);
    assert DocVerifies(env.c, Commit2, p, doc) && DocValue(Commit2, doc) == value;
    UpheldTakesTheMessage(env, n, from, Commit2, p, doc);
    DisputeTallies(n, from, Key(Commit2, p));
    CommitTakenAlike(env, n, p, value, doc, n.votes - {Key(Commit2, p)}, CountDispute(n, from, Key(Commit2, p)).disputes);
  }

  lemma CommitCasesByDispute(env: Env, n: NodeState, p: PeerID, value: Bytes, doc: Doc)
    requires DocVerifies(env.c, Commit2, p, doc) && DocValue(Commit2, doc) == value
    ensures AcceptDisputed(env, n, Commit2, p, doc)
            == if p !in n.d.commit2s then TryStartReveal1(env, WithCommit2(n, p, value, doc))
               else if n.d.commit2s[p] != value then BroadcastEquivocation(n, Commit2, p, doc) else n
  {
    hide TryStartReveal1, DocVerifies, DocValue, BroadcastEquivocation;
  }

  lemma CommitCasesByGossip(env: Env, n: NodeState, p: PeerID, value: Bytes, doc: Doc)
    requires p !in n.pending1
    ensures OnCommit2(env, n, p, value, doc)
            == if p !in n.d.commit2s then TryStartReveal1(env, WithCommit2(n, p, value, doc))
               else if n.d.commit2s[p] != value then BroadcastEquivocation(n, Commit2, p, doc) else n
  {
    hide TryStartReveal1, TryFlushReveal1, BroadcastEquivocation;
    NothingToFlush1(env, WithCommit2(n, p, value, doc), p);
  }

  lemma StoringUntallied(n: NodeState, phase: Phase, p: PeerID, value: Bytes, doc: Doc,
                         votes: map<Key, set<PeerID>>, disputes: map<Key, set<PeerID>>)
    ensures WithCommit2(Tallied(n, votes, disputes), p, value, doc) == Tallied(WithCommit2(n, p, value, doc), votes, disputes)
    ensures WithReveal1(Tallied(n, votes, disputes), p, value, doc) == Tallied(WithReveal1(n, p, value, doc), votes, disputes)
    ensures BroadcastEquivocation(Tallied(n, votes, disputes), phase, p, doc)
            == Tallied(BroadcastEquivocation(n, phase, p, doc), votes, disputes)
    ensures Tallied(n, n.votes, n.disputes) == n
  {
  }

  lemma CommitTakenAlike(env: Env, n: NodeState, p: PeerID, value: Bytes, doc: Doc,
                         votes: map<Key, set<PeerID>>, disputes: map<Key, set<PeerID>>)
    requires p !in n.pending1 && DocVerifies(env.c, Commit2, p, doc) && DocValue(Commit2, doc) == value
    ensures AcceptDisputed(env, Tallied(n, votes, disputes), Commit2, p, doc).(votes := n.votes, disputes := n.disputes)
            == OnCommit2(env, n, p, value, doc)
  {
    hide TryStartReveal1, DocVerifies, DocValue, AcceptDisputed, OnCommit2, WithCommit2, BroadcastEquivocation;
    var n1 := WithCommit2(n, p, value, doc);
    CommitCasesByGossip(env, n, p, value, doc);
    CommitCasesByDispute(env, Tallied(n, votes, disputes), p, value, doc);
    StoringUntallied(n, Commit2, p, value, doc, votes, disputes);
    StoringUntallied(n, Commit2, p, value, doc, n.votes, n.disputes);
    TryUntallied(env, n1, votes, disputes);
    TryUntallied(env, n1, n.votes, n.disputes);
  }

  /** So does an upheld dispute about a reveal1, at a node that does not defer its own reveal1. */
  lemma DisputedRevealIsGossip(env: Env, n: NodeState, from: PeerID, p: PeerID, r: Bytes, sig: Bytes)
    requires p != n.self && p !in n.aborted && p in n.d.commit2s && VerifySignedMsg(env.c, Reveal1, p, Some(p), r, sig)
    requires 2 * |DisputersFor(n, Key(Reveal1, p)) + {from}| > n.sessionSize && !n.config.behavior.strategicReveal1
    ensures var gossip := Event.Receive(p, Gossip(Reveal1, Some(p), r, sig));
            var dispute := Event.Receive(from, TimeoutDispute(Reveal1, p, DocFor(Reveal1, Some(p), r, sig)));
            Handle(env, n, dispute).(votes := n.votes, disputes := n.disputes) == Handle(env, n, gossip)
  {
    hide VerifySignedMsg, HandleTimeoutDispute, AcceptDisputed, CountDispute, ProcessReveal1;
    var doc := DocFor(Reveal1, Some(p), r, sig);
    assert DocVerifies(env.c, Reveal1, p, doc) && DocValue(Reveal1, doc) == r;
    UpheldTakesTheMessage(env, n, from, Reveal1, p, doc);
    DisputeTallies(n, from, Key(Reveal1, p));
    RevealTakenAlike(env, n, p, r, doc, n.votes - {Key(Reveal1, p)}, CountDispute(n, from, Key(Reveal1, p)).disputes);
  }

  lemma RevealCasesByDispute(env: Env, n: NodeState, p: PeerID, r: Bytes, doc: Doc)
    requires DocVerifies(env.c, Reveal1, p, doc) && DocValue(Reveal1, doc) == r && p in n.d.commit2s
    ensures AcceptDisputed(env, n, Reveal1, p, doc)
            == if p in n.d.reveal1s then (if n.d.reveal1s[p] != r then BroadcastEquivocation(n, Reveal1, p, doc) else n)
               else if env.c.H(r) == n.d.commit2s[p] then AcceptedReveal1(env, WithReveal1(n, p, r, doc), p) else n
  {
    hide AcceptedReveal1, DocVerifies, DocValue, BroadcastEquivocation;
  }

  lemma RevealCasesByGossip(env: Env, n: NodeState, p: PeerID, r: Bytes, doc: Doc)
    requires p in n.d.commit2s && !n.config.behavior.strategicReveal1
    ensures ProcessReveal1(env, n, p, r, doc)
            == if p in n.d.reveal1s then (if n.d.reveal1s[p] != r then BroadcastEquivocation(n, Reveal1, p, doc) else n)
               else if env.c.H(r) == n.d.commit2s[p] then AcceptedReveal1(env, WithReveal1(n, p, r, doc), p) else n
  {
    hide AcceptedReveal1, TryStrategicReveal1, BroadcastEquivocation;
    var n1 := WithReveal1(n, p, r, doc);
    AcceptedConfig(env, n1, p);
    NotDeferred(env, AcceptedReveal1(env, n1, p));
  }

  lemma RevealTakenAlike(env: Env, n: NodeState, p: PeerID, r: Bytes, doc: Doc,
                         votes: map<Key, set<PeerID>>, disputes: map<Key, set<PeerID>>)
    requires p in n.d.commit2s && !n.config.behavior.strategicReveal1 && DocVerifies(env.c, Reveal1, p, doc)
    requires DocValue(Reveal1, doc) == r
    ensures AcceptDisputed(env, Tallied(n, votes, disputes), Reveal1, p, doc).(votes := n.votes, disputes := n.disputes)
            == ProcessReveal1(env, n, p, r, doc)
  {
    hide AcceptedReveal1, DocVerifies, DocValue, AcceptDisputed, ProcessReveal1, WithReveal1, BroadcastEquivocation;
    var n1 := WithReveal1(n, p, r, doc);
    RevealCasesByGossip(env, n, p, r, doc);
    RevealCasesByDispute(env, Tallied(n, votes, disputes), p, r, doc);
    StoringUntallied(n, Reveal1, p, r, doc, votes, disputes);
    StoringUntallied(n, Reveal1, p, r, doc, n.votes, n.disputes);
    AcceptedUntallied(env, n1, p, votes, disputes);
    AcceptedUntallied(env, n1, p, n.votes, n.disputes);
  }

  lemma NotDeferred(env: Env, n: NodeState)
    requires !n.config.behavior.strategicReveal1
    ensures TryStrategicReveal1(env, n) == n
  {
    hide RevealOwn1, HypotheticalOrder;
  }

  lemma SpeakingConfig(env: Env, n: NodeState)
    ensures PublishReveal2(env, n).config == n.config
  {
    hide PublishReveal2, NodeSpec.TryStartVdf, LaunchesEarly, ComputeBothInputs, SigningBytes;
    SpeakingIs(env, n);
    LaunchingOnly(n.(d := DcrSpec.StartReveal2(n.d)));
  }

  lemma AcceptedConfig(env: Env, n: NodeState, p: PeerID)
    ensures AcceptedReveal1(env, n, p).config == n.config
  {
    hide PublishReveal2, NodeSpec.TryStartVdf, NodeSpec.ArmNext, ComputeOrderExcluding, FirstTurn, TurnAfter, EffectiveSize, OrderAndTrigger,
      ContinueAfter;
    var n1 := TryFlushReveal2(env, n, p);
    FlushedConfig(env, n, p);
    var o := ComputeOrderExcluding(env.c.H, env.it, n1.d, n1.aborted.Keys);
    var n2 := n1.(d := o, orders := n1.orders + [o.revealOrder]);
    OrderingParts(env, n1);
    SpeakingConfig(env, Claim(n2));
    ArmingOnly(n2, NO_PEER);
  }

  lemma FlushedConfig(env: Env, n: NodeState, p: PeerID)
    ensures TryFlushReveal2(env, n, p).config == n.config
  {
    hide ContinueAfter, TurnTaken, PublishReveal2, NodeSpec.TryStartVdf, NodeSpec.ArmNext, TurnAfter;
    if p in n.pending2 {
      var doc := n.pending2[p];
      var n1 := n.(pending2 := n.pending2 - {p});
      var n2 := StoreSigned(n1.(d := StoreReveal2(n1.d, p, DocValue(Reveal2, doc))), Reveal2, p, doc);
      ContinueParts(env, n2, p);
      SpeakingConfig(env, Claim(n2));
      var n3 := TurnTaken(env, n2, p);
      assert n3.config == n2.config by { TurnConfig(env, n2, p); }
      ArmingOnly(n3, p);
      LaunchingOnly(NodeSpec.ArmNext(n3, p));
    }
  }

  lemma TurnConfig(env: Env, n: NodeState, p: PeerID)
    ensures TurnTaken(env, n, p).config == n.config
  {
    hide PublishReveal2, TurnAfter;
    SpeakingConfig(env, Claim(n));
  }

  // --- the last-revealer-abort profile ---

  /** The order that anybody computes once self has opened its commit ends with self. */
  ghost predicate WouldEndLast(env: Env, later: Iter, n: NodeState) {
    var order := ComputeOrderExcluding(env.c.H, later, DcrSpec.StartReveal1(n.d), n.aborted.Keys).revealOrder;
    order != [] && order[|order| - 1] == n.self
  }

  /** One order is possible once self has opened its commit. */
  ghost predicate OrderForeseen(env: Env, later: Iter, n: NodeState) {
    && ViewsSound(env, n) && ValidIter(later)
    && var m := DcrSpec.StartReveal1(n.d).reveal1s - n.aborted.Keys;
       Unambiguous(m) && DistinctDistances(env.c.H, OmegaOf(env.c.H, m), n.d.commit2s - n.aborted.Keys)
  }

  lemma LastIsLast(order: seq<PeerID>, p: PeerID)
    requires NoDuplicates(order) && order != []
    ensures FirstIndex(order, p) == |order| - 1 <==> order[|order| - 1] == p
  {
    FirstIndexFinds(order, p);
  }

  lemma LastForeseen(env: Env, later: Iter, n: NodeState)
    requires OrderForeseen(env, later, n) && n.self !in n.d.reveal1s && n.d.myReveal1.Some?
    ensures WouldBeLast(HypotheticalOrder(env.c.H, env.it, n.d, n.aborted.Keys), n.self) <==> WouldEndLast(env, later, n)
  {
    hide ComputeOrderExcluding, HypotheticalOrder, DcrSpec.StartReveal1, ValidIter, Unambiguous, DistinctDistances,
      OmegaOf, ValidOrder;
    HypotheticalOrderIsReal(env.c.H, env.it, later, n.d, n.aborted.Keys);
    var d := DcrSpec.StartReveal1(n.d);
    var order := ComputeOrderExcluding(env.c.H, later, d, n.aborted.Keys).revealOrder;
    ComputedOrderIsValid(env.c.H, later, d, n.aborted.Keys);
    ValidOrderMembers(env.c.H, d.commit2s, d.reveal1s, n.aborted.Keys, order);
    if order != [] {
      LastIsLast(order, n.self);
    }
  }

  /** Having deferred its reveal1, the profile opens its commit exactly when all others but itself are in and
      it then ends up last; otherwise it does nothing. */
  lemma StrategistOpensWhenLast(env: Env, later: Iter, n: NodeState)
    requires n.config.behavior.strategicReveal1 && n.self !in n.d.reveal1s && n.d.myReveal1.Some?
    requires OrderForeseen(env, later, n)
    ensures var m := TryStrategicReveal1(env, n);
            if |n.d.reveal1s| + 1 >= EffectiveSize(n) && WouldEndLast(env, later, n) then OpensOwn(env, n, n.d, m) else m == n
  {
    hide RevealOwn1, HypotheticalOrder, EffectiveSize, WouldEndLast, OpensOwn, Unambiguous, DistinctDistances, OmegaOf, WouldBeLast,
      ValidIter, DcrSpec.StartReveal1;
    LastForeseen(env, later, n);
    Opening(env, n);
  }

  /** The decision is taken after each reveal1 of somebody else. */
  lemma StrategistDecides(env: Env, later: Iter, n: NodeState, p: PeerID, r: Bytes, sig: Bytes)
    requires p != n.self && p !in n.aborted && VerifySignedMsg(env.c, Reveal1, p, Some(p), r, sig)
    requires p !in n.d.reveal1s && Get(n.d.commit2s, p) == Some(env.c.H(r)) && p !in n.pending2
    requires n.config.behavior.strategicReveal1 && n.self !in n.d.reveal1s && n.d.myReveal1.Some?
    requires OrderForeseen(env, later, Revealed1(n, p, r)) && !EnoughRevealed(Revealed1(n, p, r))
    ensures var m, k := Handle(env, n, Event.Receive(p, Gossip(Reveal1, Some(p), r, sig))), Revealed1(n, p, r);
            if |k.d.reveal1s| + 1 >= EffectiveSize(k) && WouldEndLast(env, later, k) then OpensOwn(env, n, k.d, m)
            else Unordered(n, k.d, m) && Silent(n, m)
  {
    hide AcceptedReveal1, TryStrategicReveal1, VerifySignedMsg, ProcessReveal1, EffectiveSize, OpensOwn,
      OrderForeseen, WouldEndLast;
    var doc := DocFor(Reveal1, Some(p), r, sig);
    var n1, k := WithReveal1(n, p, r, doc), Revealed1(n, p, r);
    Process1Cases(env, n, p, r, doc);
    SameSize(n, n1);
    SameSize(n, k);
    NotYetEnough(env, n1, p);
    SameForesight(env, later, k, n1);
    StrategistOpensWhenLast(env, later, n1);
    if OpensOwn(env, n1, k.d, TryStrategicReveal1(env, n1)) {
      OpensFrom(env, n, n1, k.d, TryStrategicReveal1(env, n1));
    }
  }

  lemma NotYetEnough(env: Env, n: NodeState, p: PeerID)
    requires p !in n.pending2 && !EnoughRevealed(n)
    ensures AcceptedReveal1(env, n, p) == n
  {
    hide OrderAndTrigger, TryFlushReveal2, EffectiveSize;
    NothingToFlush2(env, n, p);
  }

  lemma SameForesight(env: Env, later: Iter, n: NodeState, m: NodeState)
    requires m.d == n.d && m.aborted == n.aborted && m.self == n.self
    ensures OrderForeseen(env, later, m) <==> OrderForeseen(env, later, n)
    ensures WouldEndLast(env, later, m) <==> WouldEndLast(env, later, n)
  {
    hide ComputeOrderExcluding, DcrSpec.StartReveal1, ValidIter, Unambiguous, DistinctDistances, OmegaOf;
  }

  // --- the lock ---

  /** The views after the own commit: s drawn, r and c registered. */
  function OwnCommitted(c: Crypto, d: DcrState, secret: Bytes): DcrState {
    var r := c.H(secret);
    d.(mySecret := Some(secret), myReveal1 := Some(r), myCommit2 := Some(c.H(r)), commit2s := d.commit2s[d.self := c.H(r)])
  }

  /** The list and its length are fixed, and the connected peers left out are excluded. */
  ghost predicate LockedWith(env: Env, n: NodeState, ps: seq<PeerID>, m: NodeState) {
    && m.sessionActive && m.sessionSize == |ps| && m.participants == ps
    && forall p :: Get(m.aborted, p) == if p in n.aborted then Some(n.aborted[p])
                                        else if p in env.peers && p !in ps then Some(ReadyAck) else None
  }

  /** The node has committed to the secret drawn, and tried the gate with that commit. */
  ghost predicate CommittedAtLock(env: Env, n: NodeState, m: NodeState) {
    var commit := env.c.H(env.c.H(env.secret));
    var k := m.(d := OwnCommitted(env.c, n.d, env.secret), reveal1Triggered := n.reveal1Triggered);
    && Said(env.c, m, Commit2, commit)
    && GateTried(env, n.(out := n.out + [OwnGossip(env.c, Commit2, n.self, commit)]), k, m)
  }

  /** The first well-formed lock fixes the session and makes the node commit, unless it withholds its commit; any
      other lock changes nothing. */
  lemma LockIsTaken(env: Env, n: NodeState, from: PeerID, payload: Option<seq<PeerID>>)
    requires ViewsSound(env, n) && n.self != NO_PEER
    ensures var m := Handle(env, n, Event.Receive(from, SessionLock(payload)));
            if payload.None? || n.sessionActive then m == n
            else
              && LockedWith(env, n, payload.value, m)
              && if n.config.behavior.skipCommit then Unordered(n, n.d, m) && Silent(n, m) else CommittedAtLock(env, n, m)
  {
    hide TryStartReveal1, CommitOwn, ViewsSound, LockedWith, CommittedAtLock, LockSession;
    if payload.Some? && !n.sessionActive {
      Locking(env, n, payload.value);
      CommittingAtLock(env, n, payload.value);
    }
  }

  lemma Locking(env: Env, n: NodeState, ps: seq<PeerID>)
    ensures var m := LockSession(env, n, ps); LockedWith(env, n, ps, m) && Unordered(n, n.d, m) && Silent(n, m)
  {
  }

  lemma CommittingAtLock(env: Env, n: NodeState, ps: seq<PeerID>)
    requires ViewsSound(env, n) && n.self != NO_PEER
    ensures var m := TryStartReveal1(env, CommitOwn(env, LockSession(env, n, ps)));
            LockedWith(env, n, ps, m) && CommittedAtLock(env, n, m)
  {
    hide TryStartReveal1, GateTried, Said, ValidIter, SignAndPublish, EffectiveSize, CommitOwn;
    var n1 := LockSession(env, n, ps);
    Locking(env, n, ps);
    var commit := env.c.H(env.c.H(env.secret));
    var n2 := n1.(d := OwnCommitted(env.c, n.d, env.secret));
    var n3 := SignAndPublish(env, n2, Commit2, commit);
    var published := n.(out := n.out + [OwnGossip(env.c, Commit2, n.self, commit)]);
    CommitOwnIs(env, n1);
    Publishing(env, n2, Commit2, commit);
    PublishedOut(env, n2, commit);
    Trying(env, n3);
    TryingKeeps(env, n3, Commit2, commit);
    var m := TryStartReveal1(env, n3);
    GateFrom(env, published, n3, m.(d := n3.d, reveal1Triggered := n.reveal1Triggered), m);
  }

  lemma CommitOwnIs(env: Env, n: NodeState)
    ensures CommitOwn(env, n)
            == SignAndPublish(env, n.(d := OwnCommitted(env.c, n.d, env.secret)), Commit2, env.c.H(env.c.H(env.secret)))
  {
    hide SignAndPublish;
  }

  lemma PublishedOut(env: Env, n: NodeState, commit: Bytes)
    ensures SignAndPublish(env, n, Commit2, commit).out == n.out + [OwnGossip(env.c, Commit2, n.self, commit)]
  {
    hide SigningBytes;
  }

  lemma TryingKeeps(env: Env, n: NodeState, phase: Phase, value: Bytes)
    requires n.d.self == n.self && phase == Commit2 && Said(env.c, n, phase, value)
    ensures Said(env.c, TryStartReveal1(env, n), phase, value)
  {
    hide OrderAndTrigger, SignAndPublish, EffectiveSize;
    if n.d.myReveal1.Some? {
      var r := n.d.myReveal1.value;
      var n1 := n.(reveal1Triggered := true);
      var n2 := n1.(d := Opened1(n.d, n.self, r));
      OpeningParts(env, n1);
      PublishingKeeps(env, n2, phase, value, r);
      OrderingKeeps(env, SignAndPublish(env, n2, Reveal1, r), phase, value);
    }
  }

  lemma PublishingKeeps(env: Env, n: NodeState, phase: Phase, value: Bytes, r: Bytes)
    requires phase == Commit2 && Said(env.c, n, phase, value)
    ensures Said(env.c, SignAndPublish(env, n, Reveal1, r), phase, value)
  {
    hide SigningBytes;
  }
}
