/** Whole rounds of the per-node state machine: the hash chain, write-once values, one turn. */
module DcrRuns {
  import opened Encoding
  import opened Sorting
  import opened DcrSpec
  import opened FiniteSets
  import opened RevealOrder
  import opened VdfInput

  datatype Op =
    | DrawSecret(secret: Bytes)
    | ReceiveCommit2(from: PeerID, value: Bytes)
    | RegisterReveal1
    | ReceiveReveal1(from: PeerID, value: Bytes)
    | ComputeOrder(it: Iter, excluded: set<PeerID>)
    | AskFirst
    | AskAfter(from: PeerID)
    | RegisterReveal2
    | ReceiveReveal2(from: PeerID, value: Bytes)

  function Apply(H: Hash, s: DcrState, op: Op): DcrState {
    match op
    case DrawSecret(secret) => DcrSpec.StartCommit2(H, s, secret)
    case ReceiveCommit2(from, v) => if AcceptsCommit2(s, from) then StoreCommit2(s, from, v) else s
    case RegisterReveal1 => DcrSpec.StartReveal1(s)
    case ReceiveReveal1(from, v) => if AcceptsReveal1(H, s, from, v) then StoreReveal1(s, from, v) else s
    case ComputeOrder(it, excluded) => ComputeOrderExcluding(H, it, s, excluded)
    case AskFirst => if FirstTurn(s) then ClaimTurn(s) else s
    case AskAfter(from) => if TurnAfter(s, from) then ClaimTurn(s) else s
    case RegisterReveal2 => DcrSpec.StartReveal2(s)
    case ReceiveReveal2(from, v) => if AcceptsReveal2(H, s, from, v) then StoreReveal2(s, from, v) else s
  }

  /** One round as the callers run it: a single StartCommit2, no message taken from oneself. */
  ghost predicate Allowed(s: DcrState, op: Op) {
    match op
    case DrawSecret(_) => s.mySecret.None?
    case ReceiveCommit2(from, _) => from != s.self
    case ReceiveReveal1(from, _) => from != s.self
    case ReceiveReveal2(from, _) => from != s.self
    case ComputeOrder(it, _) => ValidIter(it)
    case _ => true
  }

  ghost predicate AllowedRun(H: Hash, s: DcrState, ops: seq<Op>)
    decreases |ops|
  {
    ops == [] || (Allowed(s, ops[0]) && AllowedRun(H, Apply(H, s, ops[0]), ops[1..]))
  }

  function Run(H: Hash, s: DcrState, ops: seq<Op>): DcrState
    decreases |ops|
  {
    if ops == [] then s else Run(H, Apply(H, s, ops[0]), ops[1..])
  }

  // --- the hash chain ---

  ghost predicate Chain(H: Hash, s: DcrState) {
    && (forall p | p in s.reveal1s :: p in s.commit2s && H(s.reveal1s[p]) == s.commit2s[p])
    && (forall p | p in s.reveal2s :: p in s.commit2s && H(H(s.reveal2s[p])) == s.commit2s[p])
    && (forall p | p in s.reveal2s && p != s.self :: p in s.reveal1s && H(s.reveal2s[p]) == s.reveal1s[p])
    && OwnChain(H, s)
  }

  /** What is stored under self is the node's own secret and its hashes. */
  ghost predicate OwnChain(H: Hash, s: DcrState) {
    && s.myReveal1 == (if s.mySecret.Some? then Some(H(s.mySecret.value)) else None)
    && s.myCommit2 == (if s.mySecret.Some? then Some(H(H(s.mySecret.value))) else None)
    && Get(s.commit2s, s.self) == s.myCommit2
    && (s.self in s.reveal1s ==> s.myReveal1 == Some(s.reveal1s[s.self]))
    && (s.self in s.reveal2s ==> s.mySecret == Some(s.reveal2s[s.self]))
  }

  ghost predicate Extends(m: map<PeerID, Bytes>, m': map<PeerID, Bytes>) {
    forall p | p in m :: p in m' && m'[p] == m[p]
  }

  ghost predicate WrittenOnce(s: DcrState, s': DcrState) {
    && Extends(s.commit2s, s'.commit2s) && Extends(s.reveal1s, s'.reveal1s) && Extends(s.reveal2s, s'.reveal2s)
    && s'.self == s.self
    && (s.mySecret.Some? ==> s'.mySecret == s.mySecret)
    && (s.reveal2Sent ==> s'.reveal2Sent)
  }

  /** The current order is a valid order of views that have only grown since. */
  ghost predicate OrderFromBasis(H: Hash, s: DcrState) {
    match s.basis
    case None => s.revealOrder == []
    case Some(b) =>
      && ValidOrder(H, b.commit2s, b.reveal1s, b.excluded, s.revealOrder)
      && Extends(b.commit2s, s.commit2s) && Extends(b.reveal1s, s.reveal1s)
  }

  lemma CommitOwnKeepsChain(H: Hash, s: DcrState, secret: Bytes)
    requires Chain(H, s) && s.mySecret.None?
    ensures Chain(H, DcrSpec.StartCommit2(H, s, secret))
    ensures WrittenOnce(s, DcrSpec.StartCommit2(H, s, secret))
  {
    assert s.self !in s.commit2s;
  }

  lemma CommitKeepsChain(H: Hash, s: DcrState, from: PeerID, v: Bytes)
    requires Chain(H, s) && from != s.self && AcceptsCommit2(s, from)
    ensures Chain(H, StoreCommit2(s, from, v))
    ensures WrittenOnce(s, StoreCommit2(s, from, v))
  {
  }

  lemma RevealOwn1KeepsChain(H: Hash, s: DcrState)
    requires Chain(H, s)
    ensures Chain(H, DcrSpec.StartReveal1(s))
    ensures WrittenOnce(s, DcrSpec.StartReveal1(s))
  {
  }

  lemma Reveal1KeepsChain(H: Hash, s: DcrState, from: PeerID, v: Bytes)
    requires Chain(H, s) && from != s.self && AcceptsReveal1(H, s, from, v)
    ensures Chain(H, StoreReveal1(s, from, v))
    ensures WrittenOnce(s, StoreReveal1(s, from, v))
  {
  }

  lemma RevealOwn2KeepsChain(H: Hash, s: DcrState)
    requires Chain(H, s)
    ensures Chain(H, DcrSpec.StartReveal2(s))
    ensures WrittenOnce(s, DcrSpec.StartReveal2(s))
  {
  }

  lemma Reveal2KeepsChain(H: Hash, s: DcrState, from: PeerID, v: Bytes)
    requires Chain(H, s) && from != s.self && AcceptsReveal2(H, s, from, v)
    ensures Chain(H, StoreReveal2(s, from, v))
    ensures WrittenOnce(s, StoreReveal2(s, from, v))
  {
  }

  lemma OrderKeepsChain(H: Hash, s: DcrState, it: Iter, excluded: set<PeerID>)
    requires Chain(H, s)
    ensures Chain(H, ComputeOrderExcluding(H, it, s, excluded))
    ensures WrittenOnce(s, ComputeOrderExcluding(H, it, s, excluded))
  {
  }

  lemma ClaimKeepsChain(H: Hash, s: DcrState)
    requires Chain(H, s)
    ensures Chain(H, ClaimTurn(s))
    ensures WrittenOnce(s, ClaimTurn(s)) && WrittenOnce(s, s)
  {
  }

  lemma StepKeepsChain(H: Hash, s: DcrState, op: Op)
    requires Chain(H, s) && Allowed(s, op)
    ensures Chain(H, Apply(H, s, op)) && WrittenOnce(s, Apply(H, s, op))
  {
    ClaimKeepsChain(H, s);
    match op {
      case DrawSecret(secret) => CommitOwnKeepsChain(H, s, secret);
      case ReceiveCommit2(from, v) =>
        if AcceptsCommit2(s, from) {
          CommitKeepsChain(H, s, from, v);
        }
      case RegisterReveal1 => RevealOwn1KeepsChain(H, s);
      case ReceiveReveal1(from, v) =>
        if AcceptsReveal1(H, s, from, v) {
          Reveal1KeepsChain(H, s, from, v);
        }
      case ComputeOrder(it, excluded) => OrderKeepsChain(H, s, it, excluded);
      case RegisterReveal2 => RevealOwn2KeepsChain(H, s);
      case ReceiveReveal2(from, v) =>
        if AcceptsReveal2(H, s, from, v) {
          Reveal2KeepsChain(H, s, from, v);
        }
      case _ =>
    }
  }

  lemma StepKeepsOrder(H: Hash, s: DcrState, op: Op)
    requires Chain(H, s) && OrderFromBasis(H, s) && Allowed(s, op)
    ensures OrderFromBasis(H, Apply(H, s, op))
  {
    StepKeepsChain(H, s, op);
    if op.ComputeOrder? {
      ComputedOrderIsValid(H, op.it, s, op.excluded);
    }
  }

  /** Over every run of a round: the chain holds, stored values never change, and the stored
      order is a valid order of earlier views. */
  lemma {:induction false} RunKeepsChain(H: Hash, s: DcrState, ops: seq<Op>)
    requires Chain(H, s) && OrderFromBasis(H, s) && AllowedRun(H, s, ops)
    ensures var s' := Run(H, s, ops); Chain(H, s') && WrittenOnce(s, s') && OrderFromBasis(H, s')
    decreases |ops|
  {
    if ops != [] {
      StepKeepsChain(H, s, ops[0]);
      StepKeepsOrder(H, s, ops[0]);
      RunKeepsChain(H, Apply(H, s, ops[0]), ops[1..]);
    }
  }

  lemma RoundKeepsChain(H: Hash, self: PeerID, ops: seq<Op>)
    requires AllowedRun(H, Init(self), ops)
    ensures Chain(H, Run(H, Init(self), ops))
    ensures Run(H, Init(self), ops).reveal1s.Keys <= Run(H, Init(self), ops).commit2s.Keys
  {
    RunKeepsChain(H, Init(self), ops);
  }

  // --- one turn per round ---

  predicate Grants(s: DcrState, op: Op) {
    match op
    case AskFirst => FirstTurn(s)
    case AskAfter(from) => TurnAfter(s, from)
    case _ => false
  }

  function GrantCount(H: Hash, s: DcrState, ops: seq<Op>): nat
    decreases |ops|
  {
    if ops == [] then 0
    else (if Grants(s, ops[0]) then 1 else 0) + GrantCount(H, Apply(H, s, ops[0]), ops[1..])
  }

  /** IsFirstReveal2 and MyTurnAfter together answer true at most once in a round. */
  lemma {:induction false} OneTurnPerRound(H: Hash, s: DcrState, ops: seq<Op>)
    ensures GrantCount(H, s, ops) <= if s.reveal2Sent then 0 else 1
    ensures GrantCount(H, s, ops) == 1 ==> Run(H, s, ops).reveal2Sent
    decreases |ops|
  {
    if ops != [] {
      OneTurnPerRound(H, Apply(H, s, ops[0]), ops[1..]);
      if Apply(H, s, ops[0]).reveal2Sent {
        SentStays(H, Apply(H, s, ops[0]), ops[1..]);
      }
    }
  }

  lemma {:induction false} SentStays(H: Hash, s: DcrState, ops: seq<Op>)
    requires s.reveal2Sent
    ensures Run(H, s, ops).reveal2Sent
    decreases |ops|
  {
    if ops != [] {
      SentStays(H, Apply(H, s, ops[0]), ops[1..]);
    }
  }

  // --- binding and agreement ---

  /** The values whose collisions matter: everything revealed, and the hashes of the secrets. */
  ghost function InPlay(H: Hash, s: DcrState): set<Bytes> {
    s.reveal1s.Values + s.reveal2s.Values + set v | v in s.reveal2s.Values :: H(v)
  }

  /** One commit opens in one way: two nodes that store the same c_p store the same r_p and s_p. */
  lemma CommitBinds(H: Hash, s: DcrState, t: DcrState, p: PeerID)
    requires Chain(H, s) && Chain(H, t) && InjectiveOn(H, InPlay(H, s) + InPlay(H, t))
    requires p in s.commit2s && p in t.commit2s && s.commit2s[p] == t.commit2s[p]
    ensures p in s.reveal1s && p in t.reveal1s ==> s.reveal1s[p] == t.reveal1s[p]
    ensures p in s.reveal2s && p in t.reveal2s ==> s.reveal2s[p] == t.reveal2s[p]
  {
    if p in s.reveal1s && p in t.reveal1s {
      assert s.reveal1s[p] in s.reveal1s.Values && t.reveal1s[p] in t.reveal1s.Values;
    }
    if p in s.reveal2s && p in t.reveal2s {
      var a, b := s.reveal2s[p], t.reveal2s[p];
      assert a in s.reveal2s.Values && b in t.reveal2s.Values;
      assert H(a) in InPlay(H, s) && H(b) in InPlay(H, t);
    }
  }

  lemma WitnessSeesOnlyKept(H: Hash, c1: map<PeerID, Bytes>, r1: map<PeerID, Bytes>, c2: map<PeerID, Bytes>,
                            r2: map<PeerID, Bytes>, excluded: set<PeerID>, order: seq<PeerID>)
    requires c1 - excluded == c2 - excluded && r1 - excluded == r2 - excluded
    requires ValidOrder(H, c1, r1, excluded, order)
    ensures ValidOrder(H, c2, r2, excluded, order)
  {
    var es: seq<Entry>, ds: seq<Entry> :| OrderWitness(H, c1, r1, excluded, order, es, ds);
    var omega := Omega(H, es);
    SameDistances(H, omega, c1, c2, excluded);
    assert OrderWitness(H, c2, r2, excluded, order, es, ds);
  }

  lemma SameDistances(H: Hash, omega: Bytes, c1: map<PeerID, Bytes>, c2: map<PeerID, Bytes>, excluded: set<PeerID>)
    requires c1 - excluded == c2 - excluded
    ensures Distances(H, omega, c1) - excluded == Distances(H, omega, c2) - excluded
  {
    var d1, d2 := Distances(H, omega, c1) - excluded, Distances(H, omega, c2) - excluded;
    forall p ensures p in d1 <==> p in d2 {
      assert p in c1 - excluded <==> p in c2 - excluded;
    }
    forall p | p in d1 ensures d1[p] == d2[p] {
      assert c1[p] == (c1 - excluded)[p] == (c2 - excluded)[p] == c2[p];
    }
  }

  /** Both orders were computed over the same peers, leaving out the same ones. */
  ghost predicate SameOrderBasis(s: DcrState, t: DcrState) {
    && s.basis.Some? && t.basis.Some?
    && var a, b := s.basis.value, t.basis.value;
       && a.excluded == b.excluded
       && a.commit2s.Keys - a.excluded == b.commit2s.Keys - b.excluded
       && a.reveal1s.Keys - a.excluded == b.reveal1s.Keys - b.excluded
  }

  ghost predicate WellSpread(H: Hash, b: Basis) {
    && Unambiguous(b.reveal1s - b.excluded)
    && DistinctDistances(H, OmegaOf(H, b.reveal1s - b.excluded), b.commit2s - b.excluded)
  }

  lemma BasesEqual(H: Hash, s: DcrState, t: DcrState)
    requires Chain(H, s) && Chain(H, t) && OrderFromBasis(H, s) && OrderFromBasis(H, t)
    requires s.commit2s == t.commit2s && SameOrderBasis(s, t)
    requires InjectiveOn(H, InPlay(H, s) + InPlay(H, t))
    ensures var a, b := s.basis.value, t.basis.value;
            a.commit2s - a.excluded == b.commit2s - a.excluded && a.reveal1s - a.excluded == b.reveal1s - a.excluded
  {
    var a, b := s.basis.value, t.basis.value;
    var x := a.excluded;
    EqualOutside(a.commit2s, b.commit2s, x);
    forall p | p in a.reveal1s && p in b.reveal1s ensures a.reveal1s[p] == b.reveal1s[p] {
      CommitBinds(H, s, t, p);
    }
    EqualOutside(a.reveal1s, b.reveal1s, x);
  }

  lemma EqualOutside(m: map<PeerID, Bytes>, n: map<PeerID, Bytes>, x: set<PeerID>)
    requires m.Keys - x == n.Keys - x
    requires forall p | p in m && p in n :: m[p] == n[p]
    ensures m - x == n - x
  {
    assert (m - x).Keys == m.Keys - x && (n - x).Keys == n.Keys - x;
  }

  /** Same commits and same peers ordered: the same reveal order at both nodes. */
  lemma OrdersAgree(H: Hash, s: DcrState, t: DcrState)
    requires Chain(H, s) && Chain(H, t) && OrderFromBasis(H, s) && OrderFromBasis(H, t)
    requires s.commit2s == t.commit2s && SameOrderBasis(s, t) && WellSpread(H, s.basis.value)
    requires InjectiveOn(H, InPlay(H, s) + InPlay(H, t))
    ensures s.revealOrder == t.revealOrder
  {
    var a, b := s.basis.value, t.basis.value;
    BasesEqual(H, s, t);
    WitnessSeesOnlyKept(H, b.commit2s, b.reveal1s, a.commit2s, a.reveal1s, a.excluded, t.revealOrder);
    OrderIsCanonical(H, a.commit2s, a.reveal1s, a.excluded, s.revealOrder, t.revealOrder);
  }

  /** With one order and one set of commits, the same fallback set gives the same bytes. */
  lemma InputsAgree(H: Hash, s: DcrState, t: DcrState, order: seq<PeerID>, fallback: set<PeerID>)
    requires Chain(H, s) && Chain(H, t) && s.commit2s == t.commit2s
    requires InjectiveOn(H, InPlay(H, s) + InPlay(H, t))
    requires Gather(order, FallbackSource(s, fallback)).Some? && Gather(order, FallbackSource(t, fallback)).Some?
    ensures Gather(order, FallbackSource(s, fallback)) == Gather(order, FallbackSource(t, fallback))
  {
    GatherDefined(order, FallbackSource(s, fallback));
    GatherDefined(order, FallbackSource(t, fallback));
    forall p | p in order ensures Get(FallbackSource(s, fallback), p) == Get(FallbackSource(t, fallback), p) {
      CommitBinds(H, s, t, p);
    }
    GatherAgrees(order, FallbackSource(s, fallback), FallbackSource(t, fallback));
  }

  /** Agreement over every pair of rounds: whatever each node received and in whatever order. */
  lemma RoundsAgree(H: Hash, self1: PeerID, ops1: seq<Op>, self2: PeerID, ops2: seq<Op>, fallback: set<PeerID>)
    requires AllowedRun(H, Init(self1), ops1) && AllowedRun(H, Init(self2), ops2)
    requires var s, t := Run(H, Init(self1), ops1), Run(H, Init(self2), ops2);
             && s.commit2s == t.commit2s && SameOrderBasis(s, t) && WellSpread(H, s.basis.value)
             && InjectiveOn(H, InPlay(H, s) + InPlay(H, t))
    ensures var s, t := Run(H, Init(self1), ops1), Run(H, Init(self2), ops2);
            && s.revealOrder == t.revealOrder
            && (FinalInputWithFallback(s, fallback).Some? && FinalInputWithFallback(t, fallback).Some? ==>
                  FinalInputWithFallback(s, fallback) == FinalInputWithFallback(t, fallback))
  {
    var s, t := Run(H, Init(self1), ops1), Run(H, Init(self2), ops2);
    RunKeepsChain(H, Init(self1), ops1);
    RunKeepsChain(H, Init(self2), ops2);
    OrdersAgree(H, s, t);
    if FinalInputWithFallback(s, fallback).Some? && FinalInputWithFallback(t, fallback).Some? {
      InputsAgree(H, s, t, s.revealOrder, fallback);
    }
  }

  lemma OthersHaveTheRest(t: DcrState, p: PeerID, secret: Bytes, abortedR2: set<PeerID>)
    requires p !in abortedR2
    requires forall q | q in t.revealOrder && q != p :: if q in abortedR2 then q in t.reveal1s else q in t.reveal2s
    ensures Gather(t.revealOrder, FallbackSource(StoreReveal2(t, p, secret), abortedR2)).Some?
  {
    GatherDefined(t.revealOrder, FallbackSource(StoreReveal2(t, p, secret), abortedR2));
  }

  /** The input the last revealer holds before publishing is the one every other node with the same
      commits and order obtains after accepting its secret. */
  lemma LastRevealerSeesEverybodysInput(H: Hash, s: DcrState, t: DcrState, abortedR2: set<PeerID>)
    requires Chain(H, s) && Chain(H, t) && s.commit2s == t.commit2s && s.revealOrder == t.revealOrder
    requires GateConditions(s, abortedR2) && s.mySecret.Some? && IsLastReveal2(s, abortedR2)
    requires forall p | p in s.revealOrder && p != s.self :: p in s.reveal2s || p in abortedR2
    requires s.self != t.self && AcceptsReveal2(H, t, s.self, s.mySecret.value)
    requires forall p | p in t.revealOrder && p != s.self ::
               if p in abortedR2 then p in t.reveal1s else p in t.reveal2s
    requires InjectiveOn(H, InPlay(H, DcrSpec.StartReveal2(s)) + InPlay(H, StoreReveal2(t, s.self, s.mySecret.value)))
    ensures FinalInputWithFallback(DcrSpec.StartReveal2(s), abortedR2).Some?
    ensures FinalInputWithFallback(DcrSpec.StartReveal2(s), abortedR2)
            == FinalInputWithFallback(StoreReveal2(t, s.self, s.mySecret.value), abortedR2)
  {
    LastRevealerKnowsTheInput(s, abortedR2);
    OthersHaveTheRest(t, s.self, s.mySecret.value, abortedR2);
    RevealOwn2KeepsChain(H, s);
    Reveal2KeepsChain(H, t, s.self, s.mySecret.value);
    InputsAgree(H, DcrSpec.StartReveal2(s), StoreReveal2(t, s.self, s.mySecret.value), s.revealOrder, abortedR2);
  }

  // --- a round that meets every hypothesis ---

  function SoloRound(it: Iter, secret: Bytes): seq<Op> {
    [DrawSecret(secret), RegisterReveal1, ComputeOrder(it, {}), AskFirst, RegisterReveal2]
  }

  lemma SoloSteps(H: Hash, p: PeerID, it: Iter, secret: Bytes)
    requires ValidIter(it)
    ensures var s1 := DcrSpec.StartReveal1(DcrSpec.StartCommit2(H, Init(p), secret));
            var s2 := ComputeOrderExcluding(H, it, s1, {});
            && AllowedRun(H, Init(p), SoloRound(it, secret))
            && Run(H, Init(p), SoloRound(it, secret))
               == DcrSpec.StartReveal2(if FirstTurn(s2) then ClaimTurn(s2) else s2)
  {
    hide ComputeOrderExcluding, DcrSpec.StartReveal1, DcrSpec.StartCommit2, DcrSpec.StartReveal2, FirstTurn;
    var ops := SoloRound(it, secret);
    var s0 := DcrSpec.StartCommit2(H, Init(p), secret);
    var s1 := DcrSpec.StartReveal1(s0);
    var s2 := ComputeOrderExcluding(H, it, s1, {});
    var s3 := if FirstTurn(s2) then ClaimTurn(s2) else s2;
    assert ops[1..][1..][1..][1..][1..] == [];
    assert Run(H, s3, ops[1..][1..][1..][1..]) == DcrSpec.StartReveal2(s3);
    assert Run(H, s2, ops[1..][1..][1..]) == DcrSpec.StartReveal2(s3);
    assert Run(H, s1, ops[1..][1..]) == DcrSpec.StartReveal2(s3);
    assert Run(H, s0, ops[1..]) == DcrSpec.StartReveal2(s3);
    assert AllowedRun(H, s3, ops[1..][1..][1..][1..]);
    assert AllowedRun(H, s2, ops[1..][1..][1..]);
    assert AllowedRun(H, s1, ops[1..][1..]);
    assert AllowedRun(H, s0, ops[1..]);
  }

  lemma OnlyMember(order: seq<PeerID>, p: PeerID)
    requires NoDuplicates(order) && SetOf(order) == {p}
    ensures order == [p]
  {
    DistinctSize(order);
    assert order[0] in SetOf(order);
  }

  lemma SoloOrder(H: Hash, p: PeerID, it: Iter, s1: DcrState)
    requires ValidIter(it) && s1.commit2s.Keys == {p}
    ensures ComputeOrderExcluding(H, it, s1, {}).revealOrder == [p]
  {
    hide ValidOrder, ComputeOrderExcluding;
    var order := ComputeOrderExcluding(H, it, s1, {}).revealOrder;
    ComputedOrderIsValid(H, it, s1, {});
    ValidOrderMembers(H, s1.commit2s, s1.reveal1s, {}, order);
    OnlyMember(order, p);
  }

  lemma SoloViews(H: Hash, p: PeerID, it: Iter, secret: Bytes)
    requires ValidIter(it)
    ensures AllowedRun(H, Init(p), SoloRound(it, secret))
    ensures var s := Run(H, Init(p), SoloRound(it, secret)); var c, r := H(H(secret)), H(secret);
            && s.reveal1s == map[p := r] && s.reveal2s == map[p := secret]
            && s.basis == Some(Basis(map[p := c], map[p := r], {}))
            && s.reveal2Sent && s.revealOrder == [p]
  {
    hide ComputeOrderExcluding, Run, AllowedRun;
    var s1 := DcrSpec.StartReveal1(DcrSpec.StartCommit2(H, Init(p), secret));
    SoloSteps(H, p, it, secret);
    SoloOrder(H, p, it, s1);
    OrderTouches(H, it, s1, {});
  }

  lemma OrderTouches(H: Hash, it: Iter, s: DcrState, excluded: set<PeerID>)
    ensures var s' := ComputeOrderExcluding(H, it, s, excluded);
            && s'.reveal1s == s.reveal1s && s'.reveal2s == s.reveal2s && s'.self == s.self
            && s'.mySecret == s.mySecret && s'.reveal2Sent == s.reveal2Sent
            && s'.basis == Some(Basis(s.commit2s, s.reveal1s, excluded))
  {
  }

  lemma SoloInput(s: DcrState, p: PeerID, secret: Bytes)
    requires s.revealOrder == [p] && s.reveal2s == map[p := secret]
    ensures FinalInputWithFallback(s, {}) == Some(secret)
  {
    var source := FallbackSource(s, {});
    assert p in source && source[p] == secret;
    assert [p][..0] == [];
    assert Gather([], source) == Some([]);
    assert [] + secret == secret;
  }

  lemma SoloIsSpread(H: Hash, p: PeerID, c: Bytes, r: Digest)
    ensures WellSpread(H, Basis(map[p := c], map[p := r], {}))
  {
    hide OmegaOf, Distance;
  }

  lemma SoloInPlay(H: Hash, s: DcrState, p: PeerID, secret: Bytes)
    requires s.reveal1s == map[p := H(secret)] && s.reveal2s == map[p := secret]
    requires H(secret) == H(H(secret)) ==> secret == H(secret)
    ensures InjectiveOn(H, InPlay(H, s))
  {
    forall v | v in InPlay(H, s) ensures v == secret || v == H(secret) {
      assert forall q | q in s.reveal1s :: q == p;
      assert forall q | q in s.reveal2s :: q == p;
    }
  }

  /** The hypotheses of the agreement theorem can be met: a round of one participant goes through,
      takes its turn, and its VDF input is its secret. */
  lemma SoloRoundGoesThrough(H: Hash, p: PeerID, it: Iter, secret: Bytes)
    requires ValidIter(it) && (H(secret) == H(H(secret)) ==> secret == H(secret))
    ensures AllowedRun(H, Init(p), SoloRound(it, secret))
    ensures var s := Run(H, Init(p), SoloRound(it, secret));
            && s.basis.Some? && SameOrderBasis(s, s) && WellSpread(H, s.basis.value)
            && InjectiveOn(H, InPlay(H, s))
            && s.reveal2Sent && s.revealOrder == [p] && FinalInputWithFallback(s, {}) == Some(secret)
  {
    hide Run, AllowedRun, WellSpread, InjectiveOn, InPlay, FinalInputWithFallback, Init, SoloRound;
    var s := Run(H, Init(p), SoloRound(it, secret));
    SoloViews(H, p, it, secret);
    SoloInput(s, p, secret);
    SoloIsSpread(H, p, H(H(secret)), H(secret));
    SoloInPlay(H, s, p, secret);
  }
}
