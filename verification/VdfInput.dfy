/** The input of the VDF: when the counting gate lets it start, and that every place in the
    code that computes it computes the same bytes. */
module VdfInput {
  import opened Encoding
  import opened Sorting
  import opened DcrSpec
  import opened FiniteSets

  lemma {:induction false} GatherDefined(order: seq<PeerID>, source: map<PeerID, Bytes>)
    ensures Gather(order, source).Some? <==> forall p | p in order :: p in source
  {
    if order != [] {
      var front, last := order[..|order| - 1], order[|order| - 1];
      GatherDefined(front, source);
      assert order == front + [last];
    }
  }

  lemma {:induction false} GatherAgrees(order: seq<PeerID>, a: map<PeerID, Bytes>, b: map<PeerID, Bytes>)
    requires forall p | p in order :: Get(a, p) == Get(b, p)
    ensures Gather(order, a) == Gather(order, b)
  {
    if order != [] {
      var front, last := order[..|order| - 1], order[|order| - 1];
      assert order == front + [last];
      GatherAgrees(front, a, b);
      assert Get(a, last) == Get(b, last);
    }
  }

  /** Gathering is concatenating, in the order given. */
  lemma {:induction false} GatherConcatenates(order: seq<PeerID>, source: map<PeerID, Bytes>, values: seq<Bytes>)
    requires |values| == |order|
    requires forall i | 0 <= i < |order| :: Get(source, order[i]) == Some(values[i])
    ensures Gather(order, source) == Some(Concat(values))
  {
    if order != [] {
      GatherConcatenates(order[..|order| - 1], source, values[..|order| - 1]);
    }
  }

  /** The VDF input is every member's value, in reveal order: r_p for the peers in the fallback set,
      s_p for everybody else. */
  lemma InputIsTheValuesInOrder(s: DcrState, fallback: set<PeerID>, values: seq<Bytes>)
    requires |values| == |s.revealOrder| > 0
    requires forall i | 0 <= i < |values| ::
               var p := s.revealOrder[i]; Get(if p in fallback then s.reveal1s else s.reveal2s, p) == Some(values[i])
    ensures FinalInputWithFallback(s, fallback) == Some(Concat(values))
  {
    var source := FallbackSource(s, fallback);
    forall i | 0 <= i < |values| ensures Get(source, s.revealOrder[i]) == Some(values[i]) {
      var p := s.revealOrder[i];
      assert Get(if p in fallback then s.reveal1s else s.reveal2s, p) == Some(values[i]);
    }
    GatherConcatenates(s.revealOrder, source, values);
  }

  // --- the counting gate ---

  /** The test in tryStartVDF. */
  predicate VdfGate(s: DcrState, abortedR2: set<PeerID>) {
    Reveal2CountExcluding(s, abortedR2) >= |s.revealOrder| - |abortedR2|
  }

  /** Order members whose secret is still due. */
  function Missing(s: DcrState, abortedR2: set<PeerID>): set<PeerID> {
    SetOf(s.revealOrder) - abortedR2 - s.reveal2s.Keys
  }

  /** Secrets counted by the gate although their owner is not in the order. */
  function Strays(s: DcrState, abortedR2: set<PeerID>): set<PeerID> {
    s.reveal2s.Keys - abortedR2 - SetOf(s.revealOrder)
  }

  /** Aborted peers subtracted by the gate although they are not in the order. */
  function ForeignAborts(s: DcrState, abortedR2: set<PeerID>): set<PeerID> {
    abortedR2 - SetOf(s.revealOrder)
  }

  /** What the count really tests: the secrets still due do not outnumber the strays and foreign aborts. */
  lemma GateMeaning(s: DcrState, abortedR2: set<PeerID>)
    requires NoDuplicates(s.revealOrder)
    ensures VdfGate(s, abortedR2) <==>
            |Missing(s, abortedR2)| <= |Strays(s, abortedR2)| + |ForeignAborts(s, abortedR2)|
  {
    DistinctSize(s.revealOrder);
    CountSplit(SetOf(s.revealOrder), s.reveal2s.Keys, abortedR2);
  }

  lemma CountSplit(order: set<PeerID>, got: set<PeerID>, aborted: set<PeerID>)
    ensures |got - aborted| - (|order| - |aborted|)
            == |got - aborted - order| + |aborted - order| - |order - aborted - got|
  {
    var both := (order - aborted) * got;
    assert order - aborted == (order - aborted - got) + both;
    assert got - aborted == (got - aborted - order) + both;
    assert order == (order - aborted) + (order * aborted);
    assert aborted == (aborted - order) + (order * aborted);
  }

  lemma InputDefined(s: DcrState, abortedR2: set<PeerID>)
    ensures FinalInputWithFallback(s, abortedR2).Some? <==>
            && s.revealOrder != []
            && Missing(s, abortedR2) == {}
            && SetOf(s.revealOrder) * abortedR2 <= s.reveal1s.Keys
  {
    GatherDefined(s.revealOrder, FallbackSource(s, abortedR2));
    if Missing(s, abortedR2) != {} {
      var p :| p in Missing(s, abortedR2);
      assert p in s.revealOrder && p !in FallbackSource(s, abortedR2);
    } else {
      forall p | p in s.revealOrder && p !in abortedR2 ensures p in s.reveal2s {
        assert p !in Missing(s, abortedR2);
      }
    }
  }

  /** Exactly when the gate passes on an input it cannot build: vdfTriggered is then burned. */
  lemma GateBurns(s: DcrState, abortedR2: set<PeerID>)
    requires NoDuplicates(s.revealOrder) && s.revealOrder != []
    ensures VdfGate(s, abortedR2) && FinalInputWithFallback(s, abortedR2).None? <==>
            || 0 < |Missing(s, abortedR2)| <= |Strays(s, abortedR2)| + |ForeignAborts(s, abortedR2)|
            || (Missing(s, abortedR2) == {} && !(SetOf(s.revealOrder) * abortedR2 <= s.reveal1s.Keys))
  {
    GateMeaning(s, abortedR2);
    InputDefined(s, abortedR2);
  }

  /** The set conditions under which counting is the same as having everything. */
  ghost predicate GateConditions(s: DcrState, abortedR2: set<PeerID>) {
    && NoDuplicates(s.revealOrder) && s.revealOrder != []
    && abortedR2 <= SetOf(s.revealOrder)
    && s.reveal2s.Keys <= SetOf(s.revealOrder) + abortedR2
    && abortedR2 <= s.reveal1s.Keys
  }

  lemma GateIsExact(s: DcrState, abortedR2: set<PeerID>)
    requires GateConditions(s, abortedR2)
    ensures VdfGate(s, abortedR2) <==> FinalInputWithFallback(s, abortedR2).Some?
  {
    GateMeaning(s, abortedR2);
    InputDefined(s, abortedR2);
    assert Strays(s, abortedR2) == {} && ForeignAborts(s, abortedR2) == {};
  }

  // --- the near-duplicate computations agree ---

  lemma FinalInputIsFallbackOfNobody(s: DcrState)
    requires FinalInput(s).Some?
    ensures FinalInputWithFallback(s, {}) == FinalInput(s)
  {
    GatherAgrees(s.revealOrder, s.reveal2s, FallbackSource(s, {}));
  }

  /** Under NoDuplicates, FinalInput answers exactly when the secrets held are those of the order. */
  lemma FinalInputDefined(s: DcrState)
    requires NoDuplicates(s.revealOrder)
    ensures FinalInput(s).Some? <==> s.revealOrder != [] && s.reveal2s.Keys == SetOf(s.revealOrder)
  {
    var order := SetOf(s.revealOrder);
    DistinctSize(s.revealOrder);
    assert |s.reveal2s| == |s.reveal2s.Keys|;
    GatherDefined(s.revealOrder, s.reveal2s);
    if FinalInput(s).Some? {
      assert order <= s.reveal2s.Keys;
      SubsetSize(order, s.reveal2s.Keys);
    }
  }

  /** The two inputs the last revealer compares are the two inputs the others would compute:
      ifReveal once it has published s_i, ifAbort once it is aborted and r_i stands in. */
  lemma BothInputsAreReal(s: DcrState, abortedR2: set<PeerID>)
    requires s.mySecret.Some? && s.myReveal1.Some? && Get(s.reveal1s, s.self) == s.myReveal1
    ensures var both := ComputeBothInputs(s, abortedR2);
            && FinalInputWithFallback(StartReveal2(s), abortedR2 - {s.self})
               == (if both.Some? then Some(both.value.ifReveal) else None)
            && FinalInputWithFallback(s, abortedR2 + {s.self})
               == (if both.Some? then Some(both.value.ifAbort) else None)
  {
    var source := FallbackSource(s, abortedR2);
    var rev, abo := source[s.self := s.mySecret.value], source[s.self := s.myReveal1.value];
    GatherAgrees(s.revealOrder, rev, FallbackSource(StartReveal2(s), abortedR2 - {s.self}));
    GatherAgrees(s.revealOrder, abo, FallbackSource(s, abortedR2 + {s.self}));
    GatherDefined(s.revealOrder, rev);
    GatherDefined(s.revealOrder, abo);
  }

  // --- the last revealer ---

  /** Index of the last order member that is not aborted, -1 if none. */
  function LastLive(order: seq<PeerID>, abortedR2: set<PeerID>): int {
    if order == [] then -1
    else if order[|order| - 1] !in abortedR2 then |order| - 1
    else LastLive(order[..|order| - 1], abortedR2)
  }

  predicate IsLastReveal2(s: DcrState, abortedR2: set<PeerID>) {
    var last := LastLive(s.revealOrder, abortedR2);
    0 <= last < |s.revealOrder| && s.revealOrder[last] == s.self
  }

  lemma {:induction false} LastLiveIsLast(order: seq<PeerID>, abortedR2: set<PeerID>)
    ensures var last := LastLive(order, abortedR2);
            && -1 <= last < |order|
            && (last >= 0 ==> order[last] !in abortedR2)
            && (forall k | last < k < |order| :: order[k] in abortedR2)
  {
    if order != [] && order[|order| - 1] in abortedR2 {
      LastLiveIsLast(order[..|order| - 1], abortedR2);
    }
  }

  /** When only its own secret is due, the last revealer's gate opens before it publishes. */
  lemma LastRevealerKnowsTheInput(s: DcrState, abortedR2: set<PeerID>)
    requires GateConditions(s, abortedR2) && s.mySecret.Some?
    requires IsLastReveal2(s, abortedR2)
    requires forall p | p in s.revealOrder && p != s.self :: p in s.reveal2s || p in abortedR2
    ensures s.self in s.revealOrder && s.self !in abortedR2
    ensures VdfGate(StartReveal2(s), abortedR2)
    ensures FinalInputWithFallback(StartReveal2(s), abortedR2).Some?
  {
    var s' := StartReveal2(s);
    LastLiveIsLast(s.revealOrder, abortedR2);
    InputDefined(s', abortedR2);
    GateIsExact(s', abortedR2);
  }
}
