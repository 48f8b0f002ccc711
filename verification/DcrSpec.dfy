/** The state of one node's Commit-Reveal² round and what each operation makes of it.
    The class in Dcr.dfy is proved equal to these functions; the laws are proved about them. */
module DcrSpec {
  import opened Encoding
  import opened Sorting

  /** The views an order was computed from: a history variable, no code reads it. */
  datatype Basis = Basis(commit2s: map<PeerID, Bytes>, reveal1s: map<PeerID, Bytes>, excluded: set<PeerID>)

  datatype DcrState = DcrState(
    self: PeerID,
    mySecret: Option<Bytes>,
    myReveal1: Option<Bytes>,
    myCommit2: Option<Bytes>,
    commit2s: map<PeerID, Bytes>,
    reveal1s: map<PeerID, Bytes>,
    reveal2s: map<PeerID, Bytes>,
    revealOrder: seq<PeerID>,
    revealDist: map<PeerID, Bytes>,
    reveal2Sent: bool,
    basis: Option<Basis>)

  /** Go iterates over a map in an unspecified order: `it` says which one, for each key set. */
  type Iter = set<PeerID> -> seq<PeerID>

  ghost predicate ValidIter(it: Iter) {
    forall s: set<PeerID> :: multiset(it(s)) == multiset(s)
  }

  function Init(self: PeerID): DcrState {
    DcrState(self, None, None, None, map[], map[], map[], [], map[], false, None)
  }

  // --- commit2, reveal1 ---

  function StartCommit2(H: Hash, s: DcrState, secret: Bytes): DcrState {
    s.(mySecret := Some(secret), myReveal1 := Some(H(secret)), myCommit2 := Some(H(H(secret))),
       commit2s := s.commit2s[s.self := H(H(secret))])
  }

  predicate AcceptsCommit2(s: DcrState, from: PeerID) {
    from !in s.commit2s
  }

  function StoreCommit2(s: DcrState, from: PeerID, hash: Bytes): DcrState {
    s.(commit2s := s.commit2s[from := hash])
  }

  function StartReveal1(s: DcrState): DcrState {
    if s.myReveal1.None? then s else s.(reveal1s := s.reveal1s[s.self := s.myReveal1.value])
  }

  predicate AcceptsReveal1(H: Hash, s: DcrState, from: PeerID, r: Bytes) {
    from !in s.reveal1s && from in s.commit2s && H(r) == s.commit2s[from]
  }

  function StoreReveal1(s: DcrState, from: PeerID, r: Bytes): DcrState {
    s.(reveal1s := s.reveal1s[from := r])
  }

  predicate AllReady(s: DcrState) {
    |s.reveal1s| == |s.commit2s|
  }

  // --- the reveal order ---

  /** The entries a `for id, v := range m` loop appends, skipping the excluded peers. */
  function Collect(ids: seq<PeerID>, m: map<PeerID, Bytes>, excluded: set<PeerID>): seq<Entry> {
    if ids == [] then []
    else
      var front, id := ids[..|ids| - 1], ids[|ids| - 1];
      Collect(front, m, excluded) + (if id in m && id !in excluded then [Entry(id, m[id])] else [])
  }

  /** Ω_v over the sorted r_i. */
  function Omega(H: Hash, sorted: seq<Entry>): Digest {
    H(Concat(Keys(sorted)))
  }

  /** d_i = H(|Ω_v − c_i|). */
  function Distance(H: Hash, omega: Bytes, c: Bytes): Digest {
    H(MinBytes(Abs(BigEndian(omega) - BigEndian(c))))
  }

  function Distances(H: Hash, omega: Bytes, commit2s: map<PeerID, Bytes>): map<PeerID, Bytes> {
    map id | id in commit2s :: Distance(H, omega, commit2s[id])
  }

  function OrderFrom(H: Hash, it: Iter, entries: seq<Entry>, commit2s: map<PeerID, Bytes>,
                     excluded: set<PeerID>): seq<PeerID>
  {
    var dists := Distances(H, Omega(H, SortDesc(entries)), commit2s);
    Ids(SortDesc(Collect(it(commit2s.Keys), dists, excluded)))
  }

  function RevealEntries(it: Iter, s: DcrState, excluded: set<PeerID>): seq<Entry> {
    Collect(it(s.reveal1s.Keys), s.reveal1s, excluded)
  }

  function ComputeOrderExcluding(H: Hash, it: Iter, s: DcrState, excluded: set<PeerID>): DcrState {
    var entries := RevealEntries(it, s, excluded);
    s.(revealOrder := OrderFrom(H, it, entries, s.commit2s, excluded),
       revealDist := s.revealDist + (Distances(H, Omega(H, SortDesc(entries)), s.commit2s) - excluded),
       basis := Some(Basis(s.commit2s, s.reveal1s, excluded)))
  }

  function HypotheticalEntries(it: Iter, s: DcrState, excluded: set<PeerID>): seq<Entry>
    requires s.myReveal1.Some?
  {
    RevealEntries(it, s, excluded) +
      if s.self !in s.reveal1s && s.self !in excluded then [Entry(s.self, s.myReveal1.value)] else []
  }

  function HypotheticalOrder(H: Hash, it: Iter, s: DcrState, excluded: set<PeerID>): Option<seq<PeerID>> {
    if s.myReveal1.None? then None
    else Some(OrderFrom(H, it, HypotheticalEntries(it, s, excluded), s.commit2s, excluded))
  }

  // --- turn taking ---

  function LastIndex(order: seq<PeerID>, p: PeerID): int {
    if order == [] then -1
    else if order[|order| - 1] == p then |order| - 1
    else LastIndex(order[..|order| - 1], p)
  }

  predicate FirstTurn(s: DcrState) {
    !s.reveal2Sent && s.revealOrder != [] && s.revealOrder[0] == s.self
  }

  predicate TurnAfter(s: DcrState, from: PeerID) {
    && !s.reveal2Sent && s.revealOrder != []
    && LastIndex(s.revealOrder, s.self) > 0
    && LastIndex(s.revealOrder, from) == LastIndex(s.revealOrder, s.self) - 1
  }

  function ClaimTurn(s: DcrState): DcrState {
    s.(reveal2Sent := true)
  }

  function StartReveal2(s: DcrState): DcrState {
    if s.mySecret.None? then s else s.(reveal2s := s.reveal2s[s.self := s.mySecret.value])
  }

  predicate AcceptsReveal2(H: Hash, s: DcrState, from: PeerID, secret: Bytes) {
    from !in s.reveal2s && from in s.reveal1s && H(secret) == s.reveal1s[from]
  }

  function StoreReveal2(s: DcrState, from: PeerID, secret: Bytes): DcrState {
    s.(reveal2s := s.reveal2s[from := secret])
  }

  predicate Conflicts(m: map<PeerID, Bytes>, from: PeerID, value: Bytes) {
    from in m && m[from] != value
  }

  // --- the VDF input ---

  /** Concatenation in reveal order; None as soon as one value is missing. */
  function Gather(order: seq<PeerID>, source: map<PeerID, Bytes>): Option<Bytes> {
    if order == [] then Some([])
    else
      var front, id := Gather(order[..|order| - 1], source), order[|order| - 1];
      if front.Some? && id in source then Some(front.value + source[id]) else None
  }

  function FinalInput(s: DcrState): Option<Bytes> {
    if s.revealOrder == [] || |s.reveal2s| != |s.revealOrder| then None
    else Gather(s.revealOrder, s.reveal2s)
  }

  /** Where the input takes each value: r_i for the peers in useReveal1, s_i for the others. */
  function FallbackSource(s: DcrState, useReveal1: set<PeerID>): map<PeerID, Bytes> {
    map id | id in s.reveal1s.Keys + s.reveal2s.Keys
             && (if id in useReveal1 then id in s.reveal1s else id in s.reveal2s)
      :: if id in useReveal1 then s.reveal1s[id] else s.reveal2s[id]
  }

  function FinalInputWithFallback(s: DcrState, useReveal1: set<PeerID>): Option<Bytes> {
    if s.revealOrder == [] then None else Gather(s.revealOrder, FallbackSource(s, useReveal1))
  }

  datatype BothInputs = BothInputs(ifReveal: Bytes, ifAbort: Bytes)

  function ComputeBothInputs(s: DcrState, abortedR2: set<PeerID>): Option<BothInputs> {
    if s.revealOrder == [] || s.mySecret.None? || s.myReveal1.None? then None
    else
      var source := FallbackSource(s, abortedR2);
      var rev := Gather(s.revealOrder, source[s.self := s.mySecret.value]);
      var abo := Gather(s.revealOrder, source[s.self := s.myReveal1.value]);
      if rev.Some? && abo.Some? then Some(BothInputs(rev.value, abo.value)) else None
  }

  function Reveal2CountExcluding(s: DcrState, excluded: set<PeerID>): nat {
    |s.reveal2s.Keys - excluded|
  }
}
