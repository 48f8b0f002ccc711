/** The reveal order does not depend on map iteration nor on how an unstable sort breaks ties. */
module RevealOrder {
  import opened Encoding
  import opened Sorting
  import opened DcrSpec
  import opened FiniteSets

  /** entries is some listing of the r_i sorted by value; dists, of the resulting d_i. */
  ghost predicate OrderWitness(H: Hash, commit2s: map<PeerID, Bytes>, reveal1s: map<PeerID, Bytes>,
                               excluded: set<PeerID>, order: seq<PeerID>, entries: seq<Entry>, dists: seq<Entry>)
  {
    && Lists(entries, reveal1s - excluded) && Descending(entries)
    && Lists(dists, Distances(H, Omega(H, entries), commit2s) - excluded) && Descending(dists)
    && order == Ids(dists)
  }

  /** What any iteration order and any correct sort may produce, ties broken arbitrarily. */
  ghost predicate ValidOrder(H: Hash, commit2s: map<PeerID, Bytes>, reveal1s: map<PeerID, Bytes>,
                             excluded: set<PeerID>, order: seq<PeerID>)
  {
    exists entries, dists :: OrderWitness(H, commit2s, reveal1s, excluded, order, entries, dists)
  }

  // --- collecting from a map lists its entries once ---

  lemma CollectSplit(ids: seq<PeerID>, m: map<PeerID, Bytes>, excluded: set<PeerID>)
    requires ids != []
    ensures var front, last := ids[..|ids| - 1], ids[|ids| - 1];
            && multiset(ids) == multiset(front) + multiset{last}
            && multiset(Collect(ids, m, excluded)) == multiset(Collect(front, m, excluded))
               + (if last in m && last !in excluded then multiset{Entry(last, m[last])} else multiset{})
  {
    assert ids == ids[..|ids| - 1] + [ids[|ids| - 1]];
  }

  lemma {:induction false} CollectCount(ids: seq<PeerID>, m: map<PeerID, Bytes>, excluded: set<PeerID>, e: Entry)
    ensures multiset(Collect(ids, m, excluded))[e] ==
            if e.id in m && e.id !in excluded && e.key == m[e.id] then multiset(ids)[e.id] else 0
  {
    if ids != [] {
      var front, last := ids[..|ids| - 1], ids[|ids| - 1];
      CollectCount(front, m, excluded, e);
      CollectSplit(ids, m, excluded);
      assert multiset(ids)[e.id] == multiset(front)[e.id] + multiset{last}[e.id];
    }
  }

  lemma CollectLists(it: Iter, m: map<PeerID, Bytes>, excluded: set<PeerID>)
    requires ValidIter(it)
    ensures Lists(Collect(it(m.Keys), m, excluded), m - excluded)
  {
    var es := Collect(it(m.Keys), m, excluded);
    forall e ensures multiset(es)[e] == multiset(Items(m - excluded))[e] {
      CollectCount(it(m.Keys), m, excluded, e);
      assert multiset(it(m.Keys)) == multiset(m.Keys);
      ItemsMembers(m - excluded, e);
    }
  }

  lemma OrderFromIsValid(H: Hash, it: Iter, entries: seq<Entry>, commit2s: map<PeerID, Bytes>,
                         reveal1s: map<PeerID, Bytes>, excluded: set<PeerID>)
    requires ValidIter(it) && Lists(entries, reveal1s - excluded)
    ensures ValidOrder(H, commit2s, reveal1s, excluded, OrderFrom(H, it, entries, commit2s, excluded))
    ensures OrderWitness(H, commit2s, reveal1s, excluded, OrderFrom(H, it, entries, commit2s, excluded), SortDesc(entries),
              SortDesc(Collect(it(commit2s.Keys), Distances(H, Omega(H, SortDesc(entries)), commit2s), excluded)))
  {
    var sorted := SortDesc(entries);
    SortKeepsContents(entries);
    SortIsDescending(entries);
    var all := Distances(H, Omega(H, sorted), commit2s);
    assert all.Keys == commit2s.Keys;
    CollectLists(it, all, excluded);
    var ds := Collect(it(commit2s.Keys), all, excluded);
    SortKeepsContents(ds);
    SortIsDescending(ds);
    assert OrderWitness(H, commit2s, reveal1s, excluded, Ids(SortDesc(ds)), sorted, SortDesc(ds));
  }

  /** The computed order is one of the valid ones, whatever the iteration order. */
  lemma ComputedOrderIsValid(H: Hash, it: Iter, s: DcrState, excluded: set<PeerID>)
    requires ValidIter(it)
    ensures ValidOrder(H, s.commit2s, s.reveal1s, excluded, ComputeOrderExcluding(H, it, s, excluded).revealOrder)
  {
    CollectLists(it, s.reveal1s, excluded);
    OrderFromIsValid(H, it, RevealEntries(it, s, excluded), s.commit2s, s.reveal1s, excluded);
  }

  lemma ValidOrderMembers(H: Hash, commit2s: map<PeerID, Bytes>, reveal1s: map<PeerID, Bytes>,
                          excluded: set<PeerID>, order: seq<PeerID>)
    requires ValidOrder(H, commit2s, reveal1s, excluded, order)
    ensures NoDuplicates(order) && SetOf(order) == commit2s.Keys - excluded
  {
    var es: seq<Entry>, ds: seq<Entry> :| OrderWitness(H, commit2s, reveal1s, excluded, order, es, ds);
    var m := Distances(H, Omega(H, es), commit2s) - excluded;
    assert m.Keys == commit2s.Keys - excluded;
    ListedIds(ds, m);
  }

  lemma ListedIds(ds: seq<Entry>, m: map<PeerID, Bytes>)
    requires Lists(ds, m)
    ensures NoDuplicates(Ids(ds)) && SetOf(Ids(ds)) == m.Keys
  {
    var ids := Ids(ds);
    forall i, j | 0 <= i < j < |ids| ensures ids[i] != ids[j] {
      ListsDistinct(ds, m, i, j);
    }
    forall k | k in m ensures k in ids {
      var i := ListsIndex(ds, m, k);
      assert ids[i] == k;
    }
    forall k | k in ids ensures k in m {
      var i: nat :| i < |ids| && ids[i] == k;
      ListsMember(ds, m, i);
    }
  }

  // --- one Ω_v, one order ---

  /** No two of the byte strings are different writings of one number, zero excepted. */
  ghost predicate Unambiguous(m: map<PeerID, Bytes>) {
    forall p, q | p in m && q in m && BigEndian(m[p]) == BigEndian(m[q]) :: m[p] == m[q] || BigEndian(m[p]) == 0
  }

  /** In particular when all have one length, such as the 32 bytes of a digest. */
  lemma OneLengthIsUnambiguous(m: map<PeerID, Bytes>, n: nat)
    requires forall k | k in m :: |m[k]| == n
    ensures Unambiguous(m)
  {
    forall p, q | p in m && q in m && BigEndian(m[p]) == BigEndian(m[q])
      ensures m[p] == m[q] || BigEndian(m[p]) == 0
    {
      BigEndianInjective(m[p], m[q]);
    }
  }

  ghost function AnyListing(s: set<PeerID>): (r: seq<PeerID>)
    ensures multiset(r) == multiset(s)
  {
    if s == {} then []
    else
      var x :| x in s;
      assert multiset(s) == multiset{x} + multiset(s - {x});
      [x] + AnyListing(s - {x})
  }

  /** Ω_v as a function of the set of revealed r_i alone. */
  ghost function OmegaOf(H: Hash, m: map<PeerID, Bytes>): Digest {
    Omega(H, SortDesc(Collect(AnyListing(m.Keys), m, {})))
  }

  ghost predicate DistinctDistances(H: Hash, omega: Bytes, m: map<PeerID, Bytes>) {
    forall p, q | p in m && q in m && p != q ::
      BigEndian(Distance(H, omega, m[p])) != BigEndian(Distance(H, omega, m[q]))
  }

  lemma ListedAreUnambiguous(entries: seq<Entry>, m: map<PeerID, Bytes>)
    requires Lists(entries, m) && Unambiguous(m)
    ensures forall e, f | e in entries && f in entries && Value(e) == Value(f) :: e.key == f.key || Value(e) == 0
  {
    hide Lists;
    forall e, f | e in entries && f in entries && Value(e) == Value(f) ensures e.key == f.key || Value(e) == 0 {
      var i: nat :| i < |entries| && entries[i] == e;
      var j: nat :| j < |entries| && entries[j] == f;
      ListsMember(entries, m, i);
      ListsMember(entries, m, j);
    }
  }

  lemma OmegaIsCanonical(H: Hash, m: map<PeerID, Bytes>, entries: seq<Entry>)
    requires Lists(entries, m) && Descending(entries) && Unambiguous(m)
    ensures Omega(H, entries) == OmegaOf(H, m)
  {
    var it: Iter := s => AnyListing(s);
    CollectLists(it, m, {});
    var other := Collect(AnyListing(m.Keys), m, {});
    assert m - {} == m;
    SortKeepsContents(other);
    SortIsDescending(other);
    ListedAreUnambiguous(entries, m);
    SortedConcatUnique(entries, SortDesc(other));
  }

  lemma DistancesTellApart(H: Hash, omega: Bytes, commit2s: map<PeerID, Bytes>, excluded: set<PeerID>, ds: seq<Entry>)
    requires DistinctDistances(H, omega, commit2s - excluded)
    requires Lists(ds, Distances(H, omega, commit2s) - excluded)
    ensures forall e, f | e in ds && f in ds && Value(e) == Value(f) :: e == f
  {
    var m := Distances(H, omega, commit2s) - excluded;
    forall e, f | e in ds && f in ds && Value(e) == Value(f) ensures e == f {
      var i: nat :| i < |ds| && ds[i] == e;
      var j: nat :| j < |ds| && ds[j] == f;
      ListsMember(ds, m, i);
      ListsMember(ds, m, j);
      assert e.id in commit2s - excluded && f.id in commit2s - excluded;
    }
  }

  /** With unambiguous r_i and distinct d_i every valid order is the same list of peers. */
  lemma OrderIsCanonical(H: Hash, commit2s: map<PeerID, Bytes>, reveal1s: map<PeerID, Bytes>,
                         excluded: set<PeerID>, o1: seq<PeerID>, o2: seq<PeerID>)
    requires Unambiguous(reveal1s - excluded)
    requires DistinctDistances(H, OmegaOf(H, reveal1s - excluded), commit2s - excluded)
    requires ValidOrder(H, commit2s, reveal1s, excluded, o1)
    requires ValidOrder(H, commit2s, reveal1s, excluded, o2)
    ensures o1 == o2
  {
    var es1: seq<Entry>, ds1: seq<Entry> :| OrderWitness(H, commit2s, reveal1s, excluded, o1, es1, ds1);
    var es2: seq<Entry>, ds2: seq<Entry> :| OrderWitness(H, commit2s, reveal1s, excluded, o2, es2, ds2);
    OmegaIsCanonical(H, reveal1s - excluded, es1);
    OmegaIsCanonical(H, reveal1s - excluded, es2);
    DistancesTellApart(H, OmegaOf(H, reveal1s - excluded), commit2s, excluded, ds1);
    DescendingUnique(ds1, ds2);
  }

  /** Distinct distances are also necessary: two tied peers can stand either way round. */
  lemma TiesMakeTheOrderAmbiguous(H: Hash, commit2s: map<PeerID, Bytes>, reveal1s: map<PeerID, Bytes>,
                                  excluded: set<PeerID>, order: seq<PeerID>) returns (other: seq<PeerID>)
    requires Unambiguous(reveal1s - excluded)
    requires !DistinctDistances(H, OmegaOf(H, reveal1s - excluded), commit2s - excluded)
    requires ValidOrder(H, commit2s, reveal1s, excluded, order)
    ensures ValidOrder(H, commit2s, reveal1s, excluded, other) && other != order
  {
    var es: seq<Entry>, ds: seq<Entry> :| OrderWitness(H, commit2s, reveal1s, excluded, order, es, ds);
    OmegaIsCanonical(H, reveal1s - excluded, es);
    var omega := Omega(H, es);
    var m := Distances(H, omega, commit2s) - excluded;
    var p, q :| p in commit2s - excluded && q in commit2s - excluded && p != q
                && BigEndian(Distance(H, omega, commit2s[p])) == BigEndian(Distance(H, omega, commit2s[q]));
    assert p in m && q in m;
    var a := ListsIndex(ds, m, p);
    var b := ListsIndex(ds, m, q);
    var swapped := SwapTie(ds, a, b);
    other := Ids(swapped);
    assert other[a] == q && order[a] == p;
    assert OrderWitness(H, commit2s, reveal1s, excluded, other, es, swapped);
  }

  lemma SwapTie(ds: seq<Entry>, a: nat, b: nat) returns (swapped: seq<Entry>)
    requires Descending(ds) && a < |ds| && b < |ds| && Value(ds[a]) == Value(ds[b])
    ensures Descending(swapped) && multiset(swapped) == multiset(ds)
    ensures |swapped| == |ds| && swapped[a] == ds[b] && swapped == ds[a := ds[b]][b := ds[a]]
  {
    swapped := ds[a := ds[b]][b := ds[a]];
    assert forall k | 0 <= k < |ds| :: Value(swapped[k]) == Value(ds[k]);
  }

  // --- when distances tie ---

  function Gap(omega: Bytes, c: Bytes): nat {
    Abs(BigEndian(omega) - BigEndian(c))
  }

  /** Commits of one number, or mirrored around Omega, always tie. */
  predicate CommitsTie(omega: Bytes, c1: Bytes, c2: Bytes) {
    BigEndian(c1) == BigEndian(c2) || BigEndian(c1) + BigEndian(c2) == 2 * BigEndian(omega)
  }

  lemma EqualGaps(omega: Bytes, c1: Bytes, c2: Bytes)
    ensures Gap(omega, c1) == Gap(omega, c2) <==> CommitsTie(omega, c1, c2)
  {
  }

  /** Up to collisions of H among the gaps, two distances tie exactly when the commits do. */
  lemma DistancesTieWithCommits(H: Hash, omega: Bytes, c1: Bytes, c2: Bytes)
    requires InjectiveOn(H, {MinBytes(Gap(omega, c1)), MinBytes(Gap(omega, c2))})
    ensures BigEndian(Distance(H, omega, c1)) == BigEndian(Distance(H, omega, c2)) <==> CommitsTie(omega, c1, c2)
  {
    EqualGaps(omega, c1, c2);
    if BigEndian(Distance(H, omega, c1)) == BigEndian(Distance(H, omega, c2)) {
      BigEndianInjective(Distance(H, omega, c1), Distance(H, omega, c2));
      MinBytesRoundTrip(Gap(omega, c1));
      MinBytesRoundTrip(Gap(omega, c2));
    }
  }

  ghost function GapBytes(omega: Bytes, m: map<PeerID, Bytes>): set<Bytes> {
    set p | p in m :: MinBytes(Gap(omega, m[p]))
  }

  /** So the condition of a canonical order is one on the commits. */
  lemma DistinctMeansNoCommitsTie(H: Hash, omega: Bytes, m: map<PeerID, Bytes>)
    requires InjectiveOn(H, GapBytes(omega, m))
    ensures DistinctDistances(H, omega, m) <==> forall p, q | p in m && q in m && p != q :: !CommitsTie(omega, m[p], m[q])
  {
    hide Distance, CommitsTie, Gap;
    forall p, q | p in m && q in m
      ensures BigEndian(Distance(H, omega, m[p])) == BigEndian(Distance(H, omega, m[q])) <==> CommitsTie(omega, m[p], m[q])
    {
      assert MinBytes(Gap(omega, m[p])) in GapBytes(omega, m) && MinBytes(Gap(omega, m[q])) in GapBytes(omega, m);
      DistancesTieWithCommits(H, omega, m[p], m[q]);
    }
  }

  // --- a copied commit ---

  function SwapId(id: PeerID, p: PeerID, q: PeerID): PeerID {
    if id == p then q else if id == q then p else id
  }

  function SwapIds(ids: seq<PeerID>, p: PeerID, q: PeerID): (r: seq<PeerID>)
    ensures |r| == |ids| && forall i | 0 <= i < |ids| :: r[i] == SwapId(ids[i], p, q)
  {
    seq(|ids|, i requires 0 <= i < |ids| => SwapId(ids[i], p, q))
  }

  function SwapEntry(e: Entry, p: PeerID, q: PeerID): Entry { Entry(SwapId(e.id, p, q), e.key) }

  function SwapEntries(es: seq<Entry>, p: PeerID, q: PeerID): (r: seq<Entry>)
    ensures |r| == |es| && forall i | 0 <= i < |es| :: r[i] == SwapEntry(es[i], p, q)
  {
    seq(|es|, i requires 0 <= i < |es| => SwapEntry(es[i], p, q))
  }

  lemma {:induction false} SwapCounts(ids: seq<PeerID>, p: PeerID, q: PeerID, id: PeerID)
    ensures multiset(SwapIds(ids, p, q))[id] == multiset(ids)[SwapId(id, p, q)]
  {
    if ids != [] {
      var front, last := ids[..|ids| - 1], ids[|ids| - 1];
      SwapCounts(front, p, q, id);
      assert ids == front + [last];
      assert SwapIds(ids, p, q) == SwapIds(front, p, q) + [SwapId(last, p, q)];
    }
  }

  lemma SwapPermutes(ids: seq<PeerID>, s: set<PeerID>, p: PeerID, q: PeerID)
    requires multiset(ids) == multiset(s) && p in s && q in s
    ensures multiset(SwapIds(ids, p, q)) == multiset(s)
  {
    forall id ensures multiset(SwapIds(ids, p, q))[id] == multiset(s)[id] {
      SwapCounts(ids, p, q, id);
    }
  }

  lemma {:induction false} CollectSwapped(ids: seq<PeerID>, m: map<PeerID, Bytes>, excluded: set<PeerID>, p: PeerID,
                                          q: PeerID)
    requires p in m && q in m && m[p] == m[q] && p !in excluded && q !in excluded
    ensures Collect(SwapIds(ids, p, q), m, excluded) == SwapEntries(Collect(ids, m, excluded), p, q)
  {
    if ids != [] {
      var front, last := ids[..|ids| - 1], ids[|ids| - 1];
      CollectSwapped(front, m, excluded, p, q);
      assert SwapIds(ids, p, q)[..|ids| - 1] == SwapIds(front, p, q);
    }
  }

  lemma {:induction false} InsertSwapped(es: seq<Entry>, e: Entry, p: PeerID, q: PeerID)
    ensures InsertDesc(SwapEntries(es, p, q), SwapEntry(e, p, q)) == SwapEntries(InsertDesc(es, e), p, q)
  {
    if es != [] && Value(es[|es| - 1]) < Value(e) {
      var front := es[..|es| - 1];
      InsertSwapped(front, e, p, q);
      assert SwapEntries(es, p, q)[..|es| - 1] == SwapEntries(front, p, q);
    }
  }

  lemma {:induction false} SortSwapped(es: seq<Entry>, p: PeerID, q: PeerID)
    ensures SortDesc(SwapEntries(es, p, q)) == SwapEntries(SortDesc(es), p, q)
  {
    if es != [] {
      var front, last := es[..|es| - 1], es[|es| - 1];
      SortSwapped(front, p, q);
      InsertSwapped(SortDesc(front), last, p, q);
      assert SwapEntries(es, p, q)[..|es| - 1] == SwapEntries(front, p, q);
    }
  }

  /** The same iteration with p and q in each other's place, where both occur. */
  function SwappedIter(it: Iter, p: PeerID, q: PeerID): Iter {
    (s: set<PeerID>) => if p in s && q in s then SwapIds(it(s), p, q) else it(s)
  }

  lemma SwappedIterIsValid(it: Iter, p: PeerID, q: PeerID)
    requires ValidIter(it)
    ensures ValidIter(SwappedIter(it, p, q))
  {
    forall s: set<PeerID> ensures multiset(SwappedIter(it, p, q)(s)) == multiset(s) {
      if p in s && q in s {
        SwapPermutes(it(s), s, p, q);
      }
    }
  }

  lemma OmegaOfEntries(H: Hash, it: Iter, s: DcrState, excluded: set<PeerID>)
    requires ValidIter(it) && Unambiguous(s.reveal1s - excluded)
    ensures Omega(H, SortDesc(RevealEntries(it, s, excluded))) == OmegaOf(H, s.reveal1s - excluded)
  {
    hide ValidIter, Unambiguous, Lists, Descending;
    var es := RevealEntries(it, s, excluded);
    CollectLists(it, s.reveal1s, excluded);
    SortKeepsContents(es);
    SortIsDescending(es);
    ListsSorted(es, s.reveal1s - excluded);
    OmegaIsCanonical(H, s.reveal1s - excluded, SortDesc(es));
  }

  lemma ListsSorted(es: seq<Entry>, m: map<PeerID, Bytes>)
    requires Lists(es, m) && multiset(SortDesc(es)) == multiset(es)
    ensures Lists(SortDesc(es), m)
  {
  }

  lemma OrderSwapped(H: Hash, it: Iter, s: DcrState, excluded: set<PeerID>, p: PeerID, q: PeerID)
    requires ValidIter(it) && Unambiguous(s.reveal1s - excluded)
    requires p in s.commit2s && q in s.commit2s && s.commit2s[p] == s.commit2s[q] && p !in excluded && q !in excluded
    ensures ComputeOrderExcluding(H, SwappedIter(it, p, q), s, excluded).revealOrder
            == SwapIds(ComputeOrderExcluding(H, it, s, excluded).revealOrder, p, q)
  {
    hide ValidIter, Unambiguous, Omega, OmegaOf, RevealEntries, SortDesc, Collect;
    var later := SwappedIter(it, p, q);
    SwappedIterIsValid(it, p, q);
    OmegaOfEntries(H, it, s, excluded);
    OmegaOfEntries(H, later, s, excluded);
    var dists := Distances(H, OmegaOf(H, s.reveal1s - excluded), s.commit2s);
    var es := Collect(it(s.commit2s.Keys), dists, excluded);
    CollectSwapped(it(s.commit2s.Keys), dists, excluded, p, q);
    SortSwapped(es, p, q);
    assert Ids(SwapEntries(SortDesc(es), p, q)) == SwapIds(Ids(SortDesc(es)), p, q);
  }

  /** HandleCommit2 accepts a commit copied from another peer, and the code then computes two different
      orders of the two, depending on nothing but the iteration over the map. */
  lemma CopiedCommitSplitsTheOrder(H: Hash, it: Iter, s: DcrState, excluded: set<PeerID>, p: PeerID, q: PeerID)
      returns (later: Iter)
    requires ValidIter(it) && Unambiguous(s.reveal1s - excluded)
    requires p in s.commit2s && q !in s.commit2s && p !in excluded && q !in excluded
    ensures AcceptsCommit2(s, q) && ValidIter(later)
    ensures var s' := StoreCommit2(s, q, s.commit2s[p]);
            ComputeOrderExcluding(H, later, s', excluded).revealOrder != ComputeOrderExcluding(H, it, s', excluded).revealOrder
  {
    hide ValidIter, Unambiguous, ComputeOrderExcluding, ValidOrder;
    var s' := StoreCommit2(s, q, s.commit2s[p]);
    later := SwappedIter(it, p, q);
    SwappedIterIsValid(it, p, q);
    OrderSwapped(H, it, s', excluded, p, q);
    ComputedOrderIsValid(H, it, s', excluded);
    var order := ComputeOrderExcluding(H, it, s', excluded).revealOrder;
    ValidOrderMembers(H, s'.commit2s, s'.reveal1s, excluded, order);
    assert p in SetOf(order);
    var i: nat :| i < |order| && order[i] == p;
    assert SwapIds(order, p, q)[i] == q;
  }

  // --- when Omega is ambiguous ---

  lemma {:induction false} LeadingZeros(x: Bytes, y: Bytes)
    requires |x| <= |y| && BigEndian(x) == BigEndian(y)
    ensures y[|y| - |x|..] == x && forall i | 0 <= i < |y| - |x| :: y[i] == 0
  {
    if x == [] {
      forall i | 0 <= i < |y| ensures y[i] == 0 {
        ZeroBytes(y, i);
      }
    } else {
      var x', y' := x[..|x| - 1], y[..|y| - 1];
      LeadingZeros(x', y');
      assert y == y' + [y[|y| - 1]] && x == x' + [x[|x| - 1]];
    }
  }

  lemma {:induction false} FirstNonZero(x: Bytes) returns (i: nat)
    requires BigEndian(x) != 0
    ensures i < |x| && x[i] != 0 && forall k | 0 <= k < i :: x[k] == 0
  {
    var front := x[..|x| - 1];
    if BigEndian(front) == 0 {
      i := |x| - 1;
      forall k | 0 <= k < i ensures x[k] == 0 {
        ZeroBytes(front, k);
      }
    } else {
      i := FirstNonZero(front);
    }
  }

  lemma LongerComesApart(x: Bytes, y: Bytes)
    requires BigEndian(x) == BigEndian(y) != 0 && |x| < |y|
    ensures x + y != y + x
  {
    var i := FirstNonZero(x);
    LeadingZeros(x, y);
    assert (x + y)[i] != 0;
    if i < |y| - |x| {
      assert y[i] == 0;
    } else {
      assert y[i] == y[|y| - |x|..][i - (|y| - |x|)] == x[i - (|y| - |x|)];
    }
    assert (y + x)[i] == 0;
  }

  /** Two writings of one number can be swapped in the hashed string only if they are equal or zero. */
  lemma TiedRevealsCommute(x: Bytes, y: Bytes)
    requires BigEndian(x) == BigEndian(y)
    ensures x + y == y + x <==> x == y || BigEndian(x) == 0
  {
    if BigEndian(x) == 0 {
      forall i | 0 <= i < |x| + |y| ensures (x + y)[i] == (y + x)[i] {
        if i < |x| { ZeroBytes(x, i); } else { ZeroBytes(y, i - |x|); }
        if i < |y| { ZeroBytes(y, i); } else { ZeroBytes(x, i - |y|); }
      }
    } else if |x| < |y| {
      LongerComesApart(x, y);
    } else if |y| < |x| {
      LongerComesApart(y, x);
    } else {
      BigEndianInjective(x, y);
    }
  }

  /** What the sort may leave: every entry of m once, the values descending. */
  ghost predicate SortedListing(x: seq<Entry>, m: map<PeerID, Bytes>) {
    Lists(x, m) && Descending(x)
  }

  lemma {:induction false} AdjacentDiffer(x: seq<Entry>, i: nat, j: nat) returns (k: nat)
    requires i < j < |x| && x[i].key != x[j].key
    ensures i <= k < j && x[k].key != x[k + 1].key
    decreases j - i
  {
    if x[i].key != x[i + 1].key {
      k := i;
    } else {
      k := AdjacentDiffer(x, i + 1, j);
    }
  }

  lemma SwapChangesConcat(x: seq<Entry>, k: nat)
    requires k + 1 < |x| && x[k].key + x[k + 1].key != x[k + 1].key + x[k].key
    ensures Concat(Keys(x[k := x[k + 1]][k + 1 := x[k]])) != Concat(Keys(x))
  {
    var u, v := x[k].key, x[k + 1].key;
    var front, back := Keys(x)[..k], Keys(x)[k + 2..];
    assert Keys(x) == front + [u, v] + back;
    assert Keys(x[k := x[k + 1]][k + 1 := x[k]]) == front + [v, u] + back;
    ConcatAround(front, u, v, back);
    ConcatAround(front, v, u, back);
    SameEnds(Concat(front), u + v, v + u, Concat(back));
  }

  lemma SameEnds(a: Bytes, x: Bytes, y: Bytes, b: Bytes)
    requires x != y && |x| == |y|
    ensures a + x + b != a + y + b
  {
    assert (a + x + b)[|a|..|a| + |x|] == x && (a + y + b)[|a|..|a| + |x|] == y;
  }

  lemma ConcatAround(front: seq<Bytes>, u: Bytes, v: Bytes, back: seq<Bytes>)
    ensures Concat(front + [u, v] + back) == Concat(front) + (u + v) + Concat(back)
  {
    ConcatAppend(front + [u, v], back);
    ConcatAppend(front, [u, v]);
    assert [u, v] == [u] + [v];
    ConcatAppend([u], [v]);
    ConcatOne(u);
    ConcatOne(v);
  }

  lemma EntriesOf(x: seq<Entry>, m: map<PeerID, Bytes>, p: PeerID, q: PeerID) returns (i: nat, j: nat)
    requires Lists(x, m) && p in m && q in m && m[p] != m[q] && BigEndian(m[p]) == BigEndian(m[q])
    ensures i < j < |x| && x[i].key != x[j].key && Value(x[i]) == Value(x[j]) == BigEndian(m[p])
  {
    hide Lists;
    var a := ListsIndex(x, m, p);
    var b := ListsIndex(x, m, q);
    i, j := if a < b then a else b, if a < b then b else a;
  }

  /** Two tied entries with different keys have an adjacent pair of that kind between them. */
  lemma AdjacentTie(x: seq<Entry>, i: nat, j: nat) returns (k: nat)
    requires Descending(x) && i < j < |x| && x[i].key != x[j].key && Value(x[i]) == Value(x[j])
    ensures k + 1 < |x| && x[k].key != x[k + 1].key && Value(x[k]) == Value(x[k + 1]) == Value(x[i])
  {
    k := AdjacentDiffer(x, i, j);
  }

  /** Given two writings of one number other than zero, the sort may also leave a listing that feeds the
      hash differently; HandleReveal1 has no length check that would exclude them. */
  lemma MixedLengthsChangeOmega(m: map<PeerID, Bytes>, x: seq<Entry>) returns (other: seq<Entry>)
    requires SortedListing(x, m) && !Unambiguous(m)
    ensures SortedListing(other, m) && Concat(Keys(other)) != Concat(Keys(x))
  {
    var p, q :| p in m && q in m && BigEndian(m[p]) == BigEndian(m[q]) && m[p] != m[q] && BigEndian(m[p]) != 0;
    hide Descending, Unambiguous;
    var i, j := EntriesOf(x, m, p, q);
    var k := AdjacentTie(x, i, j);
    TiedRevealsCommute(x[k].key, x[k + 1].key);
    SwapChangesConcat(x, k);
    other := SwapTie(x, k, k + 1);
  }

  lemma SomeListing(m: map<PeerID, Bytes>) returns (x: seq<Entry>)
    ensures SortedListing(x, m)
  {
    var it: Iter := s => AnyListing(s);
    CollectLists(it, m, {});
    var es := Collect(AnyListing(m.Keys), m, {});
    assert m - {} == m;
    SortKeepsContents(es);
    SortIsDescending(es);
    x := SortDesc(es);
  }

  /** The bytes hashed into Omega are the same however the sort breaks ties exactly when no two reveals write
      one number other than zero differently. */
  lemma OmegaInputIsCanonical(m: map<PeerID, Bytes>)
    ensures (forall x, y | SortedListing(x, m) && SortedListing(y, m) :: Concat(Keys(x)) == Concat(Keys(y)))
            <==> Unambiguous(m)
  {
    hide Lists, Descending, Unambiguous;
    if Unambiguous(m) {
      forall x, y | SortedListing(x, m) && SortedListing(y, m) ensures Concat(Keys(x)) == Concat(Keys(y)) {
        ListedAreUnambiguous(x, m);
        SameContents(x, y, m);
        SortedConcatUnique(x, y);
      }
    } else {
      var x := SomeListing(m);
      var other := MixedLengthsChangeOmega(m, x);
    }
  }

  lemma SameContents(x: seq<Entry>, y: seq<Entry>, m: map<PeerID, Bytes>)
    requires Lists(x, m) && Lists(y, m)
    ensures multiset(x) == multiset(y)
  {
  }

  /** The order, from the views alone: hash all the revealed r_i, largest first, and let w be the number;
      the peers then stand by falling H(|w − c_p|), and those digests are what is recorded. */
  lemma OrderMeaning(H: Hash, it: Iter, s: DcrState, excluded: set<PeerID>, es: seq<Entry>)
    requires ValidIter(it) && Unambiguous(s.reveal1s - excluded) && SortedListing(es, s.reveal1s - excluded)
    ensures var s', w, c := ComputeOrderExcluding(H, it, s, excluded), BigEndian(H(Concat(Keys(es)))), s.commit2s;
            && (forall p | p in s'.revealOrder ::
                  p in c && Get(s'.revealDist, p) == Some(H(MinBytes(Abs(w - BigEndian(c[p]))))))
            && (forall i, j | 0 <= i < j < |s'.revealOrder| ::
                  BigEndian(H(MinBytes(Abs(w - BigEndian(c[s'.revealOrder[i]])))))
                  >= BigEndian(H(MinBytes(Abs(w - BigEndian(c[s'.revealOrder[j]]))))))
  {
    hide ValidIter, Unambiguous, ValidOrder, SortedListing, ComputeOrderExcluding, MinBytes;
    var s', w, c := ComputeOrderExcluding(H, it, s, excluded), BigEndian(H(Concat(Keys(es)))), s.commit2s;
    ComputedOrderDescends(H, it, s, excluded);
    ComputedOrderIsValid(H, it, s, excluded);
    ValidOrderMembers(H, s.commit2s, s.reveal1s, excluded, s'.revealOrder);
    forall p | p in s'.revealOrder
      ensures p in c && Get(s'.revealDist, p) == Some(H(MinBytes(Abs(w - BigEndian(c[p])))))
    {
      assert p in SetOf(s'.revealOrder);
      RecordedDistance(H, it, s, excluded, es, p);
    }
  }

  /** Nobody else's recorded distance changes. */
  lemma OnlyMembersAreRecorded(H: Hash, it: Iter, s: DcrState, excluded: set<PeerID>, p: PeerID)
    requires ValidIter(it) && p !in ComputeOrderExcluding(H, it, s, excluded).revealOrder
    ensures Get(ComputeOrderExcluding(H, it, s, excluded).revealDist, p) == Get(s.revealDist, p)
  {
    hide ValidIter, ValidOrder, ComputeOrderExcluding;
    ComputedOrderIsValid(H, it, s, excluded);
    ValidOrderMembers(H, s.commit2s, s.reveal1s, excluded, ComputeOrderExcluding(H, it, s, excluded).revealOrder);
    assert p !in SetOf(ComputeOrderExcluding(H, it, s, excluded).revealOrder);
    Unrecorded(H, it, s, excluded, p);
  }

  lemma Unrecorded(H: Hash, it: Iter, s: DcrState, excluded: set<PeerID>, p: PeerID)
    requires p !in s.commit2s.Keys - excluded
    ensures Get(ComputeOrderExcluding(H, it, s, excluded).revealDist, p) == Get(s.revealDist, p)
  {
    hide OrderFrom, Omega, Distance, RevealEntries;
    assert p !in Distances(H, Omega(H, SortDesc(RevealEntries(it, s, excluded))), s.commit2s) - excluded;
  }

  lemma RecordedDistance(H: Hash, it: Iter, s: DcrState, excluded: set<PeerID>, es: seq<Entry>, p: PeerID)
    requires ValidIter(it) && Unambiguous(s.reveal1s - excluded) && SortedListing(es, s.reveal1s - excluded)
    requires p in s.commit2s && p !in excluded
    ensures Get(ComputeOrderExcluding(H, it, s, excluded).revealDist, p)
            == Some(H(MinBytes(Abs(BigEndian(H(Concat(Keys(es)))) - BigEndian(s.commit2s[p])))))
  {
    hide ValidIter, Unambiguous, SortDesc, OrderFrom, MinBytes;
    var entries := RevealEntries(it, s, excluded);
    EntriesAreSorted(it, s, excluded);
    OmegaInputIsCanonical(s.reveal1s - excluded);
    assert Concat(Keys(SortDesc(entries))) == Concat(Keys(es));
    assert p in Distances(H, Omega(H, SortDesc(entries)), s.commit2s) - excluded;
  }

  lemma EntriesAreSorted(it: Iter, s: DcrState, excluded: set<PeerID>)
    requires ValidIter(it)
    ensures SortedListing(SortDesc(RevealEntries(it, s, excluded)), s.reveal1s - excluded)
  {
    hide ValidIter, Lists, Descending;
    var es := RevealEntries(it, s, excluded);
    CollectLists(it, s.reveal1s, excluded);
    SortKeepsContents(es);
    SortIsDescending(es);
    ListsSorted(es, s.reveal1s - excluded);
  }

  /** The printed distances descend along the order just computed. */
  lemma ComputedOrderDescends(H: Hash, it: Iter, s: DcrState, excluded: set<PeerID>)
    requires ValidIter(it)
    ensures var s' := ComputeOrderExcluding(H, it, s, excluded);
            && (forall p | p in s'.revealOrder :: p in s'.revealDist)
            && (forall i, j | 0 <= i < j < |s'.revealOrder| ::
                  BigEndian(s'.revealDist[s'.revealOrder[i]]) >= BigEndian(s'.revealDist[s'.revealOrder[j]]))
  {
    var s' := ComputeOrderExcluding(H, it, s, excluded);
    var entries := RevealEntries(it, s, excluded);
    CollectLists(it, s.reveal1s, excluded);
    OrderFromIsValid(H, it, entries, s.commit2s, s.reveal1s, excluded);
    var all := Distances(H, Omega(H, SortDesc(entries)), s.commit2s);
    var ds := SortDesc(Collect(it(s.commit2s.Keys), all, excluded));
    DescendingIds(ds, all - excluded);
    ListedIds(ds, all - excluded);
    forall p | p in all - excluded ensures p in s'.revealDist && s'.revealDist[p] == (all - excluded)[p] {}
    forall i | 0 <= i < |ds| ensures s'.revealOrder[i] in all - excluded {
      ListsMember(ds, all - excluded, i);
    }
  }

  lemma DescendingIds(ds: seq<Entry>, m: map<PeerID, Bytes>)
    requires Lists(ds, m) && Descending(ds)
    ensures forall i | 0 <= i < |ds| :: Ids(ds)[i] in m
    ensures forall i, j | 0 <= i < j < |ds| :: BigEndian(m[Ids(ds)[i]]) >= BigEndian(m[Ids(ds)[j]])
  {
    forall i | 0 <= i < |ds| ensures Ids(ds)[i] in m && m[Ids(ds)[i]] == ds[i].key {
      ListsMember(ds, m, i);
    }
  }

  // --- allReady is a set equality ---

  /** Counting reveals equals counting commits only when everybody who committed has revealed;
      the order then lists exactly them, and every further reveal1 is refused. */
  lemma AllReadyMeansEverybody(H: Hash, it: Iter, s: DcrState)
    requires ValidIter(it) && s.reveal1s.Keys <= s.commit2s.Keys
    ensures AllReady(s) <==> s.reveal1s.Keys == s.commit2s.Keys
    ensures AllReady(s) ==>
              var s' := ComputeOrderExcluding(H, it, s, {});
              && SetOf(s'.revealOrder) == s.reveal1s.Keys
              && NoDuplicates(s'.revealOrder)
              && (forall from, r :: !AcceptsReveal1(H, s', from, r))
  {
    assert |s.reveal1s| == |s.reveal1s.Keys| && |s.commit2s| == |s.commit2s.Keys|;
    SubsetSize(s.reveal1s.Keys, s.commit2s.Keys);
    ComputedOrderIsValid(H, it, s, {});
    ValidOrderMembers(H, s.commit2s, s.reveal1s, {}, ComputeOrderExcluding(H, it, s, {}).revealOrder);
  }

  // --- the hypothetical order ---

  /** If self registered its reveal1, it registered its own r. */
  ghost predicate SelfRevealOwn(s: DcrState) {
    s.self in s.reveal1s && s.myReveal1.Some? ==> s.reveal1s[s.self] == s.myReveal1.value
  }

  lemma AddItem(m: map<PeerID, Bytes>, e: Entry)
    requires e.id !in m
    ensures multiset(Items(m[e.id := e.key])) == multiset(Items(m)) + multiset{e}
  {
    var after := m[e.id := e.key];
    forall f ensures f in Items(after) <==> f in Items(m) + {e} {
      ItemsMembers(after, f);
      ItemsMembers(m, f);
    }
    assert Items(after) == Items(m) + {e};
    ItemsMembers(m, e);
  }

  lemma ListsAppend(es: seq<Entry>, m: map<PeerID, Bytes>, e: Entry)
    requires Lists(es, m) && e.id !in m
    ensures Lists(es + [e], m[e.id := e.key])
  {
    AddItem(m, e);
  }

  lemma MinusUpdate(m: map<PeerID, Bytes>, excluded: set<PeerID>, k: PeerID, v: Bytes)
    ensures k !in excluded ==> m[k := v] - excluded == (m - excluded)[k := v]
    ensures k in excluded ==> m[k := v] - excluded == m - excluded
    ensures k in m && m[k] == v ==> m[k := v] == m
  {
  }

  lemma AppendOwn(entries: seq<Entry>, m: map<PeerID, Bytes>, excluded: set<PeerID>, self: PeerID, r: Bytes)
    requires Lists(entries, m - excluded) && (self in m ==> m[self] == r)
    ensures Lists(entries + (if self !in m && self !in excluded then [Entry(self, r)] else []), m[self := r] - excluded)
  {
    hide Lists;
    MinusUpdate(m, excluded, self, r);
    if self in m || self in excluded {
      assert entries + [] == entries;
    } else {
      ListsAppend(entries, m - excluded, Entry(self, r));
    }
  }

  lemma HypotheticalEntriesList(it: Iter, s: DcrState, excluded: set<PeerID>)
    requires ValidIter(it) && s.myReveal1.Some? && SelfRevealOwn(s)
    ensures Lists(HypotheticalEntries(it, s, excluded), StartReveal1(s).reveal1s - excluded)
  {
    hide Lists, ValidIter;
    CollectLists(it, s.reveal1s, excluded);
    AppendOwn(RevealEntries(it, s, excluded), s.reveal1s, excluded, s.self, s.myReveal1.value);
  }

  /** What the strategic attacker predicts is what publishing its reveal1 then yields. */
  lemma HypotheticalOrderIsReal(H: Hash, it: Iter, later: Iter, s: DcrState, excluded: set<PeerID>)
    requires ValidIter(it) && ValidIter(later) && SelfRevealOwn(s)
    requires var m := StartReveal1(s).reveal1s - excluded;
             Unambiguous(m) && DistinctDistances(H, OmegaOf(H, m), s.commit2s - excluded)
    ensures s.myReveal1.Some? ==>
              HypotheticalOrder(H, it, s, excluded)
              == Some(ComputeOrderExcluding(H, later, StartReveal1(s), excluded).revealOrder)
  {
    if s.myReveal1.Some? {
      var r := StartReveal1(s).reveal1s;
      HypotheticalEntriesList(it, s, excluded);
      OrderFromIsValid(H, it, HypotheticalEntries(it, s, excluded), s.commit2s, r, excluded);
      ComputedOrderIsValid(H, later, StartReveal1(s), excluded);
      OrderIsCanonical(H, s.commit2s, r, excluded,
        OrderFrom(H, it, HypotheticalEntries(it, s, excluded), s.commit2s, excluded),
        ComputeOrderExcluding(H, later, StartReveal1(s), excluded).revealOrder);
    }
  }
}
