/** protocol/doublecommitreveal.go: the mutable round state of one node. */
module Dcr {
  import opened Encoding
  import opened FiniteSets
  import opened Sorting
  import opened Turns
  import Spec = DcrSpec

  /** DoubleCommitReveal: the Handle methods return (accepted or valid, ..., equivocated). */
  class DoubleCommitReveal {
    const H: Hash
    const self: PeerID

    var mySecret: Option<Bytes>
    var myReveal1: Option<Bytes>
    var myCommit2: Option<Bytes>
    var commit2s: map<PeerID, Bytes>
    var reveal1s: map<PeerID, Bytes>
    var revealOrder: seq<PeerID>
    var revealDist: map<PeerID, Bytes>
    var reveal2s: map<PeerID, Bytes>
    var reveal2Sent: bool
    ghost var basis: Option<Spec.Basis>

    ghost function State(): Spec.DcrState
      reads this
    {
      Spec.DcrState(self, mySecret, myReveal1, myCommit2, commit2s, reveal1s, reveal2s,
                    revealOrder, revealDist, reveal2Sent, basis)
    }

    constructor (H: Hash, self: PeerID)
      ensures this.H == H && this.self == self && State() == Spec.Init(self)
    {
      this.H, this.self := H, self;
      mySecret, myReveal1, myCommit2 := None, None, None;
      commit2s, reveal1s, reveal2s := map[], map[], map[];
      revealOrder, revealDist, reveal2Sent := [], map[], false;
      basis := None;
    }

    /** `secret` stands for the 32 bytes read from crypto/rand. */
    method StartCommit2(secret: Bytes) returns (c: Bytes)
      modifies this
      ensures State() == Spec.StartCommit2(H, old(State()), secret)
      ensures c == H(H(secret)) && commit2s[self] == c
    {
      var r := H(secret);
      c := H(r);
      mySecret, myReveal1, myCommit2 := Some(secret), Some(r), Some(c);
      commit2s := commit2s[self := c];
    }

    method HandleCommit2(from: PeerID, hash: Bytes) returns (accepted: bool, equivocated: bool)
      modifies this
      ensures accepted == Spec.AcceptsCommit2(old(State()), from)
      ensures equivocated == Spec.Conflicts(old(commit2s), from, hash)
      ensures State() == if accepted then Spec.StoreCommit2(old(State()), from, hash) else old(State())
    {
      if from in commit2s {
        return false, commit2s[from] != hash;
      }
      commit2s := commit2s[from := hash];
      return true, false;
    }

    method StartReveal1() returns (r: Option<Bytes>, allReady: bool)
      modifies this
      ensures State() == Spec.StartReveal1(old(State()))
      ensures r == old(myReveal1)
      ensures allReady == (r.Some? && Spec.AllReady(State()) && |commit2s| > 0)
    {
      if myReveal1.None? {
        return None, false;
      }
      reveal1s := reveal1s[self := myReveal1.value];
      allReady := |reveal1s| == |commit2s| && |commit2s| > 0;
      return myReveal1, allReady;
    }

    method HandleReveal1(from: PeerID, hash: Bytes) returns (valid: bool, allReady: bool, equivocated: bool)
      modifies this
      ensures valid == Spec.AcceptsReveal1(H, old(State()), from, hash)
      ensures equivocated == Spec.Conflicts(old(reveal1s), from, hash)
      ensures State() == if valid then Spec.StoreReveal1(old(State()), from, hash) else old(State())
      ensures allReady == (valid && Spec.AllReady(State()))
    {
      if from in reveal1s {
        return false, false, reveal1s[from] != hash;
      }
      if from !in commit2s {
        return false, false, false;
      }
      if H(hash) != commit2s[from] {
        return false, false, false;
      }
      reveal1s := reveal1s[from := hash];
      allReady := |reveal1s| == |commit2s|;
      return true, allReady, false;
    }

    /** Builds a slice from the collected entries and sorts it with sort.Slice. */
    method Sorted(entries: seq<Entry>) returns (sorted: seq<Entry>)
      ensures sorted == SortDesc(entries)
    {
      var a := new Entry[|entries|](i requires 0 <= i < |entries| => entries[i]);
      assert a[..] == entries;
      SortSlice(a);
      sorted := a[..];
    }

    /** `for id, r := range d.reveal1s`, skipping the excluded peers. */
    method CollectReveals(it: Spec.Iter, excluded: set<PeerID>) returns (entries: seq<Entry>)
      ensures entries == Spec.RevealEntries(it, State(), excluded)
    {
      var ids := it(reveal1s.Keys);
      entries := [];
      for i := 0 to |ids|
        invariant entries == Spec.Collect(ids[..i], reveal1s, excluded)
      {
        CollectStep(ids, i, reveal1s, excluded);
        if ids[i] in reveal1s && ids[i] !in excluded {
          entries := entries + [Entry(ids[i], reveal1s[ids[i]])];
        }
      }
      assert ids[..|ids|] == ids;
    }

    method HashKeys(sorted: seq<Entry>) returns (omega: Digest)
      ensures omega == H(Concat(Keys(sorted)))
    {
      var buf: Bytes := [];
      for i := 0 to |sorted|
        invariant buf == Concat(Keys(sorted)[..i])
      {
        assert Keys(sorted)[..i + 1][..i] == Keys(sorted)[..i];
        buf := buf + sorted[i].key;
      }
      assert Keys(sorted)[..|sorted|] == Keys(sorted);
      omega := H(buf);
    }

    /** `for id, c := range d.commit2s`: one distance per peer that is not excluded. */
    method CollectDistances(it: Spec.Iter, omega: Bytes, excluded: set<PeerID>)
      returns (dists: seq<Entry>, written: map<PeerID, Bytes>)
      requires Spec.ValidIter(it)
      ensures dists == Spec.Collect(it(commit2s.Keys), Spec.Distances(H, omega, commit2s), excluded)
      ensures written == Spec.Distances(H, omega, commit2s) - excluded
    {
      var ids := it(commit2s.Keys);
      ghost var all := Spec.Distances(H, omega, commit2s);
      dists, written := [], map[];
      for i := 0 to |ids|
        invariant dists == Spec.Collect(ids[..i], all, excluded)
        invariant WrittenUpTo(written, all, excluded, ids, i)
      {
        CollectStep(ids, i, all, excluded);
        WriteStep(written, all, excluded, ids, i);
        if ids[i] in commit2s && ids[i] !in excluded {
          var di := Spec.Distance(H, omega, commit2s[ids[i]]);
          written := written[ids[i] := di];
          dists := dists + [Entry(ids[i], di)];
        }
      }
      assert ids[..|ids|] == ids;
      AllWritten(written, all, excluded, ids);
    }

    method ComputeRevealOrder(it: Spec.Iter) returns (order: seq<PeerID>)
      requires Spec.ValidIter(it)
      modifies this
      ensures State() == Spec.ComputeOrderExcluding(H, it, old(State()), {})
      ensures order == revealOrder
    {
      var entries := CollectReveals(it, {});
      entries := Sorted(entries);
      var omega := HashKeys(entries);
      var dists, written := CollectDistances(it, omega, {});
      revealDist := revealDist + written;
      dists := Sorted(dists);
      order := Ids(dists);
      basis := Some(Spec.Basis(commit2s, reveal1s, {}));
      revealOrder := order;
    }

    method ComputeRevealOrderExcluding(it: Spec.Iter, excluded: set<PeerID>) returns (order: seq<PeerID>)
      requires Spec.ValidIter(it)
      modifies this
      ensures State() == Spec.ComputeOrderExcluding(H, it, old(State()), excluded)
      ensures order == revealOrder
    {
      var entries := CollectReveals(it, excluded);
      entries := Sorted(entries);
      var omega := HashKeys(entries);
      var dists, written := CollectDistances(it, omega, excluded);
      revealDist := revealDist + written;
      dists := Sorted(dists);
      order := Ids(dists);
      basis := Some(Spec.Basis(commit2s, reveal1s, excluded));
      revealOrder := order;
    }

    method HypotheticalRevealOrderWithSelf(it: Spec.Iter, excluded: set<PeerID>) returns (order: Option<seq<PeerID>>)
      requires Spec.ValidIter(it)
      ensures order == Spec.HypotheticalOrder(H, it, State(), excluded)
    {
      if myReveal1.None? {
        return None;
      }
      var entries := CollectReveals(it, excluded);
      if self !in reveal1s && self !in excluded {
        entries := entries + [Entry(self, myReveal1.value)];
      }
      assert entries == Spec.HypotheticalEntries(it, State(), excluded);
      entries := Sorted(entries);
      var omega := HashKeys(entries);
      var dists, _ := CollectDistances(it, omega, excluded);
      dists := Sorted(dists);
      return Some(Ids(dists));
    }

    method IsFirstReveal2() returns (first: bool)
      modifies this
      ensures first == Spec.FirstTurn(old(State()))
      ensures State() == if first then Spec.ClaimTurn(old(State())) else old(State())
    {
      if reveal2Sent || |revealOrder| == 0 {
        return false;
      }
      if revealOrder[0] != self {
        return false;
      }
      reveal2Sent := true;
      return true;
    }

    method MyTurnAfter(from: PeerID) returns (mine: bool)
      modifies this
      ensures mine == Spec.TurnAfter(old(State()), from)
      ensures NoDuplicates(revealOrder) ==> (mine <==> !old(reveal2Sent) && Follows(revealOrder, from, self))
      ensures State() == if mine then Spec.ClaimTurn(old(State())) else old(State())
    {
      if NoDuplicates(revealOrder) {
        TurnAfterMeaning(State(), from);
      }
      if reveal2Sent || |revealOrder| == 0 {
        return false;
      }
      var myIdx, fromIdx := -1, -1;
      for i := 0 to |revealOrder|
        invariant myIdx == Spec.LastIndex(revealOrder[..i], self)
        invariant fromIdx == Spec.LastIndex(revealOrder[..i], from)
      {
        assert revealOrder[..i + 1][..i] == revealOrder[..i];
        if revealOrder[i] == self {
          myIdx := i;
        }
        if revealOrder[i] == from {
          fromIdx := i;
        }
      }
      assert revealOrder[..|revealOrder|] == revealOrder;
      if myIdx <= 0 || fromIdx != myIdx - 1 {
        return false;
      }
      reveal2Sent := true;
      return true;
    }

    method StartReveal2() returns (s: Option<Bytes>)
      modifies this
      ensures State() == Spec.StartReveal2(old(State()))
      ensures s == old(mySecret)
    {
      if mySecret.None? {
        return None;
      }
      reveal2s := reveal2s[self := mySecret.value];
      return mySecret;
    }

    method FinalInput() returns (input: Option<Bytes>)
      ensures input == Spec.FinalInput(State())
    {
      if |revealOrder| == 0 || |reveal2s| != |revealOrder| {
        return None;
      }
      var buf: Bytes := [];
      for i := 0 to |revealOrder|
        invariant Spec.Gather(revealOrder[..i], reveal2s) == Some(buf)
      {
        assert revealOrder[..i + 1][..i] == revealOrder[..i];
        if revealOrder[i] !in reveal2s {
          GatherMissing(revealOrder, reveal2s, i);
          return None;
        }
        buf := buf + reveal2s[revealOrder[i]];
      }
      assert revealOrder[..|revealOrder|] == revealOrder;
      return Some(buf);
    }

    method HandleReveal2(from: PeerID, secret: Bytes) returns (accepted: bool, equivocated: bool)
      modifies this
      ensures accepted == Spec.AcceptsReveal2(H, old(State()), from, secret)
      ensures equivocated == Spec.Conflicts(old(reveal2s), from, secret)
      ensures State() == if accepted then Spec.StoreReveal2(old(State()), from, secret) else old(State())
    {
      if from in reveal2s {
        return false, reveal2s[from] != secret;
      }
      if from !in reveal1s {
        return false, false;
      }
      if H(secret) != reveal1s[from] {
        return false, false;
      }
      reveal2s := reveal2s[from := secret];
      return true, false;
    }

    /** Counts over the map, one key at a time. */
    method Reveal2CountExcluding(excluded: set<PeerID>) returns (count: nat)
      ensures count == Spec.Reveal2CountExcluding(State(), excluded)
    {
      var rest := reveal2s.Keys;
      count := 0;
      while rest != {}
        invariant rest <= reveal2s.Keys
        invariant count == |(reveal2s.Keys - rest) - excluded|
        decreases |rest|
      {
        var id :| id in rest;
        ghost var seen := (reveal2s.Keys - rest) - excluded;
        rest := rest - {id};
        if id !in excluded {
          count := count + 1;
          assert (reveal2s.Keys - rest) - excluded == seen + {id};
        } else {
          assert (reveal2s.Keys - rest) - excluded == seen;
        }
      }
      assert reveal2s.Keys - rest == reveal2s.Keys;
    }

    method FinalInputWithFallback(useReveal1: set<PeerID>) returns (input: Option<Bytes>)
      ensures input == Spec.FinalInputWithFallback(State(), useReveal1)
    {
      if |revealOrder| == 0 {
        return None;
      }
      ghost var source := Spec.FallbackSource(State(), useReveal1);
      var buf: Bytes := [];
      for i := 0 to |revealOrder|
        invariant Spec.Gather(revealOrder[..i], source) == Some(buf)
      {
        assert revealOrder[..i + 1][..i] == revealOrder[..i];
        var id := revealOrder[i];
        if id in useReveal1 {
          if id !in reveal1s {
            GatherMissing(revealOrder, source, i);
            return None;
          }
          buf := buf + reveal1s[id];
        } else {
          if id !in reveal2s {
            GatherMissing(revealOrder, source, i);
            return None;
          }
          buf := buf + reveal2s[id];
        }
      }
      assert revealOrder[..|revealOrder|] == revealOrder;
      return Some(buf);
    }

    method ComputeBothVDFInputs(abortedR2: set<PeerID>) returns (both: Option<Spec.BothInputs>)
      ensures both == Spec.ComputeBothInputs(State(), abortedR2)
    {
      if |revealOrder| == 0 || mySecret.None? || myReveal1.None? {
        return None;
      }
      ghost var source := Spec.FallbackSource(State(), abortedR2);
      ghost var revSource, aboSource := source[self := mySecret.value], source[self := myReveal1.value];
      var rev: Bytes, abo: Bytes := [], [];
      for i := 0 to |revealOrder|
        invariant Spec.Gather(revealOrder[..i], revSource) == Some(rev)
        invariant Spec.Gather(revealOrder[..i], aboSource) == Some(abo)
      {
        assert revealOrder[..i + 1][..i] == revealOrder[..i];
        var id := revealOrder[i];
        if id == self {
          rev := rev + mySecret.value;
          abo := abo + myReveal1.value;
        } else if id in abortedR2 {
          if id !in reveal1s {
            GatherMissing(revealOrder, revSource, i);
            return None;
          }
          rev := rev + reveal1s[id];
          abo := abo + reveal1s[id];
        } else {
          if id !in reveal2s {
            GatherMissing(revealOrder, revSource, i);
            return None;
          }
          rev := rev + reveal2s[id];
          abo := abo + reveal2s[id];
        }
      }
      assert revealOrder[..|revealOrder|] == revealOrder;
      return Some(Spec.BothInputs(rev, abo));
    }

    method Reset()
      modifies this
      ensures State() == Spec.Init(self)
    {
      mySecret, myReveal1, myCommit2 := None, None, None;
      commit2s, reveal1s, reveal2s := map[], map[], map[];
      revealOrder, revealDist, reveal2Sent := [], map[], false;
      basis := None;
    }
  }

  /** One more iteration of a collecting loop. */
  lemma CollectStep(ids: seq<PeerID>, i: nat, m: map<PeerID, Bytes>, excluded: set<PeerID>)
    requires i < |ids|
    ensures Spec.Collect(ids[..i + 1], m, excluded)
            == Spec.Collect(ids[..i], m, excluded)
               + (if ids[i] in m && ids[i] !in excluded then [Entry(ids[i], m[ids[i]])] else [])
  {
    assert ids[..i + 1][..i] == ids[..i];
  }

  /** The first i peers that are not excluded have their value written, and nothing else has. */
  ghost predicate WrittenUpTo(written: map<PeerID, Bytes>, all: map<PeerID, Bytes>, excluded: set<PeerID>,
                              ids: seq<PeerID>, i: nat)
  {
    && i <= |ids|
    && (forall id | id in written :: id in all && id !in excluded && written[id] == all[id])
    && (forall k | 0 <= k < i :: ids[k] in all && ids[k] !in excluded ==> ids[k] in written)
  }

  lemma WriteStep(written: map<PeerID, Bytes>, all: map<PeerID, Bytes>, excluded: set<PeerID>, ids: seq<PeerID>, i: nat)
    requires i < |ids| && WrittenUpTo(written, all, excluded, ids, i)
    ensures var more := ids[i] in all && ids[i] !in excluded;
            WrittenUpTo(if more then written[ids[i] := all[ids[i]]] else written, all, excluded, ids, i + 1)
  {
  }

  lemma AllWritten(written: map<PeerID, Bytes>, all: map<PeerID, Bytes>, excluded: set<PeerID>, ids: seq<PeerID>)
    requires WrittenUpTo(written, all, excluded, ids, |ids|) && multiset(ids) == multiset(all.Keys)
    ensures written == all - excluded
  {
    forall id | id in all && id !in excluded ensures id in written {
      assert id in multiset(all.Keys);
      assert id in multiset(ids);
    }
  }

  lemma {:induction false} GatherMissing(order: seq<PeerID>, source: map<PeerID, Bytes>, i: nat)
    requires i < |order| && order[i] !in source
    ensures Spec.Gather(order, source) == None
  {
    if i < |order| - 1 {
      GatherMissing(order[..|order| - 1], source, i);
    }
  }
}
