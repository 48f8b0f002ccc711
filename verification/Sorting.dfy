/** The two sort.Slice calls of the reveal order: entries sorted by descending big-endian key. */
module Sorting {
  import opened Encoding

  datatype Entry = Entry(id: PeerID, key: Bytes)

  function Value(e: Entry): nat { BigEndian(e.key) }

  /** One insertion: e moves left past every strictly smaller entry at the end of s. */
  function InsertDesc(s: seq<Entry>, e: Entry): seq<Entry> {
    if s == [] || Value(s[|s| - 1]) >= Value(e) then s + [e]
    else InsertDesc(s[..|s| - 1], e) + [s[|s| - 1]]
  }

  function SortDesc(s: seq<Entry>): seq<Entry> {
    if s == [] then [] else InsertDesc(SortDesc(s[..|s| - 1]), s[|s| - 1])
  }

  lemma {:induction false} InsertKeepsContents(s: seq<Entry>, e: Entry)
    ensures multiset(InsertDesc(s, e)) == multiset(s) + multiset{e}
  {
    if s != [] && Value(s[|s| - 1]) < Value(e) {
      assert s == s[..|s| - 1] + [s[|s| - 1]];
      InsertKeepsContents(s[..|s| - 1], e);
    }
  }

  lemma {:induction false} SortKeepsContents(s: seq<Entry>)
    ensures multiset(SortDesc(s)) == multiset(s)
  {
    if s != [] {
      assert s == s[..|s| - 1] + [s[|s| - 1]];
      SortKeepsContents(s[..|s| - 1]);
      InsertKeepsContents(SortDesc(s[..|s| - 1]), s[|s| - 1]);
    }
  }

  ghost predicate Descending(s: seq<Entry>) {
    forall i, j | 0 <= i < j < |s| :: Value(s[i]) >= Value(s[j])
  }

  lemma {:induction false} InsertKeepsDescending(s: seq<Entry>, e: Entry)
    requires Descending(s)
    ensures Descending(InsertDesc(s, e))
  {
    if s != [] && Value(s[|s| - 1]) < Value(e) {
      var front, last := s[..|s| - 1], s[|s| - 1];
      InsertKeepsDescending(front, e);
      InsertKeepsContents(front, e);
      var r := InsertDesc(front, e);
      forall i | 0 <= i < |r| ensures Value(r[i]) >= Value(last) {
        assert r[i] in multiset(r);
        assert r[i] in multiset(front) + multiset{e};
      }
    }
  }

  lemma {:induction false} SortIsDescending(s: seq<Entry>)
    ensures Descending(SortDesc(s))
  {
    if s != [] {
      SortIsDescending(s[..|s| - 1]);
      InsertKeepsDescending(SortDesc(s[..|s| - 1]), s[|s| - 1]);
    }
  }

  lemma {:induction false} InsertPosition(s: seq<Entry>, e: Entry, j: nat)
    requires j <= |s| && (j == 0 || Value(s[j - 1]) >= Value(e))
    requires forall k | j <= k < |s| :: Value(s[k]) < Value(e)
    ensures InsertDesc(s, e) == s[..j] + [e] + s[j..]
  {
    if j == |s| {
      assert s[..j] == s && s[j..] == [];
    } else {
      var front := s[..|s| - 1];
      InsertPosition(front, e, j);
      assert front[..j] == s[..j] && front[j..] + [s[|s| - 1]] == s[j..];
    }
  }

  lemma Inserted(r: seq<Entry>, s: seq<Entry>, e: Entry, j: nat)
    requires j <= |s| && (j == 0 || Value(s[j - 1]) >= Value(e)) && forall k | j <= k < |s| :: Value(s[k]) < Value(e)
    requires |r| == |s| + 1 && r[j] == e
    requires (forall k | 0 <= k < j :: r[k] == s[k]) && (forall k | j < k <= |s| :: r[k] == s[k - 1])
    ensures r == InsertDesc(s, e)
  {
    hide Value;
    InsertPosition(s, e, j);
    assert r == s[..j] + [e] + s[j..];
  }

  /** The inner loop of the sort: a[i] moves into the already sorted prefix. */
  method InsertInPlace(a: array<Entry>, i: nat)
    requires i < a.Length
    modifies a
    ensures a[..i + 1] == InsertDesc(old(a[..i]), old(a[i]))
    ensures a[i + 1..] == old(a[i + 1..])
  {
    ghost var was := a[..i];
    var e := a[i];
    var j := i;
    while j > 0 && Value(a[j - 1]) < Value(e)
      invariant 0 <= j <= i
      invariant forall k | 0 <= k < j :: a[k] == was[k]
      invariant forall k | j < k <= i :: a[k] == was[k - 1]
      invariant forall k | i < k < a.Length :: a[k] == old(a[k])
      invariant forall k | j <= k < i :: Value(was[k]) < Value(e)
    {
      a[j] := a[j - 1];
      j := j - 1;
    }
    a[j] := e;
    Inserted(a[..i + 1], was, e, j);
  }

  /** sort.Slice(entries, ...): sorts the slice in place. */
  method SortSlice(a: array<Entry>)
    modifies a
    ensures a[..] == SortDesc(old(a[..]))
  {
    var i := 0;
    ghost var was := a[..];
    while i < a.Length
      invariant 0 <= i <= a.Length
      invariant a[..i] == SortDesc(was[..i])
      invariant a[i..] == was[i..]
    {
      assert was[..i + 1][..i] == was[..i] && a[i] == a[i..][0] == was[i];
      assert was[i + 1..] == was[i..][1..] && a[i + 1..] == a[i..][1..];
      InsertInPlace(a, i);
      i := i + 1;
    }
    assert a[..] == a[..i] && was == was[..i];
  }

  function Keys(s: seq<Entry>): (r: seq<Bytes>)
    ensures |r| == |s| && forall i | 0 <= i < |s| :: r[i] == s[i].key
  {
    seq(|s|, i requires 0 <= i < |s| => s[i].key)
  }

  function Ids(s: seq<Entry>): (r: seq<PeerID>)
    ensures |r| == |s| && forall i | 0 <= i < |s| :: r[i] == s[i].id
  {
    seq(|s|, i requires 0 <= i < |s| => s[i].id)
  }

  /** What h.Write(e.r) over the sorted entries feeds to the hash. */
  function Concat(s: seq<Bytes>): Bytes {
    if s == [] then [] else Concat(s[..|s| - 1]) + s[|s| - 1]
  }

  ghost function Items(m: map<PeerID, Bytes>): set<Entry> {
    set k | k in m :: Entry(k, m[k])
  }

  /** s holds every entry of m exactly once, in some order. */
  ghost predicate Lists(s: seq<Entry>, m: map<PeerID, Bytes>) {
    multiset(s) == multiset(Items(m))
  }

  lemma RepeatCounts<T>(s: seq<T>, i: nat, j: nat)
    requires i < j < |s| && s[i] == s[j]
    ensures multiset(s)[s[i]] >= 2
  {
    assert s == s[..j] + s[j..];
    assert s[i] == s[..j][i] && s[i] == s[j..][0];
    assert s[i] in multiset(s[..j]) && s[i] in multiset(s[j..]);
  }

  lemma IndexOf(y: seq<Entry>, e: Entry) returns (i: nat)
    requires e in multiset(y)
    ensures i < |y| && y[i] == e
  {
    assert e in y;
    i :| 0 <= i < |y| && y[i] == e;
  }

  lemma ItemsMembers(m: map<PeerID, Bytes>, e: Entry)
    ensures e in Items(m) <==> e.id in m && e.key == m[e.id]
  {
    if e.id in m && e.key == m[e.id] {
      assert e == Entry(e.id, m[e.id]);
    }
  }

  lemma ListsMember(s: seq<Entry>, m: map<PeerID, Bytes>, i: nat)
    requires Lists(s, m) && i < |s|
    ensures s[i].id in m && s[i].key == m[s[i].id]
  {
    assert s[i] in multiset(s);
    assert s[i] in Items(m);
  }

  lemma ListsIndex(s: seq<Entry>, m: map<PeerID, Bytes>, k: PeerID) returns (i: nat)
    requires Lists(s, m) && k in m
    ensures i < |s| && s[i] == Entry(k, m[k])
  {
    assert Entry(k, m[k]) in Items(m);
    i := IndexOf(s, Entry(k, m[k]));
  }

  lemma ListsDistinct(s: seq<Entry>, m: map<PeerID, Bytes>, i: nat, j: nat)
    requires Lists(s, m) && i < j < |s|
    ensures s[i].id != s[j].id
  {
    ListsMember(s, m, i);
    ListsMember(s, m, j);
    assert multiset(Items(m))[s[i]] <= 1;
    if s[i] == s[j] {
      RepeatCounts(s, i, j);
    }
  }

  lemma HeadsAgree(x: seq<Entry>, y: seq<Entry>)
    requires multiset(x) == multiset(y) && x != [] && y != []
    requires Descending(x) && Descending(y)
    ensures Value(x[0]) == Value(y[0])
  {
    assert x[0] in multiset(y) && y[0] in multiset(x);
    var i :| 0 <= i < |y| && y[i] == x[0];
    var j :| 0 <= j < |x| && x[j] == y[0];
  }

  lemma SameLength<T>(x: seq<T>, y: seq<T>)
    requires multiset(x) == multiset(y)
    ensures |x| == |y|
  {
    assert |x| == |multiset(x)| && |y| == |multiset(y)|;
  }

  lemma DropHead(x: seq<Entry>)
    requires x != []
    ensures multiset(x[1..]) == multiset(x) - multiset{x[0]}
  {
    assert x == [x[0]] + x[1..];
  }

  lemma DropHeads(x: seq<Entry>, y: seq<Entry>)
    requires x != [] && y != [] && x[0] == y[0] && multiset(x) == multiset(y)
    ensures multiset(x[1..]) == multiset(y[1..])
  {
    DropHead(x);
    DropHead(y);
  }

  /** Descending sequences with the same contents are equal when equal values mean equal entries. */
  lemma {:induction false} DescendingUnique(x: seq<Entry>, y: seq<Entry>)
    requires multiset(x) == multiset(y) && Descending(x) && Descending(y)
    requires forall e, f | e in x && f in x && Value(e) == Value(f) :: e == f
    ensures x == y
  {
    SameLength(x, y);
    if x != [] {
      HeadsAgree(x, y);
      assert y[0] in multiset(x);
      assert x[0] == y[0];
      DropHeads(x, y);
      DescendingUnique(x[1..], y[1..]);
      assert x == [x[0]] + x[1..] && y == [y[0]] + y[1..];
    }
  }

  ghost function Erase(s: seq<Entry>): (r: seq<Entry>)
    ensures |r| == |s| && forall i | 0 <= i < |s| :: r[i] == Entry(NO_PEER, s[i].key)
  {
    seq(|s|, i requires 0 <= i < |s| => Entry(NO_PEER, s[i].key))
  }

  ghost function Without(x: seq<Entry>, i: nat): (r: seq<Entry>)
    requires i < |x|
    ensures |r| == |x| - 1
  {
    x[..i] + x[i + 1..]
  }

  lemma EraseSplit(x: seq<Entry>, i: nat)
    requires i < |x|
    ensures multiset(Erase(x)) == multiset(Erase(Without(x, i))) + multiset{Entry(NO_PEER, x[i].key)}
  {
    assert Erase(x) == Erase(x)[..i] + [Entry(NO_PEER, x[i].key)] + Erase(x)[i + 1..];
    assert Erase(Without(x, i)) == Erase(x)[..i] + Erase(x)[i + 1..];
  }

  lemma RemoveAt(x: seq<Entry>, i: nat)
    requires i < |x|
    ensures multiset(Without(x, i)) == multiset(x) - multiset{x[i]}
  {
    assert x == x[..i] + [x[i]] + x[i + 1..];
  }

  lemma {:induction false} EraseContents(x: seq<Entry>, y: seq<Entry>)
    requires multiset(x) == multiset(y)
    ensures multiset(Erase(x)) == multiset(Erase(y))
    decreases |x|
  {
    SameLength(x, y);
    if x == [] {
      assert Erase(x) == Erase(y);
    } else {
      assert x[0] in multiset(x);
      var i := IndexOf(y, x[0]);
      RemoveAt(x, 0);
      RemoveAt(y, i);
      EraseSplit(x, 0);
      EraseSplit(y, i);
      EraseContents(Without(x, 0), Without(y, i));
    }
  }

  /** When keys of one value are the same bytes, as keys of one length are, the sorted keys do not
      depend on the starting order nor on how the sort breaks ties. */
  lemma SortedKeysUnique(x: seq<Entry>, y: seq<Entry>)
    requires multiset(x) == multiset(y) && Descending(x) && Descending(y)
    requires forall e, f | e in x && f in x && Value(e) == Value(f) :: e.key == f.key
    ensures Keys(x) == Keys(y)
  {
    EraseContents(x, y);
    forall e, f | e in Erase(x) && f in Erase(x) && Value(e) == Value(f) ensures e == f {
      var i: nat :| i < |x| && Erase(x)[i] == e;
      var j: nat :| j < |x| && Erase(x)[j] == f;
      assert x[i] in x && x[j] in x && Value(x[i]) == Value(x[j]);
    }
    DescendingUnique(Erase(x), Erase(y));
    assert |x| == |Erase(x)| == |Erase(y)| == |y|;
    forall i | 0 <= i < |x| ensures x[i].key == y[i].key {
      assert Erase(x)[i] == Erase(y)[i];
    }
  }

  // --- what the sorted keys feed the hash ---

  lemma ConcatOne(a: Bytes)
    ensures Concat([a]) == a
  {
    assert [a][..0] == [];
    assert [] + a == a;
  }

  lemma {:induction false} ConcatAppend(s: seq<Bytes>, t: seq<Bytes>)
    ensures Concat(s + t) == Concat(s) + Concat(t)
    decreases |t|
  {
    if t == [] {
      assert s + t == s;
    } else {
      var front, last := t[..|t| - 1], t[|t| - 1];
      ConcatAppend(s, front);
      assert (s + t)[..|s + t| - 1] == s + front;
    }
  }

  lemma ConcatFirst(x: seq<Entry>)
    requires x != []
    ensures Concat(Keys(x)) == x[0].key + Concat(Keys(x[1..]))
  {
    assert Keys(x) == [x[0].key] + Keys(x[1..]);
    ConcatAppend([x[0].key], Keys(x[1..]));
    ConcatOne(x[0].key);
  }

  /** The length of the concatenation depends on the contents alone. */
  lemma {:induction false} SameTotalLength(x: seq<Entry>, y: seq<Entry>)
    requires multiset(x) == multiset(y)
    ensures |Concat(Keys(x))| == |Concat(Keys(y))|
    decreases |x|
  {
    SameLength(x, y);
    if x == [] {
      assert x == y;
    } else {
      assert x[0] in multiset(x);
      var i := IndexOf(y, x[0]);
      RemoveAt(x, 0);
      RemoveAt(y, i);
      LengthWithout(x, 0);
      LengthWithout(y, i);
      SameTotalLength(Without(x, 0), Without(y, i));
    }
  }

  lemma LengthWithout(x: seq<Entry>, i: nat)
    requires i < |x|
    ensures |Concat(Keys(x))| == |Concat(Keys(Without(x, i)))| + |x[i].key|
  {
    var front, back := Keys(x[..i]), Keys(x[i + 1..]);
    assert Keys(x) == front + [x[i].key] + back && Keys(Without(x, i)) == front + back;
    ConcatAppend(front + [x[i].key], back);
    ConcatAppend(front, [x[i].key]);
    ConcatAppend(front, back);
    ConcatOne(x[i].key);
  }

  lemma {:induction false} ZeroConcat(x: seq<Entry>)
    requires forall e | e in x :: Value(e) == 0
    ensures forall i | 0 <= i < |Concat(Keys(x))| :: Concat(Keys(x))[i] == 0
  {
    if x != [] {
      ConcatFirst(x);
      ZeroConcat(x[1..]);
      assert x[0] in x;
      forall i | 0 <= i < |x[0].key| ensures x[0].key[i] == 0 {
        ZeroBytes(x[0].key, i);
      }
    }
  }

  lemma ZerosAgree(x: seq<Entry>, y: seq<Entry>)
    requires multiset(x) == multiset(y) && Descending(x) && x != [] && Value(x[0]) == 0
    ensures Concat(Keys(x)) == Concat(Keys(y))
  {
    forall e | e in x ensures Value(e) == 0 {
      var i: nat :| i < |x| && x[i] == e;
    }
    forall e | e in y ensures Value(e) == 0 {
      assert e in multiset(y) && e in multiset(x);
    }
    ZeroConcat(x);
    ZeroConcat(y);
    SameTotalLength(x, y);
  }

  lemma {:induction false} DescendingConcatUnique(x: seq<Entry>, y: seq<Entry>)
    requires multiset(x) == multiset(y) && Descending(x) && Descending(y)
    requires forall e, f | e in x && f in x && Value(e) == Value(f) :: e == f || Value(e) == 0
    ensures Concat(Keys(x)) == Concat(Keys(y))
    decreases |x|
  {
    SameLength(x, y);
    if x == [] {
      assert Keys(x) == Keys(y);
    } else if Value(x[0]) == 0 {
      ZerosAgree(x, y);
    } else {
      HeadsAgree(x, y);
      assert y[0] in multiset(x);
      assert x[0] == y[0];
      DropHeads(x, y);
      ConcatFirst(x);
      ConcatFirst(y);
      DescendingConcatUnique(x[1..], y[1..]);
    }
  }

  lemma ErasedTies(x: seq<Entry>)
    requires forall e, f | e in x && f in x && Value(e) == Value(f) :: e.key == f.key || Value(e) == 0
    ensures forall e, f | e in Erase(x) && f in Erase(x) && Value(e) == Value(f) :: e == f || Value(e) == 0
  {
    hide BigEndian;
    forall e, f | e in Erase(x) && f in Erase(x) && Value(e) == Value(f) ensures e == f || Value(e) == 0 {
      var i: nat :| i < |x| && Erase(x)[i] == e;
      var j: nat :| j < |x| && Erase(x)[j] == f;
      assert x[i] in x && x[j] in x && Value(x[i]) == Value(x[j]);
    }
  }

  lemma ErasingKeepsOrder(x: seq<Entry>)
    requires Descending(x)
    ensures Descending(Erase(x)) && Keys(Erase(x)) == Keys(x)
  {
    hide BigEndian;
  }

  /** When keys of one value are the same bytes or zero, the sorted keys feed the hash the same bytes, whatever
      the starting order and however the sort breaks ties. */
  lemma SortedConcatUnique(x: seq<Entry>, y: seq<Entry>)
    requires multiset(x) == multiset(y) && Descending(x) && Descending(y)
    requires forall e, f | e in x && f in x && Value(e) == Value(f) :: e.key == f.key || Value(e) == 0
    ensures Concat(Keys(x)) == Concat(Keys(y))
  {
    hide Concat, Descending, BigEndian;
    EraseContents(x, y);
    ErasedTies(x);
    ErasingKeepsOrder(x);
    ErasingKeepsOrder(y);
    DescendingConcatUnique(Erase(x), Erase(y));
  }
}
