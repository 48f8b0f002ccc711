/** Whose turn it is in reveal2, by the neighbours in the reveal order. */
module Turns {
  import opened Encoding
  import opened FiniteSets
  import opened DcrSpec

  /** q comes directly after p. */
  ghost predicate Follows(order: seq<PeerID>, p: PeerID, q: PeerID) {
    exists k :: 0 <= k && k + 1 < |order| && order[k] == p && order[k + 1] == q
  }

  lemma {:induction false} LastIndexFinds(order: seq<PeerID>, p: PeerID)
    ensures var i := LastIndex(order, p);
            -1 <= i < |order| && (i >= 0 ==> order[i] == p) && (i < 0 <==> p !in order)
  {
    if order != [] && order[|order| - 1] != p {
      var front := order[..|order| - 1];
      LastIndexFinds(front, p);
      assert order == front + [order[|order| - 1]];
    }
  }

  /** MyTurnAfter is true exactly for the peer directly after, at any place in the order. */
  lemma TurnAfterMeaning(s: DcrState, from: PeerID)
    requires NoDuplicates(s.revealOrder)
    ensures TurnAfter(s, from) <==> !s.reveal2Sent && Follows(s.revealOrder, from, s.self)
  {
    var order := s.revealOrder;
    LastIndexFinds(order, s.self);
    LastIndexFinds(order, from);
    if Follows(order, from, s.self) {
      var k :| 0 <= k && k + 1 < |order| && order[k] == from && order[k + 1] == s.self;
      assert LastIndex(order, s.self) == k + 1 && LastIndex(order, from) == k;
    }
    if TurnAfter(s, from) {
      var k := LastIndex(order, from);
      assert order[k] == from && order[k + 1] == s.self;
    }
  }
}
