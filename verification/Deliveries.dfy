/** Gossip interleaved with the node's own lock and timers, and with commits taken by dispute: what is
    held about the others is still what the delivered messages determine. */
module Deliveries {
  import opened Encoding
  import opened RevealOrder
  import opened Signing
  import opened NodeSpec
  import opened Confluence

  datatype Item =
    | Gossiped(k: Key)
    | Own(event: Event)
    | Disputed(from: PeerID, p: PeerID)

  // --- the node's own events ---

  /** Timers, proposals, acknowledgements, and a lock that lists everybody connected. */
  predicate OwnEvent(env: Env, e: Event) {
    match e
    case Receive(_, SessionLock(payload)) => payload.Some? ==> forall p | p in env.peers :: p in payload.value
    case Receive(_, m) => m.ProposeStart? || m.ReadyAckMsg?
    case _ => true
  }

  /** What is sent, proposed or acknowledged is not held about anybody. */
  lemma TalkIsOwn(n: NodeState, out: seq<Msg>, proposer: PeerID, ready: set<PeerID>)
    ensures SameHeld(n, n.(out := out, sessionProposer := proposer, readyPeers := ready))
  {
  }

  lemma PublishLockIsOwn(env: Env, n: NodeState)
    ensures SameHeld(n, TryPublishSessionLock(env, n))
  {
    hide Without, AbortedIn;
    var ps := Without(env.it(n.readyPeers), n.aborted.Keys);
    TalkIsOwn(n, n.out, n.sessionProposer, n.readyPeers);
    TalkIsOwn(n, n.out + [SessionLock(Some(ps))], n.sessionProposer, n.readyPeers);
    TalkIsOwn(n, n.out, NO_PEER, n.readyPeers);
    PublishLockCases(env, n);
  }

  lemma PublishLockCases(env: Env, n: NodeState)
    ensures var n' := TryPublishSessionLock(env, n);
            || n' == n || n' == n.(sessionProposer := NO_PEER)
            || n' == n.(out := n.out + [SessionLock(Some(Without(env.it(n.readyPeers), n.aborted.Keys)))])
  {
    hide Without, AbortedIn;
  }

  lemma LockIsOwn(env: Env, n: NodeState, ps: seq<PeerID>)
    requires forall p | p in env.peers :: p in ps
    ensures SameHeld(n, LockSession(env, n, ps))
  {
    assert LockSession(env, n, ps).aborted == n.aborted;
  }

  lemma CommitIsOwn(env: Env, n: NodeState)
    requires n.d.self == n.self
    ensures SameHeld(n, CommitOwn(env, n))
  {
    var d := DcrSpec.StartCommit2(env.c.H, n.d, env.secret);
    MinusUpdate(n.d.commit2s, {n.self}, n.self, d.myCommit2.value);
    assert SameHeld(n, n.(d := d));
    PublishIsOwn(env, n.(d := d), Commit2, d.myCommit2.value);
  }

  lemma SessionLockIsOwn(env: Env, n: NodeState, payload: Option<seq<PeerID>>)
    requires n.d.self == n.self && (payload.Some? ==> forall p | p in env.peers :: p in payload.value)
    ensures SameHeld(n, HandleSessionLock(env, n, payload))
  {
    hide LockSession, CommitOwn, TryStartReveal1, Holds;
    if payload.Some? && !n.sessionActive {
      var n1 := LockSession(env, n, payload.value);
      LockIsOwn(env, n, payload.value);
      OwnMoveKeepsSelf(n, n1);
      CommitIsOwn(env, n1);
      OwnMoveKeepsSelf(n1, CommitOwn(env, n1));
      TryStartIsOwn(env, CommitOwn(env, n1));
    }
  }

  lemma OwnMessageIsOwn(env: Env, n: NodeState, from: PeerID, m: Msg)
    requires n.d.self == n.self && OwnEvent(env, Event.Receive(from, m))
    ensures SameHeld(n, HandleMsg(env, n, from, m))
  {
    hide Holds, TryPublishSessionLock, HandleSessionLock;
    match m {
      case SessionLock(payload) => SessionLockIsOwn(env, n, payload);
      case ProposeStart =>
        TalkIsOwn(n, n.out + [ReadyAckMsg], from, n.readyPeers);
        TalkIsOwn(n, n.out + [ReadyAckMsg], n.sessionProposer, n.readyPeers);
        TalkIsOwn(n, n.out, from, n.readyPeers);
        TalkIsOwn(n, n.out, n.sessionProposer, n.readyPeers);
      case ReadyAckMsg =>
        TalkIsOwn(n, n.out, n.sessionProposer, n.readyPeers);
        TalkIsOwn(n, n.out, n.sessionProposer, n.readyPeers + {from});
        PublishLockIsOwn(env, n.(readyPeers := n.readyPeers + {from}));
      case _ =>
    }
  }

  lemma TimerIsOwn(env: Env, n: NodeState, e: Event)
    requires n.d.self == n.self && !e.Receive?
    ensures SameHeld(n, Handle(env, n, e))
  {
    hide Holds, TryPublishSessionLock, VotesAgainst, FalseVotes;
    TalkIsOwn(n, n.out, n.sessionProposer, n.readyPeers);
    match e {
      case Propose => TalkIsOwn(n, n.out + [Msg.ProposeStart], n.self, n.readyPeers);
      case CommitTimeout => TalkIsOwn(n, VoteAbsent(n, Commit2, n.d.commit2s.Keys).out, n.sessionProposer, n.readyPeers);
      case Reveal1Timeout => TalkIsOwn(n, VoteAbsent(n, Reveal1, n.d.reveal1s.Keys).out, n.sessionProposer, n.readyPeers);
      case Reveal2Timeout(target) => TalkIsOwn(n, n.out + [TimeoutVote(Reveal2, target)], n.sessionProposer, n.readyPeers);
      case ReadyAckTimeout =>
        PublishLockIsOwn(env, n);
        TalkIsOwn(n, n.out + VotesAgainst(ReadyAck, env.peers, n.readyPeers), n.sessionProposer, n.readyPeers);
      case _ =>
    }
  }

  // --- one item ---

  function DocOf(mail: Mail, k: Key): Doc
    requires k in mail
  {
    DocFor(k.phase, Some(k.peer), mail[k].value, mail[k].sig)
  }

  predicate InMail(mail: Mail, item: Item) {
    (item.Gossiped? ==> item.k in mail) && (item.Disputed? ==> Key(Commit2, item.p) in mail)
  }

  function EventOf(mail: Mail, item: Item): Event
    requires InMail(mail, item)
  {
    match item
    case Gossiped(k) => Event.Receive(k.peer, Gossip(k.phase, Some(k.peer), mail[k].value, mail[k].sig))
    case Own(e) => e
    case Disputed(from, p) => Event.Receive(from, TimeoutDispute(Commit2, p, DocOf(mail, Key(Commit2, p))))
  }

  /** This dispute, the sender included, reaches its majority. */
  predicate Upheld(n: NodeState, from: PeerID, p: PeerID) {
    |DisputersFor(n, Key(Commit2, p)) + {from}| >= Majority(n)
  }

  /** The messages that have taken effect after an item. */
  function DoneAfter(n: NodeState, done: set<Key>, item: Item): set<Key> {
    match item
    case Gossiped(k) => done + {k}
    case Own(_) => done
    case Disputed(from, p) => if Upheld(n, from, p) then done + {Key(Commit2, p)} else done
  }

  /** Each reveal is delivered once, a commit may come again; an upheld dispute does not bring a commit
      for which a reveal1 is waiting. */
  ghost predicate GoodItem(env: Env, n: NodeState, mail: Mail, done: set<Key>, item: Item) {
    match item
    case Gossiped(k) => k in mail && Deliverable(env.c, n.self, k, mail[k]) && (k in done ==> k.phase == Commit2)
    case Own(e) => OwnEvent(env, e)
    case Disputed(from, p) =>
      && Key(Commit2, p) in mail && Deliverable(env.c, n.self, Key(Commit2, p), mail[Key(Commit2, p)])
      && (Upheld(n, from, p) && Key(Commit2, p) !in done ==> Key(Reveal1, p) !in done)
  }

  function Part(mail: Mail, done: set<Key>): Mail {
    map k | k in mail && k in done :: mail[k]
  }

  lemma OwnSettles(H: Hash, n: NodeState, n': NodeState, mail: Mail)
    requires Settled(H, n, mail) && SameHeld(n, n')
    ensures Settled(H, n', mail) && n'.self == n.self
  {
    hide SettledFor;
    OwnMoveKeepsSelf(n, n');
    assert Holds(n').aborted == n.aborted;
  }

  lemma PartGrows(mail: Mail, done: set<Key>, k: Key)
    requires k in mail
    ensures Part(mail, done + {k}) == Part(mail, done)[k := mail[k]]
    ensures k in done ==> done + {k} == done
  {
  }

  lemma LetterIsReceived(env: Env, n: NodeState, mail: Mail, k: Key)
    requires k in mail
    ensures Handle(env, n, EventOf(mail, Gossiped(k))) == Confluence.Receive(env, n, k, mail[k])
  {
    hide OnGossip;
  }

  /** A commit already stored may come again by gossip. */
  lemma CommitAgain(env: Env, n: NodeState, mail: Mail, done: set<Key>, k: Key)
    requires Settled(env.c.H, n, Part(mail, done)) && k in mail && k in done && k.phase == Commit2
    requires Deliverable(env.c, n.self, k, mail[k])
    ensures Confluence.Receive(env, n, k, mail[k]) == n
  {
    hide OnCommit2, Confluence.Receive, Good1, Good2;
    ReceiveCases(env, n, k, mail[k]);
    assert SettledFor(env.c.H, Holds(n), Part(mail, done), k.peer);
    StoredCommit(env.c.H, n, Part(mail, done), k.peer);
    ResendingFreesNothing(env, n, k.peer, DocOf(mail, k));
  }

  lemma StoredCommit(H: Hash, n: NodeState, mail: Mail, p: PeerID)
    requires SettledFor(H, Holds(n), mail, p) && p != n.self
    ensures Get(n.d.commit2s, p) == Sent(mail, Commit2, p)
  {
    assert p in Holds(n).commit2s <==> p in n.d.commit2s;
  }

  lemma LetterItem(env: Env, n: NodeState, mail: Mail, done: set<Key>, k: Key)
    requires Settled(env.c.H, n, Part(mail, done)) && GoodItem(env, n, mail, done, Gossiped(k))
    ensures var n' := Handle(env, n, EventOf(mail, Gossiped(k))); Settled(env.c.H, n', Part(mail, done + {k})) && n'.self == n.self
  {
    hide Settled, Deliverable, Confluence.Receive, Handle;
    LetterIsReceived(env, n, mail, k);
    PartGrows(mail, done, k);
    if k in done {
      CommitAgain(env, n, mail, done, k);
    } else {
      DeliverySettles(env, n, Part(mail, done), k, mail[k]);
    }
  }

  lemma CountingIsOwn(n: NodeState, votes: map<Key, set<PeerID>>, disputes: map<Key, set<PeerID>>)
    ensures SameHeld(n, n.(votes := votes, disputes := disputes))
  {
  }

  lemma DisputeBelow(env: Env, n: NodeState, from: PeerID, p: PeerID, doc: Doc)
    requires !Upheld(n, from, p)
    ensures HandleTimeoutDispute(env, n, from, Commit2, p, doc) == CountDispute(n, from, Key(Commit2, p))
  {
    hide AcceptDisputed;
    assert DisputersFor(CountDispute(n, from, Key(Commit2, p)), Key(Commit2, p)) == DisputersFor(n, Key(Commit2, p)) + {from};
  }

  lemma UpheldItem(env: Env, n: NodeState, mail: Mail, done: set<Key>, p: PeerID)
    requires Key(Commit2, p) in mail && Deliverable(env.c, n.self, Key(Commit2, p), mail[Key(Commit2, p)])
    requires Settled(env.c.H, n, Part(mail, done)) && (Key(Commit2, p) !in done ==> Key(Reveal1, p) !in done)
    ensures var k := Key(Commit2, p); var n' := AcceptDisputed(env, n, Commit2, p, DocOf(mail, k));
            Settled(env.c.H, n', Part(mail, done + {k})) && n'.self == n.self
  {
    hide AcceptDisputed, Settled, Deliverable;
    var k := Key(Commit2, p);
    PartGrows(mail, done, k);
    assert p != n.self && DocVerifies(env.c, Commit2, p, DocOf(mail, k)) by { LetterVerifies(env.c, n.self, p, mail[k]); }
    assert n.d.self == n.self by { SettledSelf(env.c.H, n, Part(mail, done)); }
    DisputedCommitHeld(env, n, p, DocOf(mail, k));
    if k in done {
      SettledPeer(env.c.H, n, Part(mail, done), p);
      StoredCommit(env.c.H, n, Part(mail, done), p);
      ResendingFreesNothing(env, n, p, DocOf(mail, k));
    } else {
      DisputeSettles(env, n, Part(mail, done), p, mail[k]);
    }
  }

  lemma SettledSelf(H: Hash, n: NodeState, mail: Mail)
    requires Settled(H, n, mail)
    ensures n.d.self == n.self
  {
  }

  lemma SettledPeer(H: Hash, n: NodeState, mail: Mail, p: PeerID)
    requires Settled(H, n, mail) && p != n.self
    ensures SettledFor(H, Holds(n), mail, p)
  {
  }

  lemma DisputedItem(env: Env, n: NodeState, mail: Mail, done: set<Key>, from: PeerID, p: PeerID)
    requires Settled(env.c.H, n, Part(mail, done)) && GoodItem(env, n, mail, done, Disputed(from, p))
    ensures var n' := Handle(env, n, EventOf(mail, Disputed(from, p)));
            Settled(env.c.H, n', Part(mail, DoneAfter(n, done, Disputed(from, p)))) && n'.self == n.self
  {
    hide Settled, Deliverable, AcceptDisputed, HandleTimeoutDispute;
    var k := Key(Commit2, p);
    var n1 := CountDispute(n, from, k);
    var doc := DocOf(mail, k);
    if Upheld(n, from, p) {
      var n2 := n1.(votes := n1.votes - {k});
      UpheldTakesTheMessage(env, n, from, Commit2, p, doc);
      CountingIsOwn(n, n2.votes, n2.disputes);
      OwnSettles(env.c.H, n, n2, Part(mail, done));
      UpheldItem(env, n2, mail, done, p);
    } else {
      DisputeBelow(env, n, from, p, doc);
      CountingIsOwn(n, n1.votes, n1.disputes);
      OwnSettles(env.c.H, n, n1, Part(mail, done));
    }
  }

  lemma ItemSettles(env: Env, n: NodeState, mail: Mail, done: set<Key>, item: Item)
    requires Settled(env.c.H, n, Part(mail, done)) && GoodItem(env, n, mail, done, item)
    ensures var n' := Handle(env, n, EventOf(mail, item));
            Settled(env.c.H, n', Part(mail, DoneAfter(n, done, item))) && n'.self == n.self
  {
    hide Settled, Handle, Upheld, Deliverable, SameHeld;
    match item {
      case Gossiped(k) => LetterItem(env, n, mail, done, k);
      case Own(e) =>
        SettledSelf(env.c.H, n, Part(mail, done));
        OwnEventIsOwn(env, n, e);
        OwnSettles(env.c.H, n, Handle(env, n, e), Part(mail, done));
      case Disputed(from, p) => DisputedItem(env, n, mail, done, from, p);
    }
  }

  lemma OwnEventIsOwn(env: Env, n: NodeState, e: Event)
    requires n.d.self == n.self && OwnEvent(env, e)
    ensures SameHeld(n, Handle(env, n, e))
  {
    hide HandleMsg, SameHeld, OwnEvent;
    if e.Receive? {
      OwnMessageIsOwn(env, n, e.from, e.msg);
    } else {
      TimerIsOwn(env, n, e);
    }
  }

  // --- whole runs ---

  ghost predicate AllInMail(mail: Mail, items: seq<(Env, Item)>) {
    forall k | 0 <= k < |items| :: InMail(mail, items[k].1)
  }

  ghost predicate GoodItems(c: Crypto, n: NodeState, mail: Mail, done: set<Key>, items: seq<(Env, Item)>)
    decreases |items|
  {
    items == [] ||
    var (env, item) := items[0];
    && env.c == c && GoodItem(env, n, mail, done, item)
    && GoodItems(c, Handle(env, n, EventOf(mail, item)), mail, DoneAfter(n, done, item), items[1..])
  }

  ghost function RunItems(n: NodeState, mail: Mail, items: seq<(Env, Item)>): NodeState
    requires AllInMail(mail, items)
    decreases |items|
  {
    if items == [] then n else RunItems(Handle(items[0].0, n, EventOf(mail, items[0].1)), mail, items[1..])
  }

  ghost function DoneItems(n: NodeState, mail: Mail, done: set<Key>, items: seq<(Env, Item)>): set<Key>
    requires AllInMail(mail, items)
    decreases |items|
  {
    if items == [] then done
    else DoneItems(Handle(items[0].0, n, EventOf(mail, items[0].1)), mail, DoneAfter(n, done, items[0].1), items[1..])
  }

  /** Confluence over whole runs of gossip, disputes, the node's own lock and its timers, in any order: what is
      held about the others is what the messages that have taken effect determine. */
  lemma {:induction false} EveryMixedRunSettles(c: Crypto, n: NodeState, mail: Mail, done: set<Key>, items: seq<(Env, Item)>)
    requires Settled(c.H, n, Part(mail, done)) && GoodItems(c, n, mail, done, items)
    requires AllInMail(mail, items)
    ensures Settled(c.H, RunItems(n, mail, items), Part(mail, DoneItems(n, mail, done, items)))
    ensures RunItems(n, mail, items).self == n.self
    decreases |items|
  {
    if items != [] {
      hide Settled, Handle, GoodItem, DoneAfter, EventOf;
      var (env, item) := items[0];
      ItemSettles(env, n, mail, done, item);
      EveryMixedRunSettles(c, Handle(env, n, EventOf(mail, item)), mail, DoneAfter(n, done, item), items[1..]);
    }
  }

  /** Two such runs, of whatever shape, in which the same messages have taken effect hold the same. */
  lemma MixedRunsAgree(c: Crypto, n: NodeState, mail: Mail, items1: seq<(Env, Item)>, items2: seq<(Env, Item)>)
    requires Settled(c.H, n, map[]) && AllInMail(mail, items1) && AllInMail(mail, items2)
    requires GoodItems(c, n, mail, {}, items1) && GoodItems(c, n, mail, {}, items2)
    requires DoneItems(n, mail, {}, items1) == DoneItems(n, mail, {}, items2)
    ensures var a, b := RunItems(n, mail, items1), RunItems(n, mail, items2);
            && Holds(a).commit2s == Holds(b).commit2s && Holds(a).reveal1s == Holds(b).reveal1s
            && Holds(a).reveal2s == Holds(b).reveal2s
            && (forall p | p != a.self :: Get(a.pending1, p) == Get(b.pending1, p) && Get(a.pending2, p) == Get(b.pending2, p))
  {
    hide Settled, GoodItems, RunItems, DoneItems, Holds, AllInMail;
    assert Part(mail, {}) == map[];
    EveryMixedRunSettles(c, n, mail, {}, items1);
    EveryMixedRunSettles(c, n, mail, {}, items2);
    SettledIsUnique(c.H, RunItems(n, mail, items1), RunItems(n, mail, items2), Part(mail, DoneItems(n, mail, {}, items1)));
  }
}
