/** Delivery order does not matter: gossip that arrives out of phase is buffered and flushed so
    that what a node holds about the others depends only on what has been delivered. */
module Confluence {
  import opened Encoding
  import opened FiniteSets
  import opened DcrSpec
  import opened RevealOrder
  import opened Signing
  import opened NodeSpec

  /** What a node holds about the others. */
  datatype Held = Held(
    commit2s: map<PeerID, Bytes>, reveal1s: map<PeerID, Bytes>, reveal2s: map<PeerID, Bytes>,
    pending1: map<PeerID, Doc>, pending2: map<PeerID, Doc>, aborted: map<PeerID, Phase>, self: PeerID)

  function Holds(n: NodeState): Held {
    Held(n.d.commit2s - {n.self}, n.d.reveal1s - {n.self}, n.d.reveal2s - {n.self},
         n.pending1, n.pending2, n.aborted, n.self)
  }

  ghost predicate SameHeld(n: NodeState, n': NodeState) {
    Holds(n') == Holds(n) && n'.d.self == n.d.self
  }

  // --- the node's own moves change nothing it holds about others ---

  lemma PublishIsOwn(env: Env, n: NodeState, phase: Phase, value: Bytes)
    ensures SameHeld(n, SignAndPublish(env, n, phase, value))
  {
  }

  lemma VdfIsOwn(n: NodeState)
    ensures SameHeld(n, TryStartVdf(n))
  {
  }

  lemma PublishReveal2IsOwn(env: Env, n: NodeState)
    requires n.d.self == n.self
    ensures SameHeld(n, PublishReveal2(env, n))
  {
    if n.d.mySecret.Some? {
      var s := n.d.mySecret.value;
      var n1 := n.(d := DcrSpec.StartReveal2(n.d));
      MinusUpdate(n.d.reveal2s, {n.self}, n.self, s);
      VdfIsOwn(n1);
      PublishIsOwn(env, n1, Reveal2, s);
      PublishIsOwn(env, TryStartVdf(n1), Reveal2, s);
      var n' := PublishReveal2(env, n);
      assert n' == n || n' == SignAndPublish(env, n1, Reveal2, s) || n' == SignAndPublish(env, TryStartVdf(n1), Reveal2, s);
    }
  }

  lemma TargetIsOwn(n: NodeState, target: PeerID)
    ensures SameHeld(n, n.(reveal2Target := target)) && SameHeld(n, n)
  {
  }

  lemma ArmIsOwn(n: NodeState, after: PeerID)
    ensures SameHeld(n, ArmNext(n, after))
  {
    hide NextPendingPeer, SameHeld;
    TargetIsOwn(n, NextPendingPeer(n, after));
  }

  lemma ClaimIsOwn(n: NodeState)
    ensures SameHeld(n, Claim(n))
  {
  }

  lemma ContinueIsOwn(env: Env, n: NodeState, from: PeerID)
    requires n.d.self == n.self
    ensures SameHeld(n, ContinueAfter(env, n, from))
  {
    var n1 := if TurnAfter(n.d, from) then PublishReveal2(env, Claim(n)) else n;
    ClaimIsOwn(n);
    PublishReveal2IsOwn(env, Claim(n));
    ArmIsOwn(n1, from);
    VdfIsOwn(ArmNext(n1, from));
  }

  lemma OrderAndTriggerIsOwn(env: Env, n: NodeState)
    requires n.d.self == n.self
    ensures SameHeld(n, OrderAndTrigger(env, n))
  {
    var n1 := LogRevealOrder(env, n);
    ArmIsOwn(n1, NO_PEER);
    ClaimIsOwn(n1);
    PublishReveal2IsOwn(env, Claim(n1));
  }

  lemma RevealOwnIsOwn(env: Env, n: NodeState)
    requires n.d.self == n.self
    ensures SameHeld(n, RevealOwn1(env, n))
  {
    if n.d.myReveal1.Some? {
      var r := n.d.myReveal1.value;
      var n1 := n.(d := DcrSpec.StartReveal1(n.d));
      MinusUpdate(n.d.reveal1s, {n.self}, n.self, r);
      PublishIsOwn(env, n1, Reveal1, r);
      OrderAndTriggerIsOwn(env, SignAndPublish(env, n1, Reveal1, r));
    }
  }

  lemma TryStartIsOwn(env: Env, n: NodeState)
    requires n.d.self == n.self
    ensures SameHeld(n, TryStartReveal1(env, n)) && SameHeld(n, TryStrategicReveal1(env, n))
  {
    RevealOwnIsOwn(env, n);
    RevealOwnIsOwn(env, n.(reveal1Triggered := true));
  }

  // --- the effect of one message on what is held ---

  function Take2(H: Hash, h: Held, p: PeerID, value: Bytes): Held {
    if p in h.reveal1s && H(value) == h.reveal1s[p] then h.(reveal2s := h.reveal2s[p := value]) else h
  }

  lemma Take2Effect(env: Env, n: NodeState, p: PeerID, value: Bytes, doc: Doc)
    requires n.d.self == n.self && p != n.self && p !in n.d.reveal2s && p in n.d.reveal1s
    ensures Holds(ProcessReveal2(env, n, p, value, doc)) == Take2(env.c.H, Holds(n), p, value)
    ensures ProcessReveal2(env, n, p, value, doc).d.self == n.d.self
  {
    var n1 := StoreSigned(n.(d := StoreReveal2(n.d, p, value)), Reveal2, p, doc);
    MinusUpdate(n.d.reveal2s, {n.self}, p, value);
    ContinueIsOwn(env, n1, p);
  }

  /** Taking p's reveal1 also takes the reveal2 buffered behind it; the buffer is emptied. */
  function Take1(H: Hash, h: Held, p: PeerID, value: Bytes): Held {
    if p in h.commit2s && H(value) == h.commit2s[p] then
      var h1 := h.(reveal1s := h.reveal1s[p := value]);
      if p in h.pending2 then
        Take2(H, h1.(pending2 := h.pending2 - {p}), p, DocValue(Reveal2, h.pending2[p]))
      else h1
    else h
  }

  lemma FlushEffect(env: Env, n: NodeState, p: PeerID)
    requires n.d.self == n.self && p != n.self && p !in n.d.reveal2s && p in n.d.reveal1s
    ensures var n' := TryStrategicReveal1(env, AcceptedReveal1(env, n, p)); var h := Holds(n);
            && n'.d.self == n.d.self
            && Holds(n') == (if p in n.pending2
                             then Take2(env.c.H, h.(pending2 := h.pending2 - {p}), p, DocValue(Reveal2, n.pending2[p])) else h)
  {
    var n1 := TryFlushReveal2(env, n, p);
    if p in n.pending2 {
      Take2Effect(env, n.(pending2 := n.pending2 - {p}), p, DocValue(Reveal2, n.pending2[p]), n.pending2[p]);
    }
    assert n1.self == n.self by {
      assert Holds(n1).self == Holds(n).self;
    }
    OrderAndTriggerIsOwn(env, n1);
    var n2 := AcceptedReveal1(env, n, p);
    assert SameHeld(n1, n2);
    assert n2.self == n1.self by {
      assert Holds(n2).self == Holds(n1).self;
    }
    TryStartIsOwn(env, n2);
  }

  function WithReveal1(n: NodeState, p: PeerID, value: Bytes, doc: Doc): NodeState {
    StoreSigned(n.(d := StoreReveal1(n.d, p, value)), Reveal1, p, doc)
  }

  lemma Process1Cases(env: Env, n: NodeState, p: PeerID, value: Bytes, doc: Doc)
    requires p !in n.d.reveal1s && p in n.d.commit2s
    ensures ProcessReveal1(env, n, p, value, doc)
            == if env.c.H(value) == n.d.commit2s[p]
               then TryStrategicReveal1(env, AcceptedReveal1(env, WithReveal1(n, p, value, doc), p)) else n
  {
    hide TryStrategicReveal1, AcceptedReveal1;
  }

  lemma WithReveal1Held(n: NodeState, p: PeerID, value: Bytes, doc: Doc)
    requires p != n.self
    ensures Holds(WithReveal1(n, p, value, doc)) == Holds(n).(reveal1s := Holds(n).reveal1s[p := value])
  {
    MinusUpdate(n.d.reveal1s, {n.self}, p, value);
  }

  lemma Take1Effect(env: Env, n: NodeState, p: PeerID, value: Bytes, doc: Doc)
    requires n.d.self == n.self && p != n.self
    requires p !in n.d.reveal2s && p !in n.d.reveal1s && p in n.d.commit2s
    ensures Holds(ProcessReveal1(env, n, p, value, doc)) == Take1(env.c.H, Holds(n), p, value)
    ensures ProcessReveal1(env, n, p, value, doc).d.self == n.d.self
  {
    hide ProcessReveal1, TryStrategicReveal1, AcceptedReveal1, Take2;
    Process1Cases(env, n, p, value, doc);
    if env.c.H(value) == n.d.commit2s[p] {
      WithReveal1Held(n, p, value, doc);
      FlushEffect(env, WithReveal1(n, p, value, doc), p);
    }
  }

  /** Taking p's commit2 also takes the reveal1 buffered behind it. */
  function Take0(H: Hash, h: Held, p: PeerID, value: Bytes): Held {
    var h1 := h.(commit2s := h.commit2s[p := value]);
    if p in h.pending1 then Take1(H, h1.(pending1 := h.pending1 - {p}), p, DocValue(Reveal1, h.pending1[p])) else h1
  }

  ghost predicate Alike(h: Held, h': Held, p: PeerID) {
    && Get(h'.commit2s, p) == Get(h.commit2s, p) && Get(h'.reveal1s, p) == Get(h.reveal1s, p)
    && Get(h'.reveal2s, p) == Get(h.reveal2s, p)
    && Get(h'.pending1, p) == Get(h.pending1, p) && Get(h'.pending2, p) == Get(h.pending2, p)
  }

  ghost predicate LeavesOthers(h: Held, h': Held, from: PeerID) {
    && h'.aborted == h.aborted && h'.self == h.self
    && forall p | p != from :: Alike(h, h', p)
  }

  lemma Take2LeavesOthers(H: Hash, h: Held, from: PeerID, value: Bytes)
    ensures LeavesOthers(h, Take2(H, h, from, value), from)
  {
  }

  lemma LeavingComposes(h: Held, h1: Held, h2: Held, from: PeerID)
    requires LeavesOthers(h, h1, from) && LeavesOthers(h1, h2, from)
    ensures LeavesOthers(h, h2, from)
  {
    forall p | p != from ensures Alike(h, h2, p) {
      assert Alike(h, h1, p) && Alike(h1, h2, p);
    }
  }

  lemma Take1LeavesOthers(H: Hash, h: Held, from: PeerID, value: Bytes)
    ensures LeavesOthers(h, Take1(H, h, from, value), from)
  {
    hide Take2, DocValue;
    if from in h.pending2 {
      var h1 := h.(reveal1s := h.reveal1s[from := value], pending2 := h.pending2 - {from});
      Take2LeavesOthers(H, h1, from, DocValue(Reveal2, h.pending2[from]));
      LeavingComposes(h, h1, Take2(H, h1, from, DocValue(Reveal2, h.pending2[from])), from);
    }
  }

  lemma Take0LeavesOthers(H: Hash, h: Held, from: PeerID, value: Bytes)
    ensures LeavesOthers(h, Take0(H, h, from, value), from)
  {
    hide Take1, DocValue;
    if from in h.pending1 {
      var h1 := h.(commit2s := h.commit2s[from := value], pending1 := h.pending1 - {from});
      Take1LeavesOthers(H, h1, from, DocValue(Reveal1, h.pending1[from]));
      LeavingComposes(h, h1, Take1(H, h1, from, DocValue(Reveal1, h.pending1[from])), from);
    }
  }

  function WithCommit2(n: NodeState, p: PeerID, value: Bytes, doc: Doc): NodeState {
    StoreSigned(n.(d := StoreCommit2(n.d, p, value)), Commit2, p, doc)
  }

  lemma WithCommit2Held(n: NodeState, p: PeerID, value: Bytes, doc: Doc)
    requires p != n.self
    ensures Holds(WithCommit2(n, p, value, doc)) == Holds(n).(commit2s := Holds(n).commit2s[p := value])
  {
    MinusUpdate(n.d.commit2s, {n.self}, p, value);
  }

  lemma FlushCases(env: Env, n: NodeState, p: PeerID)
    requires n.d.self == n.self && p != n.self
    requires p !in n.d.reveal2s && p !in n.d.reveal1s && p in n.d.commit2s
    ensures var n', h := TryFlushReveal1(env, n, p), Holds(n);
            && n'.d.self == n.d.self
            && Holds(n') == (if p in n.pending1
                             then Take1(env.c.H, h.(pending1 := h.pending1 - {p}), p, DocValue(Reveal1, n.pending1[p])) else h)
  {
    hide ProcessReveal1, Take1;
    if p in n.pending1 {
      Take1Effect(env, n.(pending1 := n.pending1 - {p}), p, DocValue(Reveal1, n.pending1[p]), n.pending1[p]);
    }
  }

  lemma Take0Effect(env: Env, n: NodeState, p: PeerID, value: Bytes, doc: Doc)
    requires n.d.self == n.self && p != n.self
    requires p !in n.d.reveal2s && p !in n.d.reveal1s && p !in n.d.commit2s
    ensures Holds(OnCommit2(env, n, p, value, doc)) == Take0(env.c.H, Holds(n), p, value)
    ensures OnCommit2(env, n, p, value, doc).d.self == n.d.self
  {
    hide TryStartReveal1, TryFlushReveal1, Take1;
    var n1 := WithCommit2(n, p, value, doc);
    WithCommit2Held(n, p, value, doc);
    var n2 := TryFlushReveal1(env, n1, p);
    FlushCases(env, n1, p);
    Take1LeavesOthers(env.c.H, Holds(n1).(pending1 := n1.pending1 - {p}), p,
      if p in n.pending1 then DocValue(Reveal1, n.pending1[p]) else []);
    assert n2.self == n1.self by {
      assert Holds(n2).self == Holds(n1).self;
    }
    TryStartIsOwn(env, n2);
  }

  // --- what delivery in any order amounts to ---

  /** A signed value; the mail holds at most one per peer and phase. */
  datatype Letter = Letter(value: Bytes, sig: Bytes)

  type Mail = map<Key, Letter>

  ghost predicate Deliverable(c: Crypto, self: PeerID, k: Key, l: Letter) {
    SignedPhase(k.phase) && k.peer != self && VerifySignedMsg(c, k.phase, k.peer, Some(k.peer), l.value, l.sig)
  }

  function Sent(mail: Mail, phase: Phase, p: PeerID): Option<Bytes> {
    if Key(phase, p) in mail then Some(mail[Key(phase, p)].value) else None
  }

  function SentDoc(mail: Mail, phase: Phase, p: PeerID): Option<Doc> {
    if Key(phase, p) in mail then Some(DocFor(phase, Some(p), mail[Key(phase, p)].value, mail[Key(phase, p)].sig)) else None
  }

  /** r_p counts when c_p and r_p were both sent and match. */
  function Good1(H: Hash, mail: Mail, p: PeerID): Option<Bytes> {
    var c, r := Sent(mail, Commit2, p), Sent(mail, Reveal1, p);
    if c.Some? && r.Some? && H(r.value) == c.value then r else None
  }

  /** s_p counts when r_p counts and matches. */
  function Good2(H: Hash, mail: Mail, p: PeerID): Option<Bytes> {
    var r, s := Good1(H, mail, p), Sent(mail, Reveal2, p);
    if r.Some? && s.Some? && H(s.value) == r.value then s else None
  }

  /** Everything held about p is determined by the mail. */
  ghost predicate SettledFor(H: Hash, h: Held, mail: Mail, p: PeerID) {
    && Get(h.commit2s, p) == Sent(mail, Commit2, p)
    && Get(h.reveal1s, p) == Good1(H, mail, p)
    && Get(h.reveal2s, p) == Good2(H, mail, p)
    && Get(h.pending1, p) == (if Sent(mail, Commit2, p).None? then SentDoc(mail, Reveal1, p) else None)
    && Get(h.pending2, p) == (if Good1(H, mail, p).None? then SentDoc(mail, Reveal2, p) else None)
  }

  ghost predicate Settled(H: Hash, n: NodeState, mail: Mail) {
    && n.d.self == n.self && n.aborted == map[]
    && forall p | p != n.self :: SettledFor(H, Holds(n), mail, p)
  }

  /** One delivered letter, as the three Take functions see it. */
  function TakeLetter(H: Hash, h: Held, k: Key, l: Letter): Held {
    match k.phase
    case Commit2 => Take0(H, h, k.peer, l.value)
    case Reveal1 =>
      if k.peer in h.commit2s then Take1(H, h, k.peer, l.value)
      else h.(pending1 := h.pending1[k.peer := DocFor(Reveal1, Some(k.peer), l.value, l.sig)])
    case Reveal2 =>
      if k.peer in h.reveal1s then Take2(H, h, k.peer, l.value)
      else h.(pending2 := h.pending2[k.peer := DocFor(Reveal2, Some(k.peer), l.value, l.sig)])
    case _ => h
  }

  function Receive(env: Env, n: NodeState, k: Key, l: Letter): NodeState {
    OnGossip(env, n, k.peer, k.phase, Some(k.peer), l.value, l.sig)
  }

  lemma ReceiveCases(env: Env, n: NodeState, k: Key, l: Letter)
    requires n.aborted == map[] && Deliverable(env.c, n.self, k, l)
    ensures var p, doc := k.peer, DocFor(k.phase, Some(k.peer), l.value, l.sig);
            Receive(env, n, k, l) == match k.phase
              case Commit2 => OnCommit2(env, n, p, l.value, doc)
              case Reveal1 => if p !in n.d.commit2s then BufferReveal1(n, p, doc) else ProcessReveal1(env, n, p, l.value, doc)
              case Reveal2 => if p !in n.d.reveal1s then BufferReveal2(n, p, doc) else ProcessReveal2(env, n, p, l.value, doc)
              case _ => n
  {
    hide OnCommit2, ProcessReveal1, ProcessReveal2, DocFor;
  }

  lemma BufferEffect(n: NodeState, p: PeerID, doc: Doc)
    ensures p !in n.pending1 ==> Holds(BufferReveal1(n, p, doc)) == Holds(n).(pending1 := n.pending1[p := doc])
    ensures p !in n.pending2 ==> Holds(BufferReveal2(n, p, doc)) == Holds(n).(pending2 := n.pending2[p := doc])
    ensures BufferReveal1(n, p, doc).d == n.d && BufferReveal2(n, p, doc).d == n.d
  {
  }

  /** What is held of p before its letter of this phase arrives. */
  lemma BeforeLetter(H: Hash, n: NodeState, mail: Mail, k: Key)
    requires Settled(H, n, mail) && k !in mail && SignedPhase(k.phase) && k.peer != n.self
    ensures k.phase == Commit2 ==> k.peer !in n.d.commit2s
    ensures k.phase != Reveal2 ==> k.peer !in n.d.reveal1s
    ensures k.peer !in n.d.reveal2s
    ensures k.phase == Reveal1 ==> k.peer !in n.pending1
    ensures k.phase == Reveal2 ==> k.peer !in n.pending2
    ensures k.peer in Holds(n).commit2s <==> k.peer in n.d.commit2s
    ensures k.peer in Holds(n).reveal1s <==> k.peer in n.d.reveal1s
  {
    assert SettledFor(H, Holds(n), mail, k.peer);
  }

  lemma ReceiveEffect(env: Env, n: NodeState, mail: Mail, k: Key, l: Letter)
    requires Settled(env.c.H, n, mail) && k !in mail && Deliverable(env.c, n.self, k, l)
    ensures Holds(Receive(env, n, k, l)) == TakeLetter(env.c.H, Holds(n), k, l)
    ensures Receive(env, n, k, l).d.self == n.self
  {
    hide OnCommit2, ProcessReveal1, ProcessReveal2, BufferReveal1, BufferReveal2, Receive, Take0, Take1, Take2, DocFor, Holds,
         SettledFor;
    var p, doc := k.peer, DocFor(k.phase, Some(k.peer), l.value, l.sig);
    ReceiveCases(env, n, k, l);
    BeforeLetter(env.c.H, n, mail, k);
    BufferEffect(n, p, doc);
    PendingHeld(n);
    match k.phase {
      case Commit2 => Take0Effect(env, n, p, l.value, doc);
      case Reveal1 =>
        if p in n.d.commit2s {
          Take1Effect(env, n, p, l.value, doc);
        }
      case Reveal2 =>
        if p in n.d.reveal1s {
          Take2Effect(env, n, p, l.value, doc);
        }
      case _ =>
    }
  }

  lemma PendingHeld(n: NodeState)
    ensures Holds(n).pending1 == n.pending1 && Holds(n).pending2 == n.pending2 && Holds(n).self == n.self
  {
  }

  /** p's letters and the rest of what is held of p do not see a letter from somebody else. */
  lemma OthersLetter(H: Hash, h: Held, mail: Mail, k: Key, l: Letter, p: PeerID)
    requires SettledFor(H, h, mail, p) && k !in mail && k.peer != p
    ensures SettledFor(H, TakeLetter(H, h, k, l), mail[k := l], p)
  {
    SameMail(mail, k, l, p);
    LetterLeavesOthers(H, h, k, l);
    hide TakeLetter, Sent, SentDoc;
    assert Alike(h, TakeLetter(H, h, k, l), p);
  }

  lemma BufferingLeavesOthers(h: Held, from: PeerID, doc: Doc)
    ensures LeavesOthers(h, h, from)
    ensures LeavesOthers(h, h.(pending1 := h.pending1[from := doc]), from)
    ensures LeavesOthers(h, h.(pending2 := h.pending2[from := doc]), from)
  {
  }

  lemma LetterLeavesOthers(H: Hash, h: Held, k: Key, l: Letter)
    ensures LeavesOthers(h, TakeLetter(H, h, k, l), k.peer)
  {
    hide Take0, Take1, Take2, DocFor, LeavesOthers;
    Take0LeavesOthers(H, h, k.peer, l.value);
    Take1LeavesOthers(H, h, k.peer, l.value);
    Take2LeavesOthers(H, h, k.peer, l.value);
    BufferingLeavesOthers(h, k.peer, DocFor(k.phase, Some(k.peer), l.value, l.sig));
  }

  lemma SameMail(mail: Mail, k: Key, l: Letter, p: PeerID)
    requires k.peer != p
    ensures forall phase :: Sent(mail[k := l], phase, p) == Sent(mail, phase, p)
    ensures forall phase :: SentDoc(mail[k := l], phase, p) == SentDoc(mail, phase, p)
  {
  }

  lemma CommitSettles(H: Hash, h: Held, mail: Mail, l: Letter, p: PeerID)
    requires SettledFor(H, h, mail, p) && Key(Commit2, p) !in mail
    ensures SettledFor(H, Take0(H, h, p, l.value), mail[Key(Commit2, p) := l], p)
  {
    var mail' := mail[Key(Commit2, p) := l];
    assert Sent(mail', Reveal1, p) == Sent(mail, Reveal1, p) && SentDoc(mail', Reveal1, p) == SentDoc(mail, Reveal1, p);
    assert Sent(mail', Reveal2, p) == Sent(mail, Reveal2, p) && SentDoc(mail', Reveal2, p) == SentDoc(mail, Reveal2, p);
    assert Sent(mail', Commit2, p) == Some(l.value);
  }

  lemma Reveal1Settles(H: Hash, h: Held, mail: Mail, l: Letter, p: PeerID)
    requires SettledFor(H, h, mail, p) && Key(Reveal1, p) !in mail
    ensures SettledFor(H, TakeLetter(H, h, Key(Reveal1, p), l), mail[Key(Reveal1, p) := l], p)
  {
    var mail' := mail[Key(Reveal1, p) := l];
    assert Sent(mail', Commit2, p) == Sent(mail, Commit2, p);
    assert Sent(mail', Reveal2, p) == Sent(mail, Reveal2, p) && SentDoc(mail', Reveal2, p) == SentDoc(mail, Reveal2, p);
    assert Sent(mail', Reveal1, p) == Some(l.value);
  }

  lemma Reveal2Settles(H: Hash, h: Held, mail: Mail, l: Letter, p: PeerID)
    requires SettledFor(H, h, mail, p) && Key(Reveal2, p) !in mail
    ensures SettledFor(H, TakeLetter(H, h, Key(Reveal2, p), l), mail[Key(Reveal2, p) := l], p)
  {
    var mail' := mail[Key(Reveal2, p) := l];
    assert Sent(mail', Commit2, p) == Sent(mail, Commit2, p);
    assert Sent(mail', Reveal1, p) == Sent(mail, Reveal1, p) && SentDoc(mail', Reveal1, p) == SentDoc(mail, Reveal1, p);
    assert Sent(mail', Reveal2, p) == Some(l.value);
  }

  lemma LetterSettles(H: Hash, h: Held, mail: Mail, k: Key, l: Letter, p: PeerID)
    requires SettledFor(H, h, mail, p) && k !in mail && SignedPhase(k.phase)
    ensures SettledFor(H, TakeLetter(H, h, k, l), mail[k := l], p)
  {
    hide SettledFor;
    if p != k.peer {
      OthersLetter(H, h, mail, k, l, p);
    } else if k.phase == Commit2 {
      CommitSettles(H, h, mail, l, p);
    } else if k.phase == Reveal1 {
      Reveal1Settles(H, h, mail, l, p);
    } else {
      Reveal2Settles(H, h, mail, l, p);
    }
  }

  lemma DeliverySettles(env: Env, n: NodeState, mail: Mail, k: Key, l: Letter)
    requires Settled(env.c.H, n, mail) && k !in mail && Deliverable(env.c, n.self, k, l)
    ensures Settled(env.c.H, Receive(env, n, k, l), mail[k := l]) && Receive(env, n, k, l).self == n.self
  {
    hide Receive, TakeLetter, SettledFor;
    var n', mail' := Receive(env, n, k, l), mail[k := l];
    ReceiveEffect(env, n, mail, k, l);
    LetterLeavesOthers(env.c.H, Holds(n), k, l);
    assert Holds(n').aborted == n.aborted && Holds(n').self == n.self;
    forall p | p != n.self ensures SettledFor(env.c.H, Holds(n'), mail', p) {
      LetterSettles(env.c.H, Holds(n), mail, k, l, p);
    }
  }

  // --- whole deliveries ---

  /** Delivers the letters of `mail` in the order of `keys`, each under its own environment. */
  function DeliverAll(envs: seq<Env>, n: NodeState, mail: Mail, keys: seq<Key>): NodeState
    requires |envs| == |keys| && forall k | k in keys :: k in mail
  {
    if keys == [] then n
    else
      var last := |keys| - 1;
      Receive(envs[last], DeliverAll(envs[..last], n, mail, keys[..last]), keys[last], mail[keys[last]])
  }

  ghost predicate GoodDelivery(c: Crypto, self: PeerID, envs: seq<Env>, mail: Mail, keys: seq<Key>) {
    && |envs| == |keys| && NoDuplicates(keys)
    && (forall e | e in envs :: e.c == c)
    && (forall k | k in keys :: k in mail && Deliverable(c, self, k, mail[k]))
  }

  function Delivered(mail: Mail, keys: seq<Key>): Mail {
    map k | k in keys && k in mail :: mail[k]
  }

  /** After every prefix of every interleaving, what is held about the others is what the delivered
      letters determine; in particular nothing is buffered behind a message already held. */
  lemma {:induction false} EveryPrefixSettles(c: Crypto, n: NodeState, envs: seq<Env>, mail: Mail, keys: seq<Key>)
    requires Settled(c.H, n, map[]) && GoodDelivery(c, n.self, envs, mail, keys)
    ensures Settled(c.H, DeliverAll(envs, n, mail, keys), Delivered(mail, keys))
    ensures DeliverAll(envs, n, mail, keys).self == n.self
    decreases |keys|
  {
    hide Receive, SettledFor, Deliverable;
    if keys == [] {
      assert Delivered(mail, keys) == map[];
    } else {
      var last := |keys| - 1;
      var front, k := keys[..last], keys[last];
      assert keys == front + [k];
      EveryPrefixSettles(c, n, envs[..last], mail, front);
      var m := DeliverAll(envs[..last], n, mail, front);
      assert envs[last] in envs && k in keys;
      assert k !in Delivered(mail, front);
      DeliverySettles(envs[last], m, Delivered(mail, front), k, mail[k]);
      assert Delivered(mail, keys) == Delivered(mail, front)[k := mail[k]];
    }
  }

  lemma EqualGets(a: map<PeerID, Bytes>, b: map<PeerID, Bytes>)
    requires forall p :: Get(a, p) == Get(b, p)
    ensures a == b
  {
    forall p ensures p in a <==> p in b {
      assert Get(a, p) == Get(b, p);
    }
    forall p | p in a ensures a[p] == b[p] {
      assert Get(a, p) == Get(b, p);
    }
  }

  lemma SettledIsUnique(H: Hash, n: NodeState, m: NodeState, mail: Mail)
    requires Settled(H, n, mail) && Settled(H, m, mail) && n.self == m.self
    ensures Holds(n).commit2s == Holds(m).commit2s && Holds(n).reveal1s == Holds(m).reveal1s
    ensures Holds(n).reveal2s == Holds(m).reveal2s
    ensures forall p | p != n.self :: Get(n.pending1, p) == Get(m.pending1, p) && Get(n.pending2, p) == Get(m.pending2, p)
  {
    forall p ensures Get(Holds(n).commit2s, p) == Get(Holds(m).commit2s, p)
                     && Get(Holds(n).reveal1s, p) == Get(Holds(m).reveal1s, p)
                     && Get(Holds(n).reveal2s, p) == Get(Holds(m).reveal2s, p)
    {
      if p != n.self {
        assert SettledFor(H, Holds(n), mail, p) && SettledFor(H, Holds(m), mail, p);
      }
    }
    EqualGets(Holds(n).commit2s, Holds(m).commit2s);
    EqualGets(Holds(n).reveal1s, Holds(m).reveal1s);
    EqualGets(Holds(n).reveal2s, Holds(m).reveal2s);
    forall p | p != n.self ensures Get(n.pending1, p) == Get(m.pending1, p) && Get(n.pending2, p) == Get(m.pending2, p) {
      assert SettledFor(H, Holds(n), mail, p) && SettledFor(H, Holds(m), mail, p);
    }
  }

  /** Confluence: two interleavings of the same mail end with the same three views and the same
      buffers about everybody else. */
  lemma InterleavingsAgree(c: Crypto, n: NodeState, mail: Mail, envs1: seq<Env>, keys1: seq<Key>,
                           envs2: seq<Env>, keys2: seq<Key>)
    requires Settled(c.H, n, map[])
    requires GoodDelivery(c, n.self, envs1, mail, keys1) && GoodDelivery(c, n.self, envs2, mail, keys2)
    requires SetOf(keys1) == mail.Keys == SetOf(keys2)
    ensures var a, b := DeliverAll(envs1, n, mail, keys1), DeliverAll(envs2, n, mail, keys2);
            && a.d.commit2s - {n.self} == b.d.commit2s - {n.self}
            && a.d.reveal1s - {n.self} == b.d.reveal1s - {n.self}
            && a.d.reveal2s - {n.self} == b.d.reveal2s - {n.self}
            && (forall p | p != n.self :: Get(a.pending1, p) == Get(b.pending1, p) && Get(a.pending2, p) == Get(b.pending2, p))
  {
    EveryPrefixSettles(c, n, envs1, mail, keys1);
    EveryPrefixSettles(c, n, envs2, mail, keys2);
    forall k ensures k in keys1 <==> k in mail {
      assert k in SetOf(keys1) <==> k in mail.Keys;
    }
    forall k ensures k in keys2 <==> k in mail {
      assert k in SetOf(keys2) <==> k in mail.Keys;
    }
    assert Delivered(mail, keys1) == mail == Delivered(mail, keys2);
    SettledIsUnique(c.H, DeliverAll(envs1, n, mail, keys1), DeliverAll(envs2, n, mail, keys2), mail);
  }

  lemma MatchingIsStored(H: Hash, h: Held, mail: Mail, p: PeerID)
    requires SettledFor(H, h, mail, p)
    requires Sent(mail, Reveal1, p).Some? ==> Good1(H, mail, p).Some?
    requires Sent(mail, Reveal2, p).Some? ==> Good2(H, mail, p).Some?
    ensures Get(h.commit2s, p) == Sent(mail, Commit2, p) && Get(h.reveal1s, p) == Sent(mail, Reveal1, p)
    ensures Get(h.reveal2s, p) == Sent(mail, Reveal2, p) && p !in h.pending1 && p !in h.pending2
  {
  }

  /** When every sender's three values match, all of them are stored and both buffers are empty. */
  lemma MatchingMailIsAllStored(c: Crypto, n: NodeState, mail: Mail, envs: seq<Env>, keys: seq<Key>, p: PeerID)
    requires Settled(c.H, n, map[]) && GoodDelivery(c, n.self, envs, mail, keys) && SetOf(keys) == mail.Keys
    requires p != n.self
    requires Sent(mail, Reveal1, p).Some? ==> Good1(c.H, mail, p).Some?
    requires Sent(mail, Reveal2, p).Some? ==> Good2(c.H, mail, p).Some?
    ensures var n' := DeliverAll(envs, n, mail, keys);
            && Get(n'.d.commit2s, p) == Sent(mail, Commit2, p)
            && Get(n'.d.reveal1s, p) == Sent(mail, Reveal1, p)
            && Get(n'.d.reveal2s, p) == Sent(mail, Reveal2, p)
            && p !in n'.pending1 && p !in n'.pending2
  {
    hide DeliverAll, Good1, Good2, SettledFor;
    EveryPrefixSettles(c, n, envs, mail, keys);
    forall k ensures k in keys <==> k in mail {
      assert k in SetOf(keys) <==> k in mail.Keys;
    }
    assert Delivered(mail, keys) == mail;
    MatchingIsStored(c.H, Holds(DeliverAll(envs, n, mail, keys)), mail, p);
  }

  // --- the dispute path ---

  /** A dispute that reaches its majority takes the disputed message. */
  lemma UpheldTakesTheMessage(env: Env, n: NodeState, from: PeerID, phase: Phase, p: PeerID, doc: Doc)
    requires SignedPhase(phase) && |DisputersFor(n, Key(phase, p)) + {from}| >= Majority(n)
    ensures var key := Key(phase, p);
            var n1 := CountDispute(n, from, key);
            HandleTimeoutDispute(env, n, from, phase, p, doc) == AcceptDisputed(env, n1.(votes := n1.votes - {key}), phase, p, doc)
  {
    hide AcceptDisputed;
    assert DisputersFor(CountDispute(n, from, Key(phase, p)), Key(phase, p)) == DisputersFor(n, Key(phase, p)) + {from};
  }

  lemma DisputedCommitCases(env: Env, n: NodeState, p: PeerID, doc: Doc)
    requires DocVerifies(env.c, Commit2, p, doc)
    ensures var value, n' := DocValue(Commit2, doc), AcceptDisputed(env, n, Commit2, p, doc);
            if p !in n.d.commit2s then n' == TryStartReveal1(env, WithCommit2(n, p, value, doc))
            else n' == n || n' == BroadcastEquivocation(n, Commit2, p, doc)
  {
    hide TryStartReveal1, DocVerifies, DocValue;
  }

  lemma OwnMoveKeepsSelf(n: NodeState, n': NodeState)
    requires SameHeld(n, n') && n.d.self == n.self
    ensures n'.self == n.self && n'.d.self == n'.self
  {
    assert Holds(n').self == Holds(n).self;
  }

  lemma DenouncingIsOwn(n: NodeState, phase: Phase, p: PeerID, doc: Doc)
    ensures SameHeld(n, BroadcastEquivocation(n, phase, p, doc)) && SameHeld(n, n)
  {
  }

  /** Taking a disputed commit2 stores it and flushes nothing. */
  lemma DisputedCommitHeld(env: Env, n: NodeState, p: PeerID, doc: Doc)
    requires DocVerifies(env.c, Commit2, p, doc) && n.d.self == n.self && p != n.self
    ensures var h := Holds(n); var n' := AcceptDisputed(env, n, Commit2, p, doc);
            && n'.d.self == n'.self == n.self
            && Holds(n') == if p in n.d.commit2s then h else h.(commit2s := h.commit2s[p := DocValue(Commit2, doc)])
  {
    hide TryStartReveal1, DocVerifies, DocValue, AcceptDisputed, Holds, BroadcastEquivocation, WithCommit2;
    DisputedCommitCases(env, n, p, doc);
    if p !in n.d.commit2s {
      var n1 := WithCommit2(n, p, DocValue(Commit2, doc), doc);
      WithCommit2Held(n, p, DocValue(Commit2, doc), doc);
      WithCommit2Self(n, p, DocValue(Commit2, doc), doc);
      TryStartIsOwn(env, n1);
      OwnMoveKeepsSelf(n1, TryStartReveal1(env, n1));
    } else {
      DenouncingIsOwn(n, Commit2, p, doc);
      OwnMoveKeepsSelf(n, AcceptDisputed(env, n, Commit2, p, doc));
    }
  }

  lemma WithCommit2Self(n: NodeState, p: PeerID, value: Bytes, doc: Doc)
    ensures WithCommit2(n, p, value, doc).self == n.self && WithCommit2(n, p, value, doc).d.self == n.d.self
  {
  }

  ghost predicate StuckReveal1(n: NodeState, p: PeerID) {
    p in n.pending1 && p in n.d.commit2s
  }

  /** After an upheld commit2 dispute a reveal1 stays buffered behind its own commit exactly when it
      was buffered before; gossip never leaves that state. */
  lemma DisputeStrandsReveal1(env: Env, n: NodeState, from: PeerID, p: PeerID, doc: Doc)
    requires DocVerifies(env.c, Commit2, p, doc) && n.d.self == n.self && p != n.self
    requires |DisputersFor(n, Key(Commit2, p)) + {from}| >= Majority(n)
    ensures StuckReveal1(HandleTimeoutDispute(env, n, from, Commit2, p, doc), p) <==> p in n.pending1
  {
    hide AcceptDisputed, HandleTimeoutDispute, DocVerifies, DocValue;
    var key := Key(Commit2, p);
    var n1 := CountDispute(n, from, key);
    var n2 := n1.(votes := n1.votes - {key});
    var n' := AcceptDisputed(env, n2, Commit2, p, doc);
    UpheldTakesTheMessage(env, n, from, Commit2, p, doc);
    DisputedCommitHeld(env, n2, p, doc);
    assert p in Holds(n').commit2s <==> p in n'.d.commit2s;
    assert Holds(n').pending1 == n.pending1 && p in Holds(n').commit2s;
  }

  /** Sending the commit again does not free it: the copy is ignored. */
  lemma ResendingFreesNothing(env: Env, n: NodeState, p: PeerID, doc: Doc)
    requires Get(n.d.commit2s, p) == Some(DocValue(Commit2, doc))
    ensures OnCommit2(env, n, p, DocValue(Commit2, doc), doc) == n
    ensures DocVerifies(env.c, Commit2, p, doc) ==> AcceptDisputed(env, n, Commit2, p, doc) == n
  {
    hide TryStartReveal1, TryFlushReveal1, DocVerifies, DocValue;
  }

  lemma Take0Unflushed(H: Hash, h: Held, p: PeerID, value: Bytes)
    ensures p !in h.pending1 ==> Take0(H, h, p, value) == h.(commit2s := h.commit2s[p := value])
    ensures p in h.pending1 ==> p !in Take0(H, h, p, value).pending1
  {
  }

  /** Taking a new commit2 by dispute leaves what gossip would have left exactly when no reveal1 of
      that peer was waiting for it. */
  lemma DisputeEqualsGossip(env: Env, n: NodeState, p: PeerID, doc: Doc)
    requires DocVerifies(env.c, Commit2, p, doc) && n.d.self == n.self && p != n.self
    requires p !in n.d.commit2s && p !in n.d.reveal1s && p !in n.d.reveal2s
    ensures Holds(AcceptDisputed(env, n, Commit2, p, doc)) == Holds(OnCommit2(env, n, p, DocValue(Commit2, doc), doc))
            <==> p !in n.pending1
  {
    hide AcceptDisputed, OnCommit2, DocVerifies, DocValue, Take0;
    DisputedCommitHeld(env, n, p, doc);
    Take0Effect(env, n, p, DocValue(Commit2, doc), doc);
    Take0Unflushed(env.c.H, Holds(n), p, DocValue(Commit2, doc));
  }

  /** Confluence with one commit2 delivered by dispute: everything stays determined by the mail exactly
      when the peer's reveal1 has not been delivered before. */
  lemma DisputeSettles(env: Env, n: NodeState, mail: Mail, p: PeerID, l: Letter)
    requires Settled(env.c.H, n, mail) && Key(Commit2, p) !in mail && Deliverable(env.c, n.self, Key(Commit2, p), l)
    ensures Settled(env.c.H, AcceptDisputed(env, n, Commit2, p, DocFor(Commit2, Some(p), l.value, l.sig)), mail[Key(Commit2, p) := l])
            <==> Sent(mail, Reveal1, p).None?
  {
    hide AcceptDisputed, Take0, TakeLetter, Good1, Good2;
    var H, k, doc := env.c.H, Key(Commit2, p), DocFor(Commit2, Some(p), l.value, l.sig);
    var n', mail' := AcceptDisputed(env, n, Commit2, p, doc), mail[k := l];
    assert SettledFor(H, Holds(n), mail, p);
    assert Sent(mail, Commit2, p).None? && Sent(mail', Commit2, p) == Some(l.value) && DocValue(Commit2, doc) == l.value;
    DisputedCommitHeld(env, n, p, doc);
    Take0Unflushed(H, Holds(n), p, l.value);
    assert p in n.pending1 <==> Sent(mail, Reveal1, p).Some?;
    if p in n.pending1 {
      assert !SettledFor(H, Holds(n'), mail', p);
    } else {
      DisputeSettlesAll(env, n, mail, p, l);
    }
  }

  lemma DisputeSettlesAll(env: Env, n: NodeState, mail: Mail, p: PeerID, l: Letter)
    requires Settled(env.c.H, n, mail) && Key(Commit2, p) !in mail && Deliverable(env.c, n.self, Key(Commit2, p), l)
    requires p !in n.pending1 && p !in n.d.commit2s
    ensures Settled(env.c.H, AcceptDisputed(env, n, Commit2, p, DocFor(Commit2, Some(p), l.value, l.sig)), mail[Key(Commit2, p) := l])
  {
    hide AcceptDisputed, Take0, SettledFor, Deliverable;
    var H, k, doc := env.c.H, Key(Commit2, p), DocFor(Commit2, Some(p), l.value, l.sig);
    var n', mail' := AcceptDisputed(env, n, Commit2, p, doc), mail[k := l];
    assert p != n.self && DocVerifies(env.c, Commit2, p, doc) by { LetterVerifies(env.c, n.self, p, l); }
    DisputedCommitHeld(env, n, p, doc);
    Take0Unflushed(H, Holds(n), p, l.value);
    assert Holds(n') == TakeLetter(H, Holds(n), k, l);
    assert Holds(n').aborted == n.aborted && Holds(n').self == n.self;
    forall q | q != n.self ensures SettledFor(H, Holds(n'), mail', q) {
      LetterSettles(H, Holds(n), mail, k, l, q);
    }
  }

  lemma LetterVerifies(c: Crypto, self: PeerID, p: PeerID, l: Letter)
    requires Deliverable(c, self, Key(Commit2, p), l)
    ensures p != self && DocVerifies(c, Commit2, p, DocFor(Commit2, Some(p), l.value, l.sig))
  {
  }
}
