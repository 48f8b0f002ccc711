# Commit-Reveal² rounds, verified

A model of the Commit-Reveal² randomness round and of the node that runs it. Each participant draws
a secret `s`, commits to `c = H(H(s))`, reveals `r = H(s)`, and then the secrets are revealed one by
one in an order derived from the commits and reveals. Their concatenation is the input of a VDF. A
peer that stays silent is voted out; one that signs two values is aborted on proof.

## Layers

- `Dcr.dfy` is the mutable round state `DoubleCommitReveal`, with its maps, its sort loops on arrays
  and its turn flag. Every method is proved equal to a function in `DcrSpec.dfy`.
- `Node.dfy` is the mutable node: gossip handlers, buffers, gates, votes, disputes, aborts, session.
  Every method is proved equal to the function of its name in `NodeSpec.dfy`; `HandleEvent` puts
  them together for every modelled message and timer. The table lists it and the methods with loops. One handler is one
  atomic step. A node's own gossip does not come back to it (`protocol/pubsub.go:132-135`), its own
  control messages do.
- `Actions.dfy` and `Handlers.dfy` cut every handler into guarded actions. Run-level invariants are
  proved action by action in `NodeRuns.dfy`, `Accountability.dfy` and `TurnOrder.dfy`.
- `VdfRuns.dfy` and `FailingRuns.dfy` follow the gates over runs: when they stay exact, and runs of an
  honest node in which they do not.
- `System.dfy` is a network of nodes over everything ever sent. Any sent message may reach any node
  at any time and any number of times, any timer may fire at any time, and peers outside the network
  send what they like.
- `TwoNodes.dfy` takes a network of two honest nodes through a whole round that meets the hypotheses of
  the network theorems.
- `Confluence.dfy` and `Deliveries.dfy` say what is held after any interleaving of messages, the node's
  own events and disputes.
- `Gates.dfy`, `VdfInput.dfy` and `Session.dfy` hold what the counting gates and the lock mean.
- `Secrets.dfy`, `Openings.dfy`, `Tallies.dfy` and `Receipts.dfy` say what each event leads to, from the
  state before it: after a reveal2 and an abort in it, after a commit2 and a reveal1, at the votes and
  disputes, and for what is not taken. `Turns.dfy` is about neighbours in the order.
- `Sweep.dfy` is the calibration search.

## What the theorems assume

The code does not enforce these; each is a hypothesis of the lemmas that need it.

- `H` (SHA-256, section 6.2 of FIPS 180-4) is any function to 32-byte strings. It is injective only
  on the finite set of values in play (`InjectiveOn`, `InPlay`).
- Signatures (Ed25519, section 5.1 of RFC 8032) are ideal: an event carries a value signed by a node
  only if that node published it (`Unforged`), or everything verified under a key was signed by its
  owner (`SignsOnly`).
- Peer identifiers have one length, and none is empty.
- No two of the reveals ordered write one number other than zero differently, as when all have 32 bytes
  (`HandleReveal1` has no length check), and the distances are distinct (`sort.Slice` is not stable
  and maps iterate in no fixed order). Both are also necessary (`RevealOrder.OmegaInputIsCanonical`,
  `RevealOrder.TiesMakeTheOrderAmbiguous`).
- `StartCommit2` is called once in a round, as the session lock does.
- Turn order is stated for nodes that run the code, possibly silent, and share one reveal order.

## What the code does not give

- The VDF gate compares counts. An abort or a secret outside the order makes it open too early, and
  the launch flag is then set without an input (`VdfInput.GateBurns` gives the exact states). A
  recomputed order leaves out peers aborted in reveal2 and produces such states
  (`Gates.RecomputingLoosensTheGate`); an honest node reaches one in `FailingRuns.HonestLaunchBurned`.
- The commit gate compares counts too. It opens without everybody when commits of aborted peers or of
  outsiders, or aborts of outsiders, make up for the missing ones, and it stays shut with everybody
  when the lock lists a peer twice (`Gates.CommitGateMisfires` gives the exact states). Neither
  `handleTimeoutVote` nor `handleEquivocationAbort` checks that the target is a participant, and the
  lock does not check its list. An honest node gets there in `FailingRuns.Reveal1StartsWithoutEverybody`,
  `FailingRuns.OutsiderStartsReveal1` and `FailingRuns.RepeatedEntryBlocksReveal1`.
- One vote aborts whenever the session size is below 2: before the lock, when it is 0, and in a
  session of one (`Gates.OneVoteAborts`).
- A disputed commit2 does not flush the reveal1 buffered behind it, and sending it again does not
  either. Confluence survives the dispute exactly when that reveal1 had not arrived
  (`Confluence.DisputeSettles`, `Confluence.DisputeStrandsReveal1`).
- A commit copied from another peer is accepted, and the computed order of the two then depends on the
  map iteration, so nodes may disagree on it (`RevealOrder.CopiedCommitSplitsTheOrder`). Reveals that
  write one number differently change what is hashed into Omega, unless the number is zero
  (`RevealOrder.OmegaInputIsCanonical`).
- Gossip of an aborted peer is ignored (`Receipts.OthersAreIgnored`), but an upheld dispute takes its
  message all the same (`Secrets.DisputedSecretGoesOn`).
- A secret that is taken before the order exists is not followed up once it does. If the first secret
  overtakes its reveal1, the second peer never takes its turn, and since the first arms no timer after
  speaking only the second waits, for itself (`Openings.EarlySecretIsNotFollowed`). Two honest nodes
  stall that way in `TwoNodes.RoundOfTwoCanStall`; the same two finish in
  `TwoNodes.RoundOfTwoGoesThrough` when the mail comes in order.
- A manual START_COMMIT2 after the first commit makes a node sign two
  (`FailingRuns.StartCommit2Equivocates`, `FailingRuns.LockedNodeSignsTwice`).
- `searchMinT` honours `vdf_t_max` for every threshold exactly when the first bound tried does
  (`Sweep.SearchMinT`, `Sweep.StartAboveTheCapEscapesIt`), although its comment calls it a cap.

## Model

| member | source | states |
|---|---|---|
| System.Agreement | protocol/doublecommitreveal.go:104-121 | over every run of a network with arbitrary delivery, any outside messages of the modelled kinds and ideal signatures: two nodes holding the same commits, whose orders left out the same peers and were computed over the same reveal1 keys, have the same order, and when both get an input for one fallback set it is the same bytes |
| System.VdfInputsAgree | node/protocol.go:647-677 | over every run: two VDF computations launched on one order and one fallback set were launched on the same input, also after both nodes' views have grown since |
| System.RunKeepsSysInv | node/protocol.go:115-174 | over every run of the network every node keeps its invariant, whatever messages of the modelled kinds the others and the outside send |
| DcrRuns.RoundsAgree | protocol/doublecommitreveal.go:383-465 | agreement for two arbitrary sequences of state machine calls, with arbitrary (also invalid) messages in any order |
| DcrRuns.OrdersAgree | protocol/doublecommitreveal.go:383-438 | two chains over the same commits and the same ordered peers yield one order |
| DcrRuns.InputsAgree | protocol/doublecommitreveal.go:442-465 | two chains over the same commits gather the same bytes for one order and one fallback set |
| DcrRuns.CommitBinds | protocol/doublecommitreveal.go:104-121 | one commit has at most one acceptable reveal1 and one acceptable reveal2, across nodes, when H has no collision among the values in play |
| DcrRuns.RunKeepsChain | protocol/doublecommitreveal.go:53-121 | over every sequence of calls in a round: each reveal1 hashes to its commit2, each foreign reveal2 to its reveal1, every reveal2 twice to its commit2; stored values never change; the stored order is a valid order of earlier views |
| DcrRuns.RoundKeepsChain | protocol/doublecommitreveal.go:53-121 | from a fresh round: the chain holds and reveal1 keys are commit2 keys |
| DcrRuns.OneTurnPerRound | protocol/doublecommitreveal.go:213-250 | IsFirstReveal2 and MyTurnAfter together answer true at most once over any sequence of calls |
| Turns.TurnAfterMeaning | protocol/doublecommitreveal.go:229-250 | in an order without repetitions MyTurnAfter is true exactly when the turn is not yet taken and self stands directly after the given peer, at any place |
| DcrRuns.SoloRoundGoesThrough | protocol/doublecommitreveal.go:53-282 | the agreement hypotheses can be met: a round of one participant goes through, takes its turn, and its input is its secret |
| TwoNodes.RoundOfTwoGoesThrough | node/protocol.go:115-174 | the hypotheses of System.Agreement and TurnOrder.SecretsComeOutInOrder can be met together: for any two secrets whose hashes do not collide and whose distances differ, a closed network of two honest nodes has a run without forgeries from its start (proposal, acknowledgements, lock, commits, reveals, secrets) after which both share one order of the two, both have published, and both have launched on the secrets in that order |
| TwoNodes.TheConditionsCanBeMet | protocol/doublecommitreveal.go:414-437 | a hash and two secrets that satisfy the conditions of RoundOfTwoGoesThrough |
| DcrRuns.LastRevealerSeesEverybodysInput | node/protocol.go:446-460 | the input the last revealer holds before it publishes is the one any node with the same order, commits and aborted set obtains after accepting its secret |
| RevealOrder.OrderIsCanonical | protocol/doublecommitreveal.go:383-438 | with distinct distances and reveals of which no two write one number other than zero differently, every map iteration order and every correct unstable sort give the same order |
| RevealOrder.OmegaIsCanonical | protocol/doublecommitreveal.go:391-407 | every descending listing of such reveals gives the same Omega, ties included |
| RevealOrder.OmegaInputIsCanonical | protocol/doublecommitreveal.go:391-407 | for every map of reveals: all descending listings feed the same bytes to the hash exactly when no two reveals write one number other than zero differently |
| RevealOrder.OneLengthIsUnambiguous | protocol/doublecommitreveal.go:397-401 | reveals of one length, such as 32 bytes, never write one number differently |
| RevealOrder.TiesMakeTheOrderAmbiguous | protocol/doublecommitreveal.go:414-435 | distinct distances are also necessary: with a tie a second, different valid order exists |
| RevealOrder.DistinctMeansNoCommitsTie | protocol/doublecommitreveal.go:414-430 | up to collisions of H, distances are distinct exactly when no two commits are the same number or mirrored around Omega |
| RevealOrder.CopiedCommitSplitsTheOrder | protocol/doublecommitreveal.go:76-84 | a commit copied from another peer is accepted, and then, when Omega does not depend on ties, every map iteration order has another under which the code computes a different order |
| RevealOrder.OrderSwapped | protocol/doublecommitreveal.go:383-438 | two peers with one commit, when Omega does not depend on ties: exchanging them in the map iteration exchanges exactly them in the computed order |
| RevealOrder.MixedLengthsChangeOmega | protocol/doublecommitreveal.go:104-121 | for every map with two reveals that write one number other than zero differently, which no length check excludes: next to any descending listing there is another that feeds different bytes to the hash |
| RevealOrder.TiedRevealsCommute | protocol/doublecommitreveal.go:403-407 | two writings of one number commute under concatenation exactly when they are equal or zero |
| RevealOrder.ComputedOrderIsValid | protocol/doublecommitreveal.go:383-438 | the order the code computes is one of the valid ones, for any iteration order |
| RevealOrder.ValidOrderMembers | protocol/doublecommitreveal.go:383-438 | every valid order lists exactly the committed peers that are not excluded, once each |
| RevealOrder.ComputedOrderDescends | protocol/doublecommitreveal.go:414-437 | the recorded distances descend along the computed order |
| RevealOrder.OrderMeaning | protocol/doublecommitreveal.go:383-438 | the order from the views alone: let w be the number of H over all kept reveals concatenated, largest first; the computed order falls in H of the shortest bytes of the distance between w and each commit, and exactly those digests are recorded |
| RevealOrder.OnlyMembersAreRecorded | protocol/doublecommitreveal.go:419-424 | computing the order changes the recorded distance of nobody outside it |
| RevealOrder.AllReadyMeansEverybody | protocol/doublecommitreveal.go:104-185 | counting reveals against commits is equality of the key sets; the order then lists exactly the revealed peers and every further reveal1 is refused |
| RevealOrder.HypotheticalOrderIsReal | protocol/doublecommitreveal.go:475-535 | the hypothetical order is the order computed after StartReveal1, under any other iteration order |
| Sorting.SortIsDescending | protocol/doublecommitreveal.go:397-401 | the sort yields descending keys |
| Sorting.SortKeepsContents | protocol/doublecommitreveal.go:397-401 | the sort is a permutation |
| Sorting.DescendingUnique | protocol/doublecommitreveal.go:426-430 | two descending listings of one multiset without tied entries are the same list |
| Sorting.SortedKeysUnique | protocol/doublecommitreveal.go:397-407 | two descending listings of one multiset have the same keys at every position, ties included, when keys of one value are the same bytes |
| Sorting.SortedConcatUnique | protocol/doublecommitreveal.go:397-407 | two descending listings of one multiset concatenate to the same bytes when keys of one value are the same bytes or zero |
| Sorting.SortSlice | protocol/doublecommitreveal.go:397-401 | sorts the array in place: the result is SortDesc of the old contents |
| Encoding.MinBytesRoundTrip | protocol/doublecommitreveal.go:419-421 | reading back the shortest big-endian form of a number gives the number |
| Encoding.BigEndianInjective | protocol/doublecommitreveal.go:397-401 | equal-length strings with one integer value are the same bytes |
| VdfInput.GateIsExact | node/protocol.go:653-664 | when aborted peers are order members with a reveal1 and no stray secret is held, the counting gate opens exactly when the input with fallback exists |
| VdfInput.GateMeaning | node/protocol.go:658-664 | what the count tests in general: missing secrets do not outnumber stray secrets and aborts outside the order |
| VdfInput.GateBurns | node/protocol.go:658-674 | the exact states in which the gate opens on an input that cannot be built, so that the launch flag is burned |
| VdfInput.InputDefined | protocol/doublecommitreveal.go:442-465 | the input with fallback exists exactly when no secret is missing and every aborted member has a reveal1 |
| VdfInput.InputIsTheValuesInOrder | protocol/doublecommitreveal.go:442-465 | the input is the concatenation, in reveal order, of r for the peers in the fallback set and s for all others, for orders of any length |
| VdfInput.FinalInputDefined | protocol/doublecommitreveal.go:267-282 | FinalInput answers exactly when the secrets held are those of the order |
| VdfInput.FinalInputIsFallbackOfNobody | protocol/doublecommitreveal.go:267-282 | when FinalInput answers, the input with an empty fallback set is the same bytes |
| VdfInput.BothInputsAreReal | protocol/doublecommitreveal.go:546-578 | ifReveal is the input after StartReveal2 without self in the fallback set; ifAbort is the input with self added to it; both defined exactly when the call answers |
| VdfInput.LastRevealerKnowsTheInput | node/protocol.go:446-460 | when only its own secret is due, the last revealer's gate opens right after StartReveal2 and the input exists |
| Gates.VdfLaunchIsExact | node/protocol.go:647-677 | under the gate's conditions tryStartVDF launches exactly when the input exists, and on that input |
| VdfRuns.LaunchIsNeverBurned | node/protocol.go:647-677 | over every run from an order whose members have all revealed r, while it is not computed again, only members are aborted in reveal2 and only members' secrets are taken: the gate's conditions hold and a launch always has its input |
| Gates.RecomputingLoosensTheGate | node/protocol.go:393-395 | recomputing the order leaves out peers aborted in reveal2, and the gate then opens with that many secrets missing |
| FailingRuns.HonestLaunchBurned | node/protocol.go:658-674 | a run of an honest node from its start (a lock, the commits and reveals of three others, a reveal2 vote abort of an order member, a late reveal1 vote abort that recomputes the order, one secret) ends with the launch flag set, no input, and a live order member still to speak |
| Gates.Reveal1StartsWithEverybody | node/protocol.go:347-361 | in any locked session, reveal1 starts exactly when missing commits and repeated list entries do not outnumber stray commits and aborted outsiders, and otherwise nothing changes; when the list has no repetition, no outsider is aborted and only live participants' commits are held, that is exactly when every live participant has committed |
| Gates.CommitGateMeaning | node/protocol.go:347-361 | what the count tests in every locked session: live participants without a commit, plus repeated entries of the list, do not outnumber the commits held of others plus the aborted peers outside the list |
| Gates.CommitGateMisfires | node/protocol.go:347-361 | the exact states of a locked session in which the gate opens although a live participant has not committed, and those in which it stays shut although all have |
| FailingRuns.Reveal1StartsWithoutEverybody | node/protocol.go:355-361 | a run of an honest node from its start (a lock, one more commit, two votes against that committer) ends in reveal1 although a live participant has not committed |
| FailingRuns.OutsiderStartsReveal1 | node/timeout.go:406-425 | a run of an honest node from its start (a lock of two, one proof against a peer outside the list) ends in reveal1 although the other participant is live and has not committed; nobody voted and no stray commit is held |
| FailingRuns.RepeatedEntryBlocksReveal1 | node/session.go:217-224 | a run of an honest node from its start (a lock that lists a peer twice, that peer's commit) ends with every participant live and committed and reveal1 not started |
| Gates.EffectiveSizeMeaning | node/timeout.go:26-38 | in every locked session the effective size is the number of live participants, plus the repeated entries of the list, minus the aborted peers outside it |
| Gates.EffectiveSizeIsLive | node/timeout.go:26-38 | without repetitions and without aborted outsiders the effective size is the number of live participants |
| Gates.EffectiveSizeShrinks | node/timeout.go:26-38 | over every run after the lock the effective size never grows and the reveal1 flag is never cleared |
| Receipts.AbortShrinks | node/timeout.go:26-38 | in a locked session each new abort takes one from the effective size, except one in ready_ack, which takes nothing |
| Gates.OneVoteAborts | node/timeout.go:207-218 | a single vote, the first for its phase and target, aborts exactly when the session size is below 2: before the lock, and in a session of one |
| Gates.VoteAborts | node/timeout.go:207-218 | a vote aborts a target that is not aborted yet exactly when the distinct voters, this one included, reach the majority |
| SessionLaws.Reveal1NeverStartsShort | node/protocol.go:347-361 | over every run: at the step inside whichever handler starts reveal1, and ever after, every live participant has committed, as long as up to the end of that handler stray commits and aborted outsiders do not outnumber the repeated entries |
| SessionLaws.CommitGateOverRuns | node/protocol.go:347-361 | over every run after a sound lock, while no outsider is aborted and only live participants' commits are held: an attempt at its end starts reveal1 exactly when every live participant has committed |
| Openings.CommitTriesGate | node/protocol.go:115-136 | a first gossiped commit2, behind which no reveal1 waits, is stored with its signed form; when the count with it reaches the effective size, reveal1 starts and the node registers, signs and publishes its own r, ordering at once if nobody else is missing; otherwise nothing more happens |
| Openings.CommitFreesTheReveal1 | node/protocol.go:133-135 | a commit2 also takes the matching reveal1 buffered behind it, here one that does not complete the count, with its signed form, empties the buffer, and then tries the gate |
| Openings.VotedOutTriesGate | node/timeout.go:374-387 | the vote that reaches the majority in commit2 aborts its target and tries the gate with the smaller size, with the same outcome |
| Openings.ProvedOutTriesGate | node/timeout.go:406-425 | so does a proof of two signed commits |
| Openings.Reveal1Orders | node/protocol.go:192-212 | a gossiped reveal1 that matches and behind which no secret waits is stored, at an honest node, with its signed form; the order is computed over the views, without the aborted, exactly when as many have revealed as have committed or as the effective size; then the first in it, if it is this honest node, publishes its secret, and everybody else watches the first peer due |
| Openings.VotedOutMayOrder | node/protocol.go:606-619 | the vote that reaches the majority in reveal1 leads to an order exactly when reveal1 has started and the reveals held reach the smaller size, and otherwise only to the abort |
| Openings.ProvedOutMayOrder | node/timeout.go:406-425 | so does a proof of two signed reveals |
| SessionLaws.LockIsWell | node/session.go:217-244 | with distinct participants and no earlier vote abort the lock makes the effective size the number of participants |
| SessionLaws.LockExcludesTheRest | node/session.go:229-244 | connected peers that are not listed are aborted, the status of a listed peer does not change, and no exclusion is counted as a late abort |
| SessionLaws.LockListsTheReady | node/session.go:131-197 | a lock is published only by the proposer once every connected peer answered or was excluded, and lists exactly the ready peers not aborted, each once |
| SessionLaws.IterationIsDistinct | node/session.go:172-177 | an iteration over a set names each member once and nothing else |
| Openings.LockIsTaken | node/session.go:200-265 | the first well-formed lock fixes list and size, excludes exactly the connected peers left out and not yet aborted, and makes the node draw, register, sign and publish its commit and try the gate, unless it skips; any other lock changes nothing |
| Tallies.ReadyAckCounts | node/session.go:68-82 | a READY_ACK is counted until the lock; the proposer then publishes the lock exactly when every connected peer has answered or been excluded, or gives up when nobody is left to list |
| Tallies.ReadyAckTimeoutAccuses | node/session.go:101-126 | the READY_ACK timeout accuses exactly the silent connected peers, and tries the lock when there are none |
| Tallies.ReadyAckVoteExcludes | node/timeout.go:223-262 | a READY_ACK vote is answered exactly when the target has answered, and excludes it exactly at more than half of the connected peers and the node, which may complete the lock |
| Tallies.ReadyAckDisputeIncludes | node/timeout.go:289-297 | the same majority of disputes counts the target as ready, clears the votes against it and tries the lock |
| SessionLaws.ProposalIsAnswered | node/session.go:36-63 | the first proposer is kept and acknowledged, a rival proposal and one after the lock change nothing |
| SessionLaws.ProposingIsOnce | node/session.go:16-31 | a node proposes only while it knows no proposal |
| SessionLaws.CommitTimeoutAccuses | node/timeout.go:108-126 | an honest commit timeout accuses exactly the participants neither heard nor aborted |
| SessionLaws.FalseTimeoutAccuses | node/timeout.go:159-169 | a false-timeout-vote node accuses also those who answered, except itself and the aborted |
| SessionLaws.PhaseTimeoutAccuses | node/timeout.go:108-169 | the commit2 and reveal1 timeouts of any profile: nothing before their phase, then votes against exactly the participants neither heard nor aborted, and by a false voter also against the heard ones but itself |
| SessionLaws.Reveal2TimeoutAccuses | node/timeout.go:148-154 | the reveal2 timeout accuses exactly the peer it was armed for, and nobody once another is awaited |
| Accountability.EveryAbortIsAccountedFor | node/timeout.go:374-424 | over every run of the modelled messages: whoever a node aborts after its lock was voted against by a majority of distinct senders, or signed two values in that phase and is no node running the code |
| Accountability.NoFalseTimeoutAbort | node/timeout.go:108-146 | over every run with fewer faulty senders than a majority: no node heard in time by every correct node in commit2 or reveal1 is aborted in that phase at any locked node; another peer only with a proof of equivocation |
| Accountability.AbortAndDisputeShareAMember | node/timeout.go:265-287 | over every run: an abort by vote at any node and an upheld dispute at any node for one phase and target share a participant |
| Accountability.OnlyVotesAbortAnHonestSigner | node/timeout.go:406-424 | no framing: a peer that signs one value per phase is aborted after the lock only by a majority of votes, whatever votes, disputes and proofs are sent |
| Accountability.RunKeepsRecords | node/timeout.go:196-219 | over every run: voters and disputers counted are among those who sent, buffered values were signed by their author; nothing recorded is forgotten |
| Accountability.ActionKeepsTallies | node/timeout.go:207-213 | repeated votes and the clearing of votes by a dispute never count somebody who did not send |
| Accountability.GenuineProofs | node/timeout.go:406-424 | two signed values of one phase in hand are a proof of equivocation, and never against a node of the network |
| Tallies.VoteIsCounted | node/timeout.go:207-213 | a vote adds exactly its sender to exactly the tally of its phase and target, whatever it leads to |
| Tallies.VoteBelowMajority | node/timeout.go:203-218 | below the majority, or against somebody already aborted, a vote leads to nothing but its count and the answer |
| Tallies.AccusedIsDefended | node/timeout.go:203-205 | a node of any reachable state answers a vote against a peer whose message it accepted with a document that verifies and carries the accepted value, and answers with none when it accepted none |
| Tallies.DisputeIsCounted | node/timeout.go:264-287 | a dispute adds its sender to its tally; exactly at a majority it clears the votes of that phase and target and no others; a document that does not verify does no more |
| Receipts.OnlyProofsAbort | node/timeout.go:406-425 | an equivocation message aborts exactly on two verified documents with different values, in the phase named, and otherwise changes nothing |
| NodeRuns.EquivocationIsProvable | node/protocol.go:115-129 | a second, different signed value makes the node broadcast a proof that aborts the sender at every node that has not aborted it yet |
| NodeRuns.AbortIsFinal | node/timeout.go:374-381 | after abortPeer the target is aborted, in the earlier phase if it already was |
| FiniteSets.QuorumsMeet | node/timeout.go:16-18 | two subsets that together outnumber a set containing both share a member |
| TurnOrder.SecretsComeOutInOrder | node/protocol.go:270-293 | over every run of a closed network sharing one order: when the k-th peer has published, been voted against or been aborted in reveal2, every earlier peer has published or been aborted somewhere |
| TurnOrder.RunKeepsTurn | node/protocol.go:409-418 | over every such run no node has claimed its turn, armed a timer, voted or aborted in reveal2 out of turn |
| TurnOrder.ClaimedInTurn | protocol/doublecommitreveal.go:213-250 | a turn granted by IsFirstReveal2 or MyTurnAfter is granted when everybody before is done |
| TurnOrder.ArmedInTurn | node/protocol.go:623-642 | the reveal2 timer is armed only for a peer before whom everybody is done |
| TurnOrder.NextPendingSkips | node/protocol.go:623-642 | the loop's answer is an order member, and everybody between the start and it is skipped |
| Secrets.NextPendingIsDue | node/protocol.go:623-642 | the loop answers exactly the first member after the given one that is neither aborted nor heard, and nobody exactly when there is none |
| Secrets.SecretGoesOn | node/protocol.go:270-293 | a gossiped secret that matches is stored with its signed form; then the peer directly after its owner, if it is this honest node, registers, signs and publishes its own secret, the timer watches the next peer due, and the VDF starts exactly when the gate has its count, on the input of that moment |
| Secrets.VotedOutGoesOn | node/timeout.go:385-400 | the vote that reaches the majority in reveal2 aborts its target, and the round goes on after it in the same three ways |
| Secrets.ProvedOutGoesOn | node/timeout.go:406-425 | so does a proof of two signed secrets |
| Secrets.DisputedSecretGoesOn | node/timeout.go:342-370 | an upheld dispute about a secret that matches stores it with the disputed document, clears the votes, leaves the buffers alone, and the round goes on after its owner |
| Secrets.DisputedSecretIsGossip | node/timeout.go:342-370 | an upheld dispute about any verified reveal2 of another peer that is not aborted and whose reveal1 is held, new, repeated, wrong or in conflict, leaves exactly the state that gossip of the same message leaves, the tallies aside |
| Secrets.ConflictingSecretIsProved | node/timeout.go:351-355 | an upheld dispute about a second secret publishes the proof made of the kept and the disputed document, and nothing else changes |
| Secrets.LaunchUnderConditions | node/protocol.go:647-677 | under the gate's conditions the launch of the three ways comes exactly when the input with fallback exists, and uses it |
| Secrets.LaunchedOnTheValues | node/protocol.go:647-677 | a launch with every value at hand runs on the concatenation, in reveal order, of r for each member aborted in reveal2 and s for every other |
| Openings.Reveal1FreesTheSecret | node/protocol.go:205-207 | a reveal1 that does not complete the count also takes the matching secret buffered behind it, empties the buffer, and the round goes on after its owner |
| Openings.SecretThenOrder | node/protocol.go:205-210 | when that reveal1 is the last one needed, the buffered secret is followed up by the order there was before, and only then is the new order computed |
| Openings.EarlySecretIsNotFollowed | node/protocol.go:205-210 | a secret held before the order is computed is not followed up by it: the node next in the order stays silent, waits for itself, and a copy of the secret changes nothing |
| TwoNodes.RoundOfTwoCanStall | node/protocol.go:156-174 | a closed run of two honest nodes from their start, in which one secret overtakes its reveal1, ends with the second node holding the first secret, next in the order, silent, and waiting for itself |
| TwoNodes.CopiesChangeNothing | node/protocol.go:156-174 | such a node ignores every further copy of the secret |
| Confluence.EveryPrefixSettles | node/protocol.go:115-174 | after every prefix of every interleaving of one signed message per peer and phase, the three views and both buffers hold what the delivered messages determine |
| Confluence.InterleavingsAgree | node/protocol.go:296-343 | two interleavings of the same messages end with the same views and the same buffers about everybody else |
| Deliveries.EveryMixedRunSettles | node/protocol.go:115-174 | the same after every run that mixes gossip, commits gossiped again, the node's own proposals and timers, a lock that lists everybody connected, and commit2 disputes from anybody, upheld or not, as long as no upheld one brings a commit for which a reveal1 is waiting |
| Deliveries.MixedRunsAgree | node/protocol.go:115-174 | two such runs in which the same messages took effect end with the same views and the same buffers about everybody else |
| Confluence.MatchingMailIsAllStored | node/protocol.go:296-343 | when a sender's values match, all of them end up stored and neither buffer holds anything of it |
| Confluence.DisputeStrandsReveal1 | node/timeout.go:298-317 | after an upheld commit2 dispute a reveal1 is buffered behind its stored commit exactly when it was buffered before |
| Confluence.DisputeEqualsGossip | node/timeout.go:298-317 | a new commit2 taken by dispute leaves what gossip would have left exactly when no reveal1 of that peer was waiting |
| Confluence.DisputeSettles | node/timeout.go:298-317 | confluence survives a commit2 delivered by dispute exactly when the peer's reveal1 was not delivered before |
| Openings.DisputedCommitIsGossip | node/timeout.go:298-317 | an upheld dispute about any verified commit2 of another peer that is not aborted leaves exactly the state that gossip of it leaves, the tallies aside, when no reveal1 waits behind it |
| Openings.DisputedRevealIsGossip | node/timeout.go:318-341 | so does one about any verified reveal1 of a committed peer that is not aborted, at a node that does not defer its own reveal1 |
| Receipts.OthersAreIgnored | node/signing.go:72-89 | a gossiped message changes nothing unless it is somebody else's, not aborted, names its sender as author, and is signed over phase, sender and value |
| Receipts.RepeatedOrWrongIsDropped | protocol/doublecommitreveal.go:76-121 | a repeated value and a reveal that does not hash to what is held change nothing |
| Receipts.EarlyRevealWaits | node/protocol.go:296-328 | a reveal that comes too early waits in its buffer, and a second one of that peer is dropped |
| Confluence.ResendingFreesNothing | node/protocol.go:123-131 | a second copy of the commit, gossiped or disputed, changes nothing, so it does not flush the buffered reveal1 |
| FailingRuns.StartCommit2Equivocates | node/protocol.go:32-47 | after a manual START_COMMIT2 the node has published one commit exactly when it had published none but the new one |
| FailingRuns.LockedNodeSignsTwice | node/protocol.go:32-47 | an honest node led by a run from its start to the lock, and then given START_COMMIT2, has published two commits exactly when the two drawn secrets have different commits |
| NodeRuns.RunKeepsInv | node/protocol.go:192-343 | over every run of a node: the chain, write-once values, one signed form kept exactly per accepted message, own values only published, launched input still derivable |
| NodeRuns.OneValuePerPhaseOverRuns | node/protocol.go:519-586 | over every run without manual controls a node publishes at most one value per phase |
| Handlers.HandlePath | node/protocol.go:78-174 | every modelled message and timer handler is a sequence of guarded atomic actions |
| Signing.SigningBytesInjective | node/signing.go:13-21 | with identifiers of one length the signed bytes determine phase, peer and value |
| Signing.SigningBytesAmbiguous | node/signing.go:15-21 | with identifiers of different lengths they do not |
| Receipts.DocumentsRoundTrip | node/signing.go:47-69 | a signed document reads back in its phase, a secret is never read as a hash nor the reverse, and other phases have no documents |
| Receipts.PhasesAreSpelled | node/signing.go:49-66 | the bytes signed for each phase are its name in the code |
| Signing.HonestSignerNeverEquivocates | node/signing.go:47-89 | no two documents prove an equivocation against a peer that signs one value per phase |
| Gates.StrategicRevealerIsLast | node/protocol.go:219-266 | when last-revealer-abort decides to publish, it is last in the order anybody then computes |
| Openings.StrategistOpensWhenLast | node/protocol.go:219-266 | having deferred, it opens its commit exactly when all others but itself are in and the order computed then ends with it; otherwise it does nothing |
| Openings.StrategistDecides | node/protocol.go:192-212 | that decision is taken after a reveal1 of somebody else that does not complete the count, on the views that include it |
| Secrets.LastRevealerLaunchesFirst | node/protocol.go:446-460 | last-revealer-vdf launches on the views with its own secret exactly when it stands last and the gate has its count, and publishes all the same |
| Gates.StrategicChoiceIsMinimal | node/protocol.go:429-444 | last-revealer-abort-r2 speaks exactly when that does not give the larger input; the input the others compute is the smaller of the two |
| Sweep.SearchMinT | cmd/launcher/sweep.go:210-260 | for any oracle the trials are a doubling expansion, a bisection by midpoints down to the gap, and series of confirmations at the bound found, one step above it, two steps above it and so on, each given up at its first unsafe trial; the first series without one is the result, and nothing is found exactly when the expansion or the next step passes vdf_t_max. For a noiseless oracle a result is found exactly when the expansion reaches the threshold, it brackets the threshold to within the gap, and one series is enough; both searches take logarithmically many trials |
| Sweep.Expand | cmd/launcher/sweep.go:211-224 | the bracket after expansion, for any oracle, and when it succeeds |
| Sweep.Bisect | cmd/launcher/sweep.go:226-235 | ends with a bracket within the gap after at most ceil(log2(width/gap)) trials |
| Sweep.ConfirmSeries | cmd/launcher/sweep.go:238-252 | all safe exactly when ConfirmRuns consecutive trials were, recorded as the last rows |
| Sweep.Climb | cmd/launcher/sweep.go:238-260 | for any oracle: one series after another, each a step above the one before, all given up at their first unsafe trial but the last; the last one's T is the result, and nothing is found exactly when the next step passes vdf_t_max |
| Sweep.ReachIsOverHalf | cmd/launcher/sweep.go:217-224 | the largest T the expansion reaches is over half the cap, and within it when the first bound is |
| Sweep.NotFoundMeansUnsafe | cmd/launcher/sweep.go:220-223 | when nothing is found, every T up to half the cap is unsafe |
| Sweep.StartAboveTheCapEscapesIt | cmd/launcher/sweep.go:213-217 | when the first bound is above VDFTMax a T above VDFTMax is returned, as soon as the threshold lies between the two; with the bound of SearchMinT: the cap is kept for every noiseless oracle exactly when the first bound is within it |
| Dcr.DoubleCommitReveal.constructor | protocol/doublecommitreveal.go:40-48 | a fresh round |
| Dcr.DoubleCommitReveal.StartCommit2 | protocol/doublecommitreveal.go:53-71 | secret, r = H(s), c = H(r), registered under self |
| Dcr.DoubleCommitReveal.HandleCommit2 | protocol/doublecommitreveal.go:76-84 | accepted iff new; equivocated iff a different value was stored; new state |
| Dcr.DoubleCommitReveal.StartReveal1 | protocol/doublecommitreveal.go:88-98 | registers r; allReady iff the counts agree |
| Dcr.DoubleCommitReveal.HandleReveal1 | protocol/doublecommitreveal.go:104-121 | valid iff new, committed and H(r) = c; equivocated iff a different value was stored; new state |
| Dcr.DoubleCommitReveal.Sorted | protocol/doublecommitreveal.go:397-401 | the slice sorted by sort.Slice |
| Dcr.DoubleCommitReveal.CollectReveals | protocol/doublecommitreveal.go:391-396 | the entries the loop appends |
| Dcr.DoubleCommitReveal.HashKeys | protocol/doublecommitreveal.go:403-407 | H of the sorted reveals in sequence |
| Dcr.DoubleCommitReveal.CollectDistances | protocol/doublecommitreveal.go:414-424 | one distance per committed peer that is not excluded |
| Dcr.DoubleCommitReveal.ComputeRevealOrder | protocol/doublecommitreveal.go:131-185 | the same state as excluding nobody |
| Dcr.DoubleCommitReveal.ComputeRevealOrderExcluding | protocol/doublecommitreveal.go:383-438 | order, distances and nothing else change |
| Dcr.DoubleCommitReveal.HypotheticalRevealOrderWithSelf | protocol/doublecommitreveal.go:475-535 | the order with self's reveal added, no state changed |
| Dcr.DoubleCommitReveal.IsFirstReveal2 | protocol/doublecommitreveal.go:213-224 | answers and claims the turn |
| Dcr.DoubleCommitReveal.MyTurnAfter | protocol/doublecommitreveal.go:230-250 | answers and claims the turn |
| Dcr.DoubleCommitReveal.StartReveal2 | protocol/doublecommitreveal.go:254-262 | registers s |
| Dcr.DoubleCommitReveal.FinalInput | protocol/doublecommitreveal.go:267-282 | the concatenated secrets |
| Dcr.DoubleCommitReveal.HandleReveal2 | protocol/doublecommitreveal.go:287-303 | accepted iff new, revealed and H(s) = r; equivocated iff a different value was stored; new state |
| Dcr.DoubleCommitReveal.Reveal2CountExcluding | protocol/doublecommitreveal.go:370-380 | number of secrets outside the set |
| Dcr.DoubleCommitReveal.FinalInputWithFallback | protocol/doublecommitreveal.go:442-465 | the concatenation with r_i for the fallback set |
| Dcr.DoubleCommitReveal.ComputeBothVDFInputs | protocol/doublecommitreveal.go:546-578 | both concatenations |
| Dcr.DoubleCommitReveal.Reset | protocol/doublecommitreveal.go:581-593 | a fresh round |
| NodeClass.Node.EffectiveSize | node/timeout.go:26-38 | the loop yields the session size minus the aborts after the lock; READY_ACK exclusions are not subtracted twice |
| NodeClass.Node.AbortedInPhase | node/timeout.go:50-60 | the loop collects exactly the peers aborted in that phase |
| NodeClass.Node.IsLastReveal2 | node/protocol.go:490-504 | true iff self is the last order member not aborted in reveal2 |
| NodeClass.Node.NextPendingReveal2Peer | node/protocol.go:623-642 | the first order member after the given one that is neither aborted nor heard, or nobody |
| NodeClass.Node.WouldBeLast | node/protocol.go:232-250 | true iff the first position of self in the hypothetical order is the last one |
| NodeClass.Node.PublishSessionLock | node/session.go:159-197 | publishes the ready peers that are not aborted, or gives up the proposal when there are none |
| NodeClass.Node.ExcludeAbsent | node/session.go:229-244 | marks exactly the connected peers that are neither listed nor aborted |
| NodeClass.Node.VoteAgainst | node/timeout.go:118-123 | one vote for each listed peer outside the spared set, in order; says whether there was one |
| NodeClass.Node.HandleEvent | node/protocol.go:78-174 | the whole new state after any modelled message or timer is the transition NodeSpec.Handle that every run-level theorem is about |

## Left out

- NodeRuns.OneValuePerPhaseOverRuns: runs hold no START_COMMIT2 control and no equivocating attacker hook.
- Accountability.EveryAbortIsAccountedFor: runs hold no START_COMMIT2 control; a node that follows one signs two commits.
- Handlers.HandlePath: the RESET and START_* cases of the dispatch are not events.
- NodeClass.Node.HandleEvent: the RESET and START_* cases of the dispatch are not events; `Reset` and `OnStartCommit2` are methods of their own.
- NodeClass.Node.SignAndPublish: the second commit of the equivocate-commit profile is not sent.
- NodeClass.Node.RevealOwn1: the ModifyReveal1 hook and the reveal1 timer are not modelled.
- NodeClass.Node.HandleSessionLock: the ModifyCommit hook and the commit timer are not modelled.
- TurnOrder.SecretsComeOutInOrder: "aborted" means in any phase, since the timer passes over every aborted peer, and "published" means sent, not received by everybody.
- NodeClass.Node.PublishReveal2: the delayed publication of last-revealer-vdf is immediate; `reveal2PrecomputeDelay` and the simulated capacity are not modelled.
- NodeClass.Node.StartReveal2TimerFor: keeps the target only; a timer with that target may fire at any later time.
- libp2p, gossipsub, discovery, JSON encoding, logging, colours and the command line: replaced by decoded messages and a set of everything sent.
- The Wesolowski VDF, SHA-256 and Ed25519 themselves; key lookup in the peerstore.
- Wall-clock time: a phase timer may fire at any time, `stopTimer` has no effect, and of the timers only the reveal2 target is kept. This allows more runs than the code has.
- Data races between topic goroutines: each handler is atomic.
- Manual START_REVEAL1 and START_REVEAL2 controls, and START_COMMIT2 and RESET inside a run: messages carry no session id, so every claim is about one round.
- Errors of the random source and of publishing.
- The ModifyCommit, ModifyReveal1, ModifyReveal2 and equivocating hooks of the attacker profiles: such a peer is an outside sender.
- Progress: no theorem says which deliveries let every round finish; two nodes are shown to finish and to stall.
- The deep copies made by clone, AllValues, RevealDist and the other getters.
- The map iteration order is a parameter fixed within one handler; sort.Slice is modelled as an insertion sort, and the canonical-order lemmas cover any other correct sort.
- The launcher's process handling, log parsing, CSV and JSON results, and capacitySpec.resolve.
