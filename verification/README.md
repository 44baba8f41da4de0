# Palimesh: a verified model of its consensus core

Palimesh is a proof-of-stake chain written in TypeScript. This project models, in Dafny, the parts of
it whose correctness is hardest to see by reading, and proves what they guarantee:

- **Byzantine agreement.** Quorum arithmetic (`Quorum.dfy`), one consensus round (`Round.dfy`), what it comes to
  over all message orders (`RoundOutcome.dfy`) and the state root it settles on (`StateRoots.dfy`), the durable vote
  ledger (`Ledger.dfy`), the equivocation detector (`Detector.dfy`) and what it finds over whole runs
  (`DetectorRuns.dfy`), and the coordinator that drives them through messages, timers, restarts and crashes
  (`Coordinator.dfy` as a state machine on values, `CoordinatorObject.dfy` as the object with its fields).
  `VoteSafety.dfy` and `Buffering.dfy` prove what every event keeps at one node, `Interleaving.dfy` that calls are
  runs of smaller events; `Delivery.dfy` follows messages from their arrival to finality or an accusation, and
  `Reentry.dfy` shows that a node does not give its vote up; `Network.dfy` composes any number of nodes with an arbitrary environment and proves agreement over
  whole runs; `Schedules.dfy` builds the runs that show its conditions to be exact; `Hazards.dfy` says where the
  guarantee at one node stops.
- **The divergence alarm** that tells a node its peers agree on a state it did not reproduce
  (`Divergence.dfy`).
- **The policy expression evaluator** (`Expression.dfy`): a lexer and a one-pass parser, proved against an
  independent grammar and meaning.
- **Fees and emission** (`Fees.dfy`): base fee, blob gas price by a truncated exponential, block rewards.
- **The in-memory chain indexes** and finality flags (`ChainIndex.dfy`), and the runs in which applies and
  rebuilds of the chain overlap (`ChainRuns.dfy`).
- **Epoch reward settlement** (`Rewards.dfy`, `Settlement.dfy`), from the scaling of the manifest on
  (`Manifest.dfy`).
- **Proposer selection** (`Proposer.dfy`).

Objects that the program updates in place are classes; each method is proved to compute a function on
values, and the theorems are about those functions and about all runs of them. `Arithmetic.dfy` holds
shared facts about multiplication and division.

## What the theorems assume

- Validator ids and addresses are compared in lower case throughout the program; here they are already
  in that form.
- Calls of the coordinator may interleave at every await: a run consists of whole calls and of the segments
  between awaits in any order (`Interleaving.CallIsSegments`). When the state root arrives for a start that was
  interrupted, the height must still be unfinalized and no other block prepared there; the program does not check
  this again, and `Hazards.LateStartContradictsIff` and `Hazards.StartAfterFinality` say exactly what happens
  otherwise.
- Applies of the chain engine wait for each other, and a rebuild empties the chain without waiting. `ChainIndex`
  says what its calls do when nothing comes between; `ChainRuns` takes them apart (`ChainRuns.CallIsSegments`) and
  lets applies, adoptions and the emptying of the chain interleave at every await.
- A ledger write that is attempted succeeds and is durable. The coordinator object keeps its file in step with
  its trace while the file is writable (`CoordinatorObject.BftCoordinator.CrashAnywhere`).
  `Hazards.RestartSafeIff` gives the exact condition on the file and the tip when a write was lost.
- After a restart, the chain tip a node reads is at or above every height whose votes it has pruned. The
  program prunes the ledger before it hands the finalized block on
  (node/src/bft-coordinator.ts:615-618), so this rests on that hand-over.
- The membership is fixed during a run; stakes may change at any node at any time, also in the middle of a
  round. `Hazards.SecondVoteAfterUpdateIff` covers a change of membership.
- One vote per height is promised of sound nodes: validators, and other nodes unless quorums are relaxed and the
  total stake is one. `Schedules.OneHashIff` shows that this is exact. Nodes that are not sound are part of the
  network too, and nothing is assumed of them.
- Signatures are ideal: a vote of an honest node verifies only if that node sent it. The state root is not
  part of the signed text (node/src/bft-coordinator.ts:1635-1637), so the agreement theorems assume nothing
  about roots. `StateRoots` lets every node use its own table of stakes, assumes that roots arrive as sent, and calls a validator reporting if every prepare
  it sends at the height carries one and the same root. A validator that restarts does not report: its replayed
  prepare has no root (`Hazards.RestartDropsRoot`). Nor does one that enters the round again and computes another.
- Timers may fire at any time or never; broadcasts may be lost, duplicated, reordered and invented.
- Numbers in expressions are exact decimals that overflow to infinity where a double does; double
  rounding, infinities and not-a-number in variables are not modelled.
- Comparing validator ids or node ids for sorting is some total order. Node ids of a manifest are in the form to
  which the program brings them before it pays.

## What turned out not to hold

- Relaxed quorums need not meet when the total stake is 1, 2 or 4 (`Quorum.RelaxedQuorumsCanBeDisjoint`),
  and only then (`Quorum.RelaxedQuorumsMeet`).
- A validator that is alone never leaves the prepare phase (`Round.SoleValidatorNeverCommits`): quorum is
  only evaluated when a peer's prepare arrives. `StateRoots.CanGetPastPrepareIff` is the exact condition.
- A node outside the validator set leaves the prepare phase exactly in relaxed mode with a total stake of
  one (`Round.ObserverLeavesPrepareIff`), and can then be made to commit to two blocks at one height
  (`Schedules.ObserverCommitsTwice`).
- New stakes can break agreement although faulty stake is below a third under the old and the new table
  (`Schedules.NewStakesSplit`). Agreement holds over all runs exactly when any two quorums under any tables in
  use, each with an honest validator and one more, share an honest validator (`Schedules.AgreementIff`).
- Prepares without a state root join every group, so honest nodes can commit to one block with two different
  roots (`StateRoots.TwoSilentOfFourSplit`), and restarts alone can bring this about
  (`StateRoots.RestartsSplitFour`), and so can new stakes (`Schedules.NewStakesSplitRoots`). They cannot exactly
  when quorums under any tables in use always share an honest validator that reports a root
  (`StateRoots.RootsAgreeIff`).
- The check against a second prepare comes before the state root is awaited and is not repeated
  (`Hazards.OverlappingStarts`). A start that goes on contradicts a vote of its node exactly when another block was
  prepared and voted for there meanwhile (`Hazards.LateStartContradictsIff`) or another one was finalized and its
  vote pruned (`Hazards.StartAfterFinality`).
- A vote that arrives before its round is open counts exactly when it is among the first fifty messages, and the
  first of its sender, type and height, whether or not that first one carries a valid signature
  (`Delivery.BufferKeepsFirsts`, `Delivery.EarlyAndLateVotesCount`).
- An equivocation is found exactly when fewer heights above it than are tracked have been recorded meanwhile
  (`DetectorRuns.FoundIff`).
- A change of membership forgets the votes of unfinalized heights (`Hazards.SecondVoteAfterUpdateIff`).
- Evidence bookkeeping is exact exactly when both caps are at least one
  (`EquivocationDetection.AlwaysExactIff`).
- Two pairs can both pass the divergence threshold when the total stake is 2 or 4, and only then
  (`Divergence.TwoCanPass`, `Divergence.AtMostOnePasses`). In relaxed mode these are also the totals for which a
  round that is already committing can raise the alarm (`Divergence.SilentIff`).
- The base fee moves by at most an eighth exactly when the gas limit is even or at most one
  (`Fees.EighthIffEvenLimit`), and grows with the load exactly from the fee floor up
  (`Fees.MonotoneIffAtFloor`).
- Adopting a verified snapshot keeps only its blocks up to the first that is refused or repeats a hash, and none
  if it does not start at block one, so the chain can become shorter (`ChainIndex.AdoptionOutcome`,
  `ChainIndex.AdoptionShortensIff`); a rebuild forgets which blocks were finalized by vote
  (`ChainIndex.RebuildForgetsVotes`).
- A rebuild that empties the chain while an apply waits for its execution lets that block in alone, and the
  snapshot is refused (`ChainRuns.RebuildOvertakesApply`). The chain starts at block one all through a run exactly
  when it is never emptied under an apply of a later block that goes on to push (`ChainRuns.FromOneIff`); array,
  maps and flags agree in every run.
- The cap per node does not bound what a node receives in all. It does for every settlement exactly when the
  manifest names no node twice (`Manifest.CapPerNodeIff`). A node named several times can receive the cap as often,
  up to the whole pool (`Settlement.RepeatedNodeReceives`), and no more (`Settlement.SettleWithinPool`).
- Scaling a manifest can give out more than some budget exactly when the claims add up to more than the total it
  states (`Manifest.NeverOverIff`).
- A challenger can be turned away for lack of funds exactly when the challenger share exceeds the whole pool
  (`Settlement.NeverExhaustedIff`).
- The persistent engine's rotation has no proposer for some heights below one, where the in-memory engine
  has one (`Proposer.EnginesAgreeIff`).

## Model

| member | source | states |
|---|---|---|
| `Quorum.AccumulatedStakeIsStakeIn` | node/src/bft.ts:147-166 | the stake of a duplicate-free voter list, and whether it is a quorum, depend only on its set of ids, each counted once with its last listed stake |
| `Quorum.StakeInModular` | node/src/bft.ts:147-153 | stake over sets of ids is modular: union plus intersection equals the two sets |
| `Quorum.QuorumOverlap` | node/src/bft.ts:95-109 | two quorums share at least twice the threshold minus the total stake |
| `Quorum.StrictQuorumsShareAThird` | node/src/bft.ts:95-109 | two strict quorums share more than a third of all stake |
| `Quorum.FaultBudget` | node/src/bft.ts:76-109 | faulty stake below a third fits strict mode; with no faulty stake relaxed mode is safe exactly for totals other than 1, 2 and 4 |
| `Quorum.QuorumsShareHonest` | node/src/bft.ts:95-109 | within the fault budget any two quorums have an honest validator in common |
| `Quorum.StakeUnderNewTable` | node/src/bft.ts:147-153 | a set of voters carries under new stakes what it carried under the old ones, up to what its members lost |
| `Quorum.QuorumsShareHonestAcross` | node/src/bft.ts:95-109 | quorums under two stake tables share an honest validator while faulty stake and moved stake together stay below their overlap |
| `Quorum.NoQuorumWithoutStake` | node/src/bft.ts:99-103 | with a total stake of zero no set of voters is a quorum |
| `Quorum.FullSetStake` | node/src/bft.ts:95-109 | with distinct ids all validators together carry all stake and are a quorum in both modes if there is any |
| `Quorum.RelaxedQuorumsMeet` | node/src/bft.ts:104-107 | relaxed quorums share stake for every total except 1, 2 and 4 |
| `Quorum.RelaxedQuorumsCanBeDisjoint` | node/src/bft.ts:104-107 | for totals 1, 2 and 4 there are validator sets with two disjoint relaxed quorums |
| `Round.PickWinningVoteGroup` | node/src/bft.ts:124-142 | the loop returns, without repeats, exactly the voters whose hash equals the anchor's and whose root does not contradict it, and nothing without an anchor |
| `Round.BftRound.constructor` | node/src/bft.ts:175-185 | a round begins in the propose phase with no block and no votes |
| `Round.BftRound.Propose` | node/src/bft.ts:191-238 | the object's new state and message are those of the propose step on values |
| `Round.BftRound.PrepareVote` | node/src/bft.ts:244-316 | the object's new state and message are those of the prepare step on values, including the early-commit finish |
| `Round.BftRound.CommitVote` | node/src/bft.ts:323-366 | the object's new state and verdict are those of the commit step on values |
| `Round.BftRound.Abort` | node/src/bft.ts:412-414 | failing a round changes its phase only |
| `Round.ProposeKeepsInv` | node/src/bft.ts:191-238 | a proposal keeps the round invariant and never moves the phase back |
| `Round.PrepareKeepsInv` | node/src/bft.ts:244-316 | a prepare keeps the round invariant: past prepare there is a quorum anchored on the node's own vote and a peer's vote, and its own commit repeats its prepare |
| `Round.CommitKeepsInv` | node/src/bft.ts:323-366 | a commit keeps the round invariant and reports finality exactly when it moves from commit to finalized |
| `Round.RoundRunSafe` | node/src/bft.ts:191-414 | over any events the invariant holds, the phase never goes back, the proposal never changes and a failed round stays failed |
| `Round.FinalizedMeansTwoQuorums` | node/src/bft.ts:279-300 | a finalized round holds a prepare quorum and a commit quorum, both anchored on the node's own vote and all for the proposed block |
| `Round.EmptyGroupQuorum` | node/src/bft.ts:95-142 | an empty group is a quorum exactly in relaxed mode with total stake one |
| `Round.ObserverLeavesPrepareIff` | node/src/bft.ts:270-283 | a node outside the set leaves prepare on an accepted vote exactly in relaxed mode with total stake one |
| `Round.ObserverStaysInPrepare` | node/src/bft.ts:270-283 | under strict quorum no run takes such a node past prepare |
| `Round.SoleValidatorNeverCommits` | node/src/bft.ts:221-279 | no run takes the only validator of a set past prepare |
| `RoundOutcome.RoundComesTo` | node/src/bft.ts:191-414 | over all messages in all orders, a validator's round is finalized exactly when the peers whose first prepare fits the node's root, with the node, are a quorum and some peer prepared, and the peers whose first commit fits, with the node, are a quorum; committing exactly when only the former; failed exactly when it was failed |
| `RoundOutcome.FinalizedIffQuorumsSent` | node/src/bft.ts:318-366 | when no vote contradicts the node's root, a round is finalized exactly when the senders of prepares, with the node, are a quorum with a peer among them and the senders of commits, with the node, are a quorum, whichever came first |
| `RoundOutcome.CommitSentWhen` | node/src/bft.ts:275-311 | the commit message goes out exactly when a prepare completes the prepare quorum and the commits so far are no quorum, and carries the node's own root |
| `RoundOutcome.TracksStep` | node/src/bft.ts:244-366 | one event of any kind: the votes on record stay the first ones of each peer, early commits included |
| `StateRoots.RootsAgreeIff` | node/src/bft.ts:111-142 | over all ballots, message orders and faulty messages, with every node on a table of its own within one membership and honest validators that do not report sending their root or none as they like, validators that report commit to a block with one root exactly when their quorums, under any tables in use, always share one that reports; letting the others send any root changes nothing |
| `StateRoots.SharedReporterIsEnough` | node/src/bft.ts:275-311 | if quorums under the tables in use share a reporter, two runs on any two of them that get past prepare on one block commit to one root |
| `StateRoots.UnsharedQuorumsSplit` | node/src/bft.ts:118-138 | from any two quorums, each under a table in use, that share no reporter, a pair of runs that commit to one block with two roots |
| `StateRoots.RootBudget` | node/src/bft.ts:111-120 | it is enough that for any two tables the stake that is faulty or reports no root, with the stake moved between them, stays below the overlap of two quorums |
| `StateRoots.TwoSilentOfFourSplit` | node/src/bft.ts:118-138 | four equal validators in strict mode, nobody faulty, two sending no root: roots can split |
| `StateRoots.RestartsSplitFour` | node/src/bft-coordinator.ts:1302-1309 | four honest validators that all compute a root, three the same one: after two of them restart and replay, two nodes commit to one block with two roots |
| `StateRoots.CanGetPastPrepareIff` | node/src/bft.ts:244-316 | a validator can get past prepare in some run exactly when all validators together are a quorum and it is not alone |
| `VoteLedger.BftVoteLedger.constructor` | node/src/bft-vote-ledger.ts:53-73 | a restarted ledger holds exactly the last snapshot that reached the file, or nothing |
| `VoteLedger.BftVoteLedger.Flush` | node/src/bft-vote-ledger.ts:124-145 | a successful write makes the ledger durable; a failed one leaves the file as it was |
| `VoteLedger.BftVoteLedger.RecordPrepared` | node/src/bft-vote-ledger.ts:84-89 | the prepare is on record, and durable once a write succeeds; repeating it writes nothing |
| `VoteLedger.BftVoteLedger.RecordCommitted` | node/src/bft-vote-ledger.ts:92-97 | the commit is on record, and durable once a write succeeds; repeating it writes nothing |
| `VoteLedger.BftVoteLedger.Prune` | node/src/bft-vote-ledger.ts:100-105 | exactly the entries above the height remain; a change is durable once written, and a refused write leaves the file as it was |
| `VoteLedger.BftVoteLedger.ClearAll` | node/src/bft-vote-ledger.ts:108-113 | nothing remains; a change is durable once written, and a refused write leaves the file as it was |
| `VoteLedger.DropUpTo` | node/src/bft-vote-ledger.ts:101-103 | deleting keys one by one leaves exactly the later heights |
| `EquivocationDetection.EquivocationDetector.constructor` | node/src/bft.ts:470-474 | a detector starts empty with the given caps |
| `EquivocationDetection.EquivocationDetector.Record` | node/src/bft.ts:480-578 | the new state and the evidence returned are those of recording on values, with a legal choice of victim |
| `EquivocationDetection.EquivocationDetector.Import` | node/src/bft.ts:604-671 | the new state and verdict are those of importing on values: malformed, duplicate, unverified or stored |
| `EquivocationDetection.EquivocationDetector.SlideWindow` | node/src/bft.ts:524-539 | a full window of one validator drops its oldest entry, or takes the repair branch when it has none |
| `EquivocationDetection.EquivocationDetector.FitGlobalCap` | node/src/bft.ts:542-556 | a full store drops the oldest entry of a validator with the most entries, the newcomer winning ties |
| `EquivocationDetection.EquivocationDetector.Append` | node/src/bft.ts:557-564 | the entry is added at the end and its counter grows up to the cap |
| `EquivocationDetection.EquivocationDetector.ClearEvidenceBefore` | node/src/bft.ts:680-699 | the in-place compaction keeps exactly the entries at or above the height and releases the counters of the others |
| `EquivocationDetection.EquivocationDetector.PruneOldHeights` | node/src/bft.ts:701-708 | deleting sorted keys leaves the tracked heights that have fewer than the limit above them |
| `EquivocationDetection.EquivocationDetector.PruneByMaxHeight` | node/src/bft.ts:747-762 | evidence is cut at the height that has one fewer than `keep` distinct heights above it |
| `EquivocationDetection.Oldest` | node/src/bft.ts:526-548 | the first position held by a validator, or the length |
| `EquivocationDetection.StoreKeepsExact` | node/src/bft.ts:524-564 | storing through both evictions keeps counters equal to multiplicities and both caps |
| `EquivocationDetection.ClearKeepsExact` | node/src/bft.ts:680-699 | clearing keeps the books exact and exactly the entries at or above the height |
| `EquivocationDetection.PruneKeepsHighest` | node/src/bft.ts:747-762 | exactly the evidence at the `keep` highest heights survives, with exact books |
| `EquivocationDetection.BookkeepingExact` | node/src/bft.ts:480-762 | over any mix of records, imports, clears and prunes counters equal multiplicities, both caps hold and the repair branch is never taken |
| `EquivocationDetection.AlwaysExactIff` | node/src/bft.ts:470-564 | that holds for all runs exactly when both caps are at least one |
| `EquivocationDetection.EvidenceIsJustified` | node/src/bft.ts:480-671 | every entry ever held is two different votes its validator cast at one height and phase |
| `EquivocationDetection.ConsistentVoterNeverAccused` | node/src/bft.ts:504-516 | a validator with one hash per height and phase never appears in evidence |
| `DetectorRuns.LaterConflictReported` | node/src/bft.ts:501-575 | once a hash has been recorded, and while fewer than the tracked number of higher heights have been, every later record of a hash other than the first returns and stores evidence that names the first |
| `DetectorRuns.FoundIff` | node/src/bft.ts:480-578 | over any run from a new detector, recording a vote returns evidence exactly when its height is in the window and another hash was recorded first for the validator and phase; it names both hashes with their signatures and is stored |
| `DetectorRuns.TracksTheHighest` | node/src/bft.ts:701-708 | a height is tracked exactly when it was recorded and fewer than the tracked number of higher ones were |
| `DetectorRuns.HighestOfHighest` | node/src/bft.ts:701-708 | dropping low heights after every vote keeps what dropping them once at the end would |
| `DetectorRuns.ImportedIff` | node/src/bft.ts:604-671 | evidence from a peer is taken exactly when it is well formed, verifies and its case is not held, is then stored, and any more on the case is a duplicate |
| `DetectorRuns.StoreGivesUpOldest` | node/src/bft.ts:524-564 | storing evidence gives up at most one entry: the oldest of its validator at the cap, else, when full, the oldest of a validator with the most; nobody else loses any |
| `CoordinatorObject.BftCoordinator.constructor` | node/src/bft-coordinator.ts:242-250 | a process starts with no round and the votes the ledger file holds, in step with the file |
| `CoordinatorObject.BftCoordinator.CheckStart` | node/src/bft-coordinator.ts:308-374 | the guards of a start, in order: stopped, stale, progress and deferral, an earlier different prepare; only then is the old round dropped |
| `CoordinatorObject.BftCoordinator.Open` | node/src/bft-coordinator.ts:398-423 | a new round, and the prepare in the ledger, and in the file while that is writable, before it is sent |
| `CoordinatorObject.BftCoordinator.EmitPrepare` | node/src/bft-coordinator.ts:408-419 | both maps and the ledger hold the prepare, the file too while it is writable, and the write comes before the send |
| `CoordinatorObject.BftCoordinator.FinishStart` | node/src/bft-coordinator.ts:398-453 | opening, then buffered prepares, then buffered commits, with everything not newer dropped from the buffer |
| `CoordinatorObject.BftCoordinator.DrainBuffered` | node/src/bft-coordinator.ts:427-439 | buffered messages are delivered in order until the round ends |
| `CoordinatorObject.BftCoordinator.Start` | node/src/bft-coordinator.ts:307-454 | new state and effects, in order, of a whole start |
| `CoordinatorObject.BftCoordinator.Receive` | node/src/bft-coordinator.ts:459-536 | buffering without a round or for up to ten heights ahead, dropping what does not verify, counting the rest |
| `CoordinatorObject.BftCoordinator.PushPending` | node/src/bft-coordinator.ts:463-467 | a message joins the buffer unless it is full or one of the sender, type and height waits, and the bounds on the buffer are kept |
| `CoordinatorObject.BftCoordinator.Count` | node/src/bft-coordinator.ts:526-625 | a vote the detector objects to is reported and dropped, any other goes to the round |
| `CoordinatorObject.BftCoordinator.CountPrepare` | node/src/bft-coordinator.ts:539-600 | a prepare finishes the round, or lets the commit out, or is only counted |
| `CoordinatorObject.BftCoordinator.EmitCommit` | node/src/bft-coordinator.ts:572-588 | a commit is refused against a different one on record, else recorded and written, to the file too while it is writable, before it is sent |
| `CoordinatorObject.BftCoordinator.CountCommit` | node/src/bft-coordinator.ts:601-623 | a commit finishes the round exactly when the round says so |
| `CoordinatorObject.BftCoordinator.Conclude` | node/src/bft-coordinator.ts:604-618 | the order at finality: linger, clear, prune evidence and votes, then hand the block on |
| `CoordinatorObject.BftCoordinator.StartLinger` | node/src/bft-coordinator.ts:1484-1497 | the votes repeated after finality are the node's own for that block |
| `CoordinatorObject.BftCoordinator.PruneLocalVoteLedger` | node/src/bft-coordinator.ts:1609-1621 | maps, prepared blocks, re-entry mark and ledger lose exactly what is at or below the height |
| `CoordinatorObject.BftCoordinator.HandleBftMessage` | node/src/bft-coordinator.ts:459-627 | new state and effects of a whole message, a deferred block starting after a finish |
| `CoordinatorObject.BftCoordinator.ProcessDeferredBlock` | node/src/bft-coordinator.ts:1319-1349 | the deferred block is taken out and started unless it is stale |
| `CoordinatorObject.BftCoordinator.ReceiveBlock` | node/src/bft-coordinator.ts:660-699 | a gossiped block is ignored, deferred or started by proposer, height and progress |
| `CoordinatorObject.BftCoordinator.ReenterLocallyPreparedRound` | node/src/bft-coordinator.ts:1450-1466 | the block the node prepared at that height is queued again unless a later one waits |
| `CoordinatorObject.BftCoordinator.OnTimeout` | node/src/bft-coordinator.ts:1111-1246 | a timed-out round is failed, cleared, queued again and the deferred block processed |
| `CoordinatorObject.BftCoordinator.OnLivenessStall` | node/src/bft-coordinator.ts:258-282 | a stalled round is dropped with the buffer and the deferred block, then queued again |
| `CoordinatorObject.BftCoordinator.ClearIfTerminal` | node/src/bft-coordinator.ts:323-328 | a finished or failed round is cleared, a live one kept |
| `CoordinatorObject.BftCoordinator.OnCommitTick` | node/src/bft-coordinator.ts:1358-1374 | a tick repeats the commit while in the commit phase and else turns itself off |
| `CoordinatorObject.BftCoordinator.OnPrepareTick` | node/src/bft-coordinator.ts:1395-1427 | a tick repeats only a prepare on record for the proposal, and a commit on record beside it |
| `CoordinatorObject.BftCoordinator.OnLingerTick` | node/src/bft-coordinator.ts:1499-1515 | six ticks repeat the final votes, then it ends |
| `CoordinatorObject.BftCoordinator.ReplayUnfinalizedVotes` | node/src/bft-coordinator.ts:1283-1317 | without interruption, above the floor every commit on record is sent once, and every prepare that has no commit, in that order |
| `CoordinatorObject.BftCoordinator.SetValidators` | node/src/bft-coordinator.ts:715-754 | new stakes alone change nothing else; new members wipe votes, ledger, buffer and round |
| `CoordinatorObject.BftCoordinator.ForgetVotes` | node/src/bft-coordinator.ts:734-737 | no vote is left in memory or in the ledger, nor in the file while it is writable |
| `CoordinatorObject.BftCoordinator.Call` | node/src/bft-coordinator.ts:183-1632 | every public call is a step of the state machine with the same effects in the same order, keeps trace, ledger and writable file in step, and keeps the buffer within its bounds |
| `CoordinatorObject.BftCoordinator.Take` | node/src/bft-coordinator.ts:183-1632 | every call keeps the whole history of the object safe, after each single effect since it was created |
| `CoordinatorObject.BftCoordinator.CrashAnywhere` | node/src/bft-coordinator.ts:242-250 | while the file is writable, a crash after any prefix of what the object did leaves the file from which a new process starts with the safety invariant |
| `CoordinatorObject.StartIsGood` | node/src/bft-coordinator.ts:242-250 | an object created from any durable state begins with a safe history |
| `CoordinatorObject.DiskIsWorlds` | node/src/bft-vote-ledger.ts:124-145 | the file the safety theorems speak of is the last snapshot the effects wrote |
| `VoteSafety.FinishKeeps` | node/src/bft-coordinator.ts:601-623 | finality keeps the node invariant: what was handed on is certified by a prepare quorum under some table in use |
| `VoteSafety.SendCommitKeeps` | node/src/bft-coordinator.ts:572-588 | every crash point between recording, writing and sending a commit is safe |
| `VoteSafety.DeliverPrepareKeeps` | node/src/bft-coordinator.ts:539-600 | a counted prepare keeps the node invariant at every crash point |
| `VoteSafety.DeliverCommitKeeps` | node/src/bft-coordinator.ts:601-625 | a counted commit keeps the node invariant at every crash point |
| `VoteSafety.OpenRoundKeeps` | node/src/bft-coordinator.ts:396-423 | opening a round keeps the node invariant at every crash point |
| `VoteSafety.StartKeeps` | node/src/bft-coordinator.ts:307-454 | a whole start keeps it |
| `VoteSafety.HandleMessageKeeps` | node/src/bft-coordinator.ts:459-627 | a whole message keeps it |
| `VoteSafety.BlockKeeps` | node/src/bft-coordinator.ts:660-699 | a gossiped block keeps it |
| `VoteSafety.TimeoutKeeps` | node/src/bft-coordinator.ts:1105-1251 | a timeout with its re-entry keeps it |
| `VoteSafety.CommitTickKeeps` | node/src/bft-coordinator.ts:1354-1379 | a repeated commit is for the hash that a prepare quorum certified and, at a sound node, the node itself prepared |
| `VoteSafety.PrepareTickKeeps` | node/src/bft-coordinator.ts:1391-1432 | repeated prepares and commits are votes already on record |
| `VoteSafety.LingerTickKeeps` | node/src/bft-coordinator.ts:1484-1520 | votes repeated after pruning still agree with those cast before it |
| `VoteSafety.ReplayKeeps` | node/src/bft-coordinator.ts:1283-1317 | votes replayed after a restart agree with those cast before it |
| `VoteSafety.StepKeeps` | node/src/bft-coordinator.ts:183-1632 | every event, whole call, segment or change of stakes, keeps the node invariant, and stopping after any prefix of its effects leaves a state a restart recovers from |
| `VoteSafety.RestartKeeps` | node/src/bft-coordinator.ts:242-250 | a restart from the file alone re-establishes the node invariant |
| `VoteSafety.OpenAnywhereKeeps` | node/src/bft-coordinator.ts:396-423 | opening a round whatever is active keeps the node invariant, as long as the node may vote for the block at that moment |
| `VoteSafety.OpenWithKeeps` | node/src/bft-coordinator.ts:376-423 | the same with the table of stakes taken before the state root was awaited |
| `VoteSafety.ReweighKeeps` | node/src/bft-coordinator.ts:715-726 | new stakes for the same members keep it, also in the middle of a round |
| `VoteSafety.RepeatKeeps` | node/src/bft-coordinator.ts:1288-1309 | one vote on record, repeated at any moment of a replay, keeps it |
| `Interleaving.CallIsSegments` | node/src/bft-coordinator.ts:307-1349 | every whole call, the replay included, is a run of segments between awaits with the same outcome and the same effects in the same order |
| `Interleaving.CheckIsQuiet` | node/src/bft-coordinator.ts:308-374 | what a start does before it awaits the state root changes nothing any vote depends on |
| `Buffering.StepKeepsBuffer` | node/src/bft-coordinator.ts:428-490 | every call, timer, update and segment keeps at most fifty messages waiting, no two of one sender, type and height |
| `Delivery.DrainFollows` | node/src/bft-coordinator.ts:459-625 | delivering messages takes a node's round exactly where their votes take a round, and hands the block on exactly when that is finalized |
| `Delivery.StartComesTo` | node/src/bft-coordinator.ts:398-453 | a start with votes waiting and votes to come ends in the phase that all of them together come to |
| `Delivery.FinalizesIff` | node/src/bft-coordinator.ts:398-625 | a validator hands its block on exactly when the senders of prepares and of commits, early or late, with itself, are the two quorums a round needs |
| `Delivery.BufferKeepsFirsts` | node/src/bft-coordinator.ts:459-491 | messages before their round wait: exactly the first of each sender, type and height, up to fifty, are kept |
| `Delivery.EarlyAndLateVotesCount` | node/src/bft-coordinator.ts:307-491 | from the first early message to the last late one: the block is handed on exactly when the votes kept and the late ones are the two quorums |
| `Delivery.LaterVotesStay` | node/src/bft-coordinator.ts:428-429 | messages for later heights keep waiting through a start and its whole round |
| `Delivery.OutOfReach` | node/src/bft-coordinator.ts:479-491 | during a round, messages for past heights or more than ten ahead change nothing |
| `Delivery.EquivocatorIsAccused` | node/src/bft-coordinator.ts:522-535 | a validator that votes for two hashes in one round and phase is accused with both at every node where they arrive while the round lasts |
| `Reentry.StepKeepsArmed` | node/src/bft-coordinator.ts:183-1632 | every step keeps the timers of a round running and the prepared block at hand |
| `Reentry.CommitTickSends` | node/src/bft-coordinator.ts:1354-1379 | in every run each tick of the commit phase sends the commit again, unless the hash is empty |
| `Reentry.PrepareTickSends` | node/src/bft-coordinator.ts:1391-1432 | in every run each tick of a validator's round sends its prepare again, and its commit if it committed before |
| `Reentry.TakesUpAgain` | node/src/bft-coordinator.ts:1434-1466 | a validator that times out or stalls sends its prepare again and has a round on that block or hands it on; a stall also empties the buffer |
| `Reentry.PreparedBlockIsTakenUpAgain` | node/src/bft-coordinator.ts:1238-1246 | the same in every run, with the block as the one of the prepare the node sent |
| `Reentry.LaterBlockFirst` | node/src/bft-coordinator.ts:1450-1453 | a later block that waits is started instead of the one that timed out |
| `Reentry.ReenteredMakesWay` | node/src/bft-coordinator.ts:1468-1471 | a round taken up again makes way for any later block, however many votes it holds |
| `Reentry.StartKeepsRound` | node/src/bft-coordinator.ts:330-351 | a start never gives up a round with votes: it sends nothing and its block waits |
| `Reentry.GossipKeepsRound` | node/src/bft-coordinator.ts:660-697 | a gossiped block never displaces a round with peers' votes; later ones wait, others are ignored |
| `Reentry.GossipStartsRound` | node/src/bft-coordinator.ts:660-699 | a gossiped block above what is final is taken up by a node without a round |
| `Reentry.WaitingBlockIsStarted` | node/src/bft-coordinator.ts:1319-1349 | a block that had to wait is started as soon as a message ends the round |
| `Reentry.FinalHeightIsClosed` | node/src/bft-coordinator.ts:308-321 | after finality no start at that height or below opens a round, whatever the tip says |
| `Reentry.LingersSixTimes` | node/src/bft-coordinator.ts:1484-1520 | after finality exactly six ticks send the node's commit, and its prepare if it prepared the block |
| `Reentry.StaysSilent` | node/src/bft-coordinator.ts:291-303 | after a stop no call and no timer sends anything |
| `Network.OneHashPerHeight` | node/src/bft-coordinator.ts:352-419 | over all runs with interleaved calls, new stakes, crashes and restarts no sound coordinator sends prepares or commits for two hashes at one height |
| `Network.Agreement` | node/src/bft.ts:76-94 | over all runs, when any two quorums under the tables in use share an honest validator, honest nodes never commit to or finalize different blocks at a height |
| `Network.BudgetIsEnough` | node/src/bft.ts:76-94 | under one table it is enough that faulty stake stays below the overlap of two quorums |
| `Network.MoveBudgetIsEnough` | node/src/bft-coordinator.ts:715-726 | under several it is enough that for any two of them faulty and moved stake together stay below that overlap |
| `Network.StrictAgreement` | node/src/bft.ts:78-81 | strict mode: agreement while faulty stake is below a third |
| `Network.RelaxedAgreement` | node/src/bft.ts:83-89 | relaxed mode: agreement without faulty stake for totals other than 1, 2 and 4 |
| `Network.HonestNeverAccused` | node/src/bft-coordinator.ts:522-535 | no node ever reports a sound honest node, restarts and new stakes included |
| `Network.LedgerCoupling` | node/src/bft-vote-ledger.ts:22-47 | at every point of every run and at every node memory, ledger and file hold the same votes and commits are among the prepares; at sound nodes every vote above the pruned heights is there |
| `Network.CommitNeverRefused` | node/src/bft-coordinator.ts:568-581 | the guard against a second, different commit never refuses anything in a reachable state |
| `Network.BuffersBounded` | node/src/bft-coordinator.ts:428-490 | in every run no node ever holds back more than fifty messages, nor two of one sender, type and height |
| `Schedules.AgreementIff` | node/src/bft.ts:76-109 | from a common table and through any changes of stakes, honest nodes agree in all runs exactly when any two quorums under the tables in use, each with an honest validator and one more, share an honest validator |
| `Schedules.SplitRun` | node/src/bft-coordinator.ts:376-600 | from any two such quorums without one, a run in which two honest nodes commit to different blocks at one height |
| `Schedules.HearsOne` | node/src/bft-coordinator.ts:539-600 | a waiting validator counts a peer's prepare or commits |
| `Schedules.NewStakesSplit` | node/src/bft-coordinator.ts:715-726 | four equal validators of which one gets ten times the stake: faulty stake is below a third before and after, and agreement fails |
| `Schedules.NewStakesSplitRoots` | node/src/bft-coordinator.ts:376-385 | nobody is faulty and one of four sends no root: either of two tables alone keeps one root per block, both together do not |
| `Schedules.OneHashIff` | node/src/bft-coordinator.ts:1358-1374 | a node keeps one hash per height in all runs exactly when it is a validator or no table in use has a relaxed total of one |
| `Schedules.ObserverCommitsTwice` | node/src/bft-coordinator.ts:1358-1374 | at every other node, a run that sends two commits for different blocks at one height |
| `Hazards.RestartSafeIff` | node/src/bft-coordinator.ts:313-370 | a restarted validator can be led to contradict a vote by some block exactly when file and tip together miss that vote |
| `Hazards.RestartDropsRoot` | node/src/bft-coordinator.ts:1302-1309 | a prepare sent with a root is sent again without one by every replay after a crash |
| `Hazards.ReplayRepeatsVotes` | node/src/bft-coordinator.ts:1283-1317 | after a restart the replay repeats a vote for every hash the node voted for above the pruned heights and the tip, its commit where it committed |
| `Hazards.OverlappingStarts` | node/src/bft-coordinator.ts:362-418 | two starts that both pass the check before either finishes both send a prepare, in contradiction exactly when the blocks differ |
| `Hazards.LateStartContradictsIff` | node/src/bft-coordinator.ts:362-418 | from every reachable state of a sound validator, above the pruned heights, a start that goes on contradicts a vote exactly when another block was prepared and a vote sent there meanwhile |
| `Hazards.StartAfterFinality` | node/src/bft-coordinator.ts:398-418 | a start that goes on after its height was finalized finds no record of the vote there and contradicts it exactly when its block is not the finalized one |
| `Hazards.RecheckedFinishKeeps` | node/src/bft-coordinator.ts:362-423 | if both checks were repeated when the root is known, finishing the start would be safe whatever happened in the meantime |
| `Hazards.SecondVoteAfterUpdateIff` | node/src/bft-coordinator.ts:715-754 | after new validators are set, a second, different prepare goes out exactly when the membership changed |
| `Hazards.NewMembersStartAfresh` | node/src/bft-coordinator.ts:726-754 | a change of membership leaves the node as if just started with an empty ledger, except for what it has seen and finalized and the votes it lingers on |
| `Divergence.DetectPeerQuorumDivergence` | node/src/bft-coordinator.ts:826-844 | the timeout check answers for the other validators' prepares and the node's own root |
| `Divergence.ComputePeerQuorumDivergence` | node/src/bft-coordinator.ts:860-910 | an alarm names the pair with the most stake, at least two thirds rounded down, the earliest if several have as much, unless its root is the local one; silence means none passes or that one matches |
| `Divergence.OneAnswer` | node/src/bft-coordinator.ts:860-910 | the votes determine the answer |
| `Divergence.TallyVotes` | node/src/bft-coordinator.ts:877-897 | the tally of each pair is the stake of the validators whose first vote with a root endorses it, in the order of the first such vote with stake |
| `Divergence.AtMostOnePasses` | node/src/bft-coordinator.ts:899-903 | for totals other than 2 and 4 at most one pair passes |
| `Divergence.TwoCanPass` | node/src/bft-coordinator.ts:899-903 | for totals 2 and 4 two pairs can both be best |
| `Divergence.OrderIrrelevant` | node/src/bft-coordinator.ts:860-910 | with one vote each and any other total the answer does not depend on vote order |
| `Divergence.SilentAfterCommit` | node/src/bft-coordinator.ts:1142-1145 | once a round is past prepare with a root, its own timeout check raises no alarm, in relaxed mode for totals other than 1, 2 and 4 |
| `Divergence.SilentIff` | node/src/bft-coordinator.ts:1111-1145 | no round that times out while committing raises the alarm, over all runs, exactly in strict mode or when the total stake is not 2 or 4 |
| `Expression.Tokenize` | nodeops/expression-eval.ts:30-77 | the index loop computes the lexer on suffixes, error included |
| `Expression.Scan` | nodeops/expression-eval.ts:57-70 | the inner loops stop at the end of the longest run |
| `Expression.LexOfJoin` | nodeops/expression-eval.ts:30-77 | any well-spelled tokens joined by spaces are lexed back to themselves |
| `Expression.LexKeepsText` | nodeops/expression-eval.ts:30-77 | a lexed text is its tokens' texts in order with white space removed, ended by one end mark |
| `Expression.Parser.ParseAll` | nodeops/expression-eval.ts:110-116 | the parser object computes the parser on positions and rejects trailing tokens |
| `Expression.Parser.ParseOr` | nodeops/expression-eval.ts:119-127 | value, error and final position of a disjunction |
| `Expression.Parser.ParseAnd` | nodeops/expression-eval.ts:130-138 | value, error and final position of a conjunction |
| `Expression.Parser.ParseNot` | nodeops/expression-eval.ts:141-167 | value, error and final position of negations and comparisons |
| `Expression.Parser.ParseValue` | nodeops/expression-eval.ts:170-196 | value, error and final position of numbers, variables and groups |
| `Expression.EvaluateCondition` | nodeops/expression-eval.ts:205-219 | the entry point computes blank check, length cap, lexing and parsing in that order |
| `Expression.OrOfPrinted` | nodeops/expression-eval.ts:119-196 | parsing a printed syntax tree yields its meaning, or its first error |
| `Expression.EvaluatesIffDerived` | nodeops/expression-eval.ts:110-196 | tokens evaluate to a truth value exactly when they print a tree of the grammar with that meaning |
| `Expression.EvaluatesIffRead` | nodeops/expression-eval.ts:205-219 | a text evaluates to a truth value exactly when it is short enough and a reading of it has that value |
| `Expression.OneReading` | nodeops/expression-eval.ts:119-196 | the grammar is unambiguous: a text has at most one reading |
| `Expression.OrUnique` | nodeops/expression-eval.ts:119-196 | at most one tree of the grammar stands where an expression begins and ends |
| `Expression.EvaluateShown` | nodeops/expression-eval.ts:205-219 | evaluating the printed text of any condition gives its truth value, or its first error |
| `Expression.EvaluatesIffDefined` | nodeops/expression-eval.ts:119-138 | it succeeds exactly when every variable and number on both sides of every operator is defined: nothing is short-circuited |
| `Expression.AnyText` | nodeops/expression-eval.ts:118-127 | the text of a disjunction is its grouped sides joined by two bars |
| `Expression.BothText` | nodeops/expression-eval.ts:129-138 | the text of a conjunction is its grouped sides joined by two ampersands |
| `Expression.NegText` | nodeops/expression-eval.ts:140-146 | the text of a negation is an exclamation mark and its grouped operand |
| `Expression.TestText` | nodeops/expression-eval.ts:149-164 | the text of a comparison is its operands around the symbol of the operator |
| `Expression.CompareLaws` | nodeops/expression-eval.ts:156-163 | the six operators are those of one order: a number plus something positive is greater, and the others follow from greater-than |
| `Expression.NumberValue` | nodeops/expression-eval.ts:173-178 | a number's value is its whole part plus its fraction over a power of ten, and it is rejected exactly when that overflows |
| `Expression.TwoPointsFail` | nodeops/expression-eval.ts:173-178 | a number with a second point is rejected |
| `Fees.BaseFeeDirection` | node/src/base-fee.ts:24-52 | above the target the fee rises, at it it stays, below it falls to no less than the floor |
| `Fees.BaseFeeStep` | node/src/base-fee.ts:38-51 | the fee moves by an eighth of its share of the distance to the target, rounded down: up by at least one, down to no less than the floor |
| `Fees.BaseFeeMonotone` | node/src/base-fee.ts:24-52 | from the floor up, more gas used never gives a lower fee |
| `Fees.MonotoneIffAtFloor` | node/src/base-fee.ts:24-52 | that holds exactly for fees at or above the floor |
| `Fees.BaseFeeMonotoneInFee` | node/src/base-fee.ts:24-52 | a higher parent fee never gives a lower fee |
| `Fees.EighthIffEvenLimit` | node/src/base-fee.ts:4-52 | at every fee from the floor up one step is within an eighth exactly when the limit is even or at most one |
| `Fees.OddLimitOvershoots` | node/src/base-fee.ts:30-43 | for every odd limit above one a full block exceeds the eighth at some fee |
| `Fees.FeeNeverBelowFloor` | node/src/base-fee.ts:9-59 | no chain of blocks takes the fee below the floor |
| `Fees.FeeEnvelope` | node/src/base-fee.ts:4-52 | with an even limit n blocks keep the fee within (7/8)^n and (9/8)^n of where it started |
| `Fees.FeeOrderKept` | node/src/base-fee.ts:24-52 | of two chains the one that starts no lower and is loaded no less never has the lower fee |
| `Fees.ExcessIsWorstStretch` | node/src/base-fee.ts:71-75 | the excess after any blocks is the most that any recent stretch, or the start with all of them, used above its targets |
| `Fees.ComputeFakeExponential` | node/src/base-fee.ts:89-99 | the loop ends and returns the sum of the rounded terms over the denominator |
| `Fees.FakeExponentialMonotone` | node/src/base-fee.ts:89-99 | the result never falls as the numerator grows, is the factor at zero and never below it |
| `Fees.TermAccuracy` | node/src/base-fee.ts:92-97 | each rounded term is at most the exact one and less than it by at most the partial sum of the series |
| `Fees.FakeExponentialAccuracy` | node/src/base-fee.ts:85-99 | the result is the factor times the partial sum of the exponential series the loop has run through, less at most one and a stated rounding loss, and the exact term after the last one is within that loss |
| `Fees.FakeExponentialIsSeries` | node/src/base-fee.ts:85-99 | the same for every partial sum up to a term whose exact value is below one unit, however many terms the loop runs through |
| `Fees.TermsVanish` | node/src/base-fee.ts:92-97 | for every input all exact terms from some place on are below one unit |
| `Fees.BlobPriceIsExponential` | node/src/base-fee.ts:81-83 | the blob price lies below the partial sums of the exponential series at excess over the update fraction, by less than one and the rounding loss |
| `Fees.BlobTermsVanish` | node/src/base-fee.ts:81-83 | for every excess all terms of that series from some place on are small enough |
| `Fees.BlobPriceFollowsLoad` | node/src/base-fee.ts:71-83 | the blob price is at least one, does not fall after a block at or above target and does not rise after one at or below |
| `Fees.HalvedIsShift` | node/src/base-fee.ts:128 | shifting right k times is halving with rounding k times |
| `Fees.RewardIsHalved` | node/src/base-fee.ts:123-128 | before 64 intervals the reward is the initial one halved once per interval, and never more than that |
| `Fees.RewardNeverRises` | node/src/base-fee.ts:114-129 | rewards never rise with height and are zero from 64 intervals on |
| `Fees.EmissionPotential` | node/src/base-fee.ts:114-129 | what is emitted plus what the current rate would give over the rest of the interval and one more stays within two intervals at the initial rate less one block |
| `Fees.HalvingCapsEmission` | node/src/base-fee.ts:114-129 | with halving, all emission ever stays below twice the initial reward times the interval |
| `Fees.EmissionBoundedIff` | node/src/base-fee.ts:119-121 | emission has a bound exactly when nothing is emitted or the interval is positive |
| `ChainIndex.ChainEngine.constructor` | node/src/chain-engine.ts:65-68 | an engine starts with an empty chain, empty indexes and no apply in flight |
| `ChainIndex.ChainEngine.ApplyBlock` | node/src/chain-engine.ts:308-545 | without interruption the chain and outcome are those of applying on values, and array, maps, receipts and flags agree afterwards |
| `ChainIndex.ChainEngine.BeginApply` | node/src/chain-engine.ts:308-409 | up to the wait for the execution: duplicates are promoted or skipped, bad links and blocks refused, else the apply is in flight; array, maps, receipts and flags agree |
| `ChainIndex.ChainEngine.FinishApply` | node/src/chain-engine.ts:525-545 | after the wait, whatever the chain is by then: the block is pushed and flags updated; array, maps, receipts and flags agree |
| `ChainIndex.ChainEngine.DropApply` | node/src/chain-engine.ts:491-497 | a failed execution leaves the chain as it is |
| `ChainIndex.ChainEngine.Clear` | node/src/chain-engine.ts:743-748 | array, maps and receipts are emptied, also while an apply is in flight, which can still push |
| `ChainIndex.ChainEngine.PromoteExisting` | node/src/chain-engine.ts:320-334 | a duplicate from the local path only sets the vote flag of its block, in all three places |
| `ChainIndex.ChainEngine.PushBlock` | node/src/chain-engine.ts:540-543 | appending, to an emptied chain also a later block, keeps array, maps and receipts in agreement |
| `ChainIndex.ChainEngine.UpdateFinalityFlags` | node/src/chain-engine.ts:724-741 | exactly the block at the finality depth is flagged, in all three places, and none if the chain starts above it |
| `ChainIndex.ChainEngine.RebuildFromBlocks` | node/src/chain-engine.ts:743-778 | when no apply is in flight the chain is what applying the blocks from nothing gives, up to the first failure |
| `ChainIndex.ChainEngine.VerifyBlockChain` | node/src/chain-engine.ts:615-671 | accepts exactly the sound snapshots whose blocks follow each other, constraining the first only if it is block one |
| `ChainIndex.ChainEngine.MaybeAdoptSnapshot` | node/src/chain-engine.ts:600-613 | when no apply is in flight, a snapshot that is empty, not longer or not verified changes nothing; else the chain is rebuilt from it |
| `ChainIndex.ChainEngine.GetHighestFinalizedBlock` | node/src/chain-engine.ts:130-135 | a block is flagged final exactly when its number is at most the answer |
| `ChainIndex.ChainEngine.GetBlockByNumber` | node/src/chain-engine.ts:137-139 | a block of the array with that number, or nothing when none has it |
| `ChainIndex.ChainEngine.GetBlockByHash` | node/src/chain-engine.ts:141-143 | a block of the array with that hash, or nothing when none has it |
| `ChainIndex.AppliedKeepsInv` | node/src/chain-engine.ts:308-545 | one apply keeps the chain linked with exact flags and numbered from one if it was, adds at most one block and changes nothing on failure |
| `ChainIndex.SegmentKeeps` | node/src/chain-engine.ts:300-545 | every stretch of an apply or rebuild between awaits keeps the chain linked without gaps or repeated hashes and its flags exact, and what is in flight fit to be pushed |
| `ChainIndex.RunKeepsInv` | node/src/chain-engine.ts:113-778 | after any run of whole applies, promotions, restarts and adoptions blocks are numbered from one, linked, without repeated hash, and final exactly up to the highest final number |
| `ChainIndex.FinalStaysFinal` | node/src/chain-engine.ts:724-741 | a final block keeps flag, number and hash through every apply |
| `ChainIndex.FinalIffDeep` | node/src/chain-engine.ts:724-741 | a block is final exactly when at least the finality depth of blocks, and at least one, are above it |
| `ChainIndex.ApplySetsVoteFlag` | node/src/chain-engine.ts:320-537 | an apply changes the vote flag of no block but the one of its hash, and sets that exactly when the local path brings it with the flag |
| `ChainIndex.VoteFlagIff` | node/src/chain-engine.ts:320-537 | over any run of applies a block carries the vote flag exactly when the local path applied it with the flag, first or again |
| `ChainIndex.RebuildForgetsVotes` | node/src/chain-engine.ts:525-537 | no rebuilt block is marked as finalized by vote, whatever was saved |
| `ChainIndex.RebuildRoundTrip` | node/src/chain-engine.ts:743-778 | rebuilding from a linked chain from block one whose blocks are accepted gives the same blocks with exact flags |
| `ChainIndex.AdoptionOutcome` | node/src/chain-engine.ts:600-641 | a snapshot that passes the pre-check and that no apply overlaps leaves exactly its leading blocks up to the first refused or repeating a hash, none if it does not start at block one, and is reported adopted exactly when all later blocks repeat a hash of those |
| `ChainIndex.TakenUpIff` | node/src/chain-engine.ts:600-671 | a snapshot is taken up exactly when it is higher than the chain, all its blocks are sound and each follows the one before; else nothing changes |
| `ChainIndex.AdoptionShortensIff` | node/src/chain-engine.ts:600-641 | adoption lowers the height exactly when fewer leading blocks are usable than the height was |
| `ChainIndex.AdoptionCanWipe` | node/src/chain-engine.ts:600-641 | a valid chain and a verified snapshot after which it is empty |
| `ChainRuns.InterleavedRunKeepsInv` | node/src/chain-engine.ts:300-778 | in every run, however applies, adoptions and the emptying of the chain interleave at awaits, blocks are numbered without gaps, linked, without repeated hash, and final exactly up to the highest final number |
| `ChainRuns.CallIsSegments` | node/src/chain-engine.ts:300-778 | a call that nothing comes between is its stretches between awaits, one after the other |
| `ChainRuns.FromOneIff` | node/src/chain-engine.ts:743-749 | the chain starts at block one all through a run exactly when it is never emptied under an apply of a later block that goes on to push |
| `ChainRuns.RebuildOvertakesApply` | node/src/chain-engine.ts:743-777 | whatever the chain was, a snapshot from block one that overtakes an apply of a later block leaves that block alone on the chain and is refused at its first block |
| `ChainRuns.OvertakingIsReachable` | node/src/chain-engine.ts:408-545 | from every non-empty chain and every next block, a run that ends in that block alone |
| `Rewards.AggregateChallengerRewards` | runtime/palimesh-relayer.ts:405-426 | one entry per address, in order of first mention, with all challenges and receipts of that address added up and its first node id |
| `Rewards.AllocateChallengerRewards` | services/relayer/epoch-finalizer.ts:27-74 | the loops compute the proportional allocation over totals per address |
| `Rewards.ShareOut` | services/relayer/epoch-finalizer.ts:53-71 | shares rounded down, the last taking what is left |
| `Rewards.TotalsKeepCounts` | services/relayer/epoch-finalizer.ts:41-48 | adding up per challenger loses no count and names none twice |
| `Rewards.SharesSum` | services/relayer/epoch-finalizer.ts:53-71 | the shares add up to exactly what there was to share |
| `Rewards.SharesAtLeast` | services/relayer/epoch-finalizer.ts:56-70 | every challenger receives at least its proportional share rounded down |
| `Rewards.AllocatedExactly` | services/relayer/epoch-finalizer.ts:41-71 | every challenger but the last mentioned receives exactly its share of the counts, rounded down |
| `Rewards.TotalsPerAddress` | services/relayer/epoch-finalizer.ts:41-48 | adding up keeps the count of every address |
| `Rewards.AllocateSum` | services/relayer/epoch-finalizer.ts:27-74 | all of the challenger pool is allocated if anybody has a count, else nothing |
| `Rewards.ReserveFitsIff` | services/relayer/epoch-finalizer.ts:37 | the challenger pool fits every pool exactly when the share is at most the whole |
| `Settlement.PlanV1RewardDistribution` | runtime/lib/reward-settlement.ts:100-132 | the loop computes the plan on values, inactive nodes listed apart |
| `Settlement.PlanWithinBudget` | runtime/lib/reward-settlement.ts:106-126 | the plan's total is what it pays, within the budget, each node within the cap |
| `Settlement.PlanFromLeaves` | runtime/lib/reward-settlement.ts:106-126 | each paid node is an active leaf paid no more than its leaf, and leaves without a repeated name give payees without one |
| `Settlement.PlanListings` | runtime/lib/reward-settlement.ts:106-126 | no node is paid more often than the leaves name it |
| `Settlement.PlanPaysWhatIsDue` | runtime/lib/reward-settlement.ts:106-126 | the plan pays every active leaf its amount cut at the cap as long as the budget lasts, and in all the smaller of what is due and the budget |
| `Settlement.MergeChallengerRewards` | runtime/palimesh-relayer.ts:494-528 | the loop computes the merge on values |
| `Settlement.MergeEntry` | runtime/palimesh-relayer.ts:499-527 | one turn: no reward, cap reached, pool used up, or paid within cap and pool |
| `Settlement.MergeConserves` | runtime/palimesh-relayer.ts:497-528 | the merged amounts sum to the merged total, which is the plan's plus what was applied and within the pool |
| `Settlement.MergeNodeByNode` | runtime/palimesh-relayer.ts:494-528 | each node ends with its planned amount plus what was applied to it, is never lifted above 30% of the pool, and none is listed twice |
| `Settlement.OneTurn` | runtime/palimesh-relayer.ts:499-527 | a turn pays the smallest of the reward, the room under the cap and the rest of the pool, to that node only, or skips with the right reason |
| `Settlement.LookupIsAllocated` | runtime/palimesh-relayer.ts:499 | what the merge takes as a challenger's reward is all that was allocated to it |
| `Settlement.MergePaysMost` | runtime/palimesh-relayer.ts:497-528 | in the end every challenger has its whole reward, or its node is at the cap, or the pool is used up |
| `Settlement.EachSettledOnce` | runtime/palimesh-relayer.ts:498-528 | every positive reward ends in the applied or the skipped list exactly once |
| `Settlement.AppliedWithinReward` | runtime/palimesh-relayer.ts:499-527 | what is applied is positive and no more than was allocated |
| `Settlement.NotExhausted` | runtime/palimesh-relayer.ts:514-520 | if plan and rewards together fit in the pool, no reward is skipped for lack of funds |
| `Settlement.SettleWithinPool` | runtime/palimesh-relayer.ts:473-528 | a settlement pays out what it says, within the pool, no entry above 30% of it, and in all no node more than that as often as the leaves name it, nor more than the pool |
| `Settlement.SettlePaysNodes` | runtime/palimesh-relayer.ts:480-492 | the nodes are paid all that is due to them out of what the challengers' shares leave, or all of that |
| `Settlement.RepeatedNodeReceives` | runtime/lib/reward-settlement.ts:106-126 | a node that the leaves name any number of times, each time with the cap, receives the cap as often, up to the whole pool |
| `Settlement.BatchesWeigh` | runtime/palimesh-relayer.ts:473-479 | each challenger is weighed by its valid receipts if it has any, else by its challenges |
| `Settlement.NeverExhaustedIff` | runtime/palimesh-relayer.ts:473-520 | no challenger is turned away for lack of funds, for any input, exactly when the share is at most the whole pool |
| `Settlement.OversubscribedExhausts` | runtime/palimesh-relayer.ts:514-520 | for every larger share, five challengers of which the last finds the pool used up |
| `Manifest.ScaleLeaves` | runtime/lib/reward-settlement.ts:135-171 | the two loops compute the scaling on values |
| `Manifest.ScaledSum` | runtime/lib/reward-settlement.ts:147-168 | the scaled leaves add up to the rounded shares and one unit per claimant, up to the budget |
| `Manifest.ScaledExactIff` | runtime/lib/reward-settlement.ts:147-168 | the budget is met exactly when it lies between the rounded shares and one unit per claimant more |
| `Manifest.ScaledIsExact` | runtime/lib/reward-settlement.ts:147-168 | if the claims add up to the stated total, every budget is given out to the last unit |
| `Manifest.NeverOverIff` | runtime/lib/reward-settlement.ts:147-168 | no budget up to the total is exceeded exactly when the claims do not add up to more than the total |
| `Manifest.ScaledWithinOne` | runtime/lib/reward-settlement.ts:147-168 | each claimant gets its exact share rounded down or one unit more, and nobody else anything |
| `Manifest.LargestFirst` | runtime/lib/reward-settlement.ts:155-168 | the units left over go to the largest claims: whoever has one ranks before every claimant without |
| `Manifest.RankedIsInRank` | runtime/lib/reward-settlement.ts:157-161 | sorting lists the leaves by falling claim, then by node id, then by place |
| `Manifest.PlanFromManifest` | runtime/lib/reward-settlement.ts:91-133 | the plan is that of the leaves scaled to the smaller of budget and stated total, within the budget and the cap per entry |
| `Manifest.PlannedAddsUp` | runtime/lib/reward-settlement.ts:97-100 | when the claims add up to the stated total, exactly the smaller of budget and total is planned for |
| `Manifest.CapPerNodeIff` | runtime/lib/reward-settlement.ts:91-133 | for every list of names, no settlement over a manifest with these names gives a node more than 30% of the pool in all exactly when no name is repeated |
| `Manifest.NamedTwice` | runtime/lib/reward-settlement.ts:106-126 | for every repeated name, a manifest that gives it twice the cap |
| `Proposer.StakeWeightedProposer` | node/src/chain-engine-persistent.ts:2185-2215 | the cumulative loop computes the walk, with the empty-set error and the equal-weight fallback |
| `Proposer.ExpectedProposer` | node/src/chain-engine-persistent.ts:615-631 | governance first, then round robin, then the node itself |
| `Proposer.ChoiceIsOwner` | node/src/chain-engine-persistent.ts:2199-2214 | with stake in the set the choice is the id whose share of the range holds the seed, and the trailing fallback is never taken |
| `Proposer.OwnerUnique` | node/src/chain-engine-persistent.ts:2204-2211 | every seed has one owner |
| `Proposer.ExactlyProportional` | node/src/chain-engine-persistent.ts:2199-2211 | over all seeds each id is chosen exactly as often as it has stake |
| `Proposer.ChoiceIgnoresOrder` | node/src/chain-engine-persistent.ts:2186-2214 | the choice does not depend on the order the validators come in |
| `Proposer.OneTurnEach` | node/src/chain-engine-persistent.ts:624-630 | in any n consecutive heights from one up each of n slots has exactly one turn |
| `Proposer.EnginesAgreeIff` | node/src/chain-engine.ts:160-171 | the two engines' rotations agree exactly from height one up or where the slot is zero, and elsewhere the persistent one has no proposer |
| `Proposer.AlwaysAProposer` | node/src/chain-engine-persistent.ts:615-631 | every height from one up has a proposer, chosen from the right set |
| `Proposer.ExpectedIsOwner` | node/src/chain-engine-persistent.ts:615-622 | with stake among the active validators the engine's answer is the id whose share of the range holds the hash |
| `Proposer.ExpectedIsProportional` | node/src/chain-engine-persistent.ts:615-622 | each id is the answer for exactly as many of the hashes below the total as it has stake |
| `Proposer.ExpectedIgnoresOrder` | node/src/chain-engine-persistent.ts:615-622 | the answer does not depend on the order of the active list |
| `Proposer.TurnsInOrder` | node/src/chain-engine-persistent.ts:624-630 | without stake the active validators by id, or the listed ones, take turns in order from height one |
| `Proposer.TurnsRepeat` | node/src/chain-engine-persistent.ts:624-630 | and begin again after the last, whatever the hashes are |
| `Proposer.FairTurns` | node/src/chain-engine-persistent.ts:624-630 | in as many consecutive heights as there are places, each id has as many turns as places |

## Left out

- Early divergence detection (node/src/bft-coordinator.ts:936-1103): it merges buffered votes into the same computation and adds rate limits and lookups; only the computation itself is modelled.
- Snapshot sync, proposer-stuck callbacks and re-gossip at a timeout: they are effects on other components and change nothing in the coordinator.
- Slashing of detected equivocators (node/src/bft-slashing.ts) and the wire, storage and peer-to-peer layers.
- Block validity beyond the link check (proposer, hash, signatures, execution, state root): one given truth value per block in the chain-index model.
- Bringing the node ids of a manifest into one form (runtime/lib/reward-settlement.ts:173-179): names are compared after it.
- On-chain contracts, the EVM and the mempool.
- The evidence list inside the coordinator: no decision of the coordinator reads it, so its value state leaves it out; the object clears it at finality.
- CoordinatorObject.BftCoordinator.Take: the calls of the object run without interruption; what may come between their awaits is in the state machine, where `Interleaving.CallIsSegments` takes them apart.
- CoordinatorObject.BftCoordinator.ReplayUnfinalizedVotes: one uninterrupted pass; what may come between its broadcasts is in the state machine, where a replay is a run of single repeated votes.
- ChainIndex.ChainEngine.RebuildFromBlocks: the contract is for a rebuild that no apply overlaps; overlapping ones are runs of BeginApply, FinishApply, DropApply and Clear, which `ChainRuns` covers.
- ChainIndex.ChainEngine.MaybeAdoptSnapshot: the contract is for an adoption that no apply overlaps, as for RebuildFromBlocks.
- ChainIndex.ChainEngine.VerifyBlockChain: hash, timestamps, weight, proposer and signature of a block are one given truth value.
- Expression.EvaluateCondition: does not model double rounding, nor infinite or not-a-number variables; error values carry the offending character or token but not its position.
- Proposer.StakeWeightedProposer: the hash of the height is a parameter, so nothing is said about how evenly seeds fall.
- Settlement.PlanV1RewardDistribution: takes the scaled leaves and the set of active nodes as given; the scaling is in `Manifest`.
