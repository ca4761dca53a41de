# Raft with asynchronous persistence: a Dafny model

This project models the `raft/` package: a Raft in which entries and hard state are
handed to a *Keeper* and acknowledged later (`MsgLogStatus`, `MsgStateStatus`,
`MsgApplyStatus`). Votes, self-votes and append acknowledgements are therefore issued
after the write completed, not when the message is handled, and every classical proof
has to be redone over this code's own state. `dafny verify dfyconfig.toml` checks
everything.

## What is proved

**Elections.** A cluster is a set of nodes, one disk per node with queued hard-state
writes, a network that loses, duplicates and reorders, and a history that only observes.
In every run, crashes and restarts from the durable hard state included, no two
different nodes are ever leader in the same term (`Election.ElectionSafety`). The proof
rests on the vote of a term being fixed by the step that enters the term, and on grants
and self-votes following durability; a follower that re-grants to its current leader
stays harmless.

**Logs.** Leader Completeness, State Machine Safety, the `termStart` commit test as the
textbook rule, and the absence of every panic of `maybeAppend` and `commitTo`
(`LogSafety`, `RunFacts`) hold in every run, crashes and restarts included, in which a
crashing node has its term and vote on its disk and comes back with a part of its log
that holds all it has acknowledged. Neither condition can be dropped: losing the term
breaks Log Matching (below), and losing an acknowledged entry lets even a cluster of one
node commit two entries at one index (`LostAck.LostAckBreaksCommits`). Two things differ
from what one would expect of this code.

- A follower acknowledges whatever index the keeper reports once `receiving` is set,
  even an old tail. No additional guard is needed for commit safety: probing never
  undershoots the common prefix, so the first append accepted in a term already makes
  the follower's log a prefix of the leader's (`FollowerSteps.AcceptSettles`), and every
  acknowledgement is true (`LogSafety.AcksAreTrue`). This is where the exact flow control
  (Next, Probe and Replicate, rejection hints) enters the safety proof.
- A candidate can win on the durable votes of others before its own vote is durable, and
  the grants stay in the network. A node that has led a term and crashes can therefore
  lead it again, and it can do so exactly when its disk has not reached the term
  (`Reelection.LeadsAgainIff`). From every such state one crash that loses nothing but
  one proposal breaks Log Matching (`Reelection.OneCrashBreaksLogMatching`;
  `CrashRun.CrashBreaksLogMatching` gives a run from the start). Conversely Log Matching
  survives every run in which nodes come back with a log they had and no node crashes
  with a led term beyond its disk (`CrashSafety.LogMatchingWithCrashes`).

**Progress.** Safety alone would be met by code that does nothing, so the other side is
proved too. Over all runs: a candidate has neither won nor lost the votes it has counted
and follows nobody (`Tally`), a node that says it has voted has that vote on its disk (`Voted`), and a
leader has committed whatever a quorum has matched of its own term (`CommitRule`). From
every state of every run, whatever crashes it had, every quorum can elect one of its
nodes, because of any two nodes one grants the other's request (`Electable`). From every
state of a run whose crashes keep their promises, a leader can bring any follower of its
term to its own log however far the two have diverged, a quorum can commit any proposal,
and a quorum can recover: elect a leader, take over its log and commit all of it
(`CatchUp`, `Recovery`). These statements are about what can happen in some continuation
without a crash, not about what must happen under fairness. Catching up takes one new
entry: an append of what a follower has on its disk already gets no answer from this code
(`CatchUp.AcknowledgedIff`), and a report that a node handles as a candidate or
pre-candidate is never acknowledged later.

**Log layer.** `raftLog` over storage, the unstable tail and the queued writes stands for
one plain sequence under every operation, wherever the split falls. The cursor chain
holds between any two operations, the Apply stream is the log applied once and never
rewritten, and waiters are settled once and truthfully (`RaftLog`, `LogRuns`). The
acknowledgement of a write is identified by index and term only; an entry that was
replaced and came back makes a late report wrong (`RaftLog.LateReport` gets there by the
log's own operations). `RaftLog.ReportExact` says exactly when a report is right and
stays right while the keeper works off its queue, and `stableTo` keeps the two halves of
the log together if and only if no write at or below the index is queued.

**Membership.** What a list of changes means (last change wins), an inductive invariant
under which the final check of the Changer never fails, the exact outcome of `Simple`,
`EnterJoint` and `LeaveJoint`, quorum overlap across every successful change, and the
round trip of `Restore` with the exact class of ConfStates for which it holds; what
becomes of every node's progress in a change (`ConfSpec`, `ConfRestore`, `Changer`). One
membership change at a time at a leader, which changes pass, and the automatic leave
(`ConfGate`).

**Quorums and flow control.** The commit index is the largest index a joint quorum
acknowledged; vote results are exact three-valued semantics; the inflight ring buffer is
a bounded queue; the pipelined send loop tiles the log; fast back-tracking finds exactly
the common prefix with at most one refusal per term. Over whole runs, with both logs
moving and messages lost, repeated and late, a new leader acts on at most as many
rejections from a follower as its log has distinct terms, until it hears the first
acknowledgement (`Probing.RejectionsInRuns`).

## How it is built

| files | content |
|---|---|
| `PlainLog`, `ProgressSpec`, `RaftNode` | values and the step functions of one node |
| `Protocol`, `Election`, `History`, `Replication`, `Lift`, `CalmSteps`, `TermSteps`, `FollowerSteps`, `LeaderSteps`, `LogSafety`, `RunFacts` | the cluster as a transition system, its invariants and theorems |
| `CrashSafety`, `Reelection`, `CrashRun`, `LostAck` | what crashes of nodes leave of elections and logs |
| `Tally`, `Voted`, `CommitRule`, `Paths`, `Electable`, `Health`, `CatchUp`, `Recovery` | that what should happen does, or can |
| `Delivery`, `Raft` | `raft.Step` as a class that updates its fields and its log in place; every delivery is at most two transitions of the cluster, followed by sends |
| `SizeLimit`, `LogSpec`, `LogRuns`, `Storage`, `Waiters`, `RaftLog` | the log layer: values, runs, and the classes |
| `Quorum`, `ConfSpec`, `ConfRestore`, `Changer`, `ConfGate` | quorums and membership |
| `Inflights`, `Progress`, `Backtracking`, `Probing` | flow control |

Conventions. An entry's index is its position; a batch of entries is given with its first
index. Indexes and terms are unbounded naturals. `math.MaxUint64`, which an empty
majority config returns, is `Unbounded`. Timers, leases, pre-vote, check-quorum and
leader transfer appear in the cluster as transitions that may happen at any time, which
allows more runs than the code has. Two comments of the source disagree with its code,
and the model follows the code: `findConflictByTerm` does not return the first index when
there is no match in a compacted log, and `Inflights.FreeFirstOne` is not a no-op on a
window to which nothing was ever added, but panics.

## Model

| member | source | states |
|---|---|---|
| Election.ElectionSafety | raft/raft.go:1638-1723 | at any two moments of any run, crashes included, two leaders of one term are the same node |
| Election.StepKeepsE | raft/raft.go:1954-1963 | every step, the keeper's writes and restarts from the durable hard state included, keeps the election invariant: backed leaders, votes ordered along the disk queue, truthful grants |
| Election.RecvVoteE | raft/raft.go:1638-1705 | handling a vote request keeps the node's hard states in order and sends only truthful grants, re-grants to the current leader included |
| Election.StateStatusE | raft/raft.go:1707-1723 | a durable hard state is answered with a grant for exactly its vote, and a win counts only votes that are durable |
| History.UpToDateHolds | raft/log.go:414-416 | a log at least as up-to-date as a voter's holds what the voter holds of an earlier leader's own entries |
| History.LeaderCompleteness | raft/raft.go:608-614 | by induction over terms: what a leader committed in its own term is in the log of every later leader |
| FollowerSteps.MatchAgrees | raft/raft.go:1725-1761 | a matching (index, term) pair means the logs agree up to it |
| FollowerSteps.AcceptKeeps | raft/log.go:111-131 | accepting an append never removes an entry that agrees with the sender's log |
| FollowerSteps.AcceptSettles | raft/raft.go:1725-1761 | after the first append a node accepts in a term its log is a prefix of that leader's log, however long a tail it had before |
| FollowerSteps.HintBounds | raft/raft.go:1744-1757 | a rejection's index and hint bound the common prefix from above |
| FollowerSteps.NoAppendPanic | raft/log.go:111-131 | none of the panics of maybeAppend, append and commitTo is reachable |
| FollowerSteps.CommittedSettled | raft/raft.go:1726-1729 | the immediate acknowledgement of an append below the commit index comes only from nodes settled in the term |
| FollowerSteps.LogStatusFollower | raft/raft.go:1566-1572 | acknowledging a persisted index, covered by an append or not, keeps every invariant |
| FollowerSteps.BeatCommit | raft/raft.go:1763-1767 | the commit index of a heartbeat was acknowledged by its receiver in the same term |
| LeaderSteps.BacktrackBounds | raft/raft.go:1255-1359 | the leader's findConflictByTerm of a hint still bounds the common prefix |
| LeaderSteps.ProbeAfterReject | raft/tracker/progress.go:170-193 | Next after a fresh rejection cannot make a later append leave a foreign tail |
| LeaderSteps.OnAckL | raft/raft.go:1360-1399 | an acknowledgement keeps the progress invariant: Replicate only for followers whose log is settled |
| LeaderSteps.QuorumAcked | raft/raft.go:608-614 | the index maybeCommit reads is acknowledged, in this term, by a joint quorum |
| TermSteps.WinHere | raft/raft.go:781-822 | becoming leader keeps the log invariants: the new term's log extends the candidate's by the empty entry |
| LogSafety.StepKeepsL | raft/raft.go:1032-1129 | every step, crashes that keep hard state and acknowledged entries included, keeps the replication invariant, and the history only grows |
| LogSafety.CrashKeepsL | raft/raft.go:1954-1963 | the restart itself: a shorter log breaks no progress entry, message or acknowledgement of anybody |
| LogSafety.LogMatchingInRuns | raft/log.go:111-180 | in runs whose crashes keep their promises, two logs, at any nodes and moments, with the same term at an index are equal up to it |
| LogSafety.LeaderCompletenessInRuns | raft/raft.go:1229-1401 | in such runs what any node committed at any moment is in the log of every leader of a later term at any moment |
| LogSafety.StateMachineSafety | raft/raft.go:608-614 | in such runs no two nodes ever commit different entries at an index, whatever the moments |
| LogSafety.TermStartRule | raft/raft.go:608-614 | at a leader, an index is at or above termStart iff its entry has the current term |
| LogSafety.AcksAreTrue | raft/raft.go:1566-1572 | a positive MsgAppResp says the truth about its sender's log while the sender stays in the term |
| LogSafety.AppendsKeepAgreement | raft/raft.go:1725-1761 | a delivered append, stale or duplicated, keeps everything that agrees with its sender's log |
| LogSafety.AppendsNeverPanic | raft/log.go:111-156 | a delivered append never meets a panic |
| LogSafety.HeartbeatsNeverPanic | raft/log.go:304-313 | a delivered heartbeat never commits beyond the log |
| RunFacts.LeaderCommitsNeverPanic | raft/log.go:304-313 | the leader's quorum index never lies beyond its log |
| RunFacts.LeaderStatusNeverPanics | raft/raft.go:1163-1172 | the same after the keeper's report about the leader's own log |
| RunFacts.DeliveriesNeverPanic | raft/raft.go:1032-1129 | in no run whose crashes keep their promises does raft.Step panic on a message from the network |
| RunFacts.SendsNeverPanic | raft/raft.go:453-514 | in every run whose crashes keep their promises a leader's Next lies within its log or right behind it and no follower is in the snapshot state, so a send is always possible |
| RunFacts.StepExtendsRun | raft/raft.go:1032-1129 | what raft.Step does with a message, with any appends the same call sends afterwards, extends any run, so the theorems about runs hold of the code's steps |
| Delivery.SendsAreTransitions | raft/raft.go:538-546 | a sequence of appends is a sequence of cluster transitions with the same progress and messages |
| RunFacts.CommittedForever | raft/log.go:304-313 | in runs without crashes what a node committed stays committed and stays the same in every later state |
| RunFacts.BacktrackingInRuns | raft/raft.go:1255-1359 | between any two logs of a run, probing ends exactly at the common prefix within the bound on refusals |
| CrashSafety.NeverLeadsAgain | raft/raft.go:1954-1963 | a node that crashes after its disk has reached a term never leads that term again, in any run |
| CrashSafety.StepLog | raft/raft.go:1032-1129 | how any step may change a log: not at all, by entries of the leader's own term, by the empty entry of a win, or into a log made of leaders' logs |
| CrashSafety.LogMatchingWithCrashes | raft/raft.go:1954-1963 | Log Matching in every run whose crashing nodes restore a part of a log they had and have led no term beyond their disk |
| Reelection.ElectedByOthers | raft/raft.go:1707-1723 | a leader whose disk is behind its term was elected by a quorum whose grants are in the network |
| Reelection.LeadsAgainIff | raft/raft.go:1533-1547 | a node that has led a term and crashes now can lead that term again iff its disk has not reached the term |
| Reelection.OneCrashBreaksLogMatching | raft/raft.go:1533-1547 | from every state with a leader whose disk is behind its term, a proposal and one crash that loses only the proposal lead to two logs with entries of one term at one index and different content |
| LostAck.LostAckBreaksCommits | raft/raft.go:1954-1963 | a run with exactly one crash, which keeps term and vote but not an acknowledged entry, in which two different entries are committed at one index |
| CrashRun.CrashBreaksLogMatching | raft/raft.go:1533-1547 | a run with exactly one crash, of a leader of term 1 whose disk is at term 0, in which that node leads term 1 twice with different entries at the same index |
| Tally.CandidatesAreUndecided | raft/raft.go:1533-1547 | in every run, crashes included, whoever is still a candidate has neither a winning nor a lost tally |
| Tally.RolesKnowTheirLeader | raft/raft.go:716-822 | in every run a leader knows that it leads, and whoever runs for leadership knows of no leader |
| Voted.VotedIsDurable | raft/raft.go:1707-1723 | in every run, crashes included, a node that says it has voted has given another node a vote of its present term that is on its disk |
| Voted.RefusesInTerm | raft/raft.go:1641-1657 | within its term a node refuses everybody but the leader it follows, and grants that one again exactly if it has voted |
| Voted.GrantsAgain | raft/raft.go:1707-1723 | after the report of its vote a node grants that vote and grants it again to the leader it elected |
| CommitRule.QuorumIsCommitted | raft/raft.go:608-614 | in every leader state of every run in which commitTo does not panic, an index of the leader's own term that a quorum has matched is committed |
| CommitRule.PromisesCommitQuietly | raft/log.go:304-313 | in runs whose crashes keep their promises commitTo does not panic at a leader |
| Electable.GrantsIff | raft/raft.go:1638-1705 | a request of a new term is granted iff the candidate's log is at least as up-to-date, and refused at once otherwise |
| Electable.OneGrants | raft/log.go:414-416 | of any two nodes that ask each other for a vote in a new term at least one gets it |
| Electable.MostUpToDate | raft/log.go:414-416 | every set of nodes has one that is at least as up-to-date as all of it |
| Electable.CanWin | raft/raft.go:849-905 | a node at least as up-to-date as a quorum can win any term above theirs: requests to all of them, durable votes, answers, tally |
| Electable.QuorumCanElect | raft/raft.go:849-905 | from every state of every run every quorum can elect one of its nodes in a new term |
| CatchUp.ReportIsAcknowledged | raft/raft.go:1566-1572 | once a node has accepted an append, every report it accepts is acknowledged to the sender of the append |
| CatchUp.AcknowledgedIff | raft/raft.go:1725-1761 | an accepted append can be acknowledged iff it brought something new or something was not reported yet |
| CatchUp.Converges | raft/raft.go:1232-1399 | probes, refusals and acknowledgements lead from any Next to a follower with the leader's log, replicated to, with what the leader had committed committed |
| CatchUp.CatchAll | raft/raft.go:538-546 | the same for any set of followers, one after the other |
| CatchUp.AllCommitted | raft/raft.go:608-614 | what a quorum has matched up to a last entry of the leader's term is committed to the last |
| Recovery.PeerCanCatchUp | raft/raft.go:453-514 | from every state with a leader v and a peer that has not left its term behind, some continuation gives the peer v's log and v a Match equal to its last index |
| Recovery.QuorumCanCommit | raft/raft.go:917-945 | from every state with a leader and a quorum that has not left its term behind, any proposal can be committed by all of the quorum |
| Recovery.QuorumCanRecover | raft/raft.go:1032-1129 | from every state any quorum can elect a leader in a new term and commit its whole log on all of its nodes |
| Probing.WinProgress | raft/raft.go:781-822 | a new leader probes everybody else behind its log, with no Match, and has its whole log matched itself |
| Probing.LeaderBacksOff | raft/raft.go:1255-1359 | acting on a fresh rejection, exact or overtaken by an accepted append, leaves fewer rejections to act on |
| Probing.FollowerMoves | raft/raft.go:1725-1761 | no step of the follower, refusals included, adds to the rejections the leader can act on |
| Probing.RejectionsInRuns | raft/raft.go:1255-1359 | from its election until it hears an acknowledgement, a leader acts on at most as many rejections from a follower as there are distinct terms in the log it was elected with |
| Delivery.FollowsSender | raft/raft.go:1032-1129 | whoever handles an append or heartbeat of a term not below its own follows its sender in that term |
| Delivery.StaleLeaderStepsDown | raft/raft.go:1038-1060 | a leader of a lower term gets an answer that makes it a follower of the newer term |
| Delivery.StepIsTransitions | raft/raft.go:1032-1129 | raft.Step on any network message is at most two transitions of the cluster, with the same node, messages and writes |
| Raft.Raft.Step | raft/raft.go:1032-1129 | dispatch on term, type and role in place, against the function whose transitions the cluster takes, and exactly when it panics |
| Raft.Raft.Handle | raft/raft.go:1502-1614 | messages of the node's own term, by role |
| Raft.Raft.Reset | raft/raft.go:621-652 | term, vote, lead, flags and every progress entry after reset |
| Raft.Raft.BecomeFollower | raft/raft.go:716-728 | the follower state of the step function |
| Raft.Raft.BecomeFollowerExt | raft/raft.go:730-733 | the same, with the hard state handed to the keeper |
| Raft.Raft.BecomeCandidate | raft/raft.go:735-752 | term plus one, a vote for itself |
| Raft.Raft.BecomeLeader | raft/raft.go:781-822 | own progress replicating, empty entry appended, termStart at it |
| Raft.Raft.Campaign | raft/raft.go:849-905 | one vote request to every other voter of either half, with the log's last index and term |
| Raft.Raft.HandleVote | raft/raft.go:1638-1705 | the vote is queued for the keeper, not answered, iff the candidate is up-to-date (Electable.GrantsIff); rejections are answered at once |
| Raft.Raft.HandleStatePersisted | raft/raft.go:1707-1723 | the durable vote is answered, or counted when it is the node's own |
| Raft.Raft.Poll | raft/raft.go:907-915 | first answers count; the tally is the joint vote result |
| Raft.Raft.HandleVoteResp | raft/raft.go:1533-1547 | won, lost or pending, with the transition that follows |
| Raft.Raft.HandleAppendEntries | raft/raft.go:1725-1761 | acknowledgement, rejection with hint, or acceptance on the split log; panics exactly where the step function says |
| Raft.Raft.StepApp | raft/raft.go:1559-1565 | an append at a follower or candidate, which first becomes a follower |
| Raft.Raft.StepHeartbeat | raft/raft.go:1763-1767 | commit on a heartbeat, and exactly when it panics |
| Raft.Raft.AppendEntry | raft/raft.go:654-672 | entries stamped with the term at the end of the log |
| Raft.Raft.MaybeCommit | raft/raft.go:608-614 | commits the joint quorum index if it is of this term, so that nothing a quorum has matched stays uncommitted (CommitRule.QuorumIsCommitted) |
| Raft.Raft.LogStatus | raft/raft.go:1518-1521 | a persistence report in any role: progress, commit, and the acknowledgement of CatchUp.ReportIsAcknowledged |
| Raft.Raft.LeaderLogStatus | raft/raft.go:1163-1172 | the leader's own progress, then commit or local commit |
| Raft.Raft.StepAppResp | raft/raft.go:1360-1399 | progress and commit after an acknowledgement |
| Raft.Raft.StepAppReject | raft/raft.go:1232-1359 | progress after a rejection |
| RaftLog.RaftLog.constructor | raft/log.go:74-103 | an opened log stands for what was compacted plus what storage holds |
| RaftLog.RaftLog.LastIndex | raft/log.go:235-240 | the length of the plain log |
| RaftLog.RaftLog.Term | raft/log.go:345-368 | the plain term from the dummy index on, zero below and beyond |
| RaftLog.RaftLog.MatchTerm | raft/log.go:418-424 | agreement with the plain term, compacted indexes counting as zero |
| RaftLog.RaftLog.Slice | raft/log.go:451-490 | the size-limited plain range wherever the split falls, or compacted, or a panic out of bounds |
| RaftLog.RaftLog.Append | raft/log.go:133-156 | truncation and append of the plain log; panics exactly below the commit index or with a gap |
| RaftLog.RaftLog.Propose | raft/raft.go:917-945 | a leader-local proposal and the registration of its waiters |
| RaftLog.RaftLog.KeeperWrite | raft/storage.go:254-286 | carrying out a queued write changes nothing about the log and never panics |
| RaftLog.RaftLog.KeeperCompact | raft/storage.go:231-249 | compaction up to the compacted cursor changes nothing about the log |
| RaftLog.RaftLog.LocalCommitTo | raft/log.go:281-302 | local commit, the batch handed to Apply, and the waiters called |
| RaftLog.RaftLog.CommitTo | raft/log.go:304-313 | commit, and exactly when it panics |
| RaftLog.RaftLog.StableTo | raft/log.go:327-329 | the split moves behind the reported entry iff index and term match; the halves still add up to the log iff no write at or below the index is queued |
| RaftLog.RaftLog.LogStatus | raft/raft.go:1518-1521 | stableTo followed by localCommitTo keeps every invariant |
| RaftLog.RaftLog.AppliedTo | raft/log.go:261-269 | the applied cursor, and exactly when it panics |
| RaftLog.RaftLog.CompactTo | raft/log.go:250-259 | the compacted cursor, capped by applied and never decreasing |
| RaftLog.RaftLog.FindConflict | raft/log.go:168-180 | the first index at which a batch is new or has another term than reads show |
| RaftLog.RaftLog.FindConflictByTerm | raft/log.go:189-210 | the largest index with a term not above the given one, and what a compacted prefix makes of it |
| RaftLog.RaftLog.MaybeAppend | raft/log.go:111-131 | match, cut, append and commit at any index, compacted ones included, and exactly when it panics |
| RaftLog.LateReport | raft/log_unstable.go:75-99 | opening a log, appending and writing reach a state in which stableTo accepts a report although storage holds another entry there, and reads go wrong |
| RaftLog.ReportExact | raft/log_unstable.go:75-99 | under Log Matching an accepted report is right, now and after each write still queued, iff storage has the log's term at that index now and after each of them |
| RaftLog.ReportEnough | raft/log_unstable.go:75-99 | that no write at or below the index is queued is enough |
| LogSpec.MaybeAppend | raft/log.go:111-131 | the log after it is the accepted plain log, with the commit index and split that follow |
| LogRuns.CursorChainInRuns | raft/log.go:36-56 | compacted, applied, applying, localCommitted = min(committed, offset-1) and committed within the log, between any two operations |
| LogRuns.AppliedOnceInRuns | raft/log.go:281-302 | all Apply batches concatenate to the log between where it resumed and applying, and are never rewritten |
| LogRuns.HeededInRuns | raft/log.go:250-313 | what an operation asked to commit or compact, or reported persisted or applied, is so ever after; whatever has become locally committed is handed to Apply |
| LogRuns.CalledOnceInRuns | raft/inflight.go:28-67 | each registered callback has been called once or waits once, never both |
| LogRuns.NilMeansCommitted | raft/inflight.go:35-49 | nil is reported only for the very entry that was registered, locally committed |
| LogRuns.DroppedMeansCut | raft/inflight.go:51-67 | ErrProposalDropped is reported only after an append cut that very entry out of the log |
| Waiters.Search | raft/inflight.go:40-42 | the binary search splits a sorted queue exactly at the limit |
| Waiters.Inflight.CommitTo | raft/inflight.go:35-49 | waiters up to the index are called with nil, in order, and leave the queue |
| Waiters.Inflight.TruncateFrom | raft/inflight.go:51-67 | waiters from the index on are called with the error, in order, and leave the queue |
| Storage.MemoryStorage.Entries | raft/storage.go:123-140 | the limited range, compacted, unavailable, or a panic |
| Storage.MemoryStorage.Term | raft/storage.go:143-154 | the term, compacted or unavailable |
| Storage.MemoryStorage.Compact | raft/storage.go:231-249 | entries above the index and the term at it survive |
| Storage.MemoryStorage.Append | raft/storage.go:254-286 | everything from the batch's start on is replaced; panics exactly on a gap |
| Storage.Unstable.MaybeTerm | raft/log_unstable.go:56-73 | the term inside the tail and nothing outside |
| Storage.Unstable.StableTo | raft/log_unstable.go:75-99 | the tail is cut iff index and term match |
| Storage.Unstable.TruncateAndAppend | raft/log_unstable.go:134-156 | the spliced tail, its offset, and whether anything was truncated |
| SizeLimit.LimitSize | raft/util.go:213-230 | the limited prefix |
| SizeLimit.LimitedIsLongest | raft/util.go:213-230 | no longer prefix fits; only a single entry may exceed the limit |
| SizeLimit.LimitedSplit | raft/log.go:457-489 | limiting the stored part first cuts in the same place |
| PlainLog.FindConflict | raft/log.go:168-180 | zero iff all terms match, otherwise the first mismatch |
| PlainLog.FindConflictByTerm | raft/log.go:189-210 | the result has a term not above the given one and everything between has a larger one |
| Quorum.InsertionSort | raft/quorum/majority.go:115-122 | in place, sorted, a permutation |
| Quorum.MajorityCommittedIndex | raft/quorum/majority.go:126-172 | the largest index a majority acknowledged, missing reports counting as zero; no bound for an empty config |
| Quorum.JointCommittedIndex | raft/quorum/joint.go:49-56 | the largest index acknowledged by a majority of each non-empty half |
| Quorum.MajorityVoteResult | raft/quorum/majority.go:178-210 | the tally of a majority config |
| Quorum.JointVoteResult | raft/quorum/joint.go:61-75 | won iff every completion of the votes wins, lost iff none does |
| Quorum.VoteResultExact | raft/quorum/joint.go:61-75 | the same for the specification function, for all partial votes |
| Quorum.DecidedStaysDecided | raft/tracker/tracker.go:276-281 | further answers never change a decided result |
| Quorum.NearbyMajoritiesMeet | raft/confchange/confchange.go:386-400 | majorities of two sets that differ in at most one node share a node |
| Inflights.DropLEExact | raft/tracker/inflights.go:87-114 | on increasing input, exactly the elements up to the bound are removed |
| Inflights.Inflights.Add | raft/tracker/inflights.go:55-69 | the queue gains the element at its end, in a grown or wrapped buffer |
| Inflights.Inflights.Grow | raft/tracker/inflights.go:74-84 | a longer buffer, the same queue |
| Inflights.Inflights.FreeLE | raft/tracker/inflights.go:87-114 | the leading elements up to the bound leave the queue |
| Inflights.Inflights.FreeFirstOne | raft/tracker/inflights.go:118 | frees the first element; panics iff nothing was ever added |
| Inflights.Inflights.Reset | raft/tracker/inflights.go:129-132 | an empty queue |
| Inflights.Inflights.Clone | raft/tracker/inflights.go:45-49 | the same queue in memory of its own |
| Progress.Progress.BecomeProbe | raft/tracker/progress.go:114-126 | Next after Match or the pending snapshot, an empty window |
| Progress.Progress.BecomeReplicate | raft/tracker/progress.go:129-132 | Next after Match, an empty window |
| Progress.Progress.MaybeUpdate | raft/tracker/progress.go:144-153 | Match and Next only grow |
| Progress.Progress.MaybeDecrTo | raft/tracker/progress.go:170-193 | stale rejections change nothing; fresh ones lower Next |
| Progress.Progress.IsPaused | raft/tracker/progress.go:201-212 | paused by state, probe or full window |
| Progress.Progress.OnAck | raft/raft.go:1360-1384 | progress and window after an acknowledgement |
| Progress.Progress.OnReject | raft/raft.go:1352-1358 | progress after a rejection |
| Sending.Entries | raft/log.go:388-393 | at least one entry when there is one, as many as fit |
| Sending.MaybeSendAppend | raft/raft.go:453-514 | sends iff not paused and there is something to send; what it sends and what becomes of the progress |
| Sending.SendLoop | raft/raft.go:1398-1399 | terminates; the messages tile the log from Next on without gap or overlap, within the window, at most one while probing |
| Backtracking.RejectionRound | raft/raft.go:1744-1757 | one rejected append and the leader's reaction move the probe as the functions below say |
| Backtracking.NextProbeSound | raft/log.go:189-210 | a rejection never skips an index at which the logs have the same term |
| Backtracking.TermsDrop | raft/raft.go:1255-1359 | of two rejected probes in a row the second has a smaller leader term |
| Backtracking.FindsCommonPrefix | raft/raft.go:1255-1359 | probing ends at the largest index with equal terms |
| Backtracking.RefusalsBounded | raft/raft.go:1255-1359 | at most one rejection per distinct term in the leader's log |
| ConfSpec.LastChangeWins | raft/confchange/confchange.go:152-176 | the last change that names a node decides its role |
| ConfSpec.ApplyAllRoles | raft/confchange/confchange.go:152-246 | a list of changes keeps the strengthened invariant and changes the roles in turn |
| ConfSpec.SimpleExact | raft/confchange/confchange.go:130-147 | which guard fails when; otherwise a sound config with the expected roles |
| ConfSpec.EnterJointExact | raft/confchange/confchange.go:49-76 | the same for entering a joint config |
| ConfSpec.LeaveJointExact | raft/confchange/confchange.go:92-123 | fails only on a config that is not joint; staged learners become learners |
| ConfSpec.DoProgress | raft/confchange/confchange.go:180-273 | a change keeps the progress of every tracked node, unless the list drops the node in between, and starts every new one from scratch |
| ConfSpec.HistoryIsSound | raft/confchange/confchange.go:278-358 | every config of every history of changes is sound, so the check never fails |
| ConfSpec.ChangesOverlap | raft/confchange/confchange.go:54-147 | quorums before and after a successful change share a node |
| ConfSpec.ElectionsOverlap | raft/quorum/joint.go:61-75 | elections won on either side of a change share a voter, in every history |
| ConfRestore.RestoreExact | raft/confchange/restore.go:26-155 | restoring a well-formed ConfState succeeds with exactly its roles |
| ConfRestore.RestoreRoundTrip | raft/raftpb/confstate.go:25-44 | the ConfState of the restored config is equivalent to the input |
| ConfRestore.RestoreRebuilds | raft/tracker/tracker.go:147-155 | restoring the ConfState of a config in use rebuilds that config |
| ConfRestore.RestoreIff | raft/raft.go:353-360 | Restore succeeds with an equivalent ConfState iff the input was well-formed |
| ConfRestore.HistoryRestores | raft/confchange/restore.go:119-155 | the same for every config of every history of changes |
| Changer.Draft.MakeVoter | raft/confchange/confchange.go:180-191 | add or promote, in place, a promoted node keeping its progress (ConfSpec.DoProgress) |
| Changer.Draft.MakeLearner | raft/confchange/confchange.go:206-230 | add, demote, or stage while the node still votes in the outgoing half |
| Changer.Draft.Remove | raft/confchange/confchange.go:233-246 | remove, keeping the progress of outgoing voters |
| Changer.Draft.InitProgress | raft/confchange/confchange.go:249-273 | a new progress entry |
| Changer.Draft.Apply | raft/confchange/confchange.go:152-176 | the list in order, or the error |
| Changer.Draft.CheckInvariants | raft/confchange/confchange.go:278-334 | decides the checked invariant |
| Changer.SymDiff | raft/confchange/confchange.go:386-400 | the size of the symmetric difference |
| Changer.Simple | raft/confchange/confchange.go:130-147 | the outcome of the specification, on a copy |
| Changer.EnterJoint | raft/confchange/confchange.go:49-76 | the outcome of the specification, on a copy |
| Changer.LeaveJoint | raft/confchange/confchange.go:92-123 | the outcome of the specification, on a copy |
| Changer.ToConfChangeSingle | raft/confchange/restore.go:26-97 | the two change lists of a ConfState |
| Changer.SimpleEach | raft/confchange/restore.go:99-109 | one change after the other until one fails |
| Changer.Restore | raft/confchange/restore.go:119-155 | the outcome of the specification |
| Changer.ConfStateOf | raft/tracker/tracker.go:147-155 | the sorted lists of a config |
| ConfGate.GateOne | raft/raft.go:964-1003 | of a batch at most one conf change passes, and only if nothing is pending |
| ConfGate.GateExact | raft/raft.go:964-1003 | the one conf change that passes is the first that leaves iff the config is joint, when nothing is pending; every other one becomes an empty entry |
| ConfGate.LeavesByItself | raft/raft.go:1173-1197 | when an auto-leave leader has applied up to pendingConfIndex its log gets the leaving entry for good, and no other conf change passes until it is applied |
| ConfGate.PendingCovers | raft/raft.go:800-805 | in every leader state no conf change lies above pendingConfIndex |
| ConfGate.OneChangeAtATime | raft/raft.go:964-1010 | in every leader state, every conf change before one of this term is applied |
| ConfGate.Leader.Propose | raft/raft.go:949-1012 | the batch as ConfGate.GateExact has it and pendingConfIndex, also when the quota refuses the batch |
| ConfGate.Leader.ApplyStatus | raft/raft.go:1173-1197 | the applied cursor and the automatic leave entry |

## Left out

- Snapshots: MsgSnap, restore and the snapshot branch of sending; the log layer starts from a compacted storage but never installs a snapshot.
- Pre-vote, check-quorum, leases, ticks and leader transfer: only as transitions that may happen at any time; pre-vote messages are not exchanged.
- Membership changes inside cluster runs: voters are fixed there; overlap across changes is proved for the configurations themselves.
- Compaction inside cluster runs: logs are complete there, and MsgHeartbeat's Compact field is not modelled; the log layer and the raft class work on compacted logs.
- Crashes that lose part of the hard state or of what was acknowledged: Election Safety covers them, Log Matching exactly as far as CrashSafety and Reelection say, the commit theorems not at all.
- RunFacts.CommittedForever: for runs without crashes, because a restart may fall back behind the commit index.
- Probing.RejectionsInRuns: for runs without crashes.
- RaftLog.RaftLog.LogStatus: asks the keeper not to report an index while a write at or below it is queued, because the source compares terms only (see RaftLog.LateReport).
- Raft.Raft.LogStatus: the same.
- Raft.Raft.LeaderLogStatus: the same.
- Raft.Raft.Step: network messages only, without the appends sent in the same call, which are transitions of their own (RunFacts.StepExtendsRun).
- Raft.Raft.Handle: the same.
- Delivery.StepIsTransitions: the same; Delivery.SendsAreTransitions has the sends.
- RunFacts.DeliveriesNeverPanic: the same; RunFacts.SendsNeverPanic has the sends.
- Raft.Raft.HandleVoteResp: without the broadcast after a win.
- Raft.Raft.StepAppResp: without the sends and the inflight window, which Progress.Progress.OnAck has.
- Raft.Raft.StepAppReject: without the append sent after a fresh rejection.
- Raft.Raft.StepHeartbeat: without compactTo and the MsgHeartbeatResp.
- Raft.Raft.Reset: without pendingConfIndex (see ConfGate), quota, read-only and transfer fields.
- Raft.Raft.BecomeLeader: the same.
- Raft.Raft.BecomeFollowerExt: the hard state without its commit index.
- Raft.Raft.Campaign: real elections only, without the transfer context.
- Raft.Raft.Poll: the result, not the counts that are logged.
- Raft.Raft.AppendEntry: past the check of the quota.
- RaftLog.RaftLog.Propose: callbacks that are called at once are left out.
- Storage.Unstable.MaybeTerm: without the snapshot branch.
- Sending.Entries: on a log that holds everything asked for.
- Sending.MaybeSendAppend: for a log that still holds everything from Next on, so without the snapshot branch; message headers are left out.
- ConfGate.Leader.Propose: without the drops for a removed leader and a running transfer.
- ConfGate.Leader.ApplyStatus: without maybeCompact and the panic of appliedTo.
- ConfState.Equivalent is modelled by its meaning, equal multisets, not by its sorting.
- Forwarded proposals, whose waiters are registered at index 0, and callbacks that are called at once.
- The uncommitted-size quota: whether there is room is an input.
- Read-only requests, MsgHeartbeatResp (it only unpauses a follower; the cluster may send at any time).
- Liveness under fairness: progress is shown to be possible from every state, not to be inevitable.
- raft/node.go, raft/rawnode.go, raft/bootstrap.go: plumbing around the step machine.
- Machine integers: indexes and terms do not wrap.
