# Raft and MapReduce, verified

A Dafny model of two programs and proofs about them: the Raft peer of `lab2_raft/raft` (elections, log
replication, commitment, the apply loop, crash recovery) and the MapReduce job of `lab1_mapreduce` (workers,
master, the sequential reference program). `dafny verify dfyconfig.toml` checks everything.

## How the model is built

**The peer.** `RaftServer` holds the classes `Persister` and `Raft`: the fields of the Go structs, updated step by
step by methods with the source's branches and loops. Every method says what it does to the fields, and is proved
equal to a function of `RaftHandlers`, one function for each critical section (`rf.mu` held). Everything else is
proved about those functions. `requires` clauses such as `CanSend` stand for slice and index expressions that would panic in Go;
`Durability.NoIndexOutOfRange` shows that they hold in every run that follows the six rules below.

**The cluster.** `Cluster` is a state machine over n peers and a network. Each action is one critical section, or
one call whose caller keeps its lock until the reply is in: an exchange is request, handler and reply in one step; a
call whose reply will not be seen leaves its request in the network, to be handled later once, out of order, or
never. An election is split into the campaign, one step for each voter, and the tally; meanwhile the candidate
handles nothing else. Crashes happen at any time, also in the middle of an election, when stable storage is older
than memory. Timeouts are free choices.

**Six rules.** In six places the code does not do what its comments say. `RaftTypes.Rules` has one flag for each;
`AS_COMMENTED` sets all, `AS_WRITTEN` none.

| rule | the comment | the code |
|---|---|---|
| keepVote | votedFor is the vote of the current term (raft.go:79) | winning an election clears it (raft.go:359) |
| giveUp | a candidate that sees a higher term stops (vote.go:187) | the tally still makes it leader, at the higher term (vote.go:202-204) |
| leaderOnly | only a leader sends or appends (readme.md:188-190) | the role is read in an earlier critical section (raft.go:149-158, raft.go:321-326) |
| appendNew | append only entries not yet in the log (entry.go:210) | all entries are appended (entry.go:219) |
| matchVerified | matchIndex is what is known to be replicated (raft.go:88) | it is also set from failed replies and to lengths beyond the leader's log (entry.go:96-104) |
| currentTermOnly | commit only at an entry of the current term (entry.go:141) | commitLog does not look at terms (entry.go:142-154), its caller only at the first entry sent (entry.go:107-112) |

`Exactness` says what this means, for all 64 combinations and all runs of any number of peers. Each guarantee holds of
every run if and only if certain rules are followed, whatever the others are:

| guarantee | holds of every run exactly under |
|---|---|
| election safety | keepVote, giveUp |
| leader append-only | keepVote, giveUp, leaderOnly |
| log shape | appendNew |
| log matching | keepVote, giveUp, leaderOnly, appendNew |
| leader completeness | all six |
| state machine safety | all six |

One direction is the proof of Raft. The other gives, for every single rule that is broken, concrete runs of three or
five peers that violate the guarantees, however the other five rules are set. The guarantees themselves
(`Guarantees`) speak only of the peers' fields along a run; the history used in the proofs (`History`, `Record`) is
built beside a run and is not part of its state.

**What holds of the code as written** is proved without the rules: one peer's votes, terms and recovery
(`NodeHistory`), backtracking, truncation, commit counting and the commit cap (`Replication`), and appending when no
append request arrives late (`Lossless`).

**What holds whatever the rules** is proved for all of them at once: commands come from clients and are applied in
order (`Origin`), one call brings both peers to the later term and the commit index across (`Contact`), any peer may
crash at any moment and what comes back is exact (`Recovery`), and from every state of every run a leader of a new
term can still be elected (`Electable`). `Scenarios` has ordinary runs.

**The job.** `MapReduce` has the loops of the workers and of the sequential program, `Master` the task table as a
class, and `Job` the state machine of both together: workers that crash, repeat one another's tasks or are slow,
files written one at a time by any attempt, and the two phases of the schedule. The sort is not stable, so its result
is any sorted permutation; the order in which the files of a bucket are found is any order. The channel receive
and the store of the new task in `GetTask` are one step, which the sleep at master.go:98 stands for. `JobProgress`
shows that every run of a job can still be brought to its end.

## Model

| member | source | states |
|---|---|---|
| `Exactness.StateMachineSafetyExactly` | lab2_raft/raft/entry.go:138-234 | for all 64 rule sets: no run of any size has two peers with different entries committed at one index, if and only if all six rules are followed |
| `Exactness.LeaderCompletenessExactly` | lab2_raft/raft/vote.go:58-93 | every leader of every run holds what was committed before, if and only if all six rules are followed |
| `Exactness.LogMatchingExactly` | lab2_raft/raft/entry.go:187-219 | log matching holds of every run if and only if the first four rules are followed, whatever the other two |
| `Exactness.LeaderAppendOnlyExactly` | lab2_raft/raft/raft.go:161-171 | in every run leaders only append, if and only if the first three rules are followed, whatever the other three |
| `Exactness.ElectionSafetyExactly` | lab2_raft/raft/vote.go:152-206 | no term ever has two leaders, in every run, if and only if the first two rules are followed, whatever the other four |
| `Exactness.LogShapeExactly` | lab2_raft/raft/entry.go:209-219 | logs are well formed in every run if and only if only new entries are appended, whatever the other five rules |
| `Exactness.AnyBrokenRuleBreaks` | lab2_raft/raft/entry.go:138-234 | for every rule set but the commented one: a run with conflicting commits and a leader that lacks a committed entry |
| `Safety.StateMachineSafety` | lab2_raft/raft/config.go:183-189 | in every run with loss, late delivery and crashes, two peers at any two moments agree on every index both hold as committed |
| `Safety.AppliedCommandsAgree` | lab2_raft/raft/raft.go:267-283 | whatever two turns of the apply loop send for the same index, on any peers and at any moments, is the same command |
| `Safety.LeaderCompleteness` | lab2_raft/raft/vote.go:58-93 | a leader holds, entry by entry, everything that any peer of an earlier term (or of its own term, earlier) ever held as committed |
| `Origin.AppliedWasGiven` | lab2_raft/raft/raft.go:267-283 | under any rules: the apply loop sends the command at the next index of the peer's own log, not beyond its commitIndex, and a client gave that command before |
| `Origin.AppliedInOrder` | lab2_raft/raft/config.go:190-199 | under any rules: a peer applies an index only after it has applied the one before |
| `Origin.EntriesWereGiven` | lab2_raft/raft/raft.go:161-171 | under any rules: every entry of every log after the placeholder is a command a client gave before, with the term and index it was then given |
| `Electable.LeaderCanBeElected` | lab2_raft/raft/vote.go:152-206 | under any rules and from every state of every run: the run can go on to a leader of a term later than all there were, so no state blocks elections |
| `Electable.SomeonePasses` | lab2_raft/raft/vote.go:69-74 | in any state every non-empty set of peers has a member that passes the log check of all of them |
| `Electable.OneOfTwoPasses` | lab2_raft/raft/vote.go:69-74 | of any two peers at least one passes the other's log check |
| `Contact.LaterTermDeposes` | lab2_raft/raft/entry.go:178-185 | in any state and under any rules: a sender that reaches a peer of a later term becomes a follower of that term, and the peer stays as it was |
| `Contact.EarlierTermFollows` | lab2_raft/raft/entry.go:167-176 | a peer of an earlier term takes over the sender's term and follows, its log untouched |
| `Contact.TermsMeet` | lab2_raft/raft/entry.go:86-93 | after any exchange both peers are in the later of their terms and have saved it |
| `Contact.PollSpreadsTerms` | lab2_raft/raft/vote.go:187-191 | a voter comes to the candidate's term at least, and an overtaken candidate takes over the voter's term and follows |
| `Contact.RequestCarriesCommit` | lab2_raft/raft/entry.go:76-83 | every request carries its sender's term and commitIndex |
| `Contact.CommitTravels` | lab2_raft/raft/entry.go:223-232 | after success the follower's commitIndex is at least the smaller of the leader's and its own last index, and goes back only if it was beyond the log |
| `Contact.CommitArrives` | lab2_raft/raft/entry.go:223-232 | from a well-formed leader's log success leaves the larger of the two commit indices, exactly |
| `Recovery.CrashComesBack` | lab2_raft/raft/raft.go:236-261 | under any rules: every peer can crash in every state; the log always comes back, term and vote do between elections, and in the middle of one exactly the new term is forgotten |
| `Scenarios.CommandIsApplied` | lab2_raft/raft/raft.go:267-283 | under any rules: a run in which a command is committed, applied by two peers, and applied again after a crash |
| `Scenarios.LateVoteBinds` | lab2_raft/labrpc/labrpc.go:29-36 | under any rules: a run in which a vote request is handled after its candidate lost, and still binds the voter |
| `AppendOnly.LeaderAppendOnly` | lab2_raft/raft/raft.go:161-171 | under the first three rules a leader's log at an earlier moment of its term is a prefix of its log at a later one, also where all entries are appended as written |
| `Safety.LogMatching` | lab2_raft/raft/entry.go:187-219 | under the first four rules, logs of any two peers at any two moments with equal terms at an index are equal up to that index |
| `Shape.LogShape` | lab2_raft/raft/raft.go:249-254 | under the fourth rule alone every log starts with the placeholder, entries carry their positions, terms never decrease and never exceed the peer's term |
| `Shape.StepKeepsShape` | lab2_raft/raft/entry.go:187-219 | every action keeps logs, their saved copies and requests under way well formed, whoever wins elections and whoever sends |
| `Safety.ElectionSafety` | lab2_raft/raft/vote.go:152-206 | under the first two rules no two peers are leader of one term, at whatever moments, crashes included |
| `Durability.CommittedEntriesStay` | lab2_raft/raft/entry.go:197-207 | what a peer once held as committed stays in its log for the rest of the run, truncations and crashes included |
| `Durability.TruncationIsHarmless` | lab2_raft/raft/entry.go:187-219 | for the handler as written and under any rules: a request made from its leader's log leaves every committed entry of the receiving log in place |
| `Durability.NothingCommittedIsCut` | lab2_raft/raft/entry.go:197-207 | in every state of a run under the six rules, the handler as written never cuts at or below commitIndex, whatever request waits or could be sent: the check need not start after it |
| `Durability.NoIndexOutOfRange` | lab2_raft/raft/entry.go:115-136 | in every run a leader's slice of its log and the apply loop's read are within bounds |
| `Commitment.LaterWinnersHold` | lab2_raft/raft/vote.go:69-74 | an entry stored by a majority in its leader's term is in the first log of every winner of a later term, by the voter the two majorities share |
| `CommitSteps.VoteCovers` | lab2_raft/raft/vote.go:69-74 | the up-to-date check: a candidate that passes it holds what the voter had stored, unless an intermediate winner lacked it |
| `CommitSteps.StepKeepsCommits` | lab2_raft/raft/entry.go:60-113 | every action keeps the invariant about stored and committed entries, under all six rules |
| `CommitSteps.AppendCommitOk` | lab2_raft/raft/entry.go:219-232 | after AppendEntries the follower's commitIndex covers only committed entries, has not gone down, and nothing below it changed |
| `CommitSteps.CommitLogOk` | lab2_raft/raft/entry.go:138-155 | with verified matchIndex values and the current-term test, commitLog moves only to an index that a majority has stored |
| `LogSteps.StepKeepsLogs` | lab2_raft/raft/raft.go:144-174 | every action that repeats no entry keeps the invariant about logs, leaders and requests under way |
| `LogSteps.AppendEffect` | lab2_raft/raft/entry.go:157-234 | in the leader's term: the log stays well formed, loses nothing it shares with the leader's, and after success agrees with it as far as the request reaches |
| `Elections.TermIsUnclaimed` | lab2_raft/raft/vote.go:202-205 | a candidate with a majority of recorded votes runs for a term nobody has won |
| `Elections.StepKeepsElections` | lab2_raft/raft/raft.go:349-373 | every action keeps recorded votes binding and won terms won, under the first two rules only |
| `NecessityVote.VoteClearedByVictory` | lab2_raft/raft/raft.go:357-359 | whenever victory clears votedFor: a run in which two peers lead one term, and a late request of the first undoes what the second committed |
| `NecessityVote.LeaderOverwrites` | lab2_raft/raft/raft.go:357-359 | whenever victory clears votedFor: a run in which a leader is cut and writes other entries of its term at the same places, which breaks log matching |
| `Necessity.OvertakenCandidateLeads` | lab2_raft/raft/vote.go:187-205 | whenever an overtaken candidate may still win: a run in which two peers lead one term and commit different entries |
| `Necessity.StaleRoleAppends` | lab2_raft/raft/raft.go:149-169 | whenever the role may be stale: a run in which a deposed leader appends and commits in its successor's term |
| `Necessity.StaleRoleTruncates` | lab2_raft/raft/raft.go:321-326 | whenever the role may be stale: a run in which a deposed leader's request cuts the log of the leader of that term |
| `Necessity.EntryAppendedTwice` | lab2_raft/raft/entry.go:210-219 | whenever all entries are appended: a run, with one late request, that breaks log shape, log matching and agreement on committed entries |
| `NecessityFive.UnverifiedMatchCounts` | lab2_raft/raft/entry.go:96-104 | whenever matchIndex is set unverified: a run in which two peers commit different entries at one index |
| `NecessityFive.OldTermCounts` | lab2_raft/raft/entry.go:106-112 | whenever entries of older terms are counted: a run in which two peers commit different entries at one index |
| `Lossless.AppendAllRefinesAppendNew` | lab2_raft/raft/entry.go:209-219 | entries appended and matchIndex set as written: every run without late append requests is a run of the rule that appends only new entries |
| `Lossless.LosslessLogsMatch` | lab2_raft/raft/entry.go:187-225 | so log matching and log shape hold of those runs |
| `Lossless.ExchangeKeepsTracking` | lab2_raft/readme.md:200-202 | after any exchange in the leader's term nextIndex is the follower's log length and matchIndex one less, as long as neither leaves the term |
| `Lossless.AcceptedFits` | lab2_raft/raft/entry.go:115-136 | an accepted non-empty request starts exactly where the follower's log ends |
| `Replication.BacktrackingConverges` | lab2_raft/raft/entry.go:75-104 | as written: from nextIndex = last + 1, length of the follower's log plus one exchanges make it contain the leader's log, and more keep it so |
| `Replication.RoundCloser` | lab2_raft/raft/entry.go:187-225 | one exchange keeps the two in touch and strictly shortens the distance while there is any |
| `Replication.TruncationIsExact` | lab2_raft/raft/entry.go:187-207 | as written and for any follower log: entries shared with the leader that built the request survive, and a log is cut only where the two disagree |
| `Replication.AppendAllKeepsPositions` | lab2_raft/raft/entry.go:217-219 | as written: a non-empty append keeps Index = position if and only if the log ended where the request starts |
| `Replication.CommitLogIsExact` | lab2_raft/raft/entry.go:138-155 | as written: commitIndex becomes the larger of its old value and the greatest index of the log that a strict majority has reached, and nothing else fits |
| `Replication.ReplicatedBelow` | lab2_raft/raft/entry.go:142-154 | an index reached by a strict majority has every lower index reached by one |
| `Replication.CommitWithinRequest` | lab2_raft/raft/entry.go:75-83 | every request has LeaderCommit at most PrevLogIndex + len(Entries) |
| `Replication.CommitCapIsPapers` | lab2_raft/raft/entry.go:223-232 | so capping by the follower's last index equals the paper's cap by the last new entry, and never commits past it |
| `NodeHistory.CrashRestoresState` | lab2_raft/raft/raft.go:200-256 | as written, at every lock-release point, also before the first save: a crash and Make restore term, votedFor and log exactly |
| `NodeHistory.TermNeverDrops` | lab2_raft/raft/vote.go:152-206 | as written, for any requests and replies: a peer's term never goes down, crashes included |
| `NodeHistory.OneVotePerTerm` | lab2_raft/raft/vote.go:42-95 | as written: two votes of one peer in one term go to one candidate, unless the first was its own and made it leader of that term |
| `NodeHistory.LeaderVotesAgain` | lab2_raft/raft/raft.go:306-310 | the exception is real: a leader of term 1 steps down and votes for another in term 1 |
| `RaftServer.Persister.constructor` | lab2_raft/raft/persister.go:20-22 | no state and no snapshot |
| `RaftServer.Persister.Copy` | lab2_raft/raft/persister.go:24-31 | new storage with the same state and snapshot |
| `RaftServer.Persister.SaveRaftState` | lab2_raft/raft/persister.go:33-37 | the state is what was saved last; the snapshot stays |
| `RaftServer.Persister.ReadRaftState` | lab2_raft/raft/persister.go:39-43 | returns the state saved last |
| `RaftServer.Persister.SaveStateAndSnapshot` | lab2_raft/raft/persister.go:53-58 | state and snapshot change together |
| `RaftServer.Persister.ReadSnapshot` | lab2_raft/raft/persister.go:60-64 | returns the snapshot |
| `RaftServer.Raft.constructor` | lab2_raft/raft/raft.go:236-261 | Make: the boot state of whatever storage holds, with the placeholder if it holds nothing |
| `RaftServer.Raft.Persist` | lab2_raft/raft/raft.go:112-128 | storage holds term, votedFor and log; nothing else changes |
| `RaftServer.Raft.ReadPersist` | lab2_raft/raft/raft.go:200-220 | the three fields come from storage, or stay as they are if it is empty |
| `RaftServer.Raft.LastLogTermIndex` | lab2_raft/raft/raft.go:375-381 | term and Index field of the last entry, zeros for an empty log |
| `RaftServer.Raft.ChangeRole` | lab2_raft/raft/raft.go:349-373 | the whole state after each of the three changes of role |
| `RaftServer.Raft.GetState` | lab2_raft/raft/raft.go:94-105 | current term and whether the peer is leader |
| `RaftServer.Raft.Start` | lab2_raft/raft/raft.go:144-174 | appends and saves if the role read earlier was leader, whatever it is now; otherwise changes nothing |
| `RaftServer.Raft.RequestVote` | lab2_raft/raft/vote.go:42-95 | the vote is granted if and only if the term is not old, the peer is not leader of it and has no other vote in it, and the candidate's last entry is of a later term or of the same and not shorter; term, vote and role in all three outcomes; saved on every path |
| `RaftServer.Raft.StartElection` | lab2_raft/raft/vote.go:152-206 | the loop over replies takes over every higher term and counts every grant; won exactly when a strict majority of distinct peers granted, itself included; the term is that of the last higher reply, or the one asked for |
| `RaftServer.Raft.CollectVotes` | lab2_raft/raft/vote.go:174-199 | every answer is heard in turn, and the count is one more than the grants |
| `RaftServer.Raft.Conclude` | lab2_raft/raft/vote.go:200-206 | leader exactly if the count is a strict majority; saved either way |
| `RaftServer.GrantersCounted` | lab2_raft/raft/vote.go:174-199 | with one answer from each peer the vote count is the number of distinct peers that granted, plus one |
| `RaftServer.Raft.GetAppendLogs` | lab2_raft/raft/entry.go:115-136 | previous index, previous term and entries of the request |
| `RaftServer.Raft.CommitLog` | lab2_raft/raft/entry.go:138-155 | the nested loops with early exit reach the exact commit point and change nothing else |
| `RaftServer.Raft.MajorityAt` | lab2_raft/raft/entry.go:143-153 | the counting loop with early exit says whether more than half of the peers have reached the index |
| `RaftServer.Raft.AppendEntries` | lab2_raft/raft/entry.go:157-234 | state and reply on all six paths, over the fields: later term, earlier term (which the reply tells), clash before, first clash within, log too short, everything appended and commitIndex capped |
| `RaftServer.Raft.TakeReply` | lab2_raft/raft/entry.go:86-113 | what any reply does to term, role, nextIndex, matchIndex and commitIndex |
| `RaftServer.Raft.SendHeartbeat` | lab2_raft/raft/entry.go:54-113 | request, handler on the other peer and reply as one step, for lost requests, lost replies and answered calls; a later term comes back, an earlier one is overtaken |
| `RaftServer.Raft.ApplyNext` | lab2_raft/raft/raft.go:267-283 | sends the command at lastApplied + 1, with that index, exactly when it is committed |
| `RaftServer.CrashAndRestart` | lab2_raft/raft/persister.go:24-31 | a new peer on a copy of the storage has the old peer's term, vote and log |
| `Job.JobEqualsSequential` | lab1_mapreduce/main/test-mr.sh:65-66 | when a job is done, after any crashes, retries and duplicate attempts, its output files hold exactly the sequential program's lines, each key once and in the file of its hash, each file in order of keys |
| `JobProgress.JobCanFinish` | lab1_mapreduce/mr/master.go:87-142 | every run of every job can go on until the job is done and every output file is written: no crash, failure or repetition is a dead end |
| `JobProgress.AnyTaskMayBeRepeated` | lab1_mapreduce/mr/master.go:203-231 | in every state of every run any task may be reported failed and then handed out again, and any map file written once more |
| `Job.HandedOutAgainAfterFailure` | lab1_mapreduce/mr/master.go:277-300 | between two hand-outs of one task number there is a report that it failed |
| `Job.HandedOutIsSent` | lab1_mapreduce/mr/master.go:282-292 | what is handed out is on record as sent, to that worker, at that time |
| `Job.FilesAreRight` | lab1_mapreduce/mr/worker.go:145-167 | retries are idempotent: in every state of every run each intermediate file holds its bucket of its own input, and a finished map task has all its files |
| `Job.StepKeepsStore` | lab1_mapreduce/mr/master.go:277-296 | no event, a retry under the old number included, spoils an intermediate file or removes one |
| `Job.ReduceSeesBucket` | lab1_mapreduce/mr/worker.go:184-208 | with all map files there, a reduce task merges exactly its bucket of everything, in whatever order it finds the files |
| `Job.TasksAreConserved` | lab1_mapreduce/mr/master.go:276-336 | a task keeps its number, name and phase for ever; each file has one map task and no map task has another file |
| `Job.PhaseBarrier` | lab1_mapreduce/mr/master.go:92-123 | where a reduce task exists there was an earlier moment at which every file's map task was finished |
| `MapReduce.BucketsEquivalent` | lab1_mapreduce/main/mrsequential.go:59-84 | for any reducer insensitive to value order, the lines of all buckets are a permutation of the lines of the whole, keys distinct, each in the bucket of its hash |
| `MapReduce.DoMap` | lab1_mapreduce/mr/worker.go:141-148 | bucket i holds only pairs whose key's hash is i modulo n, and each pair is in that bucket as often as in the map output |
| `MapReduce.DoReduce` | lab1_mapreduce/mr/worker.go:190-228 | one line for each key found and no other, with the reduction of all its values, in ascending order of keys |
| `MapReduce.EmitGroups` | lab1_mapreduce/mr/worker.go:212-228 | the three nested loops emit one line for each maximal run of equal keys |
| `MapReduce.CollectValues` | lab1_mapreduce/mr/worker.go:218-221 | the values of a stretch of pairs, in order |
| `MapReduce.Sequential` | lab1_mapreduce/main/mrsequential.go:38-84 | one line for each key of all map output and no other, with the reduction of all its values, in ascending order of keys |
| `KeyValues.GroupsOfSorted` | lab1_mapreduce/main/mrsequential.go:68-84 | grouping adjacent equal keys of a sorted list gives every key exactly one line, with all its values |
| `KeyValues.LessIsLexicographic` | lab1_mapreduce/mr/worker.go:39 | a key is less than another if and only if it ends, or has the smaller character, at the first place where they differ |
| `KeyValues.GroupsAscend` | lab1_mapreduce/mr/worker.go:208-228 | the lines made of a sorted list are in strictly ascending order of keys |
| `KeyValues.SortedByNeighbours` | lab1_mapreduce/mr/worker.go:34-39 | for the order of keys, comparing neighbours is equivalent to comparing all pairs |
| `Master.MakeMaster` | lab1_mapreduce/mr/master.go:175-201 | no master for a job without buckets, else one in its first state |
| `Master.Server.constructor` | lab1_mapreduce/mr/master.go:185-195 | an empty table in the map phase; done at once if there are no files; the worker numbers 1 to 10 free |
| `Master.Server.GenTaskID` | lab1_mapreduce/mr/master.go:65-67 | the next task number, with 32-bit wrap-around |
| `Master.Server.IsTasksDone` | lab1_mapreduce/mr/master.go:70-84 | true exactly if every task in the table is finished |
| `Master.Server.GetTask` | lab1_mapreduce/mr/master.go:276-336 | a failed task is handed out again under its number and name before any new one; otherwise a new number; nothing once the channel is closed; what goes out is in the table as sent, to this worker, now |
| `Master.Server.SetTaskState` | lab1_mapreduce/mr/master.go:338-359 | only the state and the beat time of the task change; an unknown number changes nothing |
| `Master.Server.WorkerHeartBeat` | lab1_mapreduce/mr/master.go:237-254 | only the beat time of the task changes; number 0 is accepted, an unknown one refused |
| `Master.Server.GetWorkerID` | lab1_mapreduce/mr/master.go:146-155 | hands out a free number once, or none |
| `Master.Server.PutWorkerID` | lab1_mapreduce/mr/master.go:159-168 | a number comes back at most once |
| `Master.Server.CheckTask` | lab1_mapreduce/mr/master.go:206-228 | one stale task: failed unless finished, and its worker's number free |
| `Master.Server.HandleHeartbeat` | lab1_mapreduce/mr/master.go:203-231 | exactly the tasks without a beat for ten seconds fail, except finished ones, and exactly the numbers of their workers come back to the pool |

## Where code and documentation differ

- The six rules above. The functions and classes follow the code; the comments are a second setting of the flags.
- The comment at entry.go:74 speaks of setting nextIndex to the end of the follower's log; the handler returns the
  place of the conflict, and the branch for a reply of -1 (entry.go:96) is kept although no handler sends it.
- The comment at raft.go:245 says that votedFor is reset after each election; it is reset only by
  winning or by a higher term in RequestVote. A higher term in AppendEntries leaves it (entry.go:169-176).

## Left out

- labrpc and labgob: a handler runs at most once for each call and encoding is undone by decoding; channels, reflection and gob are not modelled.
- Timers, sleeps, random timeouts and liveness: a timeout may happen at any moment. `Electable.LeaderCanBeElected`, `JobProgress.JobCanFinish` and `Replication.BacktrackingConverges` say that progress stays possible, not that it happens.
- Data races below the granularity of the locks: the replies of one election are taken in one after the other, and a reply that arrives after its caller gave up is not seen.
- The sizes of encoded state and snapshot, and `Kill`.
- RaftServer.Raft.StartElection: the replies are taken in one after the other, not by goroutines that share the term and the role.
- RaftServer.Raft.ApplyNext: the channel send is the returned message.
- Integers of the Raft code are unbounded; Go's `int` does not wrap at any size a run can reach.
- Commands are the empty command or an integer, as in the repository's own clients.
- Cluster-wide safety of the code as written: not claimed, since `Exactness` refutes it; what holds as written is in `NodeHistory`, `Replication`, `Lossless` and `Durability.TruncationIsHarmless`.
- Job.JobEqualsSequential: needs that the number of files and buckets together stays below 2^32, where task numbers wrap around and would overwrite one another.
- MapReduce.DoMap: sort.Sort is not modelled as code; its result is a parameter, any sorted permutation. So too in MapReduce.DoReduce and MapReduce.Sequential.
- Panics in mapf and reducef, and the decode error that ends the merge loop early: after `recover` doMap and doReduce return no error and the task is reported finished (worker.go:121-130, worker.go:274-279), so the equivalence is for functions that do not panic.
- Files: each is written whole in one step and read back as written, and the directory starts without intermediate files; JSON, names on disk and partial writes are not modelled.
- Keys are compared character by character, where Go compares bytes; the proofs use only that the order is total and transitive.
- The hash is any function to the natural numbers; mapf is any function of the input file, content included.
- schedule as one method: its two sending loops and its checks are the stages of the job's state machine, and giving up after waitTaskTimeout is not modelled.
- Master.Server.HandleHeartbeat: one clock value for a whole round, and no other request in between; in the job's state machine its effects are separate reports.
- `Done`, `AddReduceTask`, net/rpc and plugin loading.
