/** Every critical section of a Raft peer as a function from the old state to the new one. */
module RaftHandlers {
  import opened Options
  import opened RaftTypes

  // ----- reading the log

  function LastTerm(log: Log): nat {
    if log == [] then 0 else log[|log| - 1].term
  }

  /** The Index field of the last entry, which need not be its position. */
  function LastIndex(log: Log): nat {
    if log == [] then 0 else log[|log| - 1].index
  }

  // ----- stable storage

  function Saved(s: RaftState): Persistent {
    Persistent(s.term, s.votedFor, s.log)
  }

  function Persist(s: RaftState): RaftState {
    s.(disk := Some(Saved(s)))
  }

  /** What a restart reads back. A peer that never saved starts with the placeholder log. */
  function Stable(s: RaftState): Persistent {
    match s.disk
    case None => Persistent(0, NOBODY, [PLACEHOLDER])
    case Some(p) => p
  }

  /** Make: a fresh peer on top of whatever stable storage holds. */
  function Boot(me: nat, peers: nat, disk: Option<Persistent>): RaftState {
    var p := match disk case None => Persistent(0, NOBODY, [PLACEHOLDER]) case Some(p) => p;
    RaftState(me, peers, Follower, p.term, p.votedFor, p.log, 0, 0,
              seq(peers, _ => 0), seq(peers, _ => 0), disk)
  }

  function Restart(s: RaftState): RaftState {
    Boot(s.me, s.peers, s.disk)
  }

  // ----- changeRole

  /** changeRole(Follower). */
  function StepDown(s: RaftState): RaftState {
    s.(role := Follower)
  }

  /** changeRole(Candidate). */
  function Campaign(s: RaftState): RaftState {
    s.(role := Candidate, term := s.term + 1, votedFor := s.me)
  }

  /** changeRole(Leader). */
  function Promote(rules: Rules, s: RaftState): RaftState {
    var last := LastIndex(s.log);
    s.(role := Leader,
    votedFor := if rules.keepVote then s.votedFor else NOBODY,
    nextIndex := seq(s.peers, _ => last + 1),
    matchIndex := seq(s.peers, i => if i == s.me then last else 0))
  }

  // ----- elections

  function VoteRequest(s: RaftState): VoteArgs {
    VoteArgs(s.term, s.me, LastIndex(s.log), LastTerm(s.log))
  }

  /** The candidate's log is at least as recent as this one. */
  predicate UpToDate(a: VoteArgs, log: Log) {
    !(a.lastTerm < LastTerm(log) || (a.lastTerm == LastTerm(log) && a.lastIndex < LastIndex(log)))
  }

  /** RequestVote. The reply carries the term from before the request was looked at. */
  function HandleVote(s: RaftState, a: VoteArgs): (RaftState, VoteReply) {
    var t := if a.term > s.term then s.(role := Follower, term := a.term, votedFor := NOBODY) else s;
    var granted :=
      && t.term <= a.term
      && UpToDate(a, t.log)
      && t.role != Leader
      && (t.votedFor == NOBODY || t.votedFor == a.candidate);
    var u := if granted then t.(term := a.term, votedFor := a.candidate, role := Follower) else t;
    (Persist(u), VoteReply(s.term, granted))
  }

  /** startElection, one reply: a higher term is taken over at once. */
  function HearVote(s: RaftState, a: VoteArgs, r: VoteReply): RaftState {
    if r.term > a.term then s.(term := r.term, role := Follower) else s
  }

  /** The tally makes the candidate leader. */
  predicate Wins(rules: Rules, s: RaftState, voteCount: nat) {
    voteCount > s.peers / 2 && (rules.giveUp ==> s.role == Candidate)
  }

  /** startElection, the tally. */
  function Finish(rules: Rules, s: RaftState, voteCount: nat): RaftState {
    Persist(if Wins(rules, s, voteCount) then Promote(rules, s) else s)
  }

  // ----- log replication, leader side

  /** Start, once the caller is known to be leader. */
  function Start(s: RaftState, command: Command): RaftState
    requires s.me < |s.matchIndex|
  {
    var index := LastIndex(s.log) + 1;
    Persist(s.(log := s.log + [Entry(s.term, index, command)], matchIndex := s.matchIndex[s.me := index]))
  }

  /** The slice expressions of getAppendLogs stay within the log. */
  predicate CanSend(s: RaftState, f: nat) {
    && f < |s.nextIndex|
    && (LastIndex(s.log) >= s.nextIndex[f] ==> 0 < s.nextIndex[f] <= |s.log|)
  }

  /** getAppendLogs and the argument record of SendHeartbeat. */
  function BuildAppend(s: RaftState, f: nat): AppendArgs
    requires CanSend(s, f)
  {
    var next := s.nextIndex[f];
    if LastIndex(s.log) < next || |s.log[next..]| == 0 then
      AppendArgs(s.term, s.me, LastIndex(s.log), LastTerm(s.log), [], s.commitIndex)
    else
      AppendArgs(s.term, s.me, next - 1, s.log[next - 1].term, s.log[next..], s.commitIndex)
  }

  /** How many of the matchIndex values reach n. */
  function CountAtLeast(ms: seq<int>, n: int): nat {
    if ms == [] then 0 else CountAtLeast(ms[..|ms| - 1], n) + (if ms[|ms| - 1] >= n then 1 else 0)
  }

  predicate Replicated(s: RaftState, n: int) {
    CountAtLeast(s.matchIndex, n) > s.peers / 2
  }

  /** commitLog's test at index n. */
  predicate MayCommit(rules: Rules, s: RaftState, n: nat)
    requires n < |s.log|
  {
    Replicated(s, n) && (rules.currentTermOnly ==> s.log[n].term == s.term)
  }

  /** commitLog's outer loop from index n on, with commitIndex c so far. */
  function CommitScan(rules: Rules, s: RaftState, n: nat, c: nat): nat
    decreases |s.log| - n
  {
    if n >= |s.log| then c
    else CommitScan(rules, s, n + 1, if MayCommit(rules, s, n) then n else c)
  }

  function CommitLog(rules: Rules, s: RaftState): RaftState {
    s.(commitIndex := CommitScan(rules, s, s.commitIndex + 1, s.commitIndex))
  }

  /** SendHeartbeat after the call returned: what the reply does to the leader's view of peer f. */
  function NoteReply(rules: Rules, s: RaftState, f: nat, a: AppendArgs, r: AppendReply): RaftState
    requires f < |s.nextIndex| == |s.matchIndex|
  {
    if r.nextIndex == -1 then
      s.(nextIndex := s.nextIndex[f := s.nextIndex[f] - 1],
      matchIndex := s.matchIndex[f := s.nextIndex[f] - 2])
    else if r.nextIndex != 0 then
      s.(nextIndex := s.nextIndex[f := r.nextIndex],
      matchIndex := s.matchIndex[f :=
      if !rules.matchVerified then r.nextIndex - 1
      else if r.success then a.prevIndex + |a.entries|
      else s.matchIndex[f]])
    else s
  }

  /** SendHeartbeat after the call returned. A lost call leaves the zero reply, which changes nothing. */
  function HandleReply(rules: Rules, s: RaftState, f: nat, a: AppendArgs, r: AppendReply): RaftState
    requires f < |s.nextIndex| == |s.matchIndex|
  {
    if s.term < r.term then Persist(s.(term := r.term, role := Follower))
    else
      var t := NoteReply(rules, s, f, a, r);
      Persist(if a.entries != [] && r.success && a.entries[0].term == s.term then CommitLog(rules, t) else t)
  }

  const LOST := AppendReply(0, false, 0)

  // ----- log replication, follower side

  predicate Conflicts(log: Log, e: Entry) {
    e.index < |log| && log[e.index].term != e.term
  }

  /** Position in `entries` of the first one that conflicts with the log. */
  function FirstConflict(log: Log, entries: seq<Entry>): (j: nat)
    ensures j <= |entries|
    ensures forall i :: 0 <= i < j ==> !Conflicts(log, entries[i])
    ensures j < |entries| ==> Conflicts(log, entries[j])
  {
    if entries == [] || Conflicts(log, entries[0]) then 0
    else
      var r := FirstConflict(log, entries[1..]);
      assert forall i :: 1 <= i < r + 1 ==> entries[i] == entries[1..][i - 1];
      r + 1
  }

  /** The log after a successful consistency check. */
  function Extended(rules: Rules, log: Log, a: AppendArgs): Log
    requires a.prevIndex < |log|
  {
    if !rules.appendNew then log + a.entries
    else if a.prevIndex + 1 + |a.entries| <= |log| then log
    else log + a.entries[|log| - a.prevIndex - 1..]
  }

  function CommitCap(commitIndex: nat, leaderCommit: nat, lastIndex: nat): nat {
    if leaderCommit > commitIndex then (if leaderCommit > lastIndex then lastIndex else leaderCommit)
    else commitIndex
  }

  /** AppendEntries. */
  function HandleAppend(rules: Rules, s: RaftState, a: AppendArgs): (RaftState, AppendReply) {
    if a.term > s.term then
      (Persist(s.(term := a.term, role := Follower)), AppendReply(a.term, false, 0))
    else if a.term < s.term then
      (Persist(s), AppendReply(s.term, false, 0))
    else if 0 < a.prevIndex < |s.log| && s.log[a.prevIndex].term != a.prevTerm then
      (Persist(s.(log := s.log[..a.prevIndex])), AppendReply(0, false, a.prevIndex))
    else
      var j := FirstConflict(s.log, a.entries);
      if j < |a.entries| then
        (Persist(s.(log := s.log[..a.entries[j].index])), AppendReply(0, false, a.entries[j].index))
      else if a.prevIndex >= |s.log| then
        (Persist(s), AppendReply(0, false, |s.log|))
      else
        var log := Extended(rules, s.log, a);
        (Persist(s.(log := log, commitIndex := CommitCap(s.commitIndex, a.leaderCommit, |log| - 1))),
         AppendReply(0, true, |log|))
  }

  // ----- applying

  predicate CanApply(s: RaftState) {
    s.lastApplied < s.commitIndex && s.lastApplied + 1 < |s.log|
  }

  function Apply(s: RaftState): (RaftState, ApplyMsg)
    requires CanApply(s)
  {
    var i := s.lastApplied + 1;
    (s.(lastApplied := i), ApplyMsg(s.log[i].command, i))
  }
}
