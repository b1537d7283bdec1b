/** The values a Raft peer keeps, stores and sends (lab2_raft/raft/{raft,entry,vote}.go). */
module RaftTypes {
  import opened Options

  /** A client command; the log's position 0 holds the empty command. */
  datatype Command = Nil | Op(id: int)

  datatype Entry = Entry(term: nat, index: nat, command: Command)

  type Log = seq<Entry>

  /** The entry that Make puts at position 0 of an empty log. */
  const PLACEHOLDER := Entry(0, 0, Nil)

  /** The value of votedFor when no vote was cast. */
  const NOBODY := -1

  datatype Role = Follower | Candidate | Leader

  /** What persist() encodes and readPersist() decodes. */
  datatype Persistent = Persistent(term: nat, votedFor: int, log: Log)

  /** The fields of one peer, together with the content of its stable storage.
      `disk` is None until the first save. */
  datatype RaftState = RaftState(
    me: nat,
    peers: nat,
    role: Role,
    term: nat,
    votedFor: int,
    log: Log,
    commitIndex: nat,
    lastApplied: nat,
    nextIndex: seq<int>,
    matchIndex: seq<int>,
    disk: Option<Persistent>)

  datatype VoteArgs = VoteArgs(term: nat, candidate: nat, lastIndex: nat, lastTerm: nat)

  datatype VoteReply = VoteReply(term: nat, granted: bool)

  datatype AppendArgs = AppendArgs(
    term: nat,
    leader: nat,
    prevIndex: nat,
    prevTerm: nat,
    entries: seq<Entry>,
    leaderCommit: nat)

  datatype AppendReply = AppendReply(term: nat, success: bool, nextIndex: int)

  /** What the apply loop sends to the service. */
  datatype ApplyMsg = ApplyMsg(command: Command, index: nat)

  /** Six rules that the comments state and the code does not follow.
      A flag is true when the rule is followed as commented, false for the code as written.
        keepVote         votedFor still records the vote of the current term after an election is won
        giveUp           a candidate that has seen a higher term does not become leader
        leaderOnly       the role is checked in the critical section that sends or appends
        appendNew        only entries that are not yet in the log are appended
        matchVerified    matchIndex is set from successful replies, to the last verified index
        currentTermOnly  a leader commits by counting only at an entry of its own term */
  datatype Rules = Rules(
    keepVote: bool,
    giveUp: bool,
    leaderOnly: bool,
    appendNew: bool,
    matchVerified: bool,
    currentTermOnly: bool)

  const AS_WRITTEN := Rules(false, false, false, false, false, false)
  const AS_COMMENTED := Rules(true, true, true, true, true, true)
}
