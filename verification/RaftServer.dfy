/** The Raft peer as the object it is: fields that its methods update step by step, as written.
    Each method is proved equal to the critical section that the cluster and the histories are built from. */
module RaftServer {
  import opened Options
  import opened RaftTypes
  import opened RaftHandlers
  import opened NodeHistory
  import opened Replication

  /** Stable storage. The encoded Raft state is taken as the three values it decodes to, a snapshot as bytes. */
  class Persister {
    var raftstate: Option<Persistent>
    var snapshot: seq<bv8>

    constructor ()
      ensures raftstate == None && snapshot == []
    {
      raftstate, snapshot := None, [];
    }

    /** What the tester hands to the next incarnation: later saves by the old one do not reach it. */
    method Copy() returns (np: Persister)
      ensures fresh(np) && np.raftstate == raftstate && np.snapshot == snapshot
    {
      np := new Persister();
      np.raftstate := raftstate;
      np.snapshot := snapshot;
    }

    method SaveRaftState(state: Persistent)
      modifies this
      ensures raftstate == Some(state) && snapshot == old(snapshot)
    {
      raftstate := Some(state);
    }

    method ReadRaftState() returns (state: Option<Persistent>)
      ensures state == raftstate
    {
      state := raftstate;
    }

    method SaveStateAndSnapshot(state: Persistent, shot: seq<bv8>)
      modifies this
      ensures raftstate == Some(state) && snapshot == shot
    {
      raftstate := Some(state);
      snapshot := shot;
    }

    method ReadSnapshot() returns (shot: seq<bv8>)
      ensures shot == snapshot
    {
      shot := snapshot;
    }
  }

  /** A reply that arrived in time, and the peer it came from. */
  datatype Answer = Answer(from: nat, reply: VoteReply)

  /** Every peer but this one answers at most once. */
  ghost predicate OncePerPeer(answers: seq<Answer>, me: nat, peers: nat) {
    && (forall k :: 0 <= k < |answers| ==> answers[k].from < peers && answers[k].from != me)
    && (forall j, k :: 0 <= j < k < |answers| ==> answers[j].from != answers[k].from)
  }

  function Replies(answers: seq<Answer>): (rs: seq<VoteReply>)
    ensures |rs| == |answers| && forall k :: 0 <= k < |answers| ==> rs[k] == answers[k].reply
  {
    seq(|answers|, k requires 0 <= k < |answers| => answers[k].reply)
  }

  /** The peers that granted their vote. */
  ghost function Granters(answers: seq<Answer>): (q: set<nat>)
    ensures forall i :: i in q ==> exists k :: 0 <= k < |answers| && answers[k].from == i
  {
    if answers == [] then {}
    else
      var k := |answers| - 1;
      var rest := Granters(answers[..k]);
      assert forall j :: 0 <= j < k ==> answers[..k][j] == answers[j];
      rest + if answers[k].reply.granted then {answers[k].from} else {}
  }

  /** Some answer came from a later term than the one asked for. */
  ghost predicate Overtaken(answers: seq<Answer>, asked: nat) {
    exists k :: 0 <= k < |answers| && answers[k].reply.term > asked
  }

  /** t is the term of the last such answer, or the one asked for if there is none. */
  ghost predicate EndsAtTerm(answers: seq<Answer>, asked: nat, t: nat) {
    if Overtaken(answers, asked)
    then exists k :: LastHigher(answers, asked, k) && answers[k].reply.term == t
    else t == asked
  }

  ghost predicate LastHigher(answers: seq<Answer>, asked: nat, k: int) {
    && 0 <= k < |answers| && answers[k].reply.term > asked
    && forall j :: k < j < |answers| ==> answers[j].reply.term <= asked
  }

  lemma OneMoreAnswer(answers: seq<Answer>, k: nat, asked: nat, t: nat)
    requires k < |answers| && EndsAtTerm(answers[..k], asked, t)
    ensures
      var r := answers[k].reply;
      && EndsAtTerm(answers[..k + 1], asked, if r.term > asked then r.term else t)
      && (Overtaken(answers[..k + 1], asked) <==> Overtaken(answers[..k], asked) || r.term > asked)
  {
    var a, b := answers[..k], answers[..k + 1];
    assert forall j :: 0 <= j < k ==> b[j] == a[j];
    assert b[k] == answers[k];
    if b[k].reply.term > asked {
      assert LastHigher(b, asked, k);
    } else if Overtaken(a, asked) {
      var j :| LastHigher(a, asked, j) && a[j].reply.term == t;
      assert LastHigher(b, asked, j);
    }
  }

  /** Hearing the answers changes term and role only, to those of the last one from a later term. */
  lemma {:induction false} HearRule(s: RaftState, a: VoteArgs, answers: seq<Answer>)
    requires s.term == a.term && s.role == Candidate
    ensures
      var t := Hear(s, a, Replies(answers));
      && t == s.(term := t.term, role := t.role) && EndsAtTerm(answers, a.term, t.term)
      && t.role == if Overtaken(answers, a.term) then Follower else Candidate
  {
    if answers != [] {
      var k := |answers| - 1;
      HearRule(s, a, answers[..k]);
      RepliesStep(answers, k);
      assert answers[..k + 1] == answers;
      OneMoreAnswer(answers, k, a.term, Hear(s, a, Replies(answers[..k])).term);
    }
  }

  /** startElection of a peer that does not lead, from state s to t. */
  ghost predicate ElectedAsWritten(s: RaftState, t: RaftState, answers: seq<Answer>) {
    && t.log == s.log && t.commitIndex == s.commitIndex && t.lastApplied == s.lastApplied
    && t.disk == Some(Persistent(t.term, t.votedFor, t.log)) && EndsAtTerm(answers, s.term + 1, t.term)
    && (if |{s.me} + Granters(answers)| > s.peers / 2
        then t.role == Leader && t.votedFor == -1
        else t.votedFor == s.me && t.role == if Overtaken(answers, s.term + 1) then Follower else Candidate)
  }

  lemma ElectRule(s: RaftState, answers: seq<Answer>)
    requires OncePerPeer(answers, s.me, s.peers)
    ensures s.role != Leader ==> ElectedAsWritten(s, Elect(AS_WRITTEN, s, Replies(answers)), answers)
  {
    var c := Campaign(s);
    HearRule(c, VoteRequest(c), answers);
    GrantersCounted(answers, s.me, s.peers);
  }

  lemma RepliesStep(answers: seq<Answer>, k: nat)
    requires k < |answers|
    ensures Replies(answers[..k + 1])[..k] == Replies(answers[..k])
  {
  }

  /** Counting grants is counting the peers that granted. */
  lemma {:induction false} GrantersCounted(answers: seq<Answer>, me: nat, peers: nat)
    requires OncePerPeer(answers, me, peers)
    ensures |{me} + Granters(answers)| == 1 + Granted(Replies(answers))
  {
    if answers == [] {
      assert {me} + {} == {me};
    } else {
      var k := |answers| - 1;
      var rest := answers[..k];
      assert OncePerPeer(rest, me, peers) by { assert forall j :: 0 <= j < k ==> rest[j] == answers[j]; }
      GrantersCounted(rest, me, peers);
      LastIsNew(answers, me, peers);
      assert Granted(Replies(answers)) == Granted(Replies(rest)) + if answers[k].reply.granted then 1 else 0 by {
        RepliesStep(answers, k);
        assert answers[..k + 1] == answers;
      }
      OneMore({me}, Granters(rest), answers[k].from);
    }
  }

  lemma LastIsNew(answers: seq<Answer>, me: nat, peers: nat)
    requires OncePerPeer(answers, me, peers) && answers != []
    ensures answers[|answers| - 1].from !in {me} + Granters(answers[..|answers| - 1])
  {
    var k := |answers| - 1;
    assert forall j :: 0 <= j < k ==> answers[..k][j].from != answers[k].from;
  }

  lemma OneMore(a: set<nat>, b: set<nat>, x: nat)
    requires x !in a + b
    ensures |a + (b + {x})| == |a + b| + 1 && a + (b + {}) == a + b
  {
    assert a + (b + {x}) == (a + b) + {x};
  }

  class Raft {
    const peers: nat
    const me: nat
    const persister: Persister
    var role: Role
    var term: nat
    var votedFor: int
    var logEntries: seq<Entry>
    var commitIndex: nat
    var lastApplied: nat
    var nextIndex: seq<int>
    var matchIndex: seq<int>

    ghost function View(): RaftState
      reads this, persister
    {
      RaftState(me, peers, role, term, votedFor, logEntries, commitIndex, lastApplied, nextIndex, matchIndex,
                persister.raftstate)
    }

    ghost predicate Valid()
      reads this
    {
      me < peers && |nextIndex| == peers && |matchIndex| == peers
    }

    /** Make: a crash followed by Make restores exactly what stable storage holds. */
    constructor (peers: nat, me: nat, persister: Persister)
      requires me < peers
      ensures Valid() && this.persister == persister
      ensures role == Follower && commitIndex == 0 && lastApplied == 0
      ensures nextIndex == matchIndex == seq(peers, _ => 0)
      ensures persister.raftstate.None? ==> term == 0 && votedFor == -1 && logEntries == [Entry(0, 0, Nil)]
      ensures persister.raftstate.Some? ==> persister.raftstate.value == Persistent(term, votedFor, logEntries)
      ensures View() == Boot(me, peers, persister.raftstate)
    {
      this.peers, this.me, this.persister := peers, me, persister;
      term, votedFor, role := 0, NOBODY, Follower;
      logEntries := [];
      commitIndex, lastApplied := 0, 0;
      nextIndex := seq(peers, _ => 0);
      matchIndex := seq(peers, _ => 0);
      new;
      ReadPersist();
      if |logEntries| == 0 {
        logEntries := logEntries + [Entry(0, 0, Nil)];
      }
      ReadPersist();
    }

    method Persist()
      modifies persister
      ensures persister.raftstate == Some(Persistent(term, votedFor, logEntries))
      ensures View() == RaftHandlers.Persist(old(View()))
    {
      persister.SaveRaftState(Persistent(term, votedFor, logEntries));
    }

    method ReadPersist()
      modifies this
      ensures persister.raftstate.None? ==> View() == old(View())
      ensures persister.raftstate.Some? ==>
                var p := persister.raftstate.value;
                View() == old(View()).(term := p.term, votedFor := p.votedFor, log := p.log)
    {
      var data := persister.ReadRaftState();
      match data
      case None =>
      case Some(p) =>
        term, votedFor, logEntries := p.term, p.votedFor, p.log;
    }

    method LastLogTermIndex() returns (lastTerm: nat, lastIndex: nat)
      ensures logEntries == [] ==> lastTerm == 0 && lastIndex == 0
      ensures logEntries != [] ==>
                var last := logEntries[|logEntries| - 1];
                lastTerm == last.term && lastIndex == last.index
      ensures lastTerm == LastTerm(logEntries) && lastIndex == LastIndex(logEntries)
    {
      if |logEntries| == 0 { return 0, 0; }
      var last := logEntries[|logEntries| - 1];
      return last.term, last.index;
    }

    method ChangeRole(to: Role)
      requires Valid()
      modifies this
      ensures Valid()
      ensures to == Follower ==> View() == old(View()).(role := Follower) && View() == Step(old(View()), LostElection)
      ensures to == Candidate ==> View() == old(View()).(role := Candidate, term := old(term) + 1, votedFor := me)
      ensures to == Leader ==>
                && View() == old(View()).(role := Leader, votedFor := -1, nextIndex := nextIndex,
                                          matchIndex := matchIndex)
                && (forall i :: 0 <= i < peers ==> nextIndex[i] == LastIndex(logEntries) + 1)
                && (forall i :: 0 <= i < peers ==> matchIndex[i] == if i == me then LastIndex(logEntries) else 0)
      ensures View() == match to
                        case Follower => StepDown(old(View()))
                        case Candidate => Campaign(old(View()))
                        case Leader => Promote(AS_WRITTEN, old(View()))
    {
      role := to;
      match to
      case Follower =>
      case Candidate =>
        term := term + 1;
        votedFor := me;
      case Leader =>
        votedFor := NOBODY;
        var _, last := LastLogTermIndex();
        nextIndex := seq(peers, _ => 0);
        for i := 0 to peers
          invariant |nextIndex| == peers
          invariant forall j :: 0 <= j < i ==> nextIndex[j] == last + 1
          invariant View() == old(View()).(role := Leader, votedFor := NOBODY, nextIndex := nextIndex)
        {
          nextIndex := nextIndex[i := last + 1];
        }
        matchIndex := seq(peers, _ => 0);
        matchIndex := matchIndex[me := last];
    }

    /** GetState. */
    method GetState() returns (t: nat, isLeader: bool)
      ensures t == term && isLeader == (role == Leader)
    {
      return term, role == Leader;
    }

    /** Start after GetState returned (seenTerm, seenLeader) in an earlier critical section. */
    method Start(command: Command, seenTerm: nat, seenLeader: bool) returns (index: nat, t: nat, isLeader: bool)
      requires Valid()
      modifies this, persister
      ensures Valid() && t == seenTerm && isLeader == seenLeader
      ensures seenLeader ==>
                && index == LastIndex(old(logEntries)) + 1
                && View() == old(View()).(
                  log := old(logEntries) + [Entry(term, index, command)],
                  matchIndex := old(matchIndex)[me := index],
                  disk := Some(Persistent(term, votedFor, old(logEntries) + [Entry(term, index, command)])))
                && View() == RaftHandlers.Start(old(View()), command)
                && View() == Step(old(View()), GotCommand(command))
      ensures !seenLeader ==> View() == old(View()) && index == LastIndex(logEntries)
    {
      var _, last := LastLogTermIndex();
      t, isLeader := seenTerm, seenLeader;
      if !isLeader { return last, t, isLeader; }
      index := last + 1;
      logEntries := logEntries + [Entry(term, index, command)];
      matchIndex := matchIndex[me := index];
      Persist();
    }

    method RequestVote(args: VoteArgs) returns (reply: VoteReply)
      requires Valid()
      modifies this, persister
      ensures Valid()
      ensures reply.term == old(term)
      ensures reply.granted <==>
                && args.term >= old(term)
                && (args.term > old(term) || old(role) != Leader)
                && (args.term > old(term) || old(votedFor) == -1 || old(votedFor) == args.candidate)
                && (logEntries == []
                    || args.lastTerm > logEntries[|logEntries| - 1].term
                    || (args.lastTerm == logEntries[|logEntries| - 1].term
                        && args.lastIndex >= logEntries[|logEntries| - 1].index))
      ensures reply.granted ==> term == args.term && votedFor == args.candidate && role == Follower
      ensures !reply.granted && args.term > old(term) ==> term == args.term && votedFor == -1 && role == Follower
      ensures !reply.granted && args.term <= old(term) ==>
                term == old(term) && votedFor == old(votedFor) && role == old(role)
      ensures View() == old(View()).(term := term, votedFor := votedFor, role := role,
                                     disk := Some(Persistent(term, votedFor, logEntries)))
      ensures (View(), reply) == HandleVote(old(View()), args) && View() == Step(old(View()), GotVoteRequest(args))
    {
      var replyTerm, granted := term, false;
      if args.term > term {
        ChangeRole(Follower);
        term := args.term;
        votedFor := NOBODY;
      }
      var lastTerm, lastIndex := LastLogTermIndex();
      if args.term < term {
      } else if args.lastTerm < lastTerm || (args.lastTerm == lastTerm && args.lastIndex < lastIndex) {
      } else if role == Leader {
      } else if votedFor == NOBODY || votedFor == args.candidate {
        term := args.term;
        votedFor := args.candidate;
        granted := true;
        ChangeRole(Follower);
      }
      Persist();
      reply := VoteReply(replyTerm, granted);
    }

    /** startElection with the replies that arrive in time, in the order in which they are taken in. Each peer is
        asked once, so that a win is a strict majority of distinct peers. */
    method StartElection(answers: seq<Answer>) returns (won: bool)
      requires Valid() && OncePerPeer(answers, me, peers)
      modifies this, persister
      ensures Valid()
      ensures View() == Elect(AS_WRITTEN, old(View()), Replies(answers))
      ensures View() == Step(old(View()), HeldElection(Replies(answers)))
      ensures won <==> old(role) != Leader && |{me} + Granters(answers)| > peers / 2
      ensures old(role) == Leader ==> View() == old(View()).(disk := Some(Persistent(term, votedFor, logEntries)))
      ensures old(role) != Leader ==> ElectedAsWritten(old(View()), View(), answers)
    {
      ghost var s := View();
      if role == Leader {
        Persist();
        return false;
      }
      ChangeRole(Candidate);
      var lastTerm, lastIndex := LastLogTermIndex();
      var args := VoteArgs(term, me, lastIndex, lastTerm);
      var voteCount := CollectVotes(args, answers);
      won := Conclude(voteCount);
      ElectRule(s, answers);
      GrantersCounted(answers, me, peers);
    }

    /** The end of startElection: the count decides. */
    method Conclude(voteCount: nat) returns (won: bool)
      requires Valid()
      modifies this, persister
      ensures Valid() && (won <==> voteCount > peers / 2)
      ensures View() == Finish(AS_WRITTEN, old(View()), voteCount)
    {
      won := voteCount > peers / 2;
      if won {
        ChangeRole(Leader);
      }
      Persist();
    }

    /** The part of startElection that takes in the answers. */
    method CollectVotes(args: VoteArgs, answers: seq<Answer>) returns (voteCount: nat)
      requires Valid()
      modifies this
      ensures Valid()
      ensures View() == Hear(old(View()), args, Replies(answers)) && voteCount == 1 + Granted(Replies(answers))
    {
      voteCount := 1;
      for k := 0 to |answers|
        invariant Valid()
        invariant voteCount == 1 + Granted(Replies(answers[..k]))
        invariant View() == Hear(old(View()), args, Replies(answers[..k]))
      {
        RepliesStep(answers, k);
        var reply := answers[k].reply;
        if reply.term > args.term {
          term := reply.term;
          ChangeRole(Follower);
        }
        if reply.granted {
          voteCount := voteCount + 1;
        }
      }
      assert answers[..|answers|] == answers;
    }

    method GetAppendLogs(server: nat) returns (prevIndex: nat, prevTerm: nat, res: seq<Entry>)
      requires Valid() && CanSend(View(), server)
      ensures LastIndex(logEntries) < nextIndex[server] || nextIndex[server] == |logEntries| ==>
                prevIndex == LastIndex(logEntries) && prevTerm == LastTerm(logEntries) && res == []
      ensures nextIndex[server] <= LastIndex(logEntries) && nextIndex[server] != |logEntries| ==>
                && prevIndex == nextIndex[server] - 1 && prevTerm == logEntries[nextIndex[server] - 1].term
                && res == logEntries[nextIndex[server]..]
      ensures
        var a := BuildAppend(View(), server);
        prevIndex == a.prevIndex && prevTerm == a.prevTerm && res == a.entries
    {
      var nextIdx := nextIndex[server];
      var lastTerm, lastIndex := LastLogTermIndex();
      if lastIndex < nextIdx {
        return lastIndex, lastTerm, [];
      }
      res := logEntries[nextIdx..];
      if |res| == 0 {
        return lastIndex, lastTerm, [];
      }
      prevIndex := nextIdx - 1;
      prevTerm := logEntries[prevIndex].term;
    }

    /** commitLog: the nested loops leave commitIndex at the larger of its old value and the greatest index of
        the log that a strict majority of matchIndex values has reached. */
    method CommitLog()
      requires Valid()
      modifies this
      ensures Valid()
      ensures View() == old(View()).(commitIndex := commitIndex)
      ensures IsCommitPoint(old(View()), old(commitIndex), commitIndex)
      ensures View() == RaftHandlers.CommitLog(AS_WRITTEN, old(View()))
    {
      ghost var s := View();
      ghost var total := CommitScan(AS_WRITTEN, s, s.commitIndex + 1, s.commitIndex);
      CommitLogIsExact(s);
      var i := commitIndex + 1;
      while i <= |logEntries| - 1
        invariant s.commitIndex + 1 <= i
        invariant View() == s.(commitIndex := commitIndex)
        invariant CommitScan(AS_WRITTEN, s, i, commitIndex) == total
        decreases |logEntries| - i
      {
        var majority := MajorityAt(i);
        if majority { commitIndex := i; }
        i := i + 1;
      }
    }

    /** The inner loop of commitLog, which stops as soon as a majority is counted. */
    method MajorityAt(i: int) returns (majority: bool)
      requires Valid()
      ensures majority <==> 2 * |Reaching(matchIndex, i)| > peers
      ensures majority <==> Replicated(View(), i)
    {
      CountIsSize(matchIndex, i);
      var agreeCount := 0;
      for k := 0 to |matchIndex|
        invariant agreeCount == CountAtLeast(matchIndex[..k], i) <= peers / 2
      {
        assert matchIndex[..k + 1][..k] == matchIndex[..k];
        if matchIndex[k] >= i {
          agreeCount := agreeCount + 1;
          if agreeCount > peers / 2 {
            CountPrefix(matchIndex, k + 1, i);
            return true;
          }
        }
      }
      assert matchIndex[..|matchIndex|] == matchIndex;
      majority := false;
    }

    /** AppendEntries. */
    method AppendEntries(args: AppendArgs) returns (reply: AppendReply)
      requires Valid()
      modifies this, persister
      ensures Valid()
      ensures args.term > old(term) ==>
                && reply == AppendReply(args.term, false, 0)
                && View() == old(View()).(term := args.term, role := Follower,
                                          disk := Some(Persistent(args.term, votedFor, logEntries)))
      ensures args.term < old(term) ==>
                && reply == AppendReply(old(term), false, 0)
                && View() == old(View()).(disk := Some(Persistent(term, votedFor, logEntries)))
      ensures args.term == old(term) ==> AppendedAsWritten(old(View()), View(), args, reply)
      ensures (View(), reply) == HandleAppend(AS_WRITTEN, old(View()), args)
      ensures View() == Step(old(View()), GotAppend(args))
    {
      AppendRule(View(), args);
      if args.term > term {
        term := args.term;
        reply := AppendReply(term, false, 0);
        ChangeRole(Follower);
        Persist();
        return;
      }
      if args.term < term {
        reply := AppendReply(term, false, 0);
        Persist();
        return;
      }
      if args.prevIndex > 0 && args.prevIndex <= |logEntries| - 1 && logEntries[args.prevIndex].term != args.prevTerm {
        logEntries := logEntries[..args.prevIndex];
        reply := AppendReply(0, false, args.prevIndex);
        Persist();
        return;
      }
      ghost var s := View();
      for k := 0 to |args.entries|
        invariant Valid() && View() == s
        invariant forall j :: 0 <= j < k ==> !Conflicts(s.log, args.entries[j])
      {
        var entry := args.entries[k];
        if entry.index < |logEntries| && logEntries[entry.index].term != entry.term {
          FirstConflictIs(s.log, args.entries, k);
          logEntries := logEntries[..entry.index];
          reply := AppendReply(0, false, entry.index);
          Persist();
          return;
        }
      }
      if args.prevIndex > |logEntries| - 1 {
        reply := AppendReply(0, false, |logEntries|);
        Persist();
        return;
      }
      logEntries := logEntries + args.entries;
      var lastIndex := |logEntries| - 1;
      reply := AppendReply(0, true, lastIndex + 1);
      if args.leaderCommit > commitIndex {
        commitIndex := args.leaderCommit;
        if args.leaderCommit > lastIndex {
          commitIndex := lastIndex;
        }
      }
      Persist();
    }

    /** The second half of SendHeartbeat: what any reply does, also one that no peer running this code sends. */
    method TakeReply(server: nat, args: AppendArgs, reply: AppendReply)
      requires Valid() && server < peers
      modifies this, persister
      ensures Valid()
      ensures reply.term > old(term) ==>
                View() == old(View()).(term := reply.term, role := Follower,
                                       disk := Some(Persistent(reply.term, votedFor, logEntries)))
      ensures reply.term <= old(term) ==>
                && View() == old(View()).(nextIndex := nextIndex, matchIndex := matchIndex, commitIndex := commitIndex,
                                          disk := Some(Persistent(term, votedFor, logEntries)))
                && nextIndex == (if reply.nextIndex == 0 then old(nextIndex)
                                 else if reply.nextIndex == -1 then old(nextIndex)[server := old(nextIndex)[server] - 1]
                                 else old(nextIndex)[server := reply.nextIndex])
                && matchIndex == (if reply.nextIndex == 0 then old(matchIndex)
                                  else old(matchIndex)[server := nextIndex[server] - 1])
                && (if args.entries != [] && reply.success && args.entries[0].term == term
                    then IsCommitPoint(View(), old(commitIndex), commitIndex)
                    else commitIndex == old(commitIndex))
      ensures View() == HandleReply(AS_WRITTEN, old(View()), server, args, reply)
      ensures View() == Step(old(View()), GotAppendReply(server, args, reply))
    {
      ghost var s := View();
      if term < reply.term {
        term := reply.term;
        ChangeRole(Follower);
        Persist();
        return;
      }
      if reply.nextIndex == -1 {
        nextIndex := nextIndex[server := nextIndex[server] - 1];
        matchIndex := matchIndex[server := nextIndex[server] - 1];
      }
      if reply.nextIndex != 0 && reply.nextIndex != -1 {
        nextIndex := nextIndex[server := reply.nextIndex];
        matchIndex := matchIndex[server := reply.nextIndex - 1];
      }
      assert View() == NoteReply(AS_WRITTEN, s, server, args, reply);
      if |args.entries| != 0 && reply.success {
        if args.entries[0].term == term {
          CommitLog();
        }
      }
      Persist();
    }

    /** SendHeartbeat to the peer at index `server`: the request may not arrive, and the reply may not come back
        in time. The caller's lock is held throughout, so the whole call is one step of the cluster. */
    method SendHeartbeat(server: nat, peer: Raft, arrives: bool, answered: bool)
      requires Valid() && peer.Valid() && peer != this && peer.persister != persister
      requires server < peers && (server != me ==> CanSend(View(), server))
      modifies this, persister, peer, peer.persister
      ensures Valid() && peer.Valid()
      ensures server == me ==> View() == RaftHandlers.Persist(old(View())) && peer.View() == old(peer.View())
      ensures server != me ==>
                var a := BuildAppend(old(View()), server);
                var (q, r) := HandleAppend(AS_WRITTEN, old(peer.View()), a);
                && a.leaderCommit == old(commitIndex)
                && peer.View() == (if arrives then q else old(peer.View()))
                && View() == HandleReply(AS_WRITTEN, old(View()), server, a, if arrives && answered then r else LOST)
      ensures server != me && arrives && answered && old(peer.term) > old(term) ==>
                role == Follower && term == old(peer.term) && peer.term == old(peer.term)
      ensures server != me && arrives && old(peer.term) < old(term) ==>
                peer.role == Follower && peer.term == old(term) && term == old(term)
    {
      if me == server {
        Persist();
        return;
      }
      var prevIndex, prevTerm, logs := GetAppendLogs(server);
      var args := AppendArgs(term, me, prevIndex, prevTerm, logs, commitIndex);
      var reply := AppendReply(0, false, 0);
      if arrives {
        var r := peer.AppendEntries(args);
        if answered { reply := r; }
      }
      TakeReply(server, args, reply);
    }

    /** One turn of the apply loop. */
    method ApplyNext() returns (msg: Option<ApplyMsg>)
      requires Valid() && (lastApplied < commitIndex ==> lastApplied + 1 < |logEntries|)
      modifies this
      ensures Valid()
      ensures old(lastApplied < commitIndex) ==>
                && msg == Some(ApplyMsg(old(logEntries)[old(lastApplied) + 1].command, old(lastApplied) + 1))
                && View() == old(View()).(lastApplied := old(lastApplied) + 1)
      ensures old(lastApplied >= commitIndex) ==> msg == None && View() == old(View())
      ensures old(CanApply(View())) ==>
                (View(), msg) == (Apply(old(View())).0, Some(Apply(old(View())).1))
      ensures old(CanApply(View())) ==> View() == Step(old(View()), AppliedEntry)
      ensures !old(CanApply(View())) ==> View() == old(View()) && msg == None
    {
      msg := None;
      if lastApplied < commitIndex {
        lastApplied := lastApplied + 1;
        msg := Some(ApplyMsg(logEntries[lastApplied].command, lastApplied));
      }
    }
  }

  /** e has the place of an entry of another term. */
  ghost predicate Clashes(log: Log, e: Entry) {
    e.index < |log| && log[e.index].term != e.term
  }

  ghost predicate FirstClash(log: Log, entries: seq<Entry>, k: nat) {
    k < |entries| && Clashes(log, entries[k]) && forall j :: 0 <= j < k ==> !Clashes(log, entries[j])
  }

  /** AppendEntries for a request of the peer's own term, from state s to t: the previous entry clashes, or an entry of
      the request does, or the log is too short, or everything is appended. */
  ghost predicate AppendedAsWritten(s: RaftState, t: RaftState, a: AppendArgs, r: AppendReply) {
    && t == s.(log := t.log, commitIndex := t.commitIndex, disk := Some(Persistent(s.term, s.votedFor, t.log)))
    && (if 0 < a.prevIndex < |s.log| && s.log[a.prevIndex].term != a.prevTerm then
          t.log == s.log[..a.prevIndex] && t.commitIndex == s.commitIndex && r == AppendReply(0, false, a.prevIndex)
        else if exists e :: e in a.entries && Clashes(s.log, e) then
          exists k: nat ::
            && FirstClash(s.log, a.entries, k) && t.log == s.log[..a.entries[k].index]
            && t.commitIndex == s.commitIndex && r == AppendReply(0, false, a.entries[k].index)
        else if a.prevIndex >= |s.log| then
          t.log == s.log && t.commitIndex == s.commitIndex && r == AppendReply(0, false, |s.log|)
        else
          && t.log == s.log + a.entries && r == AppendReply(0, true, |t.log|)
          && t.commitIndex == (if a.leaderCommit <= s.commitIndex then s.commitIndex
                               else if a.leaderCommit < |t.log| then a.leaderCommit else |t.log| - 1))
  }

  lemma AppendRule(s: RaftState, a: AppendArgs)
    ensures a.term == s.term ==>
              AppendedAsWritten(s, HandleAppend(AS_WRITTEN, s, a).0, a, HandleAppend(AS_WRITTEN, s, a).1)
  {
    var k := FirstConflict(s.log, a.entries);
    if k < |a.entries| {
      assert a.entries[k] in a.entries && Clashes(s.log, a.entries[k]);
      assert FirstClash(s.log, a.entries, k);
    } else {
      forall e | e in a.entries ensures !Clashes(s.log, e) {
        var i :| 0 <= i < |a.entries| && a.entries[i] == e;
        assert !Conflicts(s.log, a.entries[i]);
      }
    }
  }

  lemma {:induction false} CountPrefix(ms: seq<int>, k: nat, n: int)
    requires k <= |ms|
    ensures CountAtLeast(ms[..k], n) <= CountAtLeast(ms, n)
  {
    if k == |ms| {
      assert ms[..k] == ms;
    } else {
      var last := |ms| - 1;
      CountPrefix(ms[..last], k, n);
      assert ms[..last][..k] == ms[..k];
    }
  }

  lemma FirstConflictIs(log: Log, entries: seq<Entry>, k: nat)
    requires k < |entries| && Conflicts(log, entries[k])
    requires forall j :: 0 <= j < k ==> !Conflicts(log, entries[j])
    ensures FirstConflict(log, entries) == k
  {
  }

  /** Crash and restart, on the objects: a copy of the storage and a new peer on it have the old peer's
      persistent fields, provided the last critical section ended in a save or nothing was ever done. */
  method CrashAndRestart(rf: Raft) returns (next: Raft)
    requires rf.Valid() && Stable(rf.View()) == Saved(rf.View())
    ensures fresh(next) && next.Valid() && next.View() == Restart(rf.View()) && next.View() == Step(rf.View(), Crashed)
    ensures next.term == rf.term && next.votedFor == rf.votedFor && next.logEntries == rf.logEntries
  {
    var storage := rf.persister.Copy();
    next := new Raft(rf.peers, rf.me, storage);
  }
}
