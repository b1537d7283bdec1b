/** One peer, the code as written, any requests and replies whatsoever: what its critical sections keep. */
module NodeHistory {
  import opened Options
  import opened RaftTypes
  import opened RaftHandlers

  /** The critical sections that can follow one another on one peer, and the crash between two of them. */
  datatype Event =
    | GotVoteRequest(vote: VoteArgs)
    | GotAppend(append: AppendArgs)
    | HeldElection(replies: seq<VoteReply>)
    | GotAppendReply(f: nat, sent: AppendArgs, reply: AppendReply)
    | GotCommand(command: Command)
    | LostElection
    | AppliedEntry
    | Crashed

  /** startElection: the replies in the order in which they are taken in. */
  function Hear(s: RaftState, a: VoteArgs, replies: seq<VoteReply>): RaftState {
    if replies == [] then s else HearVote(Hear(s, a, replies[..|replies| - 1]), a, replies[|replies| - 1])
  }

  function Granted(replies: seq<VoteReply>): nat {
    if replies == [] then 0
    else Granted(replies[..|replies| - 1]) + (if replies[|replies| - 1].granted then 1 else 0)
  }

  /** startElection as one critical section. */
  function Elect(rules: Rules, s: RaftState, replies: seq<VoteReply>): RaftState {
    if s.role == Leader then Persist(s)
    else
      var c := Campaign(s);
      Finish(rules, Hear(c, VoteRequest(c), replies), 1 + Granted(replies))
  }

  predicate Possible(s: RaftState, e: Event) {
    match e
    case GotAppendReply(f, _, _) => f < |s.nextIndex| == |s.matchIndex|
    case GotCommand(_) => s.me < |s.matchIndex|
    case AppliedEntry => CanApply(s)
    case _ => true
  }

  function Step(s: RaftState, e: Event): RaftState
    requires Possible(s, e)
  {
    match e
    case GotVoteRequest(a) => HandleVote(s, a).0
    case GotAppend(a) => HandleAppend(AS_WRITTEN, s, a).0
    case HeldElection(replies) => Elect(AS_WRITTEN, s, replies)
    case GotAppendReply(f, a, r) => HandleReply(AS_WRITTEN, s, f, a, r)
    case GotCommand(command) => Start(s, command)
    case LostElection => StepDown(s)
    case AppliedEntry => Apply(s).0
    case Crashed => Restart(s)
  }

  /** The states of one peer at the moments when its lock is free. */
  ghost predicate IsLife(me: nat, peers: nat, life: seq<RaftState>, events: seq<Event>) {
    && |life| == |events| + 1
    && life[0] == Boot(me, peers, None)
    && forall k :: 0 <= k < |events| ==> Follows(life[k], events[k], life[k + 1])
  }

  ghost predicate Follows(s: RaftState, e: Event, t: RaftState) {
    Possible(s, e) && t == Step(s, e)
  }

  lemma {:induction false} HearOnlyRaises(s: RaftState, a: VoteArgs, replies: seq<VoteReply>)
    requires s.term == a.term
    ensures Hear(s, a, replies).term >= a.term
    ensures Hear(s, a, replies) == s.(term := Hear(s, a, replies).term, role := Hear(s, a, replies).role)
  {
    if replies != [] { HearOnlyRaises(s, a, replies[..|replies| - 1]); }
  }

  /** What an election leaves: a higher term, the own vote unless it was won, the same log. */
  lemma ElectEffect(s: RaftState, replies: seq<VoteReply>)
    requires s.role != Leader
    ensures
      var t := Elect(AS_WRITTEN, s, replies);
      && t.term > s.term && t.log == s.log && t.me == s.me && t.disk == Some(Saved(t))
      && (t.role != Leader ==> t.votedFor == s.me)
  {
    var c := Campaign(s);
    HearOnlyRaises(c, VoteRequest(c), replies);
  }

  lemma StepEffect(s: RaftState, e: Event)
    requires Possible(s, e) && Stable(s) == Saved(s)
    ensures Stable(Step(s, e)) == Saved(Step(s, e))
    ensures s.term <= Step(s, e).term
    ensures Step(s, e).me == s.me
  {
    if e.HeldElection? && s.role != Leader { ElectEffect(s, e.replies); }
  }

  lemma {:induction false} LifeIsStable(me: nat, peers: nat, life: seq<RaftState>, events: seq<Event>, k: nat)
    requires IsLife(me, peers, life, events) && k <= |events|
    ensures Stable(life[k]) == Saved(life[k]) && life[k].me == me
    decreases k
  {
    if k > 0 {
      LifeIsStable(me, peers, life, events, k - 1);
      assert Follows(life[k - 1], events[k - 1], life[k - 1 + 1]);
      StepEffect(life[k - 1], events[k - 1]);
    }
  }

  /** Crash recovery is the identity on the persistent fields, whenever the lock is free: also before the
      first save. Everything else starts afresh. */
  lemma CrashRestoresState(me: nat, peers: nat, life: seq<RaftState>, events: seq<Event>, k: nat)
    requires IsLife(me, peers, life, events) && k <= |events|
    ensures
      var s, t := life[k], Restart(life[k]);
      && t.term == s.term && t.votedFor == s.votedFor && t.log == s.log && t.disk == s.disk
      && t.role == Follower && t.commitIndex == 0 && t.lastApplied == 0
      && t == Restart(t)
  {
    LifeIsStable(me, peers, life, events, k);
  }

  /** A peer's term never goes down, crashes included. */
  lemma {:induction false} TermNeverDrops(
    me: nat, peers: nat, life: seq<RaftState>, events: seq<Event>, j: nat, k: nat)
    requires IsLife(me, peers, life, events) && j <= k <= |events|
    ensures life[j].term <= life[k].term
    decreases k
  {
    if j < k {
      TermNeverDrops(me, peers, life, events, j, k - 1);
      LifeIsStable(me, peers, life, events, k - 1);
      assert Follows(life[k - 1], events[k - 1], life[k - 1 + 1]);
      StepEffect(life[k - 1], events[k - 1]);
    }
  }

  /** In state s, event e casts a vote for candidate c in term t: a granted request, or the own candidacy. */
  ghost predicate Casts(s: RaftState, e: Event, t: nat, c: nat) {
    || (e.GotVoteRequest? && HandleVote(s, e.vote).1.granted && e.vote.term == t && e.vote.candidate == c)
    || (e.HeldElection? && s.role != Leader && s.term + 1 == t && s.me == c)
  }

  /** The vote for c in term t is still in force. */
  ghost predicate Bound(s: RaftState, t: nat, c: nat) {
    s.term > t || (s.term == t && s.votedFor == c)
  }

  lemma CastBinds(s: RaftState, e: Event, t: nat, c: nat)
    requires Possible(s, e) && Casts(s, e, t, c)
    requires !(Step(s, e).role == Leader && Step(s, e).term == t)
    ensures Bound(Step(s, e), t, c)
  {
    if e.HeldElection? {
      HearOnlyRaises(Campaign(s), VoteRequest(Campaign(s)), e.replies);
    }
  }

  lemma BoundStays(s: RaftState, e: Event, t: nat, c: nat)
    requires Possible(s, e) && Bound(s, t, c) && Stable(s) == Saved(s)
    ensures Bound(Step(s, e), t, c)
  {
    if e.HeldElection? && s.role != Leader { ElectEffect(s, e.replies); }
  }

  lemma BoundRefuses(s: RaftState, e: Event, t: nat, c: nat, d: nat)
    requires Bound(s, t, c) && Casts(s, e, t, d)
    ensures c == d
  {
  }

  lemma {:induction false} StaysBound(
    me: nat, peers: nat, life: seq<RaftState>, events: seq<Event>, j: nat, k: nat, t: nat, c: nat)
    requires IsLife(me, peers, life, events) && j < k <= |events| && Casts(life[j], events[j], t, c)
    requires !(life[j + 1].role == Leader && life[j + 1].term == t)
    ensures Bound(life[k], t, c)
    decreases k
  {
    assert Follows(life[k - 1], events[k - 1], life[k - 1 + 1]);
    if k == j + 1 {
      CastBinds(life[j], events[j], t, c);
    } else {
      StaysBound(me, peers, life, events, j, k - 1, t, c);
      LifeIsStable(me, peers, life, events, k - 1);
      BoundStays(life[k - 1], events[k - 1], t, c);
    }
  }

  /** One vote per term, as written: two votes of one peer in one term go to the same candidate, unless the
      first was its own and made it leader of that term at once. */
  lemma OneVotePerTerm(
    me: nat, peers: nat, life: seq<RaftState>, events: seq<Event>, j: nat, k: nat, t: nat, c: nat, d: nat)
    requires IsLife(me, peers, life, events) && j < k < |events|
    requires Casts(life[j], events[j], t, c) && Casts(life[k], events[k], t, d)
    ensures c == d || (c == me && life[j + 1].role == Leader && life[j + 1].term == t)
  {
    LifeIsStable(me, peers, life, events, j);
    assert Follows(life[j], events[j], life[j + 1]);
    if !(life[j + 1].role == Leader && life[j + 1].term == t) {
      StaysBound(me, peers, life, events, j, k, t, c);
      BoundRefuses(life[k], events[k], t, c, d);
    }
  }

  /** The exception is real: a peer that leads term 1 and steps down then votes for another in term 1. */
  lemma LeaderVotesAgain()
    ensures exists life, events ::
              && IsLife(0, 3, life, events) && |events| == 3
              && Casts(life[0], events[0], 1, 0) && Casts(life[2], events[2], 1, 2)
  {
    var s0 := Boot(0, 3, None);
    var e0 := HeldElection([VoteReply(0, true)]);
    var c := Campaign(s0);
    assert [VoteReply(0, true)][..0] == [];
    assert Hear(c, VoteRequest(c), [VoteReply(0, true)][..0]) == c;
    assert Granted([VoteReply(0, true)][..0]) == 0;
    var s1 := Elect(AS_WRITTEN, s0, [VoteReply(0, true)]);
    var s2 := StepDown(s1);
    var e2 := GotVoteRequest(VoteArgs(1, 2, 0, 0));
    var s3 := HandleVote(s2, e2.vote).0;
    var life, events := [s0, s1, s2, s3], [e0, LostElection, e2];
    assert Follows(life[0], events[0], life[1]);
    assert Follows(life[1], events[1], life[2]);
    assert Follows(life[2], events[2], life[3]);
    assert IsLife(0, 3, life, events);
  }
}
