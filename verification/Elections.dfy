/** At most one peer ever wins a term, whatever the logs do.
    Needs only the two rules about votes: votedFor survives a victory, and a candidate that has seen a
    higher term gives up. */
module Elections {
  import opened Options
  import opened RaftTypes
  import opened RaftHandlers
  import opened Cluster
  import opened History
  import opened Record

  ghost predicate VoteRules(rules: Rules) {
    rules.keepVote && rules.giveUp
  }

  /** Won terms stay won by the same peer, with the same votes. */
  ghost predicate WinsStay(h: Past, g: Past) {
    forall t :: t in h.reigns ==>
                  t in g.reigns && g.reigns[t].id == h.reigns[t].id && g.reigns[t].voters == h.reigns[t].voters
  }

  ghost predicate VotesOfUntouched(h: Past, g: Past, i: nat) {
    forall u :: (i, u) in g.votes ==> (i, u) in h.votes
  }

  /** One server and the history change; every other server keeps its invariant. */
  lemma ReplaceServerVotes(h: Past, g: Past, c: State, d: State, i: nat)
    requires ElectionInv(h, c) && i < |c.servers|
    requires WinsStay(h, g) && VotesGrow(h, g)
    requires forall j: nat :: j != i ==> VotesOfUntouched(h, g, j)
    requires |d.servers| == |c.servers| && d.servers == c.servers[i := d.servers[i]]
    requires forall t :: t in g.reigns && t !in h.reigns ==> WonOk(g, |c.servers|, t)
    requires ServerVotes(g, |c.servers|, i, d.servers[i])
    ensures ElectionInv(g, d)
  {
    var n := |c.servers|;
    forall t | t in g.reigns ensures WonOk(g, n, t) {
      if t in h.reigns { assert WonOk(h, n, t); }
    }
    forall j | 0 <= j < n ensures ServerVotes(g, n, j, d.servers[j]) {
      if j != i { assert ServerVotes(h, n, j, c.servers[j]) && VotesOfUntouched(h, g, j); }
    }
  }

  /** A server that neither votes nor wins keeps its record when its term rises and it is not leader. */
  lemma RaiseServerVotes(h: Past, g: Past, n: nat, i: nat, v: Server, s: RaftState)
    requires ServerVotes(h, n, i, v) && v.tally.None? && g.votes == h.votes && WinsStay(h, g)
    requires s.me == i && s.peers == n && s.disk == Some(Saved(s)) && s.term >= v.raft.term
    requires s.votedFor == v.raft.votedFor
    requires s.role == Leader ==> v.raft.role == Leader && s.term == v.raft.term
    ensures ServerVotes(g, n, i, v.(raft := s))
  {
  }

  lemma HandleVoteKeepsElections(h: Past, c: State, i: nat, a: VoteArgs)
    requires ElectionInv(h, c) && Free(c, i)
    ensures
      var g := AfterVote(h, c.servers[i].raft, a);
      && ElectionInv(g, With(c, i, HandleVote(c.servers[i].raft, a).0)) && VotesGrow(h, g)
      && (HandleVote(c.servers[i].raft, a).1.granted ==>
            (i, a.term) in g.votes && g.votes[(i, a.term)] == a.candidate)
  {
    var g := AfterVote(h, c.servers[i].raft, a);
    assert ServerVotes(h, |c.servers|, i, c.servers[i]);
    ReplaceServerVotes(h, g, c, With(c, i, HandleVote(c.servers[i].raft, a).0), i);
  }

  lemma PollKeepsElections(rules: Rules, h: Past, c: State, i: nat, to: nat)
    requires ElectionInv(h, c) && Enabled(rules, c, Poll(i, to))
    ensures ElectionInv(After(rules, h, c, Poll(i, to)), Next(rules, c, Poll(i, to)))
  {
    var n, t := |c.servers|, c.servers[i].tally.value;
    var g := AfterVote(h, c.servers[to].raft, t.args);
    var d := With(c, to, HandleVote(c.servers[to].raft, t.args).0);
    assert ServerVotes(h, n, i, c.servers[i]);
    HandleVoteKeepsElections(h, c, to, t.args);
    assert ServerVotes(g, n, i, d.servers[i]);
    ReplaceServerVotes(g, g, d, Next(rules, c, Poll(i, to)), i);
  }

  /** No term is won twice: the votes of the new winner would meet those of the earlier one. */
  lemma TermIsUnclaimed(h: Past, n: nat, i: nat, v: Server)
    requires forall t :: t in h.reigns ==> WonOk(h, n, t)
    requires ServerVotes(h, n, i, v) && v.tally.Some? && |v.tally.value.votes| > n / 2
    ensures v.tally.value.args.term !in h.reigns
  {
    var t := v.tally.value;
    var u := t.args.term;
    assert (i, u) !in h.votes;
    if u in h.reigns {
      assert WonOk(h, n, u);
      var f := QuorumsMeet(n, t.votes, h.reigns[u].voters);
      assert false;
    }
  }

  lemma FinishKeepsElections(rules: Rules, h: Past, c: State, i: nat)
    requires VoteRules(rules) && ElectionInv(h, c) && Enabled(rules, c, FinishCampaign(i))
    ensures ElectionInv(After(rules, h, c, FinishCampaign(i)), Next(rules, c, FinishCampaign(i)))
    ensures WinsStay(h, After(rules, h, c, FinishCampaign(i)))
  {
    var n, v := |c.servers|, c.servers[i];
    var g := AfterTally(rules, h, v.raft, v.tally.value);
    assert ServerVotes(h, n, i, v);
    TallyVotes(rules, h, g, n, i, v);
    ReplaceServerVotes(h, g, c, Next(rules, c, FinishCampaign(i)), i);
  }

  /** The tally makes the candidate's own vote durable, and a winner the only one of its term. */
  lemma TallyVotes(rules: Rules, h: Past, g: Past, n: nat, i: nat, v: Server)
    requires VoteRules(rules) && (forall t :: t in h.reigns ==> WonOk(h, n, t))
    requires ServerVotes(h, n, i, v) && v.tally.Some? && g == AfterTally(rules, h, v.raft, v.tally.value)
    ensures WinsStay(h, g) && VotesGrow(h, g)
    ensures forall j: nat :: j != i ==> VotesOfUntouched(h, g, j)
    ensures forall t :: t in g.reigns && t !in h.reigns ==> WonOk(g, n, t)
    ensures ServerVotes(g, n, i, v.(raft := Finish(rules, v.raft, |v.tally.value.votes|), tally := None))
  {
    assert (i, v.tally.value.args.term) !in h.votes;
    if Wins(rules, v.raft, |v.tally.value.votes|) { TermIsUnclaimed(h, n, i, v); }
  }

  lemma AppendKeepsElections(rules: Rules, h: Past, c: State, i: nat, a: AppendArgs)
    requires ElectionInv(h, c) && Free(c, i)
    ensures ElectionInv(AfterAppend(rules, h, c.servers[i].raft, a),
                        With(c, i, HandleAppend(rules, c.servers[i].raft, a).0))
  {
    var s := HandleAppend(rules, c.servers[i].raft, a).0;
    var g := AfterAppend(rules, h, c.servers[i].raft, a);
    assert ServerVotes(h, |c.servers|, i, c.servers[i]);
    RaiseServerVotes(h, g, |c.servers|, i, c.servers[i], s);
    ReplaceServerVotes(h, g, c, With(c, i, s), i);
  }

  lemma ReplyKeepsElections(rules: Rules, h: Past, c: State, i: nat, to: nat, a: AppendArgs, r: AppendReply)
    requires ElectionInv(h, c) && Free(c, i)
    requires to < |c.servers[i].raft.nextIndex| == |c.servers[i].raft.matchIndex|
    ensures ElectionInv(h, With(c, i, HandleReply(rules, c.servers[i].raft, to, a, r)))
  {
    var s := HandleReply(rules, c.servers[i].raft, to, a, r);
    assert ServerVotes(h, |c.servers|, i, c.servers[i]);
    RaiseServerVotes(h, h, |c.servers|, i, c.servers[i], s);
    ReplaceServerVotes(h, h, c, With(c, i, s), i);
  }

  lemma StartKeepsElections(rules: Rules, h: Past, c: State, i: nat, command: Command)
    requires ElectionInv(h, c) && Enabled(rules, c, ClientStart(i, command))
    ensures ElectionInv(After(rules, h, c, ClientStart(i, command)), Next(rules, c, ClientStart(i, command)))
    ensures WinsStay(h, After(rules, h, c, ClientStart(i, command)))
  {
    var s := Start(c.servers[i].raft, command);
    var g := After(rules, h, c, ClientStart(i, command));
    assert ServerVotes(h, |c.servers|, i, c.servers[i]);
    RaiseServerVotes(h, g, |c.servers|, i, c.servers[i], s);
    ReplaceServerVotes(h, g, c, Next(rules, c, ClientStart(i, command)), i);
  }

  lemma QuietStepKeepsElections(rules: Rules, h: Past, c: State, a: Action)
    requires ElectionInv(h, c) && Enabled(rules, c, a)
    requires a.StartCampaign? || a.PollLost? || a.GiveUpRole? || a.ReadRole? || a.ForgetRole? || a.ApplyNext?
          || a.CrashRestart?
    ensures ElectionInv(h, Next(rules, c, a))
  {
    assert ServerVotes(h, |c.servers|, a.i, c.servers[a.i]);
    ReplaceServerVotes(h, h, c, Next(rules, c, a), a.i);
  }

  lemma StepKeepsElections(rules: Rules, h: Past, c: State, a: Action)
    requires VoteRules(rules) && ElectionInv(h, c) && Enabled(rules, c, a)
    ensures ElectionInv(After(rules, h, c, a), Next(rules, c, a))
    ensures WinsStay(h, After(rules, h, c, a))
  {
    match a
    case Poll(i, to) => PollKeepsElections(rules, h, c, i, to);
    case FinishCampaign(i) => FinishKeepsElections(rules, h, c, i);
    case Exchange(i, to) =>
      var args := BuildAppend(c.servers[i].raft, to);
      AppendKeepsElections(rules, h, c, to, args);
      var (q, r) := HandleAppend(rules, c.servers[to].raft, args);
      ReplyKeepsElections(rules, After(rules, h, c, a), With(c, to, q), i, to, args, r);
    case ExchangeLost(i, to) =>
      ReplyKeepsElections(rules, h, c, i, to, BuildAppend(c.servers[i].raft, to), LOST);
    case LateDelivery(AppendMsg(to, args)) =>
      AppendKeepsElections(rules, h, c.(net := c.net - multiset{a.m}), to, args);
    case LateDelivery(VoteMsg(to, args)) =>
      HandleVoteKeepsElections(h, c.(net := c.net - multiset{a.m}), to, args);
    case ClientStart(i, command) => StartKeepsElections(rules, h, c, i, command);
    case _ => QuietStepKeepsElections(rules, h, c, a);
  }

  lemma InitElections(n: nat)
    ensures ElectionInv(NOTHING, Init(n))
  {
  }
}
