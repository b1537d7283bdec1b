/** What one call does to the two peers, in any state and under any rules. */
module Contact {
  import opened Options
  import opened RaftTypes
  import opened RaftHandlers
  import opened Cluster
  import opened Replication

  function Max(a: nat, b: nat): nat { if a < b then b else a }

  lemma ExchangedPair(rules: Rules, c: State, i: nat, to: nat)
    requires Enabled(rules, c, Exchange(i, to))
    ensures
      var d := Next(rules, c, Exchange(i, to));
      var a := BuildAppend(c.servers[i].raft, to);
      var (q, r) := HandleAppend(rules, c.servers[to].raft, a);
      && |d.servers| == |c.servers| && d.servers[to].raft == q
      && d.servers[i].raft == HandleReply(rules, c.servers[i].raft, to, a, r)
  {
  }

  /** A leader that reaches a peer of a later term is deposed, and takes over that term; the peer stays as it was. */
  lemma LaterTermDeposes(rules: Rules, c: State, i: nat, to: nat)
    requires Enabled(rules, c, Exchange(i, to)) && c.servers[to].raft.term > c.servers[i].raft.term
    ensures
      var d := Next(rules, c, Exchange(i, to));
      && |d.servers| == |c.servers|
      && d.servers[i].raft.role == Follower && d.servers[i].raft.term == c.servers[to].raft.term
      && d.servers[to].raft == Persist(c.servers[to].raft)
  {
    ExchangedPair(rules, c, i, to);
  }

  /** A peer of an earlier term that is reached takes over the term and follows; its log waits for the next call. */
  lemma EarlierTermFollows(rules: Rules, c: State, i: nat, to: nat)
    requires Enabled(rules, c, Exchange(i, to)) && c.servers[to].raft.term < c.servers[i].raft.term
    ensures
      var d := Next(rules, c, Exchange(i, to));
      && |d.servers| == |c.servers|
      && d.servers[to].raft.role == Follower && d.servers[to].raft.term == c.servers[i].raft.term
      && d.servers[to].raft.log == c.servers[to].raft.log
      && d.servers[i].raft == Persist(c.servers[i].raft)
  {
    ExchangedPair(rules, c, i, to);
  }

  /** After any exchange both peers are in the later of their two terms, and both have saved it. */
  lemma TermsMeet(rules: Rules, c: State, i: nat, to: nat)
    requires Enabled(rules, c, Exchange(i, to))
    ensures
      var d := Next(rules, c, Exchange(i, to));
      var t := Max(c.servers[i].raft.term, c.servers[to].raft.term);
      && |d.servers| == |c.servers|
      && d.servers[i].raft.term == t && d.servers[to].raft.term == t
      && Stable(d.servers[i].raft).term == t && Stable(d.servers[to].raft).term == t
  {
    ExchangedPair(rules, c, i, to);
  }

  /** A voter that is asked comes to the candidate's term at least, and a candidate that is overtaken knows it. */
  lemma PollSpreadsTerms(rules: Rules, c: State, i: nat, to: nat)
    requires Enabled(rules, c, Poll(i, to))
    ensures
      var d := Next(rules, c, Poll(i, to));
      var asked := c.servers[i].tally.value.args.term;
      && |d.servers| == |c.servers|
      && d.servers[to].raft.term == Max(c.servers[to].raft.term, asked)
      && (c.servers[to].raft.term > asked ==>
            d.servers[i].raft.term == c.servers[to].raft.term && d.servers[i].raft.role == Follower)
  {
  }

  /** Every request carries its sender's commitIndex. */
  lemma RequestCarriesCommit(s: RaftState, to: nat)
    requires CanSend(s, to)
    ensures BuildAppend(s, to).leaderCommit == s.commitIndex && BuildAppend(s, to).term == s.term
  {
  }

  /** An accepted request brings the follower's commitIndex to the leader's, as far as its log reaches, and not back
      unless it was beyond the end of the log. */
  lemma CommitTravels(rules: Rules, s: RaftState, to: nat, p: RaftState)
    requires CanSend(s, to) && HandleAppend(rules, p, BuildAppend(s, to)).1.success
    ensures
      var q := HandleAppend(rules, p, BuildAppend(s, to)).0;
      && q.commitIndex >= Min(s.commitIndex, |q.log| - 1)
      && (p.commitIndex < |p.log| ==> q.commitIndex >= p.commitIndex)
      && (q.commitIndex == p.commitIndex || q.commitIndex == Min(s.commitIndex, |q.log| - 1))
  {
    RequestCarriesCommit(s, to);
  }

  /** With a well-formed log at the leader the two commit indices become equal, or the follower's was ahead. */
  lemma CommitArrives(rules: Rules, s: RaftState, to: nat, p: RaftState)
    requires Positioned(s.log) && s.commitIndex < |s.log| && CanSend(s, to)
    requires HandleAppend(rules, p, BuildAppend(s, to)).1.success
    ensures HandleAppend(rules, p, BuildAppend(s, to)).0.commitIndex == Max(p.commitIndex, s.commitIndex)
  {
    CommitWithinRequest(s, to);
    CommitTravels(rules, s, to, p);
  }
}
