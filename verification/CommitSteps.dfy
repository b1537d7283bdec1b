/** Every action keeps the invariants about stored and committed entries. Needs all six rules. */
module CommitSteps {
  import opened Options
  import opened RaftTypes
  import opened RaftHandlers
  import opened Cluster
  import opened History
  import opened Record
  import opened Elections
  import opened LogSteps
  import opened Commitment
  import opened Replication

  // ----- elections

  /** A higher term only weakens what the log has to hold. */
  lemma RaiseCovers(h: Past, i: nat, log: Log, u: int, w: int)
    requires Covers(h, i, log, u, u) && u <= w
    requires forall t :: (i, t) in h.acked ==> t < u
    ensures Covers(h, i, log, w, w)
  {
    forall t: nat, k: nat | t < w && Acked(h, i, t, k) && Held(h, t, k, w) ensures Same(h.reigns[t].log, log, k) {
      assert Held(h, t, k, u);
    }
  }

  lemma VotesDoNotMatter(h: Past, g: Past, n: nat, i: nat, v: Server)
    requires ServerCommit(h, n, i, v) && g.reigns == h.reigns && g.acked == h.acked && v.tally.None?
    requires forall t :: t in h.reigns ==> |h.reigns[t].log| >= 1
    ensures ServerCommit(g, n, i, v)
  {
    KeepCovers(h, g, i, v.raft.log, Stable(v.raft).term + 1, Stable(v.raft).term + 1);
    KeepCommitOk(h, g, n, v.raft.log, v.raft.commitIndex, Stable(v.raft).term);
  }

  /** Changes of term, vote and role that reach stable storage. */
  lemma RaiseCommit(h: Past, n: nat, i: nat, v: Server, w: Server)
    requires ServerCommit(h, n, i, v) && v.tally.None? && w.tally.None?
    requires Stable(v.raft).term <= Stable(w.raft).term
    requires w.raft.log == v.raft.log && w.raft.commitIndex == v.raft.commitIndex
    requires w.raft.lastApplied == v.raft.lastApplied
    requires w.raft.role == Leader ==> w.raft == v.raft.(disk := w.raft.disk)
    ensures ServerCommit(h, n, i, w)
  {
    RaiseCovers(h, i, v.raft.log, Stable(v.raft).term + 1, Stable(w.raft).term + 1);
    RaiseCommitOk(h, n, v.raft.log, v.raft.commitIndex, Stable(v.raft).term, Stable(w.raft).term);
  }

  lemma RaiseCommitOk(h: Past, n: nat, log: Log, c: nat, t: nat, u: nat)
    requires CommitOk(h, n, log, c, t) && t <= u
    ensures CommitOk(h, n, log, c, u)
  {
    if c > 0 {
      var term: nat, k: nat :| Sealed(h, n, log, c, t, term, k);
      assert Sealed(h, n, log, c, u, term, k);
    }
  }

  lemma NonEmptyReigns(h: Past, n: nat)
    requires ReignsOk(h, n)
    ensures forall t :: t in h.reigns ==> |h.reigns[t].log| >= 1
    ensures ReignsGrow(h, h)
  {
    forall t | t in h.reigns ensures |h.reigns[t].log| >= 1 { assert ReignOk(h, n, t); }
  }

  lemma HandleVoteKeepsCommits(h: Past, c: State, i: nat, a: VoteArgs)
    requires LogInv(h, c) && CommitInv(h, c) && Free(c, i)
    ensures CommitInv(AfterVote(h, c.servers[i].raft, a), With(c, i, HandleVote(c.servers[i].raft, a).0))
  {
    var n := |c.servers|;
    var g := AfterVote(h, c.servers[i].raft, a);
    NonEmptyReigns(h, n);
    assert ServerLog(h, n, i, c.servers[i]);
    VoterCommit(h, g, n, i, c.servers[i], a);
    ReplaceServerCommit(h, g, c, With(c, i, HandleVote(c.servers[i].raft, a).0), i);
  }

  lemma VoterCommit(h: Past, g: Past, n: nat, i: nat, v: Server, a: VoteArgs)
    requires ServerLog(h, n, i, v) && ServerCommit(h, n, i, v) && v.tally.None? && g == AfterVote(h, v.raft, a)
    requires forall t :: t in h.reigns ==> |h.reigns[t].log| >= 1
    ensures ServerCommit(g, n, i, v.(raft := HandleVote(v.raft, a).0))
    ensures g.reigns == h.reigns && g.acked == h.acked
  {
    var w := v.(raft := HandleVote(v.raft, a).0);
    RaiseCommit(h, n, i, v, w);
    VotesDoNotMatter(h, g, n, i, w);
  }

  /** The up-to-date check: a candidate that gets the vote holds what the voter held. */
  lemma VoteCovers(h: Past, n: nat, f: nat, mine: Log, theirs: Log, a: VoteArgs)
    requires ReignsOk(h, n) && Rooted(h, mine) && Rooted(h, theirs) && TermsUpTo(theirs, a.term - 1)
    requires Covers(h, f, mine, a.term + 1, a.term + 1)
    requires a.lastIndex == LastIndex(theirs) && a.lastTerm == LastTerm(theirs) && UpToDate(a, mine)
    ensures Covers(h, f, theirs, a.term, a.term + 1)
  {
    LastIsPosition(h, mine);
    LastIsPosition(h, theirs);
    forall t: nat, k: nat | t < a.term && Acked(h, f, t, k) && Held(h, t, k, a.term + 1)
      ensures Same(h.reigns[t].log, theirs, k)
    {
      NewerHolds(h, n, t, k, mine, theirs, a.term);
    }
  }

  lemma NewerHolds(h: Past, n: nat, t: nat, k: nat, mine: Log, theirs: Log, u: nat)
    requires ReignsOk(h, n) && Rooted(h, mine) && Rooted(h, theirs) && TermsUpTo(theirs, u - 1)
    requires Held(h, t, k, u) && Same(h.reigns[t].log, mine, k) && h.reigns[t].log[k].term == t
    requires LastTerm(mine) < LastTerm(theirs) || (LastTerm(mine) == LastTerm(theirs) && |mine| <= |theirs|)
    ensures Same(h.reigns[t].log, theirs, k)
  {
    var last := |theirs| - 1;
    var w := theirs[last].term;
    TermsAscend(h, mine, k, |mine| - 1);
    if LastTerm(mine) == w {
      TermsAscend(h, theirs, |mine| - 1, last);
      SameLastTerm(h, mine, theirs);
    } else {
      assert EntryOk(h, theirs, last);
      assert ReignOk(h, n, w);
    }
  }

  /** Two logs that end in the same term: the longer extends the shorter. */
  lemma SameLastTerm(h: Past, a: Log, b: Log)
    requires Rooted(h, a) && Rooted(h, b) && LastTerm(a) == LastTerm(b) && |a| <= |b|
    ensures Same(a, b, |a| - 1)
  {
    if |a| == 1 {
    } else {
      assert EntryOk(h, a, |a| - 1);
      assert EntryOk(h, b, |b| - 1);
    }
  }

  lemma PollKeepsCommits(rules: Rules, h: Past, c: State, i: nat, to: nat)
    requires LogInv(h, c) && CommitInv(h, c) && Enabled(rules, c, Poll(i, to))
    ensures CommitInv(After(rules, h, c, Poll(i, to)), Next(rules, c, Poll(i, to)))
  {
    var n, t := |c.servers|, c.servers[i].tally.value;
    var s, r := HandleVote(c.servers[to].raft, t.args).0, HandleVote(c.servers[to].raft, t.args).1;
    var g := AfterVote(h, c.servers[to].raft, t.args);
    var d := With(c, to, s);
    HandleVoteKeepsLogs(h, c, to, t.args);
    HandleVoteKeepsCommits(h, c, to, t.args);
    HeardCommit(g, n, i, to, d.servers[i], d.servers[to], r);
    NonEmptyReigns(g, n);
    ReplaceServerCommit(g, g, d, Next(rules, c, Poll(i, to)), i);
  }

  lemma HeardCommit(h: Past, n: nat, i: nat, to: nat, v: Server, w: Server, r: VoteReply)
    requires ReignsOk(h, n) && v.tally.Some? && w.tally.None?
    requires ServerLog(h, n, i, v) && ServerCommit(h, n, i, v)
    requires ServerLog(h, n, to, w) && ServerCommit(h, n, to, w)
    requires r.granted ==> w.raft.term == v.tally.value.args.term && UpToDate(v.tally.value.args, w.raft.log)
    ensures ServerCommit(h, n, i, Heard(v, to, r))
  {
    var t := v.tally.value;
    if r.granted { VoteCovers(h, n, to, w.raft.log, v.raft.log, t.args); }
  }

  // ----- winning

  lemma TallyAcks(rules: Rules, h: Past, n: nat, i: nat, v: Server)
    requires rules.giveUp && ReignsOk(h, n) && AcksOk(h, n)
    requires ServerLog(h, n, i, v) && ServerCommit(h, n, i, v) && v.tally.Some?
    ensures
      var g := AfterTally(rules, h, v.raft, v.tally.value);
      && AcksGrow(h, g) && AcksOk(g, n) && AcksAreLate(h, g)
      && (forall j: nat :: j != i ==> AcksUntouched(h, g, j))
  {
    var s, t := v.raft, v.tally.value;
    if Wins(rules, s, |t.votes|) {
      AllWon(h, n);
      TermIsUnclaimed(h, n, i, v);
      WinAcks(h, NoteVote(h, i, s.term, i), n, s.term, i, s.log, t.votes);
    } else {
      NonEmptyReigns(h, n);
    }
  }

  lemma WinAcks(h: Past, h0: Past, n: nat, u: nat, i: nat, log: Log, voters: set<nat>)
    requires h0.reigns == h.reigns && h0.acked == h.acked && AcksOk(h, n) && u !in h.reigns && i < n && log != []
    requires forall w :: (i, w) in h.votes ==> w <= u
    ensures
      var g := NoteWin(h0, u, i, log, voters);
      && AcksGrow(h, g) && AcksOk(g, n) && AcksAreLate(h, g)
      && (forall j: nat :: j != i ==> AcksUntouched(h, g, j))
  {
    var g := NoteWin(h0, u, i, log, voters);
    forall f: nat, w: nat | (f, w) in h.votes ensures NoNewAcks(h, g, f, w) {}
  }

  lemma WinnerCoversVoters(h: Past, g: Past, n: nat, i: nat, v: Server)
    requires v.tally.Some? && TallyCovers(h, v.raft.log, v.tally.value)
    requires v.raft.term == v.tally.value.args.term && v.raft.term !in h.reigns
    requires g == NoteWin(NoteVote(h, i, v.raft.term, i), v.raft.term, i, v.raft.log, v.tally.value.votes)
    ensures WinnerCovers(g, v.raft.term)
  {
    var u := v.raft.term;
    forall f | f in v.tally.value.votes ensures Covers(g, f, v.raft.log, u, u) {
      forall t: nat, k: nat | t < u && Acked(g, f, t, k) && Held(g, t, k, u)
        ensures Same(g.reigns[t].log, v.raft.log, k)
      {
        assert Acked(h, f, t, k);
        forall w | w in h.reigns && t < w < u + 1 ensures Same(h.reigns[t].log, h.reigns[w].base, k) {
          assert w in g.reigns;
        }
      }
    }
  }

  lemma WinnerCommit(rules: Rules, h: Past, g: Past, n: nat, i: nat, v: Server)
    requires v.tally.Some? && ServerLog(h, n, i, v) && ServerCommit(h, n, i, v)
    requires v.raft.term == v.tally.value.args.term && v.raft.term !in h.reigns && ReignsGrow(h, g) && AcksGrow(h, g)
    requires g == NoteWin(NoteVote(h, i, v.raft.term, i), v.raft.term, i, v.raft.log, v.tally.value.votes)
    ensures ServerCommit(g, n, i, v.(raft := Persist(Promote(rules, v.raft)), tally := None))
  {
    var s := v.raft;
    LastIsPosition(h, s.log);
    forall t: nat, k: nat | t < s.term + 1 && Acked(g, i, t, k) && Held(g, t, k, s.term + 1)
      ensures Same(g.reigns[t].log, s.log, k)
    {
      if t != s.term {
        assert Acked(h, i, t, k);
        assert Held(h, t, k, Stable(s).term + 1);
      }
    }
    KeepCommitOk(h, g, n, s.log, s.commitIndex, Stable(s).term);
    RaiseCommitOk(g, n, s.log, s.commitIndex, Stable(s).term, s.term);
  }

  lemma LoserCommit(h: Past, g: Past, n: nat, i: nat, v: Server)
    requires v.tally.Some? && ServerLog(h, n, i, v) && ServerCommit(h, n, i, v)
    requires g.reigns == h.reigns && g.acked == h.acked && ReignsOk(h, n)
    ensures ServerCommit(g, n, i, v.(raft := Persist(v.raft), tally := None))
  {
    NonEmptyReigns(h, n);
    LoserSaves(h, n, i, v);
    VotesDoNotMatter(h, g, n, i, v.(raft := Persist(v.raft), tally := None));
  }

  lemma LoserSaves(h: Past, n: nat, i: nat, v: Server)
    requires ServerCommit(h, n, i, v) && v.raft.role != Leader && Stable(v.raft).term <= v.raft.term
    ensures ServerCommit(h, n, i, v.(raft := Persist(v.raft), tally := None))
  {
    var s := v.raft;
    RaiseCovers(h, i, s.log, Stable(s).term + 1, s.term + 1);
    RaiseCommitOk(h, n, s.log, s.commitIndex, Stable(s).term, s.term);
  }

  lemma FinishKeepsCommits(rules: Rules, h: Past, c: State, i: nat)
    requires rules.keepVote && rules.giveUp
    requires LogInv(h, c) && CommitInv(h, c) && Enabled(rules, c, FinishCampaign(i))
    ensures CommitInv(After(rules, h, c, FinishCampaign(i)), Next(rules, c, FinishCampaign(i)))
  {
    var n, v := |c.servers|, c.servers[i];
    var g := AfterTally(rules, h, v.raft, v.tally.value);
    TallyStep(rules, h, g, n, i, v);
    TallyAcks(rules, h, n, i, v);
    if Wins(rules, v.raft, |v.tally.value.votes|) {
      AllWon(h, n);
      TermIsUnclaimed(h, n, i, v);
      WinnerCoversVoters(h, g, n, i, v);
      WinnerCommit(rules, h, g, n, i, v);
    } else {
      LoserCommit(h, g, n, i, v);
    }
    ReplaceServerCommit(h, g, c, Next(rules, c, FinishCampaign(i)), i);
  }

  // ----- replication

  lemma TransferCommitOk(h: Past, n: nat, a: Log, b: Log, c: nat, t: nat)
    requires CommitOk(h, n, a, c, t) && Same(a, b, c)
    ensures CommitOk(h, n, b, c, t)
  {
    if c > 0 {
      var term: nat, k: nat :| Sealed(h, n, a, c, t, term, k);
      assert Sealed(h, n, b, c, t, term, k);
    }
  }

  /** How a new acknowledgement by peer f may change the history. */
  ghost predicate AcksExtend(h: Past, g: Past, n: nat, f: nat) {
    && ReignsGrow(h, g) && AcksGrow(h, g) && AcksOk(g, n) && AcksAreLate(h, g)
    && (forall j: nat :: j != f ==> AcksUntouched(h, g, j))
  }

  lemma AckStep(h: Past, g: Past, n: nat, f: nat, v: Server, k: nat)
    requires ReignsOk(h, n) && AcksOk(h, n) && ServerLog(h, n, f, v) && v.tally.None?
    requires v.raft.term in h.reigns && k < |h.reigns[v.raft.term].log|
    requires g == NoteAck(h, f, v.raft.term, k)
    ensures AcksExtend(h, g, n, f)
  {
    NonEmptyReigns(h, n);
    VotesUpToTerm(h, n, f, v);
    AckIsNoted(h, g, n, f, v.raft.term, k);
    AckIsLate(h, g, f, v.raft.term, k);
  }

  lemma VotesUpToTerm(h: Past, n: nat, f: nat, v: Server)
    requires ServerVotes(h, n, f, v) && v.tally.None?
    ensures f < n && forall u :: (f, u) in h.votes ==> u <= v.raft.term
  {
  }

  lemma AckIsNoted(h: Past, g: Past, n: nat, f: nat, t: nat, k: nat)
    requires AcksOk(h, n) && f < n && t in h.reigns && k < |h.reigns[t].log| && g == NoteAck(h, f, t, k)
    ensures g.reigns == h.reigns && AcksGrow(h, g) && AcksOk(g, n) && forall j: nat :: j != f ==> AcksUntouched(h, g, j)
  {
  }

  lemma AckIsLate(h: Past, g: Past, f: nat, t: nat, k: nat)
    requires g == NoteAck(h, f, t, k) && forall u :: (f, u) in h.votes ==> u <= t
    ensures AcksAreLate(h, g)
  {
    forall j: nat, u: nat | (j, u) in h.votes ensures NoNewAcks(h, g, j, u) {}
  }

  /** What the peer had stored is still there after the request is handled, and so is what it stores now. */
  lemma AppendCovers(rules: Rules, h: Past, n: nat, i: nat, v: Server, a: AppendArgs)
    requires ReignsOk(h, n) && ServerLog(h, n, i, v) && ServerCommit(h, n, i, v) && v.tally.None?
    requires RequestOk(h, a) && v.raft.term == a.term && rules.appendNew
    ensures Covers(AfterAppend(rules, h, v.raft, a), i, HandleAppend(rules, v.raft, a).0.log, a.term + 1, a.term + 1)
  {
    var g := AfterAppend(rules, h, v.raft, a);
    var log := HandleAppend(rules, v.raft, a).0.log;
    assert ReignOk(h, n, a.term);
    AppendEffect(rules, h, n, v.raft, a);
    forall t: nat, k: nat | t < a.term + 1 && Acked(g, i, t, k) && Held(g, t, k, a.term + 1)
      ensures Same(g.reigns[t].log, log, k)
    {
      if Acked(h, i, t, k) {
        assert Held(h, t, k, a.term + 1);
        assert Same(h.reigns[t].log, v.raft.log, k);
        assert Same(h.reigns[a.term].log, v.raft.log, k);
      } else {
        assert t == a.term && k <= a.prevIndex + |a.entries|;
      }
    }
  }

  lemma AppendCommitOk(rules: Rules, h: Past, n: nat, i: nat, v: Server, a: AppendArgs)
    requires ReignsOk(h, n) && WinnersCover(h) && ServerLog(h, n, i, v) && ServerCommit(h, n, i, v)
    requires RequestOk(h, a) && RequestCommit(h, n, a) && v.raft.term == a.term && rules.appendNew && v.tally.None?
    ensures
      var s := HandleAppend(rules, v.raft, a).0;
      && CommitOk(h, n, s.log, s.commitIndex, s.term)
      && v.raft.commitIndex <= s.commitIndex
      && Same(v.raft.log, s.log, v.raft.commitIndex)
  {
    var s := HandleAppend(rules, v.raft, a).0;
    var leader := h.reigns[a.term].log;
    var c := v.raft.commitIndex;
    assert ReignOk(h, n, a.term);
    AppendEffect(rules, h, n, v.raft, a);
    if c > 0 { SealedInLeader(h, n, v.raft.log, c, v.raft.term, a.term); }
    assert Same(v.raft.log, s.log, c);
    if s.commitIndex == c {
      TransferCommitOk(h, n, v.raft.log, s.log, c, a.term);
    } else {
      assert s.commitIndex == a.leaderCommit;
      TransferCommitOk(h, n, leader, s.log, a.leaderCommit, a.term);
    }
  }

  lemma AppendAcks(rules: Rules, h: Past, g: Past, n: nat, i: nat, v: Server, a: AppendArgs)
    requires ReignsOk(h, n) && AcksOk(h, n) && ServerLog(h, n, i, v) && v.tally.None? && RequestOk(h, a)
    requires g == AfterAppend(rules, h, v.raft, a)
    ensures AcksExtend(h, g, n, i)
  {
    AcceptedInTerm(rules, h, v.raft, a);
    if g == h { NonEmptyReigns(h, n); } else { AckStep(h, g, n, i, v, a.prevIndex + |a.entries|); }
  }

  lemma AcceptedInTerm(rules: Rules, h: Past, s: RaftState, a: AppendArgs)
    ensures AfterAppend(rules, h, s, a) != h ==>
              && s.term == a.term
              && AfterAppend(rules, h, s, a) == NoteAck(h, s.me, a.term, a.prevIndex + |a.entries|)
  {
  }

  lemma AppendCommit(rules: Rules, h: Past, n: nat, i: nat, v: Server, a: AppendArgs)
    requires rules.appendNew && ReignsOk(h, n) && AcksOk(h, n) && WinnersCover(h)
    requires ServerLog(h, n, i, v) && ServerCommit(h, n, i, v) && v.tally.None?
    requires RequestOk(h, a) && RequestCommit(h, n, a) && i != h.reigns[a.term].id
    ensures ServerCommit(AfterAppend(rules, h, v.raft, a), n, i, v.(raft := HandleAppend(rules, v.raft, a).0))
  {
    if v.raft.term == a.term {
      var g := AfterAppend(rules, h, v.raft, a);
      var s := HandleAppend(rules, v.raft, a).0;
      AppendAcks(rules, h, g, n, i, v, a);
      AppendCovers(rules, h, n, i, v, a);
      AppendCommitOk(rules, h, n, i, v, a);
      KeepCommitOk(h, g, n, s.log, s.commitIndex, s.term);
      AppendedServer(rules, h, g, n, i, v, a);
    } else {
      RaiseCommit(h, n, i, v, v.(raft := HandleAppend(rules, v.raft, a).0));
    }
  }

  lemma AppendedServer(rules: Rules, h: Past, g: Past, n: nat, i: nat, v: Server, a: AppendArgs)
    requires v.tally.None? && v.raft.term == a.term && v.raft.role != Leader && v.raft.lastApplied <= v.raft.commitIndex
    requires Stable(v.raft).term == a.term
    requires forall t :: (i, t) in h.acked ==> t <= a.term
    requires v.raft.me == i && g == AfterAppend(rules, h, v.raft, a)
    requires Covers(g, i, HandleAppend(rules, v.raft, a).0.log, a.term + 1, a.term + 1)
    requires var s := HandleAppend(rules, v.raft, a).0;
             CommitOk(g, n, s.log, s.commitIndex, s.term) && v.raft.commitIndex <= s.commitIndex
    ensures ServerCommit(g, n, i, v.(raft := HandleAppend(rules, v.raft, a).0))
  {
  }

  lemma AppendKeepsCommits(rules: Rules, h: Past, c: State, i: nat, a: AppendArgs)
    requires rules.appendNew && LogInv(h, c) && CommitInv(h, c) && Free(c, i)
    requires RequestOk(h, a) && RequestCommit(h, |c.servers|, a) && i != h.reigns[a.term].id
    ensures CommitInv(AfterAppend(rules, h, c.servers[i].raft, a),
                      With(c, i, HandleAppend(rules, c.servers[i].raft, a).0))
  {
    var v := c.servers[i];
    var g := AfterAppend(rules, h, v.raft, a);
    AppendAcks(rules, h, g, |c.servers|, i, v, a);
    AppendCommit(rules, h, |c.servers|, i, v, a);
    ReplaceServerCommit(h, g, c, With(c, i, HandleAppend(rules, v.raft, a).0), i);
  }

  // ----- counting

  lemma CountCommits(rules: Rules, h: Past, n: nat, s: RaftState, k: nat)
    requires rules.currentTermOnly && s.peers == n && MatchOk(h, n, s)
    requires s.term in h.reigns && h.reigns[s.term].log == s.log
    requires 1 <= k < |s.log| && MayCommit(rules, s, k)
    ensures Committed(h, n, s.term, k)
  {
    var q := Reaching(s.matchIndex, k);
    CountIsSize(s.matchIndex, k);
    assert Quorum(n, q);
    assert AckedBy(h, q, s.term, k);
  }

  lemma CommitLogOk(rules: Rules, h: Past, n: nat, s: RaftState)
    requires rules.currentTermOnly && s.peers == n && MatchOk(h, n, s)
    requires s.term in h.reigns && h.reigns[s.term].log == s.log
    requires CommitOk(h, n, s.log, s.commitIndex, s.term)
    ensures CommitOk(h, n, s.log, CommitLog(rules, s).commitIndex, s.term)
    ensures s.commitIndex <= CommitLog(rules, s).commitIndex
  {
    var k := CommitLog(rules, s).commitIndex;
    ScanIsLast(rules, s, s.commitIndex + 1, s.commitIndex);
    if k != s.commitIndex {
      CountCommits(rules, h, n, s, k);
      assert Sealed(h, n, s.log, k, s.term, s.term, k);
    }
  }

  /** What a reply may say: success only if the peer has stored the leader's log that far. */
  ghost predicate ReplyOk(h: Past, to: nat, a: AppendArgs, r: AppendReply) {
    && r.nextIndex != -1
    && (r.term > 0 ==> r.nextIndex == 0 && !r.success)
    && (r.success ==> (to, a.term) in h.acked && a.prevIndex + |a.entries| <= h.acked[(to, a.term)])
  }

  lemma ReplyCommit(rules: Rules, h: Past, n: nat, i: nat, v: Server, to: nat, a: AppendArgs, r: AppendReply)
    requires rules.matchVerified && rules.currentTermOnly && to < n
    requires ServerLog(h, n, i, v) && ServerCommit(h, n, i, v) && v.tally.None? && v.raft.role == Leader
    requires a.term == v.raft.term && ReplyOk(h, to, a, r)
    ensures ServerCommit(h, n, i, v.(raft := HandleReply(rules, v.raft, to, a, r)))
  {
    var s := v.raft;
    if s.term < r.term {
      RaiseCommit(h, n, i, v, v.(raft := HandleReply(rules, s, to, a, r)));
    } else {
      var t := NoteReply(rules, s, to, a, r);
      assert MatchOk(h, n, t);
      CommitLogOk(rules, h, n, t);
    }
  }

  lemma RequestIsCapped(h: Past, n: nat, i: nat, v: Server, to: nat)
    requires ServerLog(h, n, i, v) && ServerCommit(h, n, i, v) && v.raft.role == Leader && to < n
    ensures CanSend(v.raft, to) && RequestCommit(h, n, BuildAppend(v.raft, to))
  {
    RequestStep(h, n, i, v.raft, to);
  }

  lemma ReplyKeepsCommits(rules: Rules, h: Past, c: State, i: nat, to: nat, a: AppendArgs, r: AppendReply)
    requires rules.matchVerified && rules.currentTermOnly && LogInv(h, c) && CommitInv(h, c) && Free(c, i)
    requires to < |c.servers| && c.servers[i].raft.role == Leader && a.term == c.servers[i].raft.term
    requires ReplyOk(h, to, a, r)
    ensures to < |c.servers[i].raft.nextIndex| == |c.servers[i].raft.matchIndex|
    ensures CommitInv(h, With(c, i, HandleReply(rules, c.servers[i].raft, to, a, r)))
  {
    var n := |c.servers|;
    assert ServerLog(h, n, i, c.servers[i]);
    ReplyCommit(rules, h, n, i, c.servers[i], to, a, r);
    NonEmptyReigns(h, n);
    ReplaceServerCommit(h, h, c, With(c, i, HandleReply(rules, c.servers[i].raft, to, a, r)), i);
  }

  lemma AppendReplyOk(rules: Rules, h: Past, n: nat, s: RaftState, a: AppendArgs)
    requires rules.appendNew && ReignsOk(h, n) && Rooted(h, s.log) && RequestOk(h, a)
    ensures ReplyOk(AfterAppend(rules, h, s, a), s.me, a, HandleAppend(rules, s, a).1)
  {
    assert ReignOk(h, n, a.term);
    if s.term == a.term { AppendEffect(rules, h, n, s, a); }
  }

  lemma ExchangeKeepsCommits(rules: Rules, h: Past, c: State, i: nat, to: nat)
    requires rules == AS_COMMENTED && LogInv(h, c) && CommitInv(h, c) && Enabled(rules, c, Exchange(i, to))
    ensures CommitInv(After(rules, h, c, Exchange(i, to)), Next(rules, c, Exchange(i, to)))
  {
    var n := |c.servers|;
    var a := BuildAppend(c.servers[i].raft, to);
    assert ServerLog(h, n, i, c.servers[i]) && ServerLog(h, n, to, c.servers[to]);
    RequestStep(h, n, i, c.servers[i].raft, to);
    RequestIsCapped(h, n, i, c.servers[i], to);
    AppendKeepsLogs(rules, h, c, to, a);
    AppendKeepsCommits(rules, h, c, to, a);
    AppendReplyOk(rules, h, n, c.servers[to].raft, a);
    ReplyKeepsCommits(rules, AfterAppend(rules, h, c.servers[to].raft, a),
                      With(c, to, HandleAppend(rules, c.servers[to].raft, a).0), i, to, a,
                      HandleAppend(rules, c.servers[to].raft, a).1);
  }

  lemma ExchangeLostKeepsCommits(rules: Rules, h: Past, c: State, i: nat, to: nat)
    requires rules == AS_COMMENTED && LogInv(h, c) && CommitInv(h, c) && Enabled(rules, c, ExchangeLost(i, to))
    ensures CommitInv(h, Next(rules, c, ExchangeLost(i, to)))
  {
    var n, s := |c.servers|, c.servers[i].raft;
    assert ServerLog(h, n, i, c.servers[i]);
    RequestStep(h, n, i, s, to);
    RequestIsCapped(h, n, i, c.servers[i], to);
    ReplyCommit(rules, h, n, i, c.servers[i], to, BuildAppend(s, to), LOST);
    NonEmptyReigns(h, n);
    ReplaceServerCommit(h, h, c, Next(rules, c, ExchangeLost(i, to)), i);
  }

  // ----- client commands

  lemma EntryAcks(h: Past, g: Past, n: nat, i: nat, t: nat, log: Log)
    requires AcksOk(h, n) && ReignsGrow(h, g) && i < n && t in h.reigns && h.reigns[t].log <= log && log != []
    requires forall u :: (i, u) in h.votes ==> u <= t
    requires g == NoteEntry(h, t, i, log)
    ensures AcksExtend(h, g, n, i)
  {
    forall f: nat, u: nat | (f, u) in h.votes ensures NoNewAcks(h, g, f, u) {}
  }

  lemma EntryCommit(h: Past, g: Past, n: nat, i: nat, v: Server, command: Command)
    requires ReignsOk(h, n) && ReignsGrow(h, g) && AcksGrow(h, g)
    requires ServerLog(h, n, i, v) && ServerCommit(h, n, i, v) && v.tally.None? && v.raft.role == Leader
    requires g == NoteEntry(h, v.raft.term, i, Start(v.raft, command).log)
    ensures ServerCommit(g, n, i, v.(raft := Start(v.raft, command)))
  {
    var s := Start(v.raft, command);
    LastIsPosition(h, v.raft.log);
    EntryCovers(h, g, n, i, v, command);
    EntryCommitOk(h, g, n, v.raft, command);
    EntryMatch(h, g, n, i, v, command);
    StartedServer(h, g, n, i, v, command);
  }

  lemma EntryCommitOk(h: Past, g: Past, n: nat, s: RaftState, command: Command)
    requires CommitOk(h, n, s.log, s.commitIndex, s.term) && ReignsGrow(h, g) && AcksGrow(h, g)
    requires s.me < |s.matchIndex|
    ensures CommitOk(g, n, Start(s, command).log, s.commitIndex, s.term)
  {
    KeepCommitOk(h, g, n, s.log, s.commitIndex, s.term);
    TransferCommitOk(g, n, s.log, Start(s, command).log, s.commitIndex, s.term);
  }

  lemma StartedServer(h: Past, g: Past, n: nat, i: nat, v: Server, command: Command)
    requires v.tally.None? && v.raft.me == i < |v.raft.matchIndex| && v.raft.lastApplied <= v.raft.commitIndex
    requires forall t :: (i, t) in h.acked ==> t <= v.raft.term
    requires g == NoteEntry(h, v.raft.term, i, Start(v.raft, command).log)
    requires Covers(g, i, Start(v.raft, command).log, v.raft.term + 1, v.raft.term + 1)
    requires CommitOk(g, n, Start(v.raft, command).log, v.raft.commitIndex, v.raft.term)
    requires MatchOk(g, n, Start(v.raft, command))
    ensures ServerCommit(g, n, i, v.(raft := Start(v.raft, command)))
  {
  }

  lemma EntryMatch(h: Past, g: Past, n: nat, i: nat, v: Server, command: Command)
    requires MatchOk(h, n, v.raft) && AcksGrow(h, g) && v.raft.me == i < n && LastIndex(v.raft.log) + 1 == |v.raft.log|
    requires v.raft.term in h.reigns && g == NoteEntry(h, v.raft.term, i, Start(v.raft, command).log)
    ensures MatchOk(g, n, Start(v.raft, command))
  {
  }

  lemma EntryCovers(h: Past, g: Past, n: nat, i: nat, v: Server, command: Command)
    requires ReignsGrow(h, g) && LeaderOk(h, n, i, v.raft) && v.raft.me < |v.raft.matchIndex|
    requires Covers(h, i, v.raft.log, v.raft.term + 1, v.raft.term + 1)
    requires g == NoteEntry(h, v.raft.term, i, Start(v.raft, command).log)
    ensures Covers(g, i, Start(v.raft, command).log, v.raft.term + 1, v.raft.term + 1)
  {
    var s := Start(v.raft, command);
    forall t: nat, k: nat | t < s.term + 1 && Acked(g, i, t, k) && Held(g, t, k, s.term + 1)
      ensures Same(g.reigns[t].log, s.log, k)
    {
      if t < s.term {
        assert Acked(h, i, t, k);
        assert Held(h, t, k, s.term + 1);
      }
    }
  }

  lemma StartKeepsCommits(rules: Rules, h: Past, c: State, i: nat, command: Command)
    requires rules.leaderOnly && LogInv(h, c) && CommitInv(h, c) && Enabled(rules, c, ClientStart(i, command))
    ensures CommitInv(After(rules, h, c, ClientStart(i, command)), Next(rules, c, ClientStart(i, command)))
  {
    var n, v := |c.servers|, c.servers[i];
    var g := After(rules, h, c, ClientStart(i, command));
    EntryStep(h, g, n, i, v, command);
    EntryAcks(h, g, n, i, v.raft.term, Start(v.raft, command).log);
    EntryCommit(h, g, n, i, v, command);
    ReplaceServerCommit(h, g, c, Next(rules, c, ClientStart(i, command)), i);
  }

  // ----- the rest

  lemma StartCampaignCommit(h: Past, n: nat, i: nat, v: Server)
    requires ServerLog(h, n, i, v) && ServerCommit(h, n, i, v) && v.tally.None? && v.raft.role != Leader
    ensures
      var s := Campaign(v.raft);
      ServerCommit(h, n, i, v.(raft := s, tally := Some(Tally(VoteRequest(s), {}, {i}))))
  {
    var s := Campaign(v.raft);
    forall t: nat, k: nat | t < s.term && Acked(h, i, t, k) && Held(h, t, k, s.term + 1)
      ensures Same(h.reigns[t].log, s.log, k)
    {
      assert Held(h, t, k, s.term);
    }
  }

  lemma QuietCommit(h: Past, n: nat, i: nat, v: Server, w: Server)
    requires ServerCommit(h, n, i, v) && v.raft.log != [] && QuietChange(v, w)
    ensures ServerCommit(h, n, i, w)
  {
  }

  lemma QuietStepKeepsCommits(rules: Rules, h: Past, c: State, a: Action)
    requires LogInv(h, c) && CommitInv(h, c) && Enabled(rules, c, a) && (a.StartCampaign? || Quiet(a))
    ensures CommitInv(h, Next(rules, c, a))
  {
    var n, d := |c.servers|, Next(rules, c, a);
    assert ServerLog(h, n, a.i, c.servers[a.i]) && ServerCommit(h, n, a.i, c.servers[a.i]);
    QuietNet(rules, c, a);
    if a.StartCampaign? {
      StartCampaignCommit(h, n, a.i, c.servers[a.i]);
    } else {
      QuietServer(rules, h, c, a);
      QuietCommit(h, n, a.i, c.servers[a.i], d.servers[a.i]);
    }
    NonEmptyReigns(h, n);
    ReplaceServerCommit(h, h, c, d, a.i);
  }

  lemma LateDeliveryKeepsCommits(rules: Rules, h: Past, c: State, m: Message)
    requires rules.appendNew && LogInv(h, c) && CommitInv(h, c) && Enabled(rules, c, LateDelivery(m))
    ensures CommitInv(After(rules, h, c, LateDelivery(m)), Next(rules, c, LateDelivery(m)))
  {
    var d := c.(net := c.net - multiset{m});
    assert MessageLog(h, m);
    assert LogInv(h, d) && CommitInv(h, d);
    match m
    case AppendMsg(to, a) => AppendKeepsCommits(rules, h, d, to, a);
    case VoteMsg(to, a) => HandleVoteKeepsCommits(h, d, to, a);
  }

  lemma StepKeepsCommits(rules: Rules, h: Past, c: State, a: Action)
    requires rules == AS_COMMENTED && LogInv(h, c) && CommitInv(h, c) && Enabled(rules, c, a)
    ensures CommitInv(After(rules, h, c, a), Next(rules, c, a))
  {
    match a
    case Poll(i, to) => PollKeepsCommits(rules, h, c, i, to);
    case FinishCampaign(i) => FinishKeepsCommits(rules, h, c, i);
    case Exchange(i, to) => ExchangeKeepsCommits(rules, h, c, i, to);
    case ExchangeLost(i, to) => ExchangeLostKeepsCommits(rules, h, c, i, to);
    case LateDelivery(m) => LateDeliveryKeepsCommits(rules, h, c, m);
    case ClientStart(i, command) => StartKeepsCommits(rules, h, c, i, command);
    case _ => QuietStepKeepsCommits(rules, h, c, a);
  }

  lemma AcksOnlyGrow(rules: Rules, h: Past, c: State, a: Action)
    requires rules == AS_COMMENTED && LogInv(h, c) && CommitInv(h, c) && Enabled(rules, c, a)
    ensures AcksGrow(h, After(rules, h, c, a))
  {
    match a
    case FinishCampaign(i) => FinishAcksGrow(rules, h, c, i);
    case ClientStart(i, command) => EntryAcksGrow(rules, h, c, i, command);
    case Exchange(i, to) => AppendAcksGrow(rules, h, c.servers[to].raft, BuildAppend(c.servers[i].raft, to));
    case LateDelivery(AppendMsg(to, args)) => AppendAcksGrow(rules, h, c.servers[to].raft, args);
    case _ => OthersAckNothing(rules, h, c, a);
  }

  lemma FinishAcksGrow(rules: Rules, h: Past, c: State, i: nat)
    requires rules == AS_COMMENTED && LogInv(h, c) && CommitInv(h, c) && Enabled(rules, c, FinishCampaign(i))
    ensures AcksGrow(h, After(rules, h, c, FinishCampaign(i)))
  {
    TallyAcks(rules, h, |c.servers|, i, c.servers[i]);
  }

  lemma OthersAckNothing(rules: Rules, h: Past, c: State, a: Action)
    requires Enabled(rules, c, a) && !a.FinishCampaign? && !a.ClientStart? && !a.Exchange?
    requires a.LateDelivery? ==> a.m.VoteMsg?
    ensures After(rules, h, c, a).acked == h.acked
  {
  }

  lemma AppendAcksGrow(rules: Rules, h: Past, s: RaftState, a: AppendArgs)
    ensures AcksGrow(h, AfterAppend(rules, h, s, a))
  {
  }

  lemma EntryAcksGrow(rules: Rules, h: Past, c: State, i: nat, command: Command)
    requires rules.leaderOnly && LogInv(h, c) && CommitInv(h, c) && Enabled(rules, c, ClientStart(i, command))
    ensures AcksGrow(h, After(rules, h, c, ClientStart(i, command)))
  {
    var g := After(rules, h, c, ClientStart(i, command));
    EntryStep(h, g, |c.servers|, i, c.servers[i], command);
    EntryAcks(h, g, |c.servers|, i, c.servers[i].raft.term, Start(c.servers[i].raft, command).log);
  }

  lemma InitCommits(n: nat)
    ensures CommitInv(NOTHING, Init(n))
  {
  }
}
