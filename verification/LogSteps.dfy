/** Every action keeps the invariants about elections and logs.
    Needs the first three rules, and that no accepted request repeats entries (the fourth). */
module LogSteps {
  import opened Options
  import opened RaftTypes
  import opened RaftHandlers
  import opened Cluster
  import opened History
  import opened Record
  import opened Elections

  ghost predicate ElectionRules(rules: Rules) {
    rules.keepVote && rules.giveUp && rules.leaderOnly
  }

  // ----- votes

  /** RequestVote keeps the voter's invariant; a vote it grants is new or repeats the recorded one. */
  lemma VoteStep(h: Past, n: nat, i: nat, v: Server, a: VoteArgs)
    requires ServerLog(h, n, i, v) && v.tally.None?
    ensures
      var g := AfterVote(h, v.raft, a);
      var (s, r) := HandleVote(v.raft, a);
      && ServerLog(g, n, i, v.(raft := s))
      && VotesGrow(h, g) && ReignsGrow(h, g) && (forall j: nat :: j != i ==> Untouched(h, g, j))
      && (r.granted ==> (i, a.term) in g.votes && g.votes[(i, a.term)] == a.candidate)
      && (r.granted ==> s.term == a.term)
      && g.reigns == h.reigns && g.acked == h.acked && s.log == v.raft.log
  {
    var g := AfterVote(h, v.raft, a);
    KeepRooted(h, g, v.raft.log);
  }

  lemma KeepReigns(h: Past, g: Past, n: nat)
    requires ReignsOk(h, n) && g.reigns == h.reigns && VotesGrow(h, g)
    ensures ReignsOk(g, n) && ReignsGrow(h, g)
  {
    forall t | t in g.reigns ensures ReignOk(g, n, t) { KeepReign(h, g, n, t); }
  }

  lemma HandleVoteKeepsLogs(h: Past, c: State, i: nat, a: VoteArgs)
    requires LogInv(h, c) && Free(c, i)
    ensures
      var g := AfterVote(h, c.servers[i].raft, a);
      && LogInv(g, With(c, i, HandleVote(c.servers[i].raft, a).0))
      && ReignsGrow(h, g) && VotesGrow(h, g)
  {
    var g := AfterVote(h, c.servers[i].raft, a);
    var d := With(c, i, HandleVote(c.servers[i].raft, a).0);
    VoteStep(h, |c.servers|, i, c.servers[i], a);
    KeepReigns(h, g, |c.servers|);
    ReplaceServerLog(h, g, c, d, i);
  }

  lemma PollKeepsLogs(rules: Rules, h: Past, c: State, i: nat, to: nat)
    requires LogInv(h, c) && Enabled(rules, c, Poll(i, to))
    ensures
      var g := After(rules, h, c, Poll(i, to));
      LogInv(g, Next(rules, c, Poll(i, to))) && ReignsGrow(h, g) && VotesGrow(h, g)
  {
    var t := c.servers[i].tally.value;
    var d := With(c, to, HandleVote(c.servers[to].raft, t.args).0);
    assert ServerLog(h, |c.servers|, i, c.servers[i]) && ServerLog(h, |c.servers|, to, c.servers[to]);
    HandleVoteKeepsLogs(h, c, to, t.args);
    VoteStep(h, |c.servers|, to, c.servers[to], t.args);
    HearKeepsLogs(AfterVote(h, c.servers[to].raft, t.args), d, Next(rules, c, Poll(i, to)), i, to,
                  HandleVote(c.servers[to].raft, t.args).1);
  }

  lemma HearKeepsLogs(h: Past, c: State, d: State, i: nat, to: nat, r: VoteReply)
    requires LogInv(h, c) && i < |c.servers| && to < |c.servers| && i != to && c.servers[i].tally.Some?
    requires
      var t := c.servers[i].tally.value.args.term;
      r.granted ==> (to, t) in h.votes && h.votes[(to, t)] == i
    requires d == c.(servers := c.servers[i := Heard(c.servers[i], to, r)])
    ensures LogInv(h, d)
  {
    KeepReigns(h, h, |c.servers|);
    HearStep(h, |c.servers|, i, c.servers[i], to, r);
    ReplaceServerLog(h, h, c, d, i);
  }

  function Heard(v: Server, to: nat, r: VoteReply): Server
    requires v.tally.Some?
  {
    var t := v.tally.value;
    v.(raft := HearVote(v.raft, t.args, r),
    tally := Some(t.(asked := t.asked + {to}, votes := if r.granted then t.votes + {to} else t.votes)))
  }

  lemma HearStep(h: Past, n: nat, i: nat, v: Server, to: nat, r: VoteReply)
    requires ServerLog(h, n, i, v) && v.tally.Some? && to < n && to != i
    requires r.granted ==> (to, v.tally.value.args.term) in h.votes && h.votes[(to, v.tally.value.args.term)] == i
    ensures ServerLog(h, n, i, Heard(v, to, r))
  {
  }

  // ----- winning

  lemma AllWon(h: Past, n: nat)
    requires ReignsOk(h, n)
    ensures forall t :: t in h.reigns ==> WonOk(h, n, t)
  {
    forall t | t in h.reigns ensures WonOk(h, n, t) { assert ReignOk(h, n, t); }
  }

  lemma WinStep(h: Past, g: Past, n: nat, t: nat, i: nat, log: Log, voters: set<nat>)
    requires ReignsOk(h, n) && t !in h.reigns && i < n && t >= 1
    requires Rooted(h, log) && TermsUpTo(log, t - 1) && Quorum(n, voters) && i in voters
    requires forall v :: v in voters ==> (v, t) in h.votes && h.votes[(v, t)] == i
    requires g == NoteWin(h, t, i, log, voters)
    ensures LogsExtend(h, g, n, i)
  {
    assert ReignsGrow(h, g) by {
      forall u | u in h.reigns ensures g.reigns[u] == h.reigns[u] && |h.reigns[u].log| >= 1 {
        assert ReignOk(h, n, u);
      }
    }
    forall u | u in g.reigns ensures ReignOk(g, n, u) {
      if u == t { KeepRooted(h, g, log); } else { KeepReign(h, g, n, u); }
    }
  }

  lemma TallyStep(rules: Rules, h: Past, g: Past, n: nat, i: nat, v: Server)
    requires rules.keepVote && rules.giveUp
    requires ReignsOk(h, n) && ServerLog(h, n, i, v) && v.tally.Some?
    requires g == AfterTally(rules, h, v.raft, v.tally.value)
    ensures LogsExtend(h, g, n, i)
    ensures ServerLog(g, n, i, v.(raft := Finish(rules, v.raft, |v.tally.value.votes|), tally := None))
  {
    var s, t := v.raft, v.tally.value;
    var g0 := NoteVote(h, i, t.args.term, i);
    SelfVoteStep(h, g0, n, i, v);
    if Wins(rules, s, |t.votes|) {
      AllWon(h, n);
      TermIsUnclaimed(h, n, i, v);
      WinStep(g0, g, n, s.term, i, s.log, t.votes);
      WinnerIsLeader(rules, g0, n, i, v);
      ExtendTwice(h, g0, g, n, i);
    }
  }

  lemma ExtendTwice(f: Past, g: Past, h: Past, n: nat, i: nat)
    requires LogsExtend(f, g, n, i) && LogsExtend(g, h, n, i) && g.reigns == f.reigns
    ensures LogsExtend(f, h, n, i)
  {
    forall j: nat | j != i ensures Untouched(f, h, j) { assert Untouched(f, g, j) && Untouched(g, h, j); }
  }

  /** Finishing an election makes the candidate's own vote durable. */
  lemma SelfVoteStep(h: Past, g: Past, n: nat, i: nat, v: Server)
    requires ReignsOk(h, n) && ServerLog(h, n, i, v) && v.tally.Some?
    requires g == NoteVote(h, i, v.tally.value.args.term, i)
    ensures (i, v.tally.value.args.term) !in h.votes
    ensures LogsExtend(h, g, n, i) && TallyOk(g, n, i, v.raft, v.tally.value)
    ensures ServerLog(g, n, i, v.(raft := Persist(v.raft), tally := None))
  {
    KeepReigns(h, g, n);
    KeepRooted(h, g, v.raft.log);
  }

  lemma WinnerIsLeader(rules: Rules, h: Past, n: nat, i: nat, v: Server)
    requires rules.keepVote && v.tally.Some? && v.raft.role == Candidate && v.raft.term !in h.reigns
    requires ServerLog(h, n, i, v.(raft := Persist(v.raft), tally := None))
    requires TallyOk(h, n, i, v.raft, v.tally.value)
    ensures ServerLog(NoteWin(h, v.raft.term, i, v.raft.log, v.tally.value.votes), n, i,
                      v.(raft := Persist(Promote(rules, v.raft)), tally := None))
  {
    var s := v.raft;
    var g := NoteWin(h, s.term, i, s.log, v.tally.value.votes);
    LastIsPosition(h, s.log);
    assert Rooted(g, s.log) by {
      forall k | 1 <= k < |s.log| ensures EntryOk(g, s.log, k) { assert EntryOk(h, s.log, k); }
    }
  }

  lemma FinishKeepsLogs(rules: Rules, h: Past, c: State, i: nat)
    requires rules.keepVote && rules.giveUp
    requires LogInv(h, c) && Enabled(rules, c, FinishCampaign(i))
    ensures
      var g := After(rules, h, c, FinishCampaign(i));
      LogInv(g, Next(rules, c, FinishCampaign(i))) && ReignsGrow(h, g) && VotesGrow(h, g)
  {
    var g := After(rules, h, c, FinishCampaign(i));
    TallyStep(rules, h, g, |c.servers|, i, c.servers[i]);
    ReplaceServerLog(h, g, c, Next(rules, c, FinishCampaign(i)), i);
  }

  // ----- replication

  /** An accepted non-empty request is appended whole only where it fits exactly. */
  ghost predicate NoRepeat(rules: Rules, s: RaftState, a: AppendArgs) {
    rules.appendNew || a.entries == [] || !HandleAppend(rules, s, a).1.success || |s.log| == a.prevIndex + 1
  }

  /** A request that passes the checks leaves a log equal to its leader's as far as the request reaches. */
  lemma ExtendedAgrees(rules: Rules, h: Past, log: Log, a: AppendArgs)
    requires Rooted(h, log) && RequestOk(h, a) && Rooted(h, h.reigns[a.term].log)
    requires a.prevIndex < |log| && (a.prevIndex == 0 || log[a.prevIndex].term == a.prevTerm)
    requires FirstConflict(log, a.entries) == |a.entries|
    requires rules.appendNew || a.entries == [] || |log| == a.prevIndex + 1
    ensures Same(h.reigns[a.term].log, Extended(rules, log, a), a.prevIndex + |a.entries|)
    ensures Rooted(h, Extended(rules, log, a))
    ensures log <= Extended(rules, log, a)
    ensures |log| < |Extended(rules, log, a)| ==> |Extended(rules, log, a)| == a.prevIndex + |a.entries| + 1
  {
    var leader := h.reigns[a.term].log;
    var out := Extended(rules, log, a);
    OverlapAgrees(h, log, a);
    assert |log| < |out| ==> out == log + a.entries[|log| - a.prevIndex - 1..];
    forall i | |log| <= i < |out| ensures out[i] == leader[i] {
      assert out[i] == a.entries[i - a.prevIndex - 1];
    }
    SpliceRooted(h, log, leader, out);
  }

  /** The stretch that both the log and the request cover already agrees with the leader's log. */
  lemma OverlapAgrees(h: Past, log: Log, a: AppendArgs)
    requires Rooted(h, log) && RequestOk(h, a) && Rooted(h, h.reigns[a.term].log)
    requires a.prevIndex < |log| && (a.prevIndex == 0 || log[a.prevIndex].term == a.prevTerm)
    requires forall j :: 0 <= j < |a.entries| ==> !Conflicts(log, a.entries[j])
    ensures |log| <= a.prevIndex + |a.entries| ==> Same(h.reigns[a.term].log, log, |log| - 1)
    ensures |log| > a.prevIndex + |a.entries| ==> Same(h.reigns[a.term].log, log, a.prevIndex + |a.entries|)
  {
    var leader := h.reigns[a.term].log;
    var p := if |log| <= a.prevIndex + |a.entries| then |log| - 1 else a.prevIndex + |a.entries|;
    if p > a.prevIndex {
      var j := p - a.prevIndex - 1;
      assert a.entries[j] == leader[p] && leader[p].index == p by { assert EntryOk(h, leader, p); }
      assert !Conflicts(log, a.entries[j]);
    }
    MatchAt(h, leader, log, p);
  }

  lemma SpliceRooted(h: Past, log: Log, leader: Log, out: Log)
    requires Rooted(h, log) && Rooted(h, leader) && log <= out
    requires |log| < |out| ==> Same(leader, out, |out| - 1)
    ensures Rooted(h, out)
  {
    forall i | 1 <= i < |out| ensures EntryOk(h, out, i) {
      if |log| == |out| { assert EntryOk(h, log, i); } else { assert EntryOk(h, leader, i); }
    }
  }

  /** Whatever `before` shares with the leader's log, `after` shares too. */
  ghost predicate AgreementKept(leader: Log, before: Log, after: Log) {
    forall k :: Same(leader, before, k) ==> Same(leader, after, k)
  }

  /** Cutting a log where its term differs from the leader's loses nothing the two share. */
  lemma CutKeepsAgreement(h: Past, a: AppendArgs, log: Log, p: nat)
    requires Rooted(h, log) && a.term in h.reigns
    requires 1 <= p < |log| && p < |h.reigns[a.term].log| && log[p].term != h.reigns[a.term].log[p].term
    ensures Appended(h, a, log, log[..p], false)
  {
    PrefixRooted(h, log, p);
  }

  /** AppendEntries in the leader's own term: the log stays rooted, nothing that agrees with the leader's
      log is lost, and success means agreement as far as the request reaches. */
  lemma AppendEffect(rules: Rules, h: Past, n: nat, s: RaftState, a: AppendArgs)
    requires Rooted(h, s.log) && RequestOk(h, a) && ReignOk(h, n, a.term)
    requires s.term == a.term && NoRepeat(rules, s, a)
    ensures Appended(h, a, s.log, HandleAppend(rules, s, a).0.log, HandleAppend(rules, s, a).1.success)
    ensures HandleAppend(rules, s, a).1.nextIndex >= 1 && HandleAppend(rules, s, a).1.term == 0
  {
    var leader := h.reigns[a.term].log;
    var j := FirstConflict(s.log, a.entries);
    if 0 < a.prevIndex < |s.log| && s.log[a.prevIndex].term != a.prevTerm {
      CutKeepsAgreement(h, a, s.log, a.prevIndex);
    } else if j < |a.entries| {
      assert a.entries[j].index == a.prevIndex + 1 + j by { assert EntryOk(h, leader, a.prevIndex + 1 + j); }
      CutKeepsAgreement(h, a, s.log, a.prevIndex + 1 + j);
    } else if a.prevIndex < |s.log| {
      ExtensionKeepsAgreement(rules, h, n, s.log, a);
    }
  }

  ghost predicate Appended(h: Past, a: AppendArgs, before: Log, after: Log, success: bool)
    requires a.term in h.reigns
  {
    && Rooted(h, after)
    && (TermsUpTo(before, a.term) ==> TermsUpTo(after, a.term))
    && AgreementKept(h.reigns[a.term].log, before, after)
    && (success ==> Same(h.reigns[a.term].log, after, a.prevIndex + |a.entries|))
  }

  lemma ExtensionKeepsAgreement(rules: Rules, h: Past, n: nat, log: Log, a: AppendArgs)
    requires Rooted(h, log) && RequestOk(h, a) && ReignOk(h, n, a.term)
    requires a.prevIndex < |log| && (a.prevIndex == 0 || log[a.prevIndex].term == a.prevTerm)
    requires FirstConflict(log, a.entries) == |a.entries|
    requires rules.appendNew || a.entries == [] || |log| == a.prevIndex + 1
    ensures Appended(h, a, log, Extended(rules, log, a), true)
  {
    var out := Extended(rules, log, a);
    ExtendedAgrees(rules, h, log, a);
    ExtendedTerms(h, n, log, out, a.term);
  }

  lemma ExtendedTerms(h: Past, n: nat, log: Log, out: Log, t: nat)
    requires t in h.reigns && ReignOk(h, n, t)
    requires log <= out && (|log| < |out| ==> Same(h.reigns[t].log, out, |out| - 1))
    ensures TermsUpTo(log, t) ==> TermsUpTo(out, t)
  {
    LeaderTerms(h, n, t);
  }

  lemma LeaderTerms(h: Past, n: nat, t: nat)
    requires t in h.reigns && ReignOk(h, n, t)
    ensures TermsUpTo(h.reigns[t].log, t)
  {
    var r := h.reigns[t];
    forall i | 0 <= i < |r.log| ensures r.log[i].term <= t {
      if i < |r.base| { assert r.base[i] == r.log[i]; }
    }
  }

  lemma AppendStep(rules: Rules, h: Past, n: nat, i: nat, v: Server, a: AppendArgs)
    requires ServerLog(h, n, i, v) && v.tally.None?
    requires RequestOk(h, a) && ReignOk(h, n, a.term) && i != h.reigns[a.term].id
    requires NoRepeat(rules, v.raft, a)
    ensures ServerLog(h, n, i, v.(raft := HandleAppend(rules, v.raft, a).0))
  {
    if v.raft.term == a.term { AppendEffect(rules, h, n, v.raft, a); }
  }

  lemma AppendKeepsLogs(rules: Rules, h: Past, c: State, i: nat, a: AppendArgs)
    requires LogInv(h, c) && Free(c, i)
    requires RequestOk(h, a) && i != h.reigns[a.term].id
    requires NoRepeat(rules, c.servers[i].raft, a)
    ensures
      var g := AfterAppend(rules, h, c.servers[i].raft, a);
      && LogInv(g, With(c, i, HandleAppend(rules, c.servers[i].raft, a).0))
      && ReignsGrow(h, g) && VotesGrow(h, g)
  {
    var n, s := |c.servers|, c.servers[i].raft;
    var g := AfterAppend(rules, h, s, a);
    var d := With(c, i, HandleAppend(rules, s, a).0);
    AppendStep(rules, h, n, i, c.servers[i], a);
    KeepReigns(h, g, n);
    KeepServerLog(h, g, n, i, d.servers[i]);
    ReplaceServerLog(h, g, c, d, i);
  }

  /** What a leader sends repeats its own log, which is the log of its term's winner. */
  lemma RequestStep(h: Past, n: nat, i: nat, s: RaftState, to: nat)
    requires Rooted(h, s.log) && LeaderOk(h, n, i, s) && to < n
    ensures CanSend(s, to)
    ensures RequestOk(h, BuildAppend(s, to))
    ensures BuildAppend(s, to).term == s.term
    ensures BuildAppend(s, to).prevIndex + |BuildAppend(s, to).entries| == |s.log| - 1
  {
    LastIsPosition(h, s.log);
  }

  lemma ReplyKeepsLogs(rules: Rules, h: Past, c: State, i: nat, to: nat, a: AppendArgs, r: AppendReply)
    requires LogInv(h, c) && Free(c, i) && to < |c.servers|
    requires r.term == 0 ==> r.nextIndex >= 0
    requires r.term > 0 ==> r.nextIndex == 0
    ensures to < |c.servers[i].raft.nextIndex| == |c.servers[i].raft.matchIndex|
    ensures LogInv(h, With(c, i, HandleReply(rules, c.servers[i].raft, to, a, r)))
  {
    assert ServerLog(h, |c.servers|, i, c.servers[i]);
    ReplaceServerLog(h, h, c, With(c, i, HandleReply(rules, c.servers[i].raft, to, a, r)), i);
  }

  lemma ExchangeKeepsLogs(rules: Rules, h: Past, c: State, i: nat, to: nat)
    requires rules.leaderOnly && LogInv(h, c) && Enabled(rules, c, Exchange(i, to))
    requires NoRepeat(rules, c.servers[to].raft, BuildAppend(c.servers[i].raft, to))
    ensures
      var g := After(rules, h, c, Exchange(i, to));
      LogInv(g, Next(rules, c, Exchange(i, to))) && ReignsGrow(h, g) && VotesGrow(h, g)
  {
    var n := |c.servers|;
    var a := BuildAppend(c.servers[i].raft, to);
    var (f, r) := HandleAppend(rules, c.servers[to].raft, a);
    assert ServerLog(h, n, i, c.servers[i]) && ServerLog(h, n, to, c.servers[to]);
    RequestStep(h, n, i, c.servers[i].raft, to);
    AppendKeepsLogs(rules, h, c, to, a);
    assert ReignOk(h, n, a.term);
    if c.servers[to].raft.term == a.term { AppendEffect(rules, h, n, c.servers[to].raft, a); }
    ReplyKeepsLogs(rules, After(rules, h, c, Exchange(i, to)), With(c, to, f), i, to, a, r);
  }

  lemma ExchangeLostKeepsLogs(rules: Rules, h: Past, c: State, i: nat, to: nat)
    requires rules.leaderOnly && LogInv(h, c) && Enabled(rules, c, ExchangeLost(i, to))
    ensures LogInv(h, Next(rules, c, ExchangeLost(i, to)))
  {
    var n, s := |c.servers|, c.servers[i].raft;
    var a := BuildAppend(s, to);
    assert ServerLog(h, n, i, c.servers[i]);
    RequestStep(h, n, i, s, to);
    ReplyKeepsLogs(rules, h, c, i, to, a, LOST);
    var d := With(c, i, HandleReply(rules, s, to, a, LOST));
    ReplaceServerLog(h, h, d, Send(d, AppendMsg(to, a)), i);
  }

  // ----- client commands

  /** The history grew by something server i did. */
  ghost predicate LogsExtend(h: Past, g: Past, n: nat, i: nat) {
    && ReignsOk(g, n) && ReignsGrow(h, g) && VotesGrow(h, g)
    && (forall j: nat :: j != i ==> Untouched(h, g, j))
  }

  lemma EntryStep(h: Past, g: Past, n: nat, i: nat, v: Server, command: Command)
    requires ReignsOk(h, n) && ServerLog(h, n, i, v) && v.tally.None? && v.raft.role == Leader
    requires g == NoteEntry(h, v.raft.term, i, Start(v.raft, command).log)
    ensures LogsExtend(h, g, n, i)
    ensures ServerLog(g, n, i, v.(raft := Start(v.raft, command)))
  {
    LastIsPosition(h, v.raft.log);
    EntryReigns(h, g, n, i, v.raft.term, Start(v.raft, command).log);
    KeepRooted(h, g, v.raft.log);
  }

  lemma EntryReigns(h: Past, g: Past, n: nat, i: nat, t: nat, log: Log)
    requires ReignsOk(h, n) && t in h.reigns && h.reigns[t].id == i && Rooted(h, h.reigns[t].log)
    requires |log| == |h.reigns[t].log| + 1 && h.reigns[t].log <= log
    requires log[|log| - 1].index == |log| - 1 && log[|log| - 1].term == t
    requires g == NoteEntry(h, t, i, log)
    ensures LogsExtend(h, g, n, i) && Rooted(g, log)
  {
    assert ReignOk(h, n, t);
    LeaderTerms(h, n, t);
    GrowOne(h, g, n, t);
    NewEntryRooted(h, g, h.reigns[t].log, log);
    forall u | u in g.reigns ensures ReignOk(g, n, u) {
      if u != t { KeepReign(h, g, n, u); } else { GrownReign(h, g, n, t); }
    }
  }

  lemma GrowOne(h: Past, g: Past, n: nat, t: nat)
    requires ReignsOk(h, n) && t in h.reigns && t in g.reigns && g.reigns == h.reigns[t := g.reigns[t]]
    requires g.reigns[t] == h.reigns[t].(log := g.reigns[t].log) && h.reigns[t].log <= g.reigns[t].log
    ensures ReignsGrow(h, g)
  {
    forall u | u in h.reigns ensures Same(h.reigns[u].log, g.reigns[u].log, |h.reigns[u].log| - 1) {
      assert ReignOk(h, n, u);
    }
  }

  lemma NewEntryRooted(h: Past, g: Past, old_: Log, log: Log)
    requires Rooted(h, old_) && ReignsGrow(h, g)
    requires |log| == |old_| + 1 && old_ <= log
    requires log[|old_|].index == |old_| && LastTerm(old_) <= log[|old_|].term
    requires log[|old_|].term in g.reigns && g.reigns[log[|old_|].term].log == log
    ensures Rooted(g, log)
  {
    KeepRooted(h, g, old_);
    forall k | 1 <= k < |log| ensures EntryOk(g, log, k) {
      if k < |old_| { assert EntryOk(g, old_, k); }
    }
  }

  lemma GrownReign(h: Past, g: Past, n: nat, t: nat)
    requires t in h.reigns && t in g.reigns && ReignOk(h, n, t) && VotesGrow(h, g)
    requires g.reigns[t] == h.reigns[t].(log := g.reigns[t].log)
    requires |g.reigns[t].log| == |h.reigns[t].log| + 1 && h.reigns[t].log <= g.reigns[t].log
    requires g.reigns[t].log[|h.reigns[t].log|].term == t && Rooted(g, g.reigns[t].log)
    ensures ReignOk(g, n, t)
  {
  }

  lemma StartKeepsLogs(rules: Rules, h: Past, c: State, i: nat, command: Command)
    requires rules.leaderOnly && LogInv(h, c) && Enabled(rules, c, ClientStart(i, command))
    ensures
      var g := After(rules, h, c, ClientStart(i, command));
      LogInv(g, Next(rules, c, ClientStart(i, command))) && ReignsGrow(h, g) && VotesGrow(h, g)
  {
    var g := After(rules, h, c, ClientStart(i, command));
    EntryStep(h, g, |c.servers|, i, c.servers[i], command);
    ReplaceServerLog(h, g, c, Next(rules, c, ClientStart(i, command)), i);
  }

  // ----- the rest

  /** Actions that touch one server and add nothing to the history. */
  lemma QuietStepKeepsLogs(rules: Rules, h: Past, c: State, a: Action)
    requires LogInv(h, c) && Enabled(rules, c, a) && (a.StartCampaign? || Quiet(a))
    ensures LogInv(h, Next(rules, c, a))
  {
    var n, d := |c.servers|, Next(rules, c, a);
    assert ServerLog(h, n, a.i, c.servers[a.i]);
    QuietNet(rules, c, a);
    if a.StartCampaign? {
      StartCampaignLog(h, n, a.i, c.servers[a.i]);
    } else {
      QuietServer(rules, h, c, a);
      QuietLog(h, n, a.i, c.servers[a.i], d.servers[a.i]);
    }
    ReplaceServerLog(h, h, c, d, a.i);
  }

  lemma StartCampaignLog(h: Past, n: nat, i: nat, v: Server)
    requires ServerLog(h, n, i, v) && v.tally.None?
    ensures
      var s := Campaign(v.raft);
      ServerLog(h, n, i, v.(raft := s, tally := Some(Tally(VoteRequest(s), {}, {i}))))
  {
  }

  predicate Quiet(a: Action) {
    a.PollLost? || a.GiveUpRole? || a.ReadRole? || a.ForgetRole? || a.ApplyNext? || a.CrashRestart?
  }

  /** What a quiet action may do to its server: forget, step down, apply, ask one more peer. */
  ghost predicate QuietChange(v: Server, w: Server) {
    var s, t := v.raft, w.raft;
    && t.me == s.me && t.peers == s.peers && t.log == s.log && Stable(t) == Stable(s)
    && |t.nextIndex| == |t.matchIndex| == s.peers
    && (t.commitIndex == 0 || t.commitIndex == s.commitIndex)
    && (s.lastApplied <= s.commitIndex ==> t.lastApplied <= t.commitIndex)
    && (t.role == Leader ==> s.role == Leader && t.nextIndex == s.nextIndex && t.matchIndex == s.matchIndex)
    && (t.role == Leader ==> t.term == s.term)
    && (w.tally.None? ==> Stable(t) == Saved(t))
    && (w.tally.Some? ==> t == s && v.tally.Some?)
    && (w.tally.Some? ==> w.tally.value.args == v.tally.value.args && w.tally.value.votes == v.tally.value.votes)
  }

  lemma QuietLog(h: Past, n: nat, i: nat, v: Server, w: Server)
    requires ServerLog(h, n, i, v) && QuietChange(v, w)
    ensures ServerLog(h, n, i, w)
  {
  }

  lemma QuietServer(rules: Rules, h: Past, c: State, a: Action)
    requires Enabled(rules, c, a) && Quiet(a) && ServerLog(h, |c.servers|, a.i, c.servers[a.i])
    ensures QuietChange(c.servers[a.i], Next(rules, c, a).servers[a.i])
  {
  }

  lemma QuietNet(rules: Rules, c: State, a: Action)
    requires Enabled(rules, c, a) && (a.StartCampaign? || Quiet(a))
    ensures
      var d := Next(rules, c, a);
      && |d.servers| == |c.servers| && d.servers == c.servers[a.i := d.servers[a.i]]
      && (forall m :: m in d.net && m !in c.net ==> m.VoteMsg?)
  {
  }

  lemma LateDeliveryKeepsLogs(rules: Rules, h: Past, c: State, m: Message)
    requires LogInv(h, c) && Enabled(rules, c, LateDelivery(m))
    requires m.AppendMsg? ==> NoRepeat(rules, c.servers[m.to].raft, m.append)
    ensures
      var g := After(rules, h, c, LateDelivery(m));
      LogInv(g, Next(rules, c, LateDelivery(m))) && ReignsGrow(h, g) && VotesGrow(h, g)
  {
    var d := c.(net := c.net - multiset{m});
    assert LogInv(h, d);
    assert MessageLog(h, m);
    match m
    case AppendMsg(to, a) => AppendKeepsLogs(rules, h, d, to, a);
    case VoteMsg(to, a) => HandleVoteKeepsLogs(h, d, to, a);
  }

  /** Nothing that an action delivers is appended twice. */
  ghost predicate NoRepeats(rules: Rules, c: State, a: Action)
    requires Enabled(rules, c, a)
  {
    match a
    case Exchange(i, to) => NoRepeat(rules, c.servers[to].raft, BuildAppend(c.servers[i].raft, to))
    case LateDelivery(AppendMsg(to, args)) => NoRepeat(rules, c.servers[to].raft, args)
    case _ => true
  }

  lemma StepKeepsLogs(rules: Rules, h: Past, c: State, a: Action)
    requires ElectionRules(rules) && LogInv(h, c) && Enabled(rules, c, a) && NoRepeats(rules, c, a)
    ensures LogInv(After(rules, h, c, a), Next(rules, c, a))
    ensures ReignsGrow(h, After(rules, h, c, a)) && VotesGrow(h, After(rules, h, c, a))
  {
    KeepReigns(h, h, |c.servers|);
    match a
    case Poll(i, to) => PollKeepsLogs(rules, h, c, i, to);
    case FinishCampaign(i) => FinishKeepsLogs(rules, h, c, i);
    case Exchange(i, to) => ExchangeKeepsLogs(rules, h, c, i, to);
    case ExchangeLost(i, to) => ExchangeLostKeepsLogs(rules, h, c, i, to);
    case LateDelivery(m) => LateDeliveryKeepsLogs(rules, h, c, m);
    case ClientStart(i, command) => StartKeepsLogs(rules, h, c, i, command);
    case _ => QuietStepKeepsLogs(rules, h, c, a);
  }

  lemma InitLogs(n: nat)
    ensures LogInv(NOTHING, Init(n))
  {
  }
}
