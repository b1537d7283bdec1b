/** A leader only appends. Needs the first three rules, but not that accepted entries are new. */
module AppendOnly {
  import opened RaftTypes
  import opened RaftHandlers
  import opened Cluster
  import opened Guarantees
  import opened History
  import opened Record
  import opened Elections
  import opened LogSteps
  import Safety

  /** The log on record for a term is its leader's. */
  ghost predicate LeaderLogOk(h: Past, s: RaftState) {
    s.role == Leader ==> s.term in h.reigns && h.reigns[s.term].log == s.log
  }

  /** No append request is on its way to the winner of its own term. */
  ghost predicate Outward(h: Past, to: nat, a: AppendArgs) {
    a.term in h.reigns && h.reigns[a.term].id != to
  }

  ghost predicate LeadersOk(h: Past, c: State) {
    && (forall i :: 0 <= i < |c.servers| ==> LeaderLogOk(h, c.servers[i].raft))
    && (forall m :: m in c.net && m.AppendMsg? ==> Outward(h, m.to, m.append))
  }

  ghost predicate LogsOnlyGrow(h: Past, g: Past) {
    forall t :: t in h.reigns ==> t in g.reigns && h.reigns[t].log <= g.reigns[t].log
  }

  /** Nothing on record changes but the logs of terms that i won. */
  ghost predicate OnlyOf(h: Past, g: Past, i: nat) {
    && WinsStay(h, g) && LogsOnlyGrow(h, g)
    && forall t :: t in h.reigns && h.reigns[t].id != i ==> g.reigns[t].log == h.reigns[t].log
  }

  lemma ReplaceLeader(h: Past, g: Past, c: State, d: State, i: nat)
    requires ElectionInv(h, c) && LeadersOk(h, c) && OnlyOf(h, g, i) && i < |c.servers|
    requires |d.servers| == |c.servers| && d.servers == c.servers[i := d.servers[i]]
    requires LeaderLogOk(g, d.servers[i].raft)
    requires forall m :: m in d.net && m.AppendMsg? && m !in c.net ==> Outward(g, m.to, m.append)
    ensures LeadersOk(g, d)
  {
    forall j | 0 <= j < |d.servers| ensures LeaderLogOk(g, d.servers[j].raft) {
      if j != i {
        assert d.servers[j] == c.servers[j] && ServerVotes(h, |c.servers|, j, c.servers[j]);
        assert LeaderLogOk(h, c.servers[j].raft);
      }
    }
    forall m | m in d.net && m.AppendMsg? ensures Outward(g, m.to, m.append) {
      if m in c.net { assert Outward(h, m.to, m.append); }
    }
  }

  // ----- one server

  /** A leader that handles a request of its own term would be the one who sent it. */
  lemma AppendSpares(rules: Rules, h: Past, n: nat, i: nat, v: Server, a: AppendArgs)
    requires ServerVotes(h, n, i, v) && LeaderLogOk(h, v.raft) && Outward(h, i, a)
    ensures LeaderLogOk(h, HandleAppend(rules, v.raft, a).0)
  {
  }

  lemma VoteSpares(h: Past, s: RaftState, a: VoteArgs)
    requires LeaderLogOk(h, s)
    ensures LeaderLogOk(h, HandleVote(s, a).0)
  {
  }

  lemma ReplySpares(rules: Rules, h: Past, s: RaftState, to: nat, a: AppendArgs, r: AppendReply)
    requires LeaderLogOk(h, s) && to < |s.nextIndex| == |s.matchIndex|
    ensures LeaderLogOk(h, HandleReply(rules, s, to, a, r))
  {
  }

  lemma TallyRecords(rules: Rules, h: Past, g: Past, n: nat, i: nat, v: Server)
    requires VoteRules(rules) && (forall t :: t in h.reigns ==> WonOk(h, n, t))
    requires ServerVotes(h, n, i, v) && v.tally.Some? && g == AfterTally(rules, h, v.raft, v.tally.value)
    ensures OnlyOf(h, g, i) && LeaderLogOk(g, Finish(rules, v.raft, |v.tally.value.votes|))
  {
    if Wins(rules, v.raft, |v.tally.value.votes|) { TermIsUnclaimed(h, n, i, v); }
  }

  lemma EntryRecords(h: Past, g: Past, n: nat, i: nat, v: Server, command: Command)
    requires ServerVotes(h, n, i, v) && v.raft.role == Leader && LeaderLogOk(h, v.raft) && i < |v.raft.matchIndex|
    requires g == NoteEntry(h, v.raft.term, i, Start(v.raft, command).log)
    ensures OnlyOf(h, g, i) && LeaderLogOk(g, Start(v.raft, command))
  {
  }

  // ----- every action

  lemma PollSpares(rules: Rules, h: Past, c: State, i: nat, to: nat)
    requires ElectionInv(h, c) && LeadersOk(h, c) && Enabled(rules, c, Poll(i, to))
    ensures LeadersOk(AfterVote(h, c.servers[to].raft, c.servers[i].tally.value.args), Next(rules, c, Poll(i, to)))
  {
    var a := c.servers[i].tally.value.args;
    var g := AfterVote(h, c.servers[to].raft, a);
    var d := With(c, to, HandleVote(c.servers[to].raft, a).0);
    VoteSpares(h, c.servers[to].raft, a);
    ReplaceLeader(h, g, c, d, to);
    HandleVoteKeepsElections(h, c, to, a);
    assert ServerVotes(h, |c.servers|, i, c.servers[i]);
    ReplaceLeader(g, g, d, Next(rules, c, Poll(i, to)), i);
  }

  lemma ExchangeSpares(rules: Rules, h: Past, c: State, i: nat, to: nat)
    requires rules.leaderOnly && ElectionInv(h, c) && LeadersOk(h, c) && Enabled(rules, c, Exchange(i, to))
    ensures LeadersOk(AfterAppend(rules, h, c.servers[to].raft, BuildAppend(c.servers[i].raft, to)),
                      Next(rules, c, Exchange(i, to)))
  {
    var a := BuildAppend(c.servers[i].raft, to);
    var (q, r) := HandleAppend(rules, c.servers[to].raft, a);
    var g := AfterAppend(rules, h, c.servers[to].raft, a);
    var d := With(c, to, q);
    assert ServerVotes(h, |c.servers|, i, c.servers[i]) && ServerVotes(h, |c.servers|, to, c.servers[to]);
    AppendSpares(rules, h, |c.servers|, to, c.servers[to], a);
    ReplaceLeader(h, g, c, d, to);
    AppendKeepsElections(rules, h, c, to, a);
    ReplySpares(rules, g, d.servers[i].raft, to, a, r);
    ReplaceLeader(g, g, d, Next(rules, c, Exchange(i, to)), i);
  }

  lemma ExchangeLostSpares(rules: Rules, h: Past, c: State, i: nat, to: nat)
    requires rules.leaderOnly && ElectionInv(h, c) && LeadersOk(h, c) && Enabled(rules, c, ExchangeLost(i, to))
    ensures LeadersOk(h, Next(rules, c, ExchangeLost(i, to)))
  {
    var a := BuildAppend(c.servers[i].raft, to);
    assert ServerVotes(h, |c.servers|, i, c.servers[i]);
    ReplySpares(rules, h, c.servers[i].raft, to, a, LOST);
    ReplaceLeader(h, h, c, Next(rules, c, ExchangeLost(i, to)), i);
  }

  lemma LateSpares(rules: Rules, h: Past, c: State, m: Message)
    requires ElectionInv(h, c) && LeadersOk(h, c) && Enabled(rules, c, LateDelivery(m))
    ensures LeadersOk(After(rules, h, c, LateDelivery(m)), Next(rules, c, LateDelivery(m)))
    ensures After(rules, h, c, LateDelivery(m)).reigns == h.reigns
  {
    var s := c.servers[m.to].raft;
    assert ServerVotes(h, |c.servers|, m.to, c.servers[m.to]);
    match m
    case AppendMsg(to, a) => AppendSpares(rules, h, |c.servers|, to, c.servers[to], a);
    case VoteMsg(to, a) => VoteSpares(h, s, a);
    ReplaceLeader(h, After(rules, h, c, LateDelivery(m)), c, Next(rules, c, LateDelivery(m)), m.to);
  }

  lemma FinishSpares(rules: Rules, h: Past, c: State, i: nat)
    requires VoteRules(rules) && ElectionInv(h, c) && LeadersOk(h, c) && Enabled(rules, c, FinishCampaign(i))
    ensures LeadersOk(After(rules, h, c, FinishCampaign(i)), Next(rules, c, FinishCampaign(i)))
    ensures LogsOnlyGrow(h, After(rules, h, c, FinishCampaign(i)))
  {
    var g := AfterTally(rules, h, c.servers[i].raft, c.servers[i].tally.value);
    assert ServerVotes(h, |c.servers|, i, c.servers[i]);
    TallyRecords(rules, h, g, |c.servers|, i, c.servers[i]);
    ReplaceLeader(h, g, c, Next(rules, c, FinishCampaign(i)), i);
  }

  lemma StartSpares(rules: Rules, h: Past, c: State, i: nat, command: Command)
    requires rules.leaderOnly && ElectionInv(h, c) && LeadersOk(h, c) && Enabled(rules, c, ClientStart(i, command))
    ensures LeadersOk(After(rules, h, c, ClientStart(i, command)), Next(rules, c, ClientStart(i, command)))
    ensures LogsOnlyGrow(h, After(rules, h, c, ClientStart(i, command)))
  {
    var g := After(rules, h, c, ClientStart(i, command));
    assert ServerVotes(h, |c.servers|, i, c.servers[i]);
    EntryRecords(h, g, |c.servers|, i, c.servers[i], command);
    ReplaceLeader(h, g, c, Next(rules, c, ClientStart(i, command)), i);
  }

  lemma QuietSpares(rules: Rules, h: Past, c: State, a: Action)
    requires ElectionInv(h, c) && LeadersOk(h, c) && Enabled(rules, c, a) && (a.StartCampaign? || Quiet(a))
    ensures LeadersOk(h, Next(rules, c, a))
  {
    assert ServerVotes(h, |c.servers|, a.i, c.servers[a.i]) && LeaderLogOk(h, c.servers[a.i].raft);
    QuietNet(rules, c, a);
    ReplaceLeader(h, h, c, Next(rules, c, a), a.i);
  }

  lemma StepKeepsLeaders(rules: Rules, h: Past, c: State, a: Action)
    requires ElectionRules(rules) && ElectionInv(h, c) && LeadersOk(h, c) && Enabled(rules, c, a)
    ensures LeadersOk(After(rules, h, c, a), Next(rules, c, a)) && LogsOnlyGrow(h, After(rules, h, c, a))
  {
    match a
    case Poll(i, to) => PollSpares(rules, h, c, i, to);
    case FinishCampaign(i) => FinishSpares(rules, h, c, i);
    case Exchange(i, to) => ExchangeSpares(rules, h, c, i, to);
    case ExchangeLost(i, to) => ExchangeLostSpares(rules, h, c, i, to);
    case LateDelivery(m) => LateSpares(rules, h, c, m);
    case ClientStart(i, command) => StartSpares(rules, h, c, i, command);
    case _ => QuietSpares(rules, h, c, a);
  }

  // ----- whole runs

  lemma {:induction false} LeadersHold(
    rules: Rules, n: nat, run: seq<State>, acts: seq<Action>, past: seq<Past>, k: nat)
    requires ElectionRules(rules) && IsRun(rules, n, run, acts) && past == Safety.Pasts(rules, n, run, acts)
    requires k <= |acts|
    ensures LedWell(past[k], run[k])
    decreases k
  {
    if k == 0 {
      InitElections(n);
    } else {
      LeadersHold(rules, n, run, acts, past, k - 1);
      Safety.PastStep(rules, n, run, acts, past, k - 1);
      StepLeads(rules, past[k - 1], past[k], run[k - 1], acts[k - 1], run[k]);
    }
  }

  ghost predicate LedWell(h: Past, c: State) {
    ElectionInv(h, c) && LeadersOk(h, c)
  }

  lemma StepLeads(rules: Rules, h: Past, g: Past, c: State, a: Action, d: State)
    requires ElectionRules(rules) && LedWell(h, c) && Taken(rules, c, a, d) && g == After(rules, h, c, a)
    ensures LedWell(g, d) && LogsOnlyGrow(h, g)
  {
    StepKeepsElections(rules, h, c, a);
    StepKeepsLeaders(rules, h, c, a);
  }

  ghost predicate LogsOnlyGrowAt(past: seq<Past>, m: nat)
    requires m + 1 < |past|
  {
    LogsOnlyGrow(past[m], past[m + 1])
  }

  lemma GrowHere(rules: Rules, n: nat, run: seq<State>, acts: seq<Action>, past: seq<Past>, m: nat)
    requires ElectionRules(rules) && IsRun(rules, n, run, acts) && past == Safety.Pasts(rules, n, run, acts)
    requires m < |acts|
    ensures LogsOnlyGrowAt(past, m)
  {
    LeadersHold(rules, n, run, acts, past, m);
    Safety.PastStep(rules, n, run, acts, past, m);
    StepLeads(rules, past[m], past[m + 1], run[m], acts[m], run[m + 1]);
  }

  lemma {:induction false} GrowAlong(past: seq<Past>, j: nat, k: nat)
    requires j <= k < |past| && forall m: nat :: m + 1 < |past| ==> LogsOnlyGrowAt(past, m)
    ensures LogsOnlyGrow(past[j], past[k])
    decreases k
  {
    if j < k {
      GrowAlong(past, j, k - 1);
      assert LogsOnlyGrowAt(past, k - 1);
    }
  }

  /** Leader append-only: whoever leads a term at two moments has only added to its log in between. */
  lemma LeaderAppendOnly(rules: Rules, n: nat, run: seq<State>, acts: seq<Action>)
    requires ElectionRules(rules) && IsRun(rules, n, run, acts)
    ensures LeadersOnlyAppend(run)
  {
    var past := Safety.Pasts(rules, n, run, acts);
    forall m: nat | m + 1 < |past| ensures LogsOnlyGrowAt(past, m) { GrowHere(rules, n, run, acts, past, m); }
    forall j, k, a: nat, b: nat, t: nat | 0 <= j <= k < |run| && LeadsIn(run[j], a, t) && LeadsIn(run[k], b, t)
      ensures LogOf(run[j], a) <= LogOf(run[k], b)
    {
      LeadersHold(rules, n, run, acts, past, j);
      LeadersHold(rules, n, run, acts, past, k);
      assert LeaderLogOk(past[j], run[j].servers[a].raft) && LeaderLogOk(past[k], run[k].servers[b].raft);
      GrowAlong(past, j, k);
    }
  }
}
