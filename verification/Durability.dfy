/** What a peer has once seen committed it never loses: no truncation, no crash removes it. */
module Durability {
  import opened Options
  import opened RaftTypes
  import opened RaftHandlers
  import opened Cluster
  import opened History
  import opened Record
  import opened LogSteps
  import opened Commitment
  import opened CommitSteps
  import opened Guarantees
  import opened Safety

  /** Positions up to x of peer i's log are committed, in a term its stable storage has reached. */
  ghost predicate Settled(h: Past, c: State, i: nat, x: nat) {
    && i < |c.servers|
    && CommitOk(h, |c.servers|, c.servers[i].raft.log, x, Stable(c.servers[i].raft).term)
  }

  /** AppendEntries cuts nothing that is committed, which answers the TODO about starting after commitIndex. */
  lemma TruncationIsHarmless(rules: Rules, h: Past, n: nat, v: Server, a: AppendArgs, x: nat)
    requires ReignsOk(h, n) && WinnersCover(h) && Rooted(h, v.raft.log)
    requires RequestOk(h, a) && CommitOk(h, n, v.raft.log, x, v.raft.term)
    ensures Same(v.raft.log, HandleAppend(rules, v.raft, a).0.log, x)
  {
    if v.raft.term == a.term {
      assert ReignOk(h, n, a.term);
      if x > 0 { SealedInLeader(h, n, v.raft.log, x, v.raft.term, a.term); }
      HandlerKeepsShared(rules, h, v.raft, a, x);
    }
  }

  /** Whatever the receiving log and the rules: as far as it agrees with the leader's log nothing is cut. */
  lemma HandlerKeepsShared(rules: Rules, h: Past, s: RaftState, a: AppendArgs, x: nat)
    requires RequestOk(h, a) && Rooted(h, h.reigns[a.term].log)
    requires x < |s.log| && (x > 0 ==> Same(h.reigns[a.term].log, s.log, x))
    ensures Same(s.log, HandleAppend(rules, s, a).0.log, x)
  {
    var j := FirstConflict(s.log, a.entries);
    if j < |a.entries| { assert EntryOk(h, h.reigns[a.term].log, a.prevIndex + 1 + j); }
  }

  lemma AppendKeepsSettled(rules: Rules, h: Past, c: State, d: State, i: nat, a: AppendArgs, x: nat)
    requires LogInv(h, c) && CommitInv(h, c) && Settled(h, c, i, x) && Free(c, i) && RequestOk(h, a)
    requires |d.servers| == |c.servers| && d.servers[i].raft == HandleAppend(rules, c.servers[i].raft, a).0
    ensures Settled(h, d, i, x) && Same(LogOf(c, i), LogOf(d, i), x)
  {
    var n, v, s := |c.servers|, c.servers[i], d.servers[i].raft;
    assert ServerLog(h, n, i, v);
    TruncationIsHarmless(rules, h, n, v, a, x);
    AppendSaves(rules, v.raft, a);
    MovedCommitOk(h, n, v.raft.log, s.log, x, v.raft.term, s.term);
  }

  lemma MovedCommitOk(h: Past, n: nat, a: Log, b: Log, x: nat, t: nat, u: nat)
    requires CommitOk(h, n, a, x, t) && Same(a, b, x) && t <= u
    ensures CommitOk(h, n, b, x, u)
  {
    TransferCommitOk(h, n, a, b, x, t);
    RaiseCommitOk(h, n, b, x, t, u);
  }

  lemma AppendSaves(rules: Rules, s: RaftState, a: AppendArgs)
    ensures HandleAppend(rules, s, a).0.term >= s.term
    ensures HandleAppend(rules, s, a).0.disk == Some(Saved(HandleAppend(rules, s, a).0))
  {
  }

  /** The log only grows and the stable term does not go down. */
  lemma GrowthKeepsSettled(h: Past, c: State, d: State, i: nat, x: nat)
    requires Settled(h, c, i, x) && GrowsTo(c, d, i)
    ensures Settled(h, d, i, x) && Same(LogOf(c, i), LogOf(d, i), x)
  {
    var n := |c.servers|;
    TransferCommitOk(h, n, LogOf(c, i), LogOf(d, i), x, Stable(c.servers[i].raft).term);
    RaiseCommitOk(h, n, LogOf(d, i), x, Stable(c.servers[i].raft).term, Stable(d.servers[i].raft).term);
  }

  /** Actions that hand peer i an append request. */
  ghost predicate Appends(c: State, a: Action, i: nat) {
    (a.Exchange? && a.to == i) || (a.LateDelivery? && a.m.AppendMsg? && a.m.to == i)
  }

  lemma OthersOnlyGrow(h: Past, c: State, a: Action, i: nat)
    requires LogInv(h, c) && Enabled(AS_COMMENTED, c, a) && i < |c.servers| && !Appends(c, a, i)
    ensures GrowsTo(c, Next(AS_COMMENTED, c, a), i)
  {
    assert ServerLog(h, |c.servers|, i, c.servers[i]);
    match a
    case Exchange(j, to) => ExchangeOnlyGrows(h, c, j, to, i);
    case ExchangeLost(j, to) => LostOnlyGrows(c, j, to, i);
    case FinishCampaign(j) => FinishOnlyGrows(h, c, j, i);
    case _ => RestOnlyGrows(h, c, a, i);
  }

  ghost predicate OnlyGrows(s: RaftState, t: RaftState) {
    s.log <= t.log && Stable(s).term <= Stable(t).term
  }

  ghost predicate GrowsTo(c: State, d: State, i: nat) {
    |d.servers| == |c.servers| && i < |c.servers| && OnlyGrows(c.servers[i].raft, d.servers[i].raft)
  }

  lemma FinishOnlyGrows(h: Past, c: State, j: nat, i: nat)
    requires Enabled(AS_COMMENTED, c, FinishCampaign(j)) && i < |c.servers|
    requires ServerLog(h, |c.servers|, i, c.servers[i])
    ensures GrowsTo(c, Next(AS_COMMENTED, c, FinishCampaign(j)), i)
  {
  }

  lemma ReplyOnlyGrows(s: RaftState, to: nat, a: AppendArgs, r: AppendReply)
    requires to < |s.nextIndex| == |s.matchIndex|
    ensures
      var t := HandleReply(AS_COMMENTED, s, to, a, r);
      t.log == s.log && t.disk == Some(Saved(t)) && t.term >= s.term
  {
  }

  lemma ExchangeOnlyGrows(h: Past, c: State, j: nat, to: nat, i: nat)
    requires Enabled(AS_COMMENTED, c, Exchange(j, to)) && i < |c.servers| && i != to
    requires ServerLog(h, |c.servers|, i, c.servers[i])
    ensures GrowsTo(c, Next(AS_COMMENTED, c, Exchange(j, to)), i)
  {
    var args := BuildAppend(c.servers[j].raft, to);
    ReplyOnlyGrows(c.servers[j].raft, to, args, HandleAppend(AS_COMMENTED, c.servers[to].raft, args).1);
  }

  lemma LostOnlyGrows(c: State, j: nat, to: nat, i: nat)
    requires Enabled(AS_COMMENTED, c, ExchangeLost(j, to)) && i < |c.servers|
    requires Free(c, i) ==> Stable(c.servers[i].raft) == Saved(c.servers[i].raft)
    ensures GrowsTo(c, Next(AS_COMMENTED, c, ExchangeLost(j, to)), i)
  {
    ReplyOnlyGrows(c.servers[j].raft, to, BuildAppend(c.servers[j].raft, to), LOST);
  }

  lemma RestOnlyGrows(h: Past, c: State, a: Action, i: nat)
    requires Enabled(AS_COMMENTED, c, a) && i < |c.servers| && !Appends(c, a, i)
    requires !a.Exchange? && !a.ExchangeLost? && !a.FinishCampaign?
    requires ServerLog(h, |c.servers|, i, c.servers[i])
    ensures GrowsTo(c, Next(AS_COMMENTED, c, a), i)
  {
    match a
    case Poll(j, to) => PollOnlyGrows(h, c, j, to, i);
    case LateDelivery(m) => LateOnlyGrows(h, c, m, i);
    case ClientStart(j, command) => StartOnlyGrows(h, c, j, command, i);
    case _ => QuietOnlyGrows(h, c, a, i);
  }

  lemma VoteOnlyGrows(h: Past, n: nat, i: nat, v: Server, a: VoteArgs)
    requires ServerLog(h, n, i, v) && v.tally.None?
    ensures OnlyGrows(v.raft, HandleVote(v.raft, a).0)
  {
  }

  lemma PollOnlyGrows(h: Past, c: State, j: nat, to: nat, i: nat)
    requires Enabled(AS_COMMENTED, c, Poll(j, to)) && i < |c.servers| && ServerLog(h, |c.servers|, i, c.servers[i])
    ensures GrowsTo(c, Next(AS_COMMENTED, c, Poll(j, to)), i)
  {
    if i == to { VoteOnlyGrows(h, |c.servers|, i, c.servers[i], c.servers[j].tally.value.args); }
  }

  lemma LateOnlyGrows(h: Past, c: State, m: Message, i: nat)
    requires Enabled(AS_COMMENTED, c, LateDelivery(m)) && i < |c.servers| && !(m.AppendMsg? && m.to == i)
    requires ServerLog(h, |c.servers|, i, c.servers[i])
    ensures GrowsTo(c, Next(AS_COMMENTED, c, LateDelivery(m)), i)
  {
    if i == m.to { VoteOnlyGrows(h, |c.servers|, i, c.servers[i], m.vote); }
  }

  lemma StartOnlyGrows(h: Past, c: State, j: nat, command: Command, i: nat)
    requires Enabled(AS_COMMENTED, c, ClientStart(j, command)) && i < |c.servers|
    requires ServerLog(h, |c.servers|, i, c.servers[i])
    ensures GrowsTo(c, Next(AS_COMMENTED, c, ClientStart(j, command)), i)
  {
  }

  lemma QuietOnlyGrows(h: Past, c: State, a: Action, i: nat)
    requires Enabled(AS_COMMENTED, c, a) && i < |c.servers| && (a.StartCampaign? || Quiet(a))
    requires ServerLog(h, |c.servers|, i, c.servers[i])
    ensures GrowsTo(c, Next(AS_COMMENTED, c, a), i)
  {
    QuietNet(AS_COMMENTED, c, a);
    if i == a.i && Quiet(a) { QuietServer(AS_COMMENTED, h, c, a); }
  }

  lemma StepKeepsSettled(h: Past, c: State, a: Action, i: nat, x: nat)
    requires LogInv(h, c) && CommitInv(h, c) && Enabled(AS_COMMENTED, c, a) && Settled(h, c, i, x)
    ensures Settled(After(AS_COMMENTED, h, c, a), Next(AS_COMMENTED, c, a), i, x)
    ensures Same(LogOf(c, i), LogOf(Next(AS_COMMENTED, c, a), i), x)
  {
    var d := Next(AS_COMMENTED, c, a);
    if Appends(c, a, i) {
      DeliveryKeepsSettled(h, c, a, i, x);
    } else {
      OthersOnlyGrow(h, c, a, i);
      GrowthKeepsSettled(h, c, d, i, x);
    }
    StepKeepsLogs(AS_COMMENTED, h, c, a);
    AcksOnlyGrow(AS_COMMENTED, h, c, a);
    LaterSettled(h, After(AS_COMMENTED, h, c, a), d, i, x);
  }

  lemma LaterSettled(h: Past, g: Past, d: State, i: nat, x: nat)
    requires Settled(h, d, i, x) && ReignsGrow(h, g) && AcksGrow(h, g)
    ensures Settled(g, d, i, x)
  {
    KeepCommitOk(h, g, |d.servers|, LogOf(d, i), x, Stable(d.servers[i].raft).term);
  }

  lemma DeliveryKeepsSettled(h: Past, c: State, a: Action, i: nat, x: nat)
    requires LogInv(h, c) && CommitInv(h, c) && Enabled(AS_COMMENTED, c, a) && Settled(h, c, i, x) && Appends(c, a, i)
    ensures Settled(h, Next(AS_COMMENTED, c, a), i, x)
    ensures Same(LogOf(c, i), LogOf(Next(AS_COMMENTED, c, a), i), x)
  {
    var args := DeliveredOk(h, c, a, i);
    AppendKeepsSettled(AS_COMMENTED, h, c, Next(AS_COMMENTED, c, a), i, args, x);
  }

  /** The request that the action hands over, and what the receiver makes of it. */
  lemma DeliveredOk(h: Past, c: State, a: Action, i: nat) returns (args: AppendArgs)
    requires LogInv(h, c) && Enabled(AS_COMMENTED, c, a) && i < |c.servers| && Appends(c, a, i)
    ensures RequestOk(h, args) && Free(c, i)
    ensures
      var d := Next(AS_COMMENTED, c, a);
      |d.servers| == |c.servers| && d.servers[i].raft == HandleAppend(AS_COMMENTED, c.servers[i].raft, args).0
  {
    if a.Exchange? {
      args := BuildAppend(c.servers[a.i].raft, i);
      assert ServerLog(h, |c.servers|, a.i, c.servers[a.i]);
      RequestStep(h, |c.servers|, a.i, c.servers[a.i].raft, i);
    } else {
      args := a.m.append;
      assert MessageLog(h, a.m);
    }
  }

  /** One step of a run together with its history. */
  ghost predicate GoodStep(h: Past, g: Past, c: State, a: Action, d: State) {
    LogInv(h, c) && CommitInv(h, c) && Taken(AS_COMMENTED, c, a, d) && g == After(AS_COMMENTED, h, c, a)
  }

  ghost predicate GoodSteps(past: seq<Past>, run: seq<State>, acts: seq<Action>) {
    && |past| == |run| == |acts| + 1
    && forall k: nat :: k < |acts| ==> GoodAt(past, run, acts, k)
  }

  ghost predicate GoodAt(past: seq<Past>, run: seq<State>, acts: seq<Action>, k: nat)
    requires |past| == |run| == |acts| + 1 && k < |acts|
  {
    GoodStep(past[k], past[k + 1], run[k], acts[k], run[k + 1])
  }

  lemma StepIsGood(n: nat, run: seq<State>, acts: seq<Action>, k: nat)
    requires IsRun(AS_COMMENTED, n, run, acts) && k < |acts|
    ensures GoodStep(Trace(AS_COMMENTED, n, run, acts, k), Trace(AS_COMMENTED, n, run, acts, k + 1),
                     run[k], acts[k], run[k + 1])
  {
    CommitsHold(n, run, acts, k);
    assert Taken(AS_COMMENTED, run[k], acts[k], run[k + 1]);
  }

  lemma StepsAreGood(n: nat, run: seq<State>, acts: seq<Action>)
    requires IsRun(AS_COMMENTED, n, run, acts)
    ensures GoodSteps(Pasts(AS_COMMENTED, n, run, acts), run, acts)
  {
    var past := Pasts(AS_COMMENTED, n, run, acts);
    forall k: nat | k < |acts| ensures GoodAt(past, run, acts, k) { StepIsGood(n, run, acts, k); }
  }

  lemma GoodStepKeepsSettled(h: Past, g: Past, c: State, a: Action, d: State, i: nat, x: nat)
    requires GoodStep(h, g, c, a, d) && Settled(h, c, i, x)
    ensures Settled(g, d, i, x) && Same(LogOf(c, i), LogOf(d, i), x)
  {
    StepKeepsSettled(h, c, a, i, x);
  }

  lemma {:induction false} SettledStays(
    past: seq<Past>, run: seq<State>, acts: seq<Action>, j: nat, k: nat, i: nat, x: nat)
    requires GoodSteps(past, run, acts) && j <= k <= |acts| && Settled(past[j], run[j], i, x)
    ensures Settled(past[k], run[k], i, x)
    ensures Same(LogOf(run[j], i), LogOf(run[k], i), x)
    decreases k
  {
    if j < k {
      SettledStays(past, run, acts, j, k - 1, i, x);
      SettledOnce(past, run, acts, k - 1, i, x);
      SameTwice(LogOf(run[j], i), LogOf(run[k - 1], i), LogOf(run[k], i), x);
    }
  }

  lemma SameTwice(a: Log, b: Log, c: Log, x: int)
    requires Same(a, b, x) && Same(b, c, x)
    ensures Same(a, c, x)
  {
  }

  lemma SettledOnce(past: seq<Past>, run: seq<State>, acts: seq<Action>, k: nat, i: nat, x: nat)
    requires GoodSteps(past, run, acts) && k < |acts| && Settled(past[k], run[k], i, x)
    ensures Settled(past[k + 1], run[k + 1], i, x)
    ensures Same(LogOf(run[k], i), LogOf(run[k + 1], i), x)
  {
    assert GoodAt(past, run, acts, k);
    GoodStepKeepsSettled(past[k], past[k + 1], run[k], acts[k], run[k + 1], i, x);
  }

  /** What a peer knows to be committed is settled. */
  lemma KnownIsSettled(n: nat, run: seq<State>, acts: seq<Action>, k: nat, i: nat)
    requires IsRun(AS_COMMENTED, n, run, acts) && k <= |acts| && i < |run[k].servers|
    ensures Settled(Trace(AS_COMMENTED, n, run, acts, k), run[k], i, CommitOf(run[k], i))
  {
    CommitsHold(n, run, acts, k);
    assert ServerCommit(Trace(AS_COMMENTED, n, run, acts, k), |run[k].servers|, i, run[k].servers[i]);
  }

  /** Committed entries stay where they are, on every peer that knew them committed, for the rest of the run. */
  lemma CommittedEntriesStay(n: nat, run: seq<State>, acts: seq<Action>)
    requires IsRun(AS_COMMENTED, n, run, acts)
    ensures CommitsStay(run)
  {
    var past := Pasts(AS_COMMENTED, n, run, acts);
    StepsAreGood(n, run, acts);
    forall j, k, a: nat | 0 <= j <= k < |run| && a < |run[j].servers| && a < |run[k].servers|
      ensures Same(LogOf(run[j], a), LogOf(run[k], a), CommitOf(run[j], a))
    {
      KnownIsSettled(n, run, acts, j, a);
      SettledStays(past, run, acts, j, k, a, CommitOf(run[j], a));
    }
  }

  /** The request may reach peer i in state c: it waits in the network, or a leader would send it now. */
  ghost predicate MayArrive(c: State, i: nat, a: AppendArgs) {
    || AppendMsg(i, a) in c.net
    || exists l: nat :: SentBy(c, l, i, a)
  }

  ghost predicate SentBy(c: State, l: nat, i: nat, a: AppendArgs) {
    l < |c.servers| && c.servers[l].raft.role == Leader && Sendable(c.servers[l].raft, i)
    && a == BuildAppend(c.servers[l].raft, i)
  }

  /** The handler as written, or with any of the rules, in any state of a run: it never cuts at or below
      commitIndex, so the conflict check need not start after it. */
  lemma NothingCommittedIsCut(rules: Rules, n: nat, run: seq<State>, acts: seq<Action>, k: nat, i: nat, a: AppendArgs)
    requires IsRun(AS_COMMENTED, n, run, acts) && k <= |acts| && i < |run[k].servers| && Free(run[k], i)
    requires MayArrive(run[k], i, a)
    ensures Same(LogOf(run[k], i), HandleAppend(rules, run[k].servers[i].raft, a).0.log, CommitOf(run[k], i))
  {
    var h := Trace(AS_COMMENTED, n, run, acts, k);
    CommitsHold(n, run, acts, k);
    CommittedSurvives(rules, h, run[k], i, a);
  }

  lemma CommittedSurvives(rules: Rules, h: Past, c: State, i: nat, a: AppendArgs)
    requires LogInv(h, c) && CommitInv(h, c) && Free(c, i) && MayArrive(c, i, a)
    ensures Same(LogOf(c, i), HandleAppend(rules, c.servers[i].raft, a).0.log, CommitOf(c, i))
  {
    var n := |c.servers|;
    assert ServerLog(h, n, i, c.servers[i]) && ServerCommit(h, n, i, c.servers[i]);
    ArrivingIsOk(h, c, i, a);
    TruncationIsHarmless(rules, h, n, c.servers[i], a, CommitOf(c, i));
  }

  lemma ArrivingIsOk(h: Past, c: State, i: nat, a: AppendArgs)
    requires LogInv(h, c) && i < |c.servers| && MayArrive(c, i, a)
    ensures RequestOk(h, a)
  {
    if AppendMsg(i, a) in c.net {
      assert MessageLog(h, AppendMsg(i, a));
    } else {
      var l: nat :| SentBy(c, l, i, a);
      assert ServerLog(h, |c.servers|, l, c.servers[l]);
      RequestStep(h, |c.servers|, l, c.servers[l].raft, i);
    }
  }

  /** No leader ever builds a request with an index outside its log, and the apply loop never reads past the end. */
  lemma NoIndexOutOfRange(n: nat, run: seq<State>, acts: seq<Action>, k: nat, a: nat, to: nat)
    requires IsRun(AS_COMMENTED, n, run, acts) && k <= |acts| && a < n && to < n
    ensures |run[k].servers| == n
    ensures run[k].servers[a].raft.role == Leader ==> Sendable(run[k].servers[a].raft, to)
    ensures run[k].servers[a].raft.lastApplied < run[k].servers[a].raft.commitIndex ==> CanApply(run[k].servers[a].raft)
  {
    SizeIsFixed(AS_COMMENTED, n, run, acts, k);
    CommitsHold(n, run, acts, k);
    var h := Trace(AS_COMMENTED, n, run, acts, k);
    assert ServerLog(h, n, a, run[k].servers[a]) && ServerCommit(h, n, a, run[k].servers[a]);
    if run[k].servers[a].raft.role == Leader { RequestStep(h, n, a, run[k].servers[a].raft, to); }
  }
}
