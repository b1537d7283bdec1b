/** The five guarantees, for every run with lost and late messages and crashes at any point. */
module Safety {
  import opened RaftTypes
  import opened RaftHandlers
  import opened Cluster
  import opened History
  import opened Record
  import opened Elections
  import opened LogSteps
  import opened Commitment
  import opened CommitSteps
  import opened Guarantees

  /** The history of the first k actions. */
  ghost function Trace(rules: Rules, n: nat, run: seq<State>, acts: seq<Action>, k: nat): Past
    requires IsRun(rules, n, run, acts) && k <= |acts|
    decreases k
  {
    if k == 0 then NOTHING
    else
      assert Taken(rules, run[k - 1], acts[k - 1], run[k - 1 + 1]);
      After(rules, Trace(rules, n, run, acts, k - 1), run[k - 1], acts[k - 1])
  }

  /** The histories of all states of a run. */
  ghost function Pasts(rules: Rules, n: nat, run: seq<State>, acts: seq<Action>): (past: seq<Past>)
    requires IsRun(rules, n, run, acts)
    ensures |past| == |run| && forall k :: 0 <= k < |run| ==> past[k] == Trace(rules, n, run, acts, k)
  {
    seq(|run|, k requires 0 <= k < |run| => Trace(rules, n, run, acts, k))
  }

  lemma PastStep(rules: Rules, n: nat, run: seq<State>, acts: seq<Action>, past: seq<Past>, k: nat)
    requires IsRun(rules, n, run, acts) && past == Pasts(rules, n, run, acts) && k < |acts|
    ensures Taken(rules, run[k], acts[k], run[k + 1]) && past[k + 1] == After(rules, past[k], run[k], acts[k])
  {
    assert Taken(rules, run[k], acts[k], run[k + 1]);
  }

  // ----- election safety

  lemma {:induction false} ElectionsHold(rules: Rules, n: nat, run: seq<State>, acts: seq<Action>, k: nat)
    requires VoteRules(rules) && IsRun(rules, n, run, acts) && k <= |acts|
    ensures ElectionInv(Trace(rules, n, run, acts, k), run[k])
    decreases k
  {
    if k == 0 {
      InitElections(n);
    } else {
      ElectionsHold(rules, n, run, acts, k - 1);
      assert Taken(rules, run[k - 1], acts[k - 1], run[k - 1 + 1]);
      StepKeepsElections(rules, Trace(rules, n, run, acts, k - 1), run[k - 1], acts[k - 1]);
    }
  }

  lemma WinsStayWon(rules: Rules, n: nat, run: seq<State>, acts: seq<Action>, j: nat, k: nat)
    requires VoteRules(rules) && IsRun(rules, n, run, acts) && j <= k <= |acts|
    ensures WinsStay(Trace(rules, n, run, acts, j), Trace(rules, n, run, acts, k))
  {
    var past := Pasts(rules, n, run, acts);
    forall m: nat | m + 1 < |past| ensures WinsStayAt(past, m) { WinsStayHere(rules, n, run, acts, past, m); }
    WinsStayAlong(past, j, k);
  }

  ghost predicate WinsStayAt(past: seq<Past>, m: nat)
    requires m + 1 < |past|
  {
    WinsStay(past[m], past[m + 1])
  }

  lemma {:induction false} WinsStayAlong(past: seq<Past>, j: nat, k: nat)
    requires j <= k < |past| && forall m: nat :: m + 1 < |past| ==> WinsStayAt(past, m)
    ensures WinsStay(past[j], past[k])
    decreases k
  {
    if j < k {
      WinsStayAlong(past, j, k - 1);
      assert WinsStayAt(past, k - 1);
      WinsStayOn(past[j], past[k - 1], past[k]);
    }
  }

  lemma WinsStayHere(rules: Rules, n: nat, run: seq<State>, acts: seq<Action>, past: seq<Past>, m: nat)
    requires VoteRules(rules) && IsRun(rules, n, run, acts) && past == Pasts(rules, n, run, acts) && m + 1 < |past|
    ensures WinsStayAt(past, m)
  {
    WinsStayOnce(rules, n, run, acts, m + 1);
  }

  lemma WinsStayOnce(rules: Rules, n: nat, run: seq<State>, acts: seq<Action>, k: nat)
    requires VoteRules(rules) && IsRun(rules, n, run, acts) && 1 <= k <= |acts|
    ensures WinsStay(Trace(rules, n, run, acts, k - 1), Trace(rules, n, run, acts, k))
  {
    ElectionsHold(rules, n, run, acts, k - 1);
    assert Taken(rules, run[k - 1], acts[k - 1], run[k - 1 + 1]);
    StepKeepsElections(rules, Trace(rules, n, run, acts, k - 1), run[k - 1], acts[k - 1]);
  }

  lemma WinsStayOn(f: Past, g: Past, h: Past)
    requires WinsStay(f, g) && WinsStay(g, h)
    ensures WinsStay(f, h)
  {
  }

  /** Election safety: no two peers are ever leader of the same term, at whatever moments. */
  lemma ElectionSafety(rules: Rules, n: nat, run: seq<State>, acts: seq<Action>)
    requires VoteRules(rules) && IsRun(rules, n, run, acts)
    ensures ElectionSafe(run)
  {
    forall j, k, a: nat, b: nat, t: nat |
      0 <= j < |run| && 0 <= k < |run| && LeadsIn(run[j], a, t) && LeadsIn(run[k], b, t)
      ensures a == b
    {
      ElectionsHold(rules, n, run, acts, j);
      ElectionsHold(rules, n, run, acts, k);
      var g, h := Trace(rules, n, run, acts, j), Trace(rules, n, run, acts, k);
      assert ServerVotes(g, |run[j].servers|, a, run[j].servers[a]);
      assert ServerVotes(h, |run[k].servers|, b, run[k].servers[b]);
      if j <= k { WinsStayWon(rules, n, run, acts, j, k); } else { WinsStayWon(rules, n, run, acts, k, j); }
    }
  }

  // ----- log matching

  ghost predicate LogRules(rules: Rules) {
    ElectionRules(rules) && rules.appendNew
  }

  lemma {:induction false} LogsHold(rules: Rules, n: nat, run: seq<State>, acts: seq<Action>, k: nat)
    requires LogRules(rules) && IsRun(rules, n, run, acts) && k <= |acts|
    ensures LogInv(Trace(rules, n, run, acts, k), run[k])
    decreases k
  {
    if k == 0 {
      InitLogs(n);
    } else {
      LogsHold(rules, n, run, acts, k - 1);
      assert Taken(rules, run[k - 1], acts[k - 1], run[k - 1 + 1]);
      StepKeepsLogs(rules, Trace(rules, n, run, acts, k - 1), run[k - 1], acts[k - 1]);
    }
  }

  lemma ReignsOnlyGrow(rules: Rules, n: nat, run: seq<State>, acts: seq<Action>, j: nat, k: nat)
    requires LogRules(rules) && IsRun(rules, n, run, acts) && j <= k <= |acts|
    ensures ReignsGrow(Trace(rules, n, run, acts, j), Trace(rules, n, run, acts, k))
  {
    var past := Pasts(rules, n, run, acts);
    forall m: nat | m + 1 < |past| ensures ReignsGrowAt(past, m) { ReignsGrowHere(rules, n, run, acts, past, m); }
    ReignsGrowSelf(rules, n, run, acts, j);
    ReignsGrowAlong(past, j, k);
  }

  ghost predicate ReignsGrowAt(past: seq<Past>, m: nat)
    requires m + 1 < |past|
  {
    ReignsGrow(past[m], past[m + 1])
  }

  lemma {:induction false} ReignsGrowAlong(past: seq<Past>, j: nat, k: nat)
    requires j <= k < |past| && ReignsGrow(past[j], past[j])
    requires forall m: nat :: m + 1 < |past| ==> ReignsGrowAt(past, m)
    ensures ReignsGrow(past[j], past[k])
    decreases k
  {
    if j < k {
      ReignsGrowAlong(past, j, k - 1);
      assert ReignsGrowAt(past, k - 1);
      ReignsGrowOn(past[j], past[k - 1], past[k]);
    }
  }

  lemma ReignsGrowSelf(rules: Rules, n: nat, run: seq<State>, acts: seq<Action>, k: nat)
    requires LogRules(rules) && IsRun(rules, n, run, acts) && k <= |acts|
    ensures ReignsGrow(Trace(rules, n, run, acts, k), Trace(rules, n, run, acts, k))
  {
    LogsHold(rules, n, run, acts, k);
    NonEmptyReigns(Trace(rules, n, run, acts, k), |run[k].servers|);
  }

  lemma ReignsGrowHere(rules: Rules, n: nat, run: seq<State>, acts: seq<Action>, past: seq<Past>, m: nat)
    requires LogRules(rules) && IsRun(rules, n, run, acts) && past == Pasts(rules, n, run, acts) && m + 1 < |past|
    ensures ReignsGrowAt(past, m)
  {
    ReignsGrowOnce(rules, n, run, acts, m + 1);
  }

  lemma ReignsGrowOnce(rules: Rules, n: nat, run: seq<State>, acts: seq<Action>, k: nat)
    requires LogRules(rules) && IsRun(rules, n, run, acts) && 1 <= k <= |acts|
    ensures ReignsGrow(Trace(rules, n, run, acts, k - 1), Trace(rules, n, run, acts, k))
  {
    LogsHold(rules, n, run, acts, k - 1);
    assert Taken(rules, run[k - 1], acts[k - 1], run[k - 1 + 1]);
    StepKeepsLogs(rules, Trace(rules, n, run, acts, k - 1), run[k - 1], acts[k - 1]);
  }

  lemma ReignsGrowOn(f: Past, g: Past, h: Past)
    requires ReignsGrow(f, g) && ReignsGrow(g, h)
    ensures ReignsGrow(f, h)
  {
  }

  /** Peer a's log at moment j is rooted in the history at any later moment k. */
  lemma RootedLater(rules: Rules, n: nat, run: seq<State>, acts: seq<Action>, j: nat, k: nat, a: nat)
    requires LogRules(rules) && IsRun(rules, n, run, acts) && j <= k <= |acts| && a < |run[j].servers|
    ensures Rooted(Trace(rules, n, run, acts, k), LogOf(run[j], a))
  {
    LogsHold(rules, n, run, acts, j);
    ReignsOnlyGrow(rules, n, run, acts, j, k);
    var g := Trace(rules, n, run, acts, j);
    assert ServerLog(g, |run[j].servers|, a, run[j].servers[a]);
    KeepRooted(g, Trace(rules, n, run, acts, k), LogOf(run[j], a));
  }

  lemma RootedMatch(h: Past, a: Log, b: Log)
    requires Rooted(h, a) && Rooted(h, b)
    ensures Matching(a, b)
  {
    forall i | 0 <= i < |a| && i < |b| && a[i].term == b[i].term ensures a[..i + 1] == b[..i + 1] {
      MatchAt(h, a, b, i);
    }
  }

  /** Log matching, between any two peers at any two moments of a run. */
  lemma LogMatching(rules: Rules, n: nat, run: seq<State>, acts: seq<Action>)
    requires LogRules(rules) && IsRun(rules, n, run, acts)
    ensures LogsMatch(run)
  {
    forall j, k, a: nat, b: nat |
      0 <= j < |run| && 0 <= k < |run| && a < |run[j].servers| && b < |run[k].servers|
      ensures Matching(LogOf(run[j], a), LogOf(run[k], b))
    {
      var m := if j <= k then k else j;
      RootedLater(rules, n, run, acts, j, m, a);
      RootedLater(rules, n, run, acts, k, m, b);
      RootedMatch(Trace(rules, n, run, acts, m), LogOf(run[j], a), LogOf(run[k], b));
    }
  }

  // ----- commitment

  lemma {:induction false} CommitsHold(n: nat, run: seq<State>, acts: seq<Action>, k: nat)
    requires IsRun(AS_COMMENTED, n, run, acts) && k <= |acts|
    ensures LogInv(Trace(AS_COMMENTED, n, run, acts, k), run[k])
    ensures CommitInv(Trace(AS_COMMENTED, n, run, acts, k), run[k])
    decreases k
  {
    LogsHold(AS_COMMENTED, n, run, acts, k);
    if k == 0 {
      InitCommits(n);
    } else {
      CommitsHold(n, run, acts, k - 1);
      assert Taken(AS_COMMENTED, run[k - 1], acts[k - 1], run[k - 1 + 1]);
      StepKeepsCommits(AS_COMMENTED, Trace(AS_COMMENTED, n, run, acts, k - 1), run[k - 1], acts[k - 1]);
    }
  }

  lemma AcksStay(n: nat, run: seq<State>, acts: seq<Action>, j: nat, k: nat)
    requires IsRun(AS_COMMENTED, n, run, acts) && j <= k <= |acts|
    ensures AcksGrow(Trace(AS_COMMENTED, n, run, acts, j), Trace(AS_COMMENTED, n, run, acts, k))
  {
    var past := Pasts(AS_COMMENTED, n, run, acts);
    forall m: nat | m + 1 < |past| ensures AcksGrowAt(past, m) { AcksGrowHere(n, run, acts, past, m); }
    AcksStayAlong(past, j, k);
  }

  ghost predicate AcksGrowAt(past: seq<Past>, m: nat)
    requires m + 1 < |past|
  {
    AcksGrow(past[m], past[m + 1])
  }

  lemma {:induction false} AcksStayAlong(past: seq<Past>, j: nat, k: nat)
    requires j <= k < |past| && forall m: nat :: m + 1 < |past| ==> AcksGrowAt(past, m)
    ensures AcksGrow(past[j], past[k])
    decreases k
  {
    if j < k {
      AcksStayAlong(past, j, k - 1);
      assert AcksGrowAt(past, k - 1);
      AcksStayOn(past[j], past[k - 1], past[k]);
    }
  }

  lemma AcksGrowHere(n: nat, run: seq<State>, acts: seq<Action>, past: seq<Past>, m: nat)
    requires IsRun(AS_COMMENTED, n, run, acts) && past == Pasts(AS_COMMENTED, n, run, acts) && m + 1 < |past|
    ensures AcksGrowAt(past, m)
  {
    AcksStayOnce(n, run, acts, m + 1);
  }

  lemma AcksStayOnce(n: nat, run: seq<State>, acts: seq<Action>, k: nat)
    requires IsRun(AS_COMMENTED, n, run, acts) && 1 <= k <= |acts|
    ensures AcksGrow(Trace(AS_COMMENTED, n, run, acts, k - 1), Trace(AS_COMMENTED, n, run, acts, k))
  {
    CommitsHold(n, run, acts, k - 1);
    assert Taken(AS_COMMENTED, run[k - 1], acts[k - 1], run[k - 1 + 1]);
    AcksOnlyGrow(AS_COMMENTED, Trace(AS_COMMENTED, n, run, acts, k - 1), run[k - 1], acts[k - 1]);
  }

  lemma AcksStayOn(f: Past, g: Past, h: Past)
    requires AcksGrow(f, g) && AcksGrow(g, h)
    ensures AcksGrow(f, h)
  {
  }

  /** What peer a holds as committed at moment j is still committed in the history of any later moment k. */
  lemma CommittedLater(n: nat, run: seq<State>, acts: seq<Action>, j: nat, k: nat, a: nat)
    requires IsRun(AS_COMMENTED, n, run, acts) && j <= k <= |acts| && a < |run[j].servers|
    ensures CommitOk(Trace(AS_COMMENTED, n, run, acts, k), n, LogOf(run[j], a), CommitOf(run[j], a),
                     run[j].servers[a].raft.term)
  {
    CommitsHold(n, run, acts, j);
    SizeIsFixed(AS_COMMENTED, n, run, acts, j);
    ReignsOnlyGrow(AS_COMMENTED, n, run, acts, j, k);
    AcksStay(n, run, acts, j, k);
    var g, s := Trace(AS_COMMENTED, n, run, acts, j), run[j].servers[a].raft;
    assert ServerLog(g, n, a, run[j].servers[a]) && ServerCommit(g, n, a, run[j].servers[a]);
    RaiseCommitOk(g, n, s.log, s.commitIndex, Stable(s).term, s.term);
    KeepCommitOk(g, Trace(AS_COMMENTED, n, run, acts, k), n, s.log, s.commitIndex, s.term);
  }

  lemma SealedAgree(h: Past, n: nat, a: Log, c: nat, t: nat, b: Log, d: nat, u: nat, i: nat)
    requires ReignsOk(h, n) && WinnersCover(h) && CommitOk(h, n, a, c, t) && CommitOk(h, n, b, d, u)
    requires 1 <= i <= c && i <= d
    ensures a[i] == b[i]
  {
    var x: nat, k: nat :| Sealed(h, n, a, c, t, x, k);
    var y: nat, l: nat :| Sealed(h, n, b, d, u, y, l);
    assert Sealed(h, n, a, c, x, x, k) && Sealed(h, n, b, d, y, y, l);
    if x <= y {
      SealedInLeader(h, n, a, c, x, y);
    } else {
      SealedInLeader(h, n, b, d, y, x);
    }
  }

  /** State machine safety: no two peers, at any two moments, hold different entries as committed. */
  lemma StateMachineSafety(n: nat, run: seq<State>, acts: seq<Action>)
    requires IsRun(AS_COMMENTED, n, run, acts)
    ensures CommitsAgree(run)
  {
    forall j, k, a: nat, b: nat |
      0 <= j < |run| && 0 <= k < |run| && a < |run[j].servers| && b < |run[k].servers|
      ensures Agree(run[j], a, run[k], b)
    {
      PairAgrees(n, run, acts, j, k, a, b);
    }
  }

  lemma PairAgrees(n: nat, run: seq<State>, acts: seq<Action>, j: nat, k: nat, a: nat, b: nat)
    requires IsRun(AS_COMMENTED, n, run, acts)
    requires j <= |acts| && k <= |acts| && a < |run[j].servers| && b < |run[k].servers|
    ensures Agree(run[j], a, run[k], b)
  {
    var m := if j <= k then k else j;
    var h := Trace(AS_COMMENTED, n, run, acts, m);
    CommittedLater(n, run, acts, j, m, a);
    CommittedLater(n, run, acts, k, m, b);
    HistoryHolds(n, run, acts, m);
    RootedLater(AS_COMMENTED, n, run, acts, j, m, a);
    RootedLater(AS_COMMENTED, n, run, acts, k, m, b);
    CommitOkAgree(h, n, LogOf(run[j], a), CommitOf(run[j], a), run[j].servers[a].raft.term,
                  LogOf(run[k], b), CommitOf(run[k], b), run[k].servers[b].raft.term);
  }

  lemma HistoryHolds(n: nat, run: seq<State>, acts: seq<Action>, k: nat)
    requires IsRun(AS_COMMENTED, n, run, acts) && k <= |acts|
    ensures ReignsOk(Trace(AS_COMMENTED, n, run, acts, k), n)
    ensures WinnersCover(Trace(AS_COMMENTED, n, run, acts, k))
  {
    CommitsHold(n, run, acts, k);
    SizeIsFixed(AS_COMMENTED, n, run, acts, k);
  }

  lemma CommitOkAgree(h: Past, n: nat, a: Log, c: nat, t: nat, b: Log, d: nat, u: nat)
    requires ReignsOk(h, n) && WinnersCover(h) && CommitOk(h, n, a, c, t) && CommitOk(h, n, b, d, u)
    requires Rooted(h, a) && Rooted(h, b)
    ensures forall i :: 0 <= i <= c && i <= d ==> i < |a| && i < |b| && a[i] == b[i]
  {
    forall i | 0 <= i <= c && i <= d ensures a[i] == b[i] {
      if i > 0 { SealedAgree(h, n, a, c, t, b, d, u, i); }
    }
  }

  /** No two peers ever apply different commands at one index; a restarted peer applies the same ones again. */
  lemma AppliedCommandsAgree(n: nat, run: seq<State>, acts: seq<Action>, j: nat, k: nat)
    requires IsRun(AS_COMMENTED, n, run, acts) && j < |acts| && k < |acts|
    requires acts[j].ApplyNext? && acts[k].ApplyNext?
    ensures Enabled(AS_COMMENTED, run[j], acts[j]) && Enabled(AS_COMMENTED, run[k], acts[k])
    ensures AppliedAt(run, acts, j).index == AppliedAt(run, acts, k).index ==>
              AppliedAt(run, acts, j) == AppliedAt(run, acts, k)
  {
    assert Taken(AS_COMMENTED, run[j], acts[j], run[j + 1]) && Taken(AS_COMMENTED, run[k], acts[k], run[k + 1]);
    StateMachineSafety(n, run, acts);
    assert Agree(run[j], acts[j].i, run[k], acts[k].i);
    var x := AppliedAt(run, acts, j).index;
    CommitsHold(n, run, acts, j);
    CommitsHold(n, run, acts, k);
    if x == AppliedAt(run, acts, k).index {
      assert LogOf(run[j], acts[j].i)[x] == LogOf(run[k], acts[k].i)[x];
    }
  }

  /** Leader completeness. */
  lemma LeaderCompleteness(n: nat, run: seq<State>, acts: seq<Action>)
    requires IsRun(AS_COMMENTED, n, run, acts)
    ensures LeadersComplete(run)
  {
    forall j, k, a: nat, b: nat |
      && 0 <= j < |run| && 0 <= k < |run| && a < |run[j].servers| && b < |run[k].servers|
      && run[k].servers[b].raft.role == Leader
      && (run[j].servers[a].raft.term < run[k].servers[b].raft.term
          || (run[j].servers[a].raft.term == run[k].servers[b].raft.term && j <= k))
      ensures
        && CommitOf(run[j], a) < |LogOf(run[j], a)| && CommitOf(run[j], a) < |LogOf(run[k], b)|
        && LogOf(run[j], a)[..CommitOf(run[j], a) + 1] == LogOf(run[k], b)[..CommitOf(run[j], a) + 1]
    {
      LeaderHolds(n, run, acts, j, k, a, b);
    }
  }

  lemma LeaderHolds(n: nat, run: seq<State>, acts: seq<Action>, j: nat, k: nat, a: nat, b: nat)
    requires IsRun(AS_COMMENTED, n, run, acts)
    requires j <= |acts| && k <= |acts| && a < |run[j].servers| && b < |run[k].servers|
    requires run[k].servers[b].raft.role == Leader
    requires run[j].servers[a].raft.term < run[k].servers[b].raft.term
          || (run[j].servers[a].raft.term == run[k].servers[b].raft.term && j <= k)
    ensures Same(LogOf(run[j], a), LogOf(run[k], b), CommitOf(run[j], a))
  {
    var m := if j <= k then k else j;
    var g, h := Trace(AS_COMMENTED, n, run, acts, k), Trace(AS_COMMENTED, n, run, acts, m);
    var t, u := run[j].servers[a].raft.term, run[k].servers[b].raft.term;
    CommittedLater(n, run, acts, j, m, a);
    HistoryHolds(n, run, acts, k);
    HistoryHolds(n, run, acts, m);
    ReignsOnlyGrow(AS_COMMENTED, n, run, acts, k, m);
    RootedLater(AS_COMMENTED, n, run, acts, j, m, a);
    RootedLater(AS_COMMENTED, n, run, acts, k, m, b);
    LeaderLog(AS_COMMENTED, n, run, acts, k, b);
    CommitInLeaderLog(g, h, n, LogOf(run[j], a), CommitOf(run[j], a), t, u);
  }

  lemma LeaderLog(rules: Rules, n: nat, run: seq<State>, acts: seq<Action>, k: nat, b: nat)
    requires LogRules(rules) && IsRun(rules, n, run, acts)
    requires k <= |acts| && b < |run[k].servers| && run[k].servers[b].raft.role == Leader
    ensures
      var g, u := Trace(rules, n, run, acts, k), run[k].servers[b].raft.term;
      u in g.reigns && g.reigns[u].log == LogOf(run[k], b)
  {
    LogsHold(rules, n, run, acts, k);
    assert ServerLog(Trace(rules, n, run, acts, k), |run[k].servers|, b, run[k].servers[b]);
  }

  /** The log that won term u, as it was in history g, holds what is committed in terms before u (history h). */
  lemma CommitInLeaderLog(g: Past, h: Past, n: nat, log: Log, c: nat, t: nat, u: nat)
    requires ReignsOk(g, n) && ReignsOk(h, n) && WinnersCover(h) && ReignsGrow(g, h) && u in g.reigns
    requires Rooted(h, log) && Rooted(h, g.reigns[u].log) && CommitOk(h, n, log, c, t)
    requires t < u || (t == u && g == h)
    ensures Same(log, g.reigns[u].log, c)
  {
    assert ReignOk(g, n, u);
    if c > 0 {
      var x: nat, l: nat :| Sealed(h, n, log, c, t, x, l);
      if x < u {
        LaterWinnersHold(h, n, x, l, u);
        ThroughBase(h.reigns[x].log, h.reigns[u].base, g.reigns[u].log, log, l, c);
      }
    }
  }

  lemma ThroughBase(committed: Log, base: Log, leader: Log, log: Log, l: nat, c: nat)
    requires Same(committed, base, l) && c <= l && Same(committed, log, c)
    requires 1 <= |base| <= |leader| && Same(base, leader, |base| - 1)
    ensures Same(log, leader, c)
  {
  }
}
