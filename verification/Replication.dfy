/** What log replication does as written, for one leader and one follower. */
module Replication {
  import opened RaftTypes
  import opened RaftHandlers
  import opened Guarantees

  /** Every entry carries its position, and position 0 holds the placeholder. */
  ghost predicate Positioned(log: Log) {
    && |log| >= 1
    && log[0] == PLACEHOLDER
    && forall i :: 0 <= i < |log| ==> log[i].index == i
  }

  // ----- appending

  /** Appending all entries of an accepted request keeps Index = position exactly when the log ended
      where the request starts. */
  lemma AppendAllKeepsPositions(log: Log, a: AppendArgs)
    requires Positioned(log) && a.prevIndex < |log| && a.entries != []
    requires forall j :: 0 <= j < |a.entries| ==> a.entries[j].index == a.prevIndex + 1 + j
    ensures Positioned(Extended(AS_WRITTEN, log, a)) <==> |log| == a.prevIndex + 1
  {
    var out := Extended(AS_WRITTEN, log, a);
    assert out[|log|] == a.entries[0];
    assert forall i :: |log| <= i < |out| ==> out[i] == a.entries[i - |log|];
  }

  // ----- truncation

  /** `after` keeps the first k entries of `before`, and if it is cut short the leader disagrees right there. */
  ghost predicate CutWell(leader: Log, before: Log, after: Log, k: nat) {
    && k <= |before| && k <= |after| && after[..k] == before[..k]
    && (|after| < |before| ==>
          && after == before[..|after|]
          && |after| < |leader| && leader[|after|].term != before[|after|].term)
  }

  lemma CutAt(leader: Log, before: Log, p: nat, k: nat)
    requires k <= |leader| && k <= |before| && leader[..k] == before[..k]
    requires p < |leader| && p < |before| && leader[p].term != before[p].term
    ensures CutWell(leader, before, before[..p], k)
  {
    assert forall i :: 0 <= i < k ==> leader[..k][i] == leader[i] && before[..k][i] == before[i];
    assert before[..p][..k] == before[..k];
  }

  lemma RequestRepeatsLog(l: RaftState, to: nat)
    requires Positioned(l.log) && CanSend(l, to)
    ensures
      var a := BuildAppend(l, to);
      && a.prevIndex + |a.entries| == |l.log| - 1 && a.prevTerm == l.log[a.prevIndex].term
      && forall i :: 0 <= i < |a.entries| ==> a.entries[i] == l.log[a.prevIndex + 1 + i]
  {
  }

  /** What follower and leader share is never cut, and where a log is cut the two disagree: whatever the
      follower's log, and whenever the request arrives. */
  lemma TruncationIsExact(rules: Rules, l: RaftState, to: nat, f: RaftState, k: nat)
    requires Positioned(l.log) && CanSend(l, to)
    requires k <= |l.log| && k <= |f.log| && l.log[..k] == f.log[..k]
    ensures CutWell(l.log, f.log, HandleAppend(rules, f, BuildAppend(l, to)).0.log, k)
  {
    var a := BuildAppend(l, to);
    RequestRepeatsLog(l, to);
    HandlerCuts(rules, l.log, f, a, k);
  }

  lemma HandlerCuts(rules: Rules, leader: Log, f: RaftState, a: AppendArgs, k: nat)
    requires Positioned(leader) && k <= |leader| && k <= |f.log| && leader[..k] == f.log[..k]
    requires a.prevIndex + |a.entries| == |leader| - 1 && a.prevTerm == leader[a.prevIndex].term
    requires forall i :: 0 <= i < |a.entries| ==> a.entries[i] == leader[a.prevIndex + 1 + i]
    ensures CutWell(leader, f.log, HandleAppend(rules, f, a).0.log, k)
  {
    var j := FirstConflict(f.log, a.entries);
    if f.term != a.term {
    } else if 0 < a.prevIndex < |f.log| && f.log[a.prevIndex].term != a.prevTerm {
      CutAt(leader, f.log, a.prevIndex, k);
    } else if j < |a.entries| {
      CutAt(leader, f.log, a.prevIndex + 1 + j, k);
    } else if a.prevIndex < |f.log| {
      assert f.log <= Extended(rules, f.log, a);
    }
  }

  // ----- commitLog

  /** commitLog stops at the last index that passes its test, and never goes back. */
  lemma {:induction false} ScanIsLast(rules: Rules, s: RaftState, n: nat, c: nat)
    requires c < n
    ensures
      var r := CommitScan(rules, s, n, c);
      && c <= r
      && (r == c || (n <= r < |s.log| && MayCommit(rules, s, r)))
      && forall m :: n <= m < |s.log| && MayCommit(rules, s, m) ==> m <= r
    decreases |s.log| - n
  {
    if n < |s.log| { ScanIsLast(rules, s, n + 1, if MayCommit(rules, s, n) then n else c); }
  }

  lemma {:induction false} CountsFall(ms: seq<int>, n: int, m: int)
    requires n <= m
    ensures CountAtLeast(ms, m) <= CountAtLeast(ms, n)
  {
    if ms != [] { CountsFall(ms[..|ms| - 1], n, m); }
  }

  /** The peers whose matchIndex has reached n. */
  function Reaching(ms: seq<int>, n: int): (q: set<nat>)
    ensures forall i: nat :: i in q <==> i < |ms| && ms[i] >= n
  {
    set i: nat | i < |ms| && ms[i] >= n
  }

  lemma {:induction false} CountIsSize(ms: seq<int>, n: int)
    ensures CountAtLeast(ms, n) == |Reaching(ms, n)|
  {
    if ms == [] {
      assert Reaching(ms, n) == {};
    } else {
      var last := |ms| - 1;
      CountIsSize(ms[..last], n);
      assert Reaching(ms, n) == Reaching(ms[..last], n) + (if ms[last] >= n then {last} else {});
    }
  }

  /** r is the larger of c and the greatest index of the log that a strict majority of peers has reached. */
  ghost predicate IsCommitPoint(s: RaftState, c: nat, r: nat) {
    && c <= r
    && (r == c || (r < |s.log| && 2 * |Reaching(s.matchIndex, r)| > s.peers))
    && forall m :: 0 <= m < |s.log| && 2 * |Reaching(s.matchIndex, m)| > s.peers ==> m <= r
  }

  /** commitLog as written is exact. */
  lemma CommitLogIsExact(s: RaftState)
    ensures IsCommitPoint(s, s.commitIndex, CommitLog(AS_WRITTEN, s).commitIndex)
    ensures forall r :: IsCommitPoint(s, s.commitIndex, r) ==> r == CommitLog(AS_WRITTEN, s).commitIndex
    ensures CommitLog(AS_WRITTEN, s) == s.(commitIndex := CommitLog(AS_WRITTEN, s).commitIndex)
  {
    var r := CommitLog(AS_WRITTEN, s).commitIndex;
    ScanIsLast(AS_WRITTEN, s, s.commitIndex + 1, s.commitIndex);
    CountIsSize(s.matchIndex, r);
    forall m | 0 <= m < |s.log| && 2 * |Reaching(s.matchIndex, m)| > s.peers ensures m <= r {
      CountIsSize(s.matchIndex, m);
      if m > s.commitIndex { assert MayCommit(AS_WRITTEN, s, m); }
    }
  }

  /** An index that a majority has reached has every smaller index reached by that majority. */
  lemma ReplicatedBelow(s: RaftState, m: int, n: int)
    requires m <= n && Replicated(s, n)
    ensures Replicated(s, m)
  {
    CountsFall(s.matchIndex, m, n);
  }

  // ----- the commit index of the follower

  /** A request never carries a leaderCommit beyond what it lets the follower verify. */
  lemma CommitWithinRequest(s: RaftState, f: nat)
    requires Positioned(s.log) && CanSend(s, f) && s.commitIndex < |s.log|
    ensures BuildAppend(s, f).leaderCommit <= BuildAppend(s, f).prevIndex + |BuildAppend(s, f).entries| == |s.log| - 1
  {
  }

  function Min(a: nat, b: nat): nat { if a < b then a else b }

  /** So the follower's cap by its own last index is the paper's cap by the index of the last new entry. */
  lemma CommitCapIsPapers(rules: Rules, s: RaftState, a: AppendArgs)
    requires a.leaderCommit <= a.prevIndex + |a.entries|
    requires HandleAppend(rules, s, a).1.success
    ensures HandleAppend(rules, s, a).0.commitIndex ==
            if a.leaderCommit > s.commitIndex then Min(a.leaderCommit, a.prevIndex + |a.entries|) else s.commitIndex
    ensures HandleAppend(rules, s, a).0.commitIndex > s.commitIndex ==>
              HandleAppend(rules, s, a).0.commitIndex <= a.prevIndex + |a.entries|
  {
  }

  // ----- backtracking

  /** One call of SendHeartbeat that reaches the peer and returns, as written. */
  function Round(l: RaftState, f: RaftState): (RaftState, RaftState) {
    if CanSend(l, f.me) && f.me < |l.matchIndex| == |l.nextIndex| then
      var a := BuildAppend(l, f.me);
      var (g, r) := HandleAppend(AS_WRITTEN, f, a);
      (HandleReply(AS_WRITTEN, l, f.me, a, r), g)
    else (l, f)
  }

  function Rounds(l: RaftState, f: RaftState, k: nat): (RaftState, RaftState)
    decreases k
  {
    if k == 0 then (l, f) else var (m, g) := Round(l, f); Rounds(m, g, k - 1)
  }

  /** Leader and follower of one term, their logs related by log matching; nextIndex is as at the start of
      the term or as the follower last reported it. */
  ghost predicate InTouch(l: RaftState, f: RaftState) {
    && l.term == f.term
    && f.me < |l.nextIndex| == |l.matchIndex|
    && Positioned(l.log) && Positioned(f.log)
    && Matching(l.log, f.log)
    && (l.nextIndex[f.me] == |l.log| || l.nextIndex[f.me] == |f.log|)
  }

  /** Rounds that may still be needed. */
  ghost function Distance(l: RaftState, f: RaftState): nat
    requires InTouch(l, f)
  {
    if l.log <= f.log then 0
    else if l.nextIndex[f.me] == |f.log| then |f.log|
    else |f.log| + 1
  }

  lemma MatchingPrefix(a: Log, b: Log, k: nat)
    requires Matching(a, b) && k <= |b|
    ensures Matching(a, b[..k])
  {
    forall i | 0 <= i < |a| && i < k && a[i].term == b[i].term ensures a[..i + 1] == b[..k][..i + 1] {
      assert a[..i + 1] == b[..i + 1];
    }
  }

  /** What the follower does with a request that starts at its own end, or that has no entries. */
  lemma RoundReaches(l: RaftState, f: RaftState)
    requires InTouch(l, f)
    ensures
      var (m, g) := Round(l, f);
      && m.log == l.log && m.term == l.term && g.term == f.term && g.me == f.me
      && |m.nextIndex| == |m.matchIndex| == |l.nextIndex|
      && m.nextIndex[f.me] == |g.log|
      && (g.log == f.log || g.log == l.log || (1 <= |g.log| < |f.log| && g.log == f.log[..|g.log|]))
      && (g.log == f.log ==> l.log <= f.log || l.nextIndex[f.me] != |f.log|)
      && (l.log <= f.log ==> g.log == f.log)
  {
    var a := BuildAppend(l, f.me);
    RequestRepeatsLog(l, f.me);
    FollowerReaches(l, f, a);
    ReplyNotes(l, f.me, a, HandleAppend(AS_WRITTEN, f, a).1);
  }

  /** A reply of the same term that reports a length is noted as nextIndex. */
  lemma ReplyNotes(l: RaftState, to: nat, a: AppendArgs, r: AppendReply)
    requires to < |l.nextIndex| == |l.matchIndex| && r.term <= l.term && r.nextIndex >= 1
    ensures
      var m := HandleReply(AS_WRITTEN, l, to, a, r);
      && m.log == l.log && m.term == l.term && |m.nextIndex| == |m.matchIndex| == |l.nextIndex|
      && m.nextIndex[to] == r.nextIndex
  {
  }

  lemma FollowerReaches(l: RaftState, f: RaftState, a: AppendArgs)
    requires InTouch(l, f) && CanSend(l, f.me) && a == BuildAppend(l, f.me) && Repeats(l.log, a)
    ensures Reaches(l, f, HandleAppend(AS_WRITTEN, f, a).0, HandleAppend(AS_WRITTEN, f, a).1)
  {
    var p := a.prevIndex;
    if p < |f.log| && l.log[p].term == f.log[p].term {
      assert l.log[..p + 1] == f.log[..p + 1];
      if a.entries == [] {
        assert l.log <= f.log;
        assert f.log + a.entries == f.log;
      } else {
        SameUpTo(l.log, f.log, p + 1);
        FollowerExtends(l, f, a);
      }
    }
  }

  ghost predicate Repeats(log: Log, a: AppendArgs) {
    && a.prevIndex + |a.entries| == |log| - 1 && a.prevTerm == log[a.prevIndex].term
    && forall i :: 0 <= i < |a.entries| ==> a.entries[i] == log[a.prevIndex + 1 + i]
  }

  /** What a round leaves at the follower: its log, the leader's, or a cut one that is shorter. */
  ghost predicate Reaches(l: RaftState, f: RaftState, g: RaftState, r: AppendReply)
    requires f.me < |l.nextIndex|
  {
    && g.term == f.term && g.me == f.me && r.term == 0 && r.nextIndex == |g.log| >= 1
    && (g.log == f.log || g.log == l.log || (|g.log| < |f.log| && g.log == f.log[..|g.log|]))
    && (g.log == f.log ==> l.log <= f.log || l.nextIndex[f.me] != |f.log|)
    && (l.log <= f.log ==> g.log == f.log)
  }

  /** The request starts at the follower's end, so its entries fit there. */
  lemma FollowerExtends(l: RaftState, f: RaftState, a: AppendArgs)
    requires InTouch(l, f) && CanSend(l, f.me) && a == BuildAppend(l, f.me) && Repeats(l.log, a) && a.entries != []
    requires a.prevIndex < |f.log| && forall i :: 0 <= i <= a.prevIndex ==> l.log[i] == f.log[i]
    ensures Reaches(l, f, HandleAppend(AS_WRITTEN, f, a).0, HandleAppend(AS_WRITTEN, f, a).1)
  {
    assert a.prevIndex + 1 == l.nextIndex[f.me] == |f.log|;
    FitsAtEnd(l.log, f.log, a);
    AppendsWhole(f, a);
  }

  lemma AppendsWhole(f: RaftState, a: AppendArgs)
    requires a.term == f.term && |f.log| == a.prevIndex + 1 && f.log[a.prevIndex].term == a.prevTerm
    requires FirstConflict(f.log, a.entries) == |a.entries|
    ensures
      var (g, r) := HandleAppend(AS_WRITTEN, f, a);
      g.log == f.log + a.entries && g.term == f.term && g.me == f.me && r == AppendReply(0, true, |g.log|)
  {
  }

  lemma FitsAtEnd(leader: Log, log: Log, a: AppendArgs)
    requires Positioned(leader) && Repeats(leader, a) && |log| == a.prevIndex + 1
    requires forall i :: 0 <= i < |log| ==> leader[i] == log[i]
    ensures log + a.entries == leader && FirstConflict(log, a.entries) == |a.entries|
    ensures log[a.prevIndex].term == a.prevTerm
  {
    JoinIs(leader, log, a);
    EntriesArePlaced(leader, a);
    NoneConflicts(log, a.entries);
  }

  lemma EntriesArePlaced(leader: Log, a: AppendArgs)
    requires Positioned(leader) && Repeats(leader, a)
    ensures forall i :: 0 <= i < |a.entries| ==> a.entries[i].index == a.prevIndex + 1 + i
  {
    forall i | 0 <= i < |a.entries| ensures a.entries[i].index == a.prevIndex + 1 + i {
      assert a.entries[i] == leader[a.prevIndex + 1 + i];
    }
  }

  lemma SameUpTo(a: Log, b: Log, k: nat)
    requires k <= |a| && k <= |b| && a[..k] == b[..k]
    ensures forall i :: 0 <= i < k ==> a[i] == b[i]
  {
    assert forall i :: 0 <= i < k ==> a[i] == a[..k][i];
  }

  lemma JoinIs(leader: Log, log: Log, a: AppendArgs)
    requires Repeats(leader, a) && |log| == a.prevIndex + 1 && forall i :: 0 <= i < |log| ==> leader[i] == log[i]
    ensures log + a.entries == leader
  {
  }

  lemma NoneConflicts(log: Log, entries: seq<Entry>)
    requires forall i :: 0 <= i < |entries| ==> entries[i].index >= |log|
    ensures FirstConflict(log, entries) == |entries|
  {
    var j := FirstConflict(log, entries);
    assert j < |entries| ==> Conflicts(log, entries[j]);
  }

  /** A round keeps the two in touch and brings them closer. */
  lemma RoundCloser(l: RaftState, f: RaftState)
    requires InTouch(l, f)
    ensures InTouch(Round(l, f).0, Round(l, f).1)
    ensures Distance(l, f) == 0 ==> Distance(Round(l, f).0, Round(l, f).1) == 0
    ensures Distance(l, f) > 0 ==> Distance(Round(l, f).0, Round(l, f).1) < Distance(l, f)
  {
    RoundReaches(l, f);
    var g := Round(l, f).1;
    if g.log != f.log && g.log != l.log { MatchingPrefix(l.log, f.log, |g.log|); }
    if g.log == l.log { assert Matching(l.log, g.log); }
  }

  lemma {:induction false} RoundsConverge(l: RaftState, f: RaftState, k: nat)
    requires InTouch(l, f) && Distance(l, f) <= k
    ensures l.log <= Rounds(l, f, k).1.log
    ensures Rounds(l, f, k).0.log == l.log
    decreases k
  {
    if k > 0 {
      RoundCloser(l, f);
      RoundKeepsLeader(l, f);
      var (m, g) := Round(l, f);
      RoundsConverge(m, g, k - 1);
      assert Rounds(l, f, k) == Rounds(m, g, k - 1);
    }
  }

  lemma RoundKeepsLeader(l: RaftState, f: RaftState)
    requires InTouch(l, f)
    ensures Round(l, f).0.log == l.log
  {
    RoundReaches(l, f);
  }

  /** Backtracking converges: from nextIndex = last + 1, one more exchange than the follower's log is long
      makes it agree with the leader on every index of the leader's log, and it stays so. */
  lemma BacktrackingConverges(l: RaftState, f: RaftState, k: nat)
    requires l.term == f.term && f.me < |l.nextIndex| == |l.matchIndex|
    requires Positioned(l.log) && Positioned(f.log) && Matching(l.log, f.log)
    requires l.nextIndex[f.me] == |l.log|
    requires k >= |f.log| + 1
    ensures l.log <= Rounds(l, f, k).1.log
  {
    RoundsConverge(l, f, k);
  }
}
