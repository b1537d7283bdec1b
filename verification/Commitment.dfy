/** The invariants about what was stored by whom, and what is therefore committed. */
module Commitment {
  import opened RaftTypes
  import opened RaftHandlers
  import opened Cluster
  import opened History

  /** Peer f stored the log of term t's leader at least up to k, and entry k is of that term. */
  ghost predicate Acked(h: Past, f: nat, t: nat, k: nat) {
    && (f, t) in h.acked
    && 1 <= k <= h.acked[(f, t)]
    && t in h.reigns
    && k < |h.reigns[t].log|
    && h.reigns[t].log[k].term == t
  }

  /** Every later winner before term u started out with the log of term t up to k. */
  ghost predicate Held(h: Past, t: nat, k: nat, u: int) {
    && t in h.reigns
    && forall w :: w in h.reigns && t < w < u ==> Same(h.reigns[t].log, h.reigns[w].base, k)
  }

  /** Whatever f stored in terms below u is in `log`, unless a winner below w started without it. */
  ghost predicate Covers(h: Past, f: nat, log: Log, u: int, w: int) {
    forall t: nat, k: nat :: t < u && Acked(h, f, t, k) && Held(h, t, k, w) ==> Same(h.reigns[t].log, log, k)
  }

  /** Entry k of term t's leader, made in term t, is stored by a majority. */
  ghost predicate Committed(h: Past, n: nat, t: nat, k: nat) {
    exists q: set<nat> :: Quorum(n, q) && AckedBy(h, q, t, k)
  }

  ghost predicate AckedBy(h: Past, q: set<nat>, t: nat, k: nat) {
    forall f :: f in q ==> Acked(h, f, t, k)
  }

  /** Positions 1 .. c of `log` are part of a committed log, committed in a term up to t. */
  ghost predicate Sealed(h: Past, n: nat, log: Log, c: nat, t: nat, term: nat, k: nat) {
    && term <= t && c <= k
    && term in h.reigns
    && Committed(h, n, term, k)
    && Same(h.reigns[term].log, log, c)
  }

  ghost predicate CommitOk(h: Past, n: nat, log: Log, c: nat, t: nat) {
    c < |log| && (c == 0 || exists term: nat, k: nat :: Sealed(h, n, log, c, t, term, k))
  }

  ghost predicate AcksOk(h: Past, n: nat) {
    forall p :: p in h.acked ==> p.0 < n && p.1 in h.reigns && h.acked[p] < |h.reigns[p.1].log|
  }

  /** A winner's first log holds what its voters had stored. */
  ghost predicate WinnerCovers(h: Past, t: nat)
    requires t in h.reigns
  {
    forall f :: f in h.reigns[t].voters ==> Covers(h, f, h.reigns[t].base, t, t)
  }

  ghost predicate WinnersCover(h: Past) {
    forall t :: t in h.reigns ==> WinnerCovers(h, t)
  }

  ghost predicate MatchOk(h: Past, n: nat, s: RaftState) {
    && |s.matchIndex| == n
    && forall f :: 0 <= f < n && s.matchIndex[f] >= 1 ==>
                     (f, s.term) in h.acked && s.matchIndex[f] <= h.acked[(f, s.term)]
  }

  ghost predicate TallyCovers(h: Past, log: Log, t: Tally) {
    forall v :: v in t.votes ==> Covers(h, v, log, t.args.term, t.args.term + 1)
  }

  ghost predicate ServerCommit(h: Past, n: nat, i: nat, v: Server) {
    var s := v.raft;
    && (forall t :: (i, t) in h.acked ==> t <= Stable(s).term)
    && Covers(h, i, s.log, Stable(s).term + 1, Stable(s).term + 1)
    && (v.tally.Some? ==> TallyCovers(h, s.log, v.tally.value))
    && (s.role == Leader ==> MatchOk(h, n, s))
    && CommitOk(h, n, s.log, s.commitIndex, Stable(s).term)
    && s.lastApplied <= s.commitIndex
  }

  ghost predicate RequestCommit(h: Past, n: nat, a: AppendArgs) {
    && a.term in h.reigns
    && CommitOk(h, n, h.reigns[a.term].log, a.leaderCommit, a.term)
    && a.leaderCommit <= a.prevIndex + |a.entries|
  }

  ghost predicate CommitInv(h: Past, c: State) {
    && AcksOk(h, |c.servers|)
    && WinnersCover(h)
    && (forall i :: 0 <= i < |c.servers| ==> ServerCommit(h, |c.servers|, i, c.servers[i]))
    && (forall m :: m in c.net && m.AppendMsg? ==> RequestCommit(h, |c.servers|, m.append))
  }

  // ----- how these survive a growing history

  ghost predicate AcksGrow(h: Past, g: Past) {
    forall p :: p in h.acked ==> p in g.acked && h.acked[p] <= g.acked[p]
  }

  ghost predicate NoNewAcks(h: Past, g: Past, f: nat, u: int) {
    forall t: nat, k: nat :: t < u && Acked(g, f, t, k) ==> Acked(h, f, t, k)
  }

  /** A peer that has voted in term u stores nothing more from terms before u. */
  ghost predicate AcksAreLate(h: Past, g: Past) {
    forall f: nat, u: nat :: (f, u) in h.votes ==> NoNewAcks(h, g, f, u)
  }

  ghost predicate AcksUntouched(h: Past, g: Past, i: nat) {
    forall t :: (i, t) in g.acked ==> (i, t) in h.acked && g.acked[(i, t)] == h.acked[(i, t)]
  }

  lemma UntouchedAcks(h: Past, g: Past, n: nat, i: nat, u: int)
    requires AcksUntouched(h, g, i) && ReignsGrow(h, g) && AcksOk(h, n)
    ensures NoNewAcks(h, g, i, u)
  {
  }

  lemma KeepCovers(h: Past, g: Past, f: nat, log: Log, u: int, w: int)
    requires Covers(h, f, log, u, w) && ReignsGrow(h, g) && NoNewAcks(h, g, f, u)
    ensures Covers(g, f, log, u, w)
  {
    forall t: nat, k: nat | t < u && Acked(g, f, t, k) && Held(g, t, k, w) ensures Same(g.reigns[t].log, log, k) {
      assert Acked(h, f, t, k);
      assert Held(h, t, k, w);
    }
  }

  lemma KeepAcked(h: Past, g: Past, f: nat, t: nat, k: nat)
    requires Acked(h, f, t, k) && ReignsGrow(h, g) && AcksGrow(h, g)
    ensures Acked(g, f, t, k)
  {
  }

  lemma KeepCommitted(h: Past, g: Past, n: nat, t: nat, k: nat)
    requires Committed(h, n, t, k) && ReignsGrow(h, g) && AcksGrow(h, g)
    ensures Committed(g, n, t, k)
  {
    var q: set<nat> :| Quorum(n, q) && AckedBy(h, q, t, k);
    forall f | f in q ensures Acked(g, f, t, k) { KeepAcked(h, g, f, t, k); }
    assert AckedBy(g, q, t, k);
  }

  lemma KeepCommitOk(h: Past, g: Past, n: nat, log: Log, c: nat, t: nat)
    requires CommitOk(h, n, log, c, t) && ReignsGrow(h, g) && AcksGrow(h, g)
    ensures CommitOk(g, n, log, c, t)
  {
    if c > 0 {
      var term: nat, k: nat :| Sealed(h, n, log, c, t, term, k);
      KeepCommitted(h, g, n, term, k);
      assert Sealed(g, n, log, c, t, term, k);
    }
  }

  lemma KeepServerCommit(h: Past, g: Past, n: nat, i: nat, v: Server)
    requires ServerLog(h, n, i, v) && ServerCommit(h, n, i, v) && AcksOk(h, n)
    requires ReignsGrow(h, g) && AcksGrow(h, g) && AcksAreLate(h, g) && AcksUntouched(h, g, i)
    ensures ServerCommit(g, n, i, v)
  {
    var s := v.raft;
    UntouchedAcks(h, g, n, i, Stable(s).term + 1);
    KeepCovers(h, g, i, s.log, Stable(s).term + 1, Stable(s).term + 1);
    if v.tally.Some? { KeepTallyCovers(h, g, n, i, v); }
    KeepCommitOk(h, g, n, s.log, s.commitIndex, Stable(s).term);
  }

  lemma KeepTallyCovers(h: Past, g: Past, n: nat, i: nat, v: Server)
    requires v.tally.Some? && TallyOk(h, n, i, v.raft, v.tally.value) && AcksOk(h, n)
    requires TallyCovers(h, v.raft.log, v.tally.value)
    requires ReignsGrow(h, g) && AcksAreLate(h, g) && AcksUntouched(h, g, i)
    ensures TallyCovers(g, v.raft.log, v.tally.value)
  {
    var t := v.tally.value;
    forall x | x in t.votes ensures Covers(g, x, v.raft.log, t.args.term, t.args.term + 1) {
      if x == i { UntouchedAcks(h, g, n, i, t.args.term); }
      KeepCovers(h, g, x, v.raft.log, t.args.term, t.args.term + 1);
    }
  }

  lemma KeepRequestCommit(h: Past, g: Past, n: nat, a: AppendArgs)
    requires RequestCommit(h, n, a) && ReignsGrow(h, g) && AcksGrow(h, g)
    ensures RequestCommit(g, n, a)
  {
    KeepCommitOk(h, g, n, h.reigns[a.term].log, a.leaderCommit, a.term);
    if a.leaderCommit > 0 {
      var term: nat, k: nat :| Sealed(g, n, h.reigns[a.term].log, a.leaderCommit, a.term, term, k);
      assert Sealed(g, n, g.reigns[a.term].log, a.leaderCommit, a.term, term, k);
    }
  }

  lemma KeepWinnerCovers(h: Past, g: Past, n: nat, t: nat)
    requires t in h.reigns && ReignOk(h, n, t) && WinnerCovers(h, t) && ReignsGrow(h, g) && AcksAreLate(h, g)
    ensures WinnerCovers(g, t)
  {
    forall f | f in h.reigns[t].voters ensures Covers(g, f, h.reigns[t].base, t, t) {
      KeepCovers(h, g, f, h.reigns[t].base, t, t);
    }
  }

  /** One server and the history change; everything else keeps its invariant. */
  lemma ReplaceServerCommit(h: Past, g: Past, c: State, d: State, i: nat)
    requires LogInv(h, c) && CommitInv(h, c) && i < |c.servers|
    requires ReignsGrow(h, g) && AcksGrow(h, g) && AcksAreLate(h, g)
    requires forall j: nat :: j != i ==> AcksUntouched(h, g, j)
    requires |d.servers| == |c.servers| && d.servers == c.servers[i := d.servers[i]]
    requires AcksOk(g, |c.servers|)
    requires forall t :: t in g.reigns && t !in h.reigns ==> WinnerCovers(g, t)
    requires ServerCommit(g, |c.servers|, i, d.servers[i])
    requires forall m :: m in d.net && m !in c.net && m.AppendMsg? ==> RequestCommit(g, |c.servers|, m.append)
    ensures CommitInv(g, d)
  {
    var n := |c.servers|;
    forall t | t in g.reigns ensures WinnerCovers(g, t) {
      if t in h.reigns { KeepWinnerCovers(h, g, n, t); }
    }
    forall j | 0 <= j < n ensures ServerCommit(g, n, j, d.servers[j]) {
      if j != i { KeepServerCommit(h, g, n, j, c.servers[j]); }
    }
    forall m | m in d.net && m.AppendMsg? ensures RequestCommit(g, n, m.append) {
      if m in c.net { KeepRequestCommit(h, g, n, m.append); }
    }
  }

  // ----- leader completeness

  /** An entry committed in term t is in the first log of every winner of a later term
      (sections 5.4.1 - 5.4.3 of the Raft paper). */
  lemma {:induction false} LaterWinnersHold(h: Past, n: nat, t: nat, k: nat, u: nat)
    requires ReignsOk(h, n) && WinnersCover(h) && Committed(h, n, t, k)
    requires u in h.reigns && t < u
    ensures t in h.reigns && Same(h.reigns[t].log, h.reigns[u].base, k)
    decreases u
  {
    var q: set<nat> :| Quorum(n, q) && AckedBy(h, q, t, k);
    assert ReignOk(h, n, u);
    var f := QuorumsMeet(n, q, h.reigns[u].voters);
    assert Acked(h, f, t, k);
    forall w | w in h.reigns && t < w < u ensures Same(h.reigns[t].log, h.reigns[w].base, k) {
      LaterWinnersHold(h, n, t, k, w);
    }
    assert WinnerCovers(h, u);
  }

  /** A sealed log is part of the log of every winner of that term or later. */
  lemma SealedInLeader(h: Past, n: nat, log: Log, c: nat, t: nat, u: nat)
    requires ReignsOk(h, n) && WinnersCover(h) && CommitOk(h, n, log, c, t) && c > 0
    requires t <= u && u in h.reigns
    ensures Same(h.reigns[u].log, log, c)
  {
    var term: nat, k: nat :| Sealed(h, n, log, c, t, term, k);
    assert ReignOk(h, n, u);
    if term < u { LaterWinnersHold(h, n, term, k, u); }
  }
}
