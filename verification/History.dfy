/** What a run has done so far, kept only for the proofs, and the invariants stated with it.
    A history is never part of the cluster's state: `Safety` builds one for every state of a run. */
module History {
  import opened RaftTypes
  import opened RaftHandlers
  import opened Cluster

  /** One won election: the winner, its log then and its log since, and the votes that made it win. */
  datatype Reign = Reign(id: nat, base: Log, log: Log, voters: set<nat>)

  /** reigns: the winner of each term that was won.
      votes:  (voter, term) -> candidate, for votes that reached stable storage.
      acked:  (peer, term) -> last index up to which the peer stored that term's leader's log. */
  datatype Past = Past(
    reigns: map<nat, Reign>,
    votes: map<(nat, nat), nat>,
    acked: map<(nat, nat), nat>)

  const NOTHING := Past(map[], map[], map[])

  // ----- logs

  /** a and b agree on positions 0 .. k. */
  ghost predicate Same(a: Log, b: Log, k: int) {
    k < |a| && k < |b| && forall j :: 0 <= j <= k ==> a[j] == b[j]
  }

  ghost predicate TermsUpTo(log: Log, t: int) {
    forall i :: 0 <= i < |log| ==> log[i].term <= t
  }

  /** Entry i carries its position, and is where the leader of its term put it, on the same history. */
  ghost predicate EntryOk(h: Past, log: Log, i: nat)
    requires 1 <= i < |log|
  {
    && log[i].index == i
    && log[i - 1].term <= log[i].term
    && log[i].term in h.reigns
    && Same(log, h.reigns[log[i].term].log, i)
  }

  ghost predicate Rooted(h: Past, log: Log) {
    && |log| >= 1
    && log[0] == PLACEHOLDER
    && forall i :: 1 <= i < |log| ==> EntryOk(h, log, i)
  }

  lemma {:induction false} TermsAscend(h: Past, log: Log, i: nat, j: nat)
    requires Rooted(h, log) && i <= j < |log|
    ensures log[i].term <= log[j].term
    decreases j
  {
    if i < j {
      assert EntryOk(h, log, j);
      TermsAscend(h, log, i, j - 1);
    }
  }

  lemma LastIsPosition(h: Past, log: Log)
    requires Rooted(h, log)
    ensures LastIndex(log) == |log| - 1
  {
    if |log| > 1 { assert EntryOk(h, log, |log| - 1); }
  }

  /** Equal terms at one index: equal logs up to there (section 5.3 of the Raft paper). */
  lemma MatchAt(h: Past, a: Log, b: Log, i: nat)
    requires Rooted(h, a) && Rooted(h, b)
    requires i < |a| && i < |b| && a[i].term == b[i].term
    ensures Same(a, b, i)
  {
    if i > 0 {
      assert EntryOk(h, a, i) && EntryOk(h, b, i);
    }
  }

  lemma PrefixRooted(h: Past, log: Log, k: nat)
    requires Rooted(h, log) && 1 <= k <= |log|
    ensures Rooted(h, log[..k])
  {
    forall i | 1 <= i < k ensures EntryOk(h, log[..k], i) { assert EntryOk(h, log, i); }
  }

  // ----- quorums

  ghost predicate Quorum(n: nat, q: set<nat>) {
    (forall i :: i in q ==> i < n) && 2 * |q| > n
  }

  lemma {:induction false} AtMost(n: nat, q: set<nat>)
    requires forall i :: i in q ==> i < n
    ensures |q| <= n
    decreases n
  {
    if n == 0 {
      assert q == {};
    } else {
      AtMost(n - 1, q - {n - 1});
    }
  }

  lemma QuorumsMeet(n: nat, a: set<nat>, b: set<nat>) returns (i: nat)
    requires Quorum(n, a) && Quorum(n, b)
    ensures i in a && i in b
  {
    AtMost(n, a + b);
    assert |a + b| + |a * b| == |a| + |b|;
    i :| i in a && i in b;
  }

  // ----- invariants about elections

  /** Term t was won by votes of a majority, its own included, that are all on record. */
  ghost predicate WonOk(h: Past, n: nat, t: nat)
    requires t in h.reigns
  {
    var r := h.reigns[t];
    && r.id < n
    && Quorum(n, r.voters)
    && r.id in r.voters
    && forall v :: v in r.voters ==> (v, t) in h.votes && h.votes[(v, t)] == r.id
  }

  /** A recorded vote is still binding for the voter, even if it restarts now. */
  ghost predicate VotesOk(h: Past, i: nat, p: Persistent) {
    forall u :: (i, u) in h.votes ==> u < p.term || (u == p.term && p.votedFor == h.votes[(i, u)])
  }

  ghost predicate VotersOk(h: Past, n: nat, i: nat, s: RaftState, t: Tally) {
    && Stable(s).term + 1 == t.args.term <= s.term
    && t.args.candidate == i
    && i in t.votes
    && (forall v :: v in t.votes ==> v < n)
    && (forall v :: v in t.votes && v != i ==> (v, t.args.term) in h.votes && h.votes[(v, t.args.term)] == i)
    && (s.role == Candidate ==> s.term == t.args.term)
    && s.role != Leader
    && s.votedFor == i
  }

  ghost predicate ServerVotes(h: Past, n: nat, i: nat, v: Server) {
    var s := v.raft;
    && s.me == i < n
    && s.peers == n
    && VotesOk(h, i, Stable(s))
    && (v.tally.None? ==> Stable(s) == Saved(s))
    && (v.tally.Some? ==> VotersOk(h, n, i, s, v.tally.value))
    && (s.role == Leader ==> s.term in h.reigns && h.reigns[s.term].id == i)
  }

  ghost predicate ElectionInv(h: Past, c: State) {
    && (forall t :: t in h.reigns ==> WonOk(h, |c.servers|, t))
    && (forall i :: 0 <= i < |c.servers| ==> ServerVotes(h, |c.servers|, i, c.servers[i]))
  }

  // ----- invariants about logs

  ghost predicate ReignOk(h: Past, n: nat, t: nat)
    requires t in h.reigns
  {
    var r := h.reigns[t];
    && WonOk(h, n, t)
    && 1 <= |r.base| <= |r.log|
    && Same(r.base, r.log, |r.base| - 1)
    && TermsUpTo(r.base, t - 1)
    && (forall i :: |r.base| <= i < |r.log| ==> r.log[i].term == t)
    && Rooted(h, r.log)
  }

  ghost predicate TallyOk(h: Past, n: nat, i: nat, s: RaftState, t: Tally) {
    && VotersOk(h, n, i, s, t)
    && Stable(s).log == s.log
    && t.args.lastIndex == LastIndex(s.log)
    && t.args.lastTerm == LastTerm(s.log)
  }

  ghost predicate LeaderOk(h: Past, n: nat, i: nat, s: RaftState) {
    && s.term in h.reigns
    && h.reigns[s.term].id == i
    && h.reigns[s.term].log == s.log
    && |s.nextIndex| == n
    && forall f :: 0 <= f < n ==> s.nextIndex[f] >= 1
  }

  ghost predicate ServerLog(h: Past, n: nat, i: nat, v: Server) {
    var s := v.raft;
    && ServerVotes(h, n, i, v)
    && |s.nextIndex| == |s.matchIndex| == n
    && Rooted(h, s.log)
    && TermsUpTo(s.log, Stable(s).term)
    && (v.tally.Some? ==> TallyOk(h, n, i, s, v.tally.value))
    && (s.role == Leader ==> LeaderOk(h, n, i, s))
  }

  /** The request repeats a stretch of its leader's log. */
  ghost predicate RequestOk(h: Past, a: AppendArgs) {
    && a.term in h.reigns
    && var log := h.reigns[a.term].log;
    && a.prevIndex + |a.entries| < |log|
    && log[a.prevIndex].term == a.prevTerm
    && forall j :: 0 <= j < |a.entries| ==> a.entries[j] == log[a.prevIndex + 1 + j]
  }

  ghost predicate MessageLog(h: Past, m: Message) {
    m.AppendMsg? ==> RequestOk(h, m.append) && m.to != h.reigns[m.append.term].id
  }

  ghost predicate ReignsOk(h: Past, n: nat) {
    forall t :: t in h.reigns ==> ReignOk(h, n, t)
  }

  ghost predicate LogInv(h: Past, c: State) {
    && ReignsOk(h, |c.servers|)
    && (forall i :: 0 <= i < |c.servers| ==> ServerLog(h, |c.servers|, i, c.servers[i]))
    && (forall m :: m in c.net ==> MessageLog(h, m))
  }

  // ----- how a history may grow

  /** Elections already won stay as they were, except that the winner's log may have grown. */
  ghost predicate ReignsGrow(h: Past, g: Past) {
    forall t :: t in h.reigns ==>
                  && t in g.reigns
                  && g.reigns[t] == h.reigns[t].(log := g.reigns[t].log)
                  && Same(h.reigns[t].log, g.reigns[t].log, |h.reigns[t].log| - 1)
  }

  ghost predicate VotesGrow(h: Past, g: Past) {
    forall p :: p in h.votes ==> p in g.votes && g.votes[p] == h.votes[p]
  }

  /** Nothing new about votes of i, and no new entry in a log that i leads. */
  ghost predicate Untouched(h: Past, g: Past, i: nat) {
    && (forall u :: (i, u) in g.votes ==> (i, u) in h.votes)
    && (forall t :: t in h.reigns && h.reigns[t].id == i ==> t in g.reigns && g.reigns[t] == h.reigns[t])
  }

  lemma KeepRooted(h: Past, g: Past, log: Log)
    requires Rooted(h, log) && ReignsGrow(h, g)
    ensures Rooted(g, log)
  {
    forall i | 1 <= i < |log| ensures EntryOk(g, log, i) { assert EntryOk(h, log, i); }
  }

  lemma KeepReign(h: Past, g: Past, n: nat, t: nat)
    requires t in h.reigns && t in g.reigns && ReignOk(h, n, t)
    requires ReignsGrow(h, g) && VotesGrow(h, g)
    requires g.reigns[t] == h.reigns[t]
    ensures ReignOk(g, n, t)
  {
    KeepRooted(h, g, h.reigns[t].log);
  }

  lemma KeepServerLog(h: Past, g: Past, n: nat, i: nat, v: Server)
    requires ServerLog(h, n, i, v)
    requires ReignsGrow(h, g) && VotesGrow(h, g) && Untouched(h, g, i)
    ensures ServerLog(g, n, i, v)
  {
    KeepRooted(h, g, v.raft.log);
  }

  lemma KeepMessageLog(h: Past, g: Past, m: Message)
    requires MessageLog(h, m) && ReignsGrow(h, g)
    ensures MessageLog(g, m)
  {
  }

  /** One server and the history change; every other server keeps its invariant. */
  lemma ReplaceServerLog(h: Past, g: Past, c: State, d: State, i: nat)
    requires LogInv(h, c) && i < |c.servers|
    requires ReignsGrow(h, g) && VotesGrow(h, g)
    requires forall j: nat :: j != i ==> Untouched(h, g, j)
    requires |d.servers| == |c.servers| && d.servers == c.servers[i := d.servers[i]]
    requires ReignsOk(g, |c.servers|)
    requires ServerLog(g, |c.servers|, i, d.servers[i])
    requires forall m :: m in d.net && m !in c.net ==> MessageLog(g, m)
    ensures LogInv(g, d)
  {
    var n := |c.servers|;
    forall j | 0 <= j < n ensures ServerLog(g, n, j, d.servers[j]) {
      if j != i { KeepServerLog(h, g, n, j, c.servers[j]); }
    }
    forall m | m in d.net ensures MessageLog(g, m) {
      if m in c.net { KeepMessageLog(h, g, m); }
    }
  }
}
