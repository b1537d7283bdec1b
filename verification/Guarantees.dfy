/** What the notes promise (lab2_raft/raft算法分享.md), said of whole runs and of the peers' own fields only. */
module Guarantees {
  import opened RaftTypes
  import opened RaftHandlers
  import opened Cluster

  ghost predicate LeadsIn(c: State, i: nat, t: nat) {
    i < |c.servers| && c.servers[i].raft.role == Leader && c.servers[i].raft.term == t
  }

  function LogOf(c: State, i: nat): Log
    requires i < |c.servers|
  {
    c.servers[i].raft.log
  }

  function CommitOf(c: State, i: nat): nat
    requires i < |c.servers|
  {
    c.servers[i].raft.commitIndex
  }

  /** At most one leader per term, over the whole run. */
  ghost predicate ElectionSafe(run: seq<State>) {
    forall j, k, a: nat, b: nat, t: nat ::
      0 <= j < |run| && 0 <= k < |run| && LeadsIn(run[j], a, t) && LeadsIn(run[k], b, t) ==> a == b
  }

  /** Logs with the same term at an index are equal up to that index. */
  ghost predicate Matching(a: Log, b: Log) {
    forall i :: 0 <= i < |a| && i < |b| && a[i].term == b[i].term ==> a[..i + 1] == b[..i + 1]
  }

  /** Log matching between any two peers, at any two moments. */
  ghost predicate LogsMatch(run: seq<State>) {
    forall j, k, a: nat, b: nat ::
      0 <= j < |run| && 0 <= k < |run| && a < |run[j].servers| && b < |run[k].servers| ==>
        Matching(LogOf(run[j], a), LogOf(run[k], b))
  }

  /** A leader only appends: the logs of one term's leader at two moments extend one another. */
  ghost predicate LeadersOnlyAppend(run: seq<State>) {
    forall j, k, a: nat, b: nat, t: nat ::
      0 <= j <= k < |run| && LeadsIn(run[j], a, t) && LeadsIn(run[k], b, t) ==> LogOf(run[j], a) <= LogOf(run[k], b)
  }

  /** What peer a holds as committed at c and peer b at d has no index with different entries. */
  ghost predicate Agree(c: State, a: nat, d: State, b: nat)
    requires a < |c.servers| && b < |d.servers|
  {
    forall i :: 0 <= i <= CommitOf(c, a) && i <= CommitOf(d, b) ==>
                  i < |LogOf(c, a)| && i < |LogOf(d, b)| && LogOf(c, a)[i] == LogOf(d, b)[i]
  }

  /** State machine safety, between any two peers at any two moments. */
  ghost predicate CommitsAgree(run: seq<State>) {
    forall j, k, a: nat, b: nat ::
      0 <= j < |run| && 0 <= k < |run| && a < |run[j].servers| && b < |run[k].servers| ==>
        Agree(run[j], a, run[k], b)
  }

  /** A leader of a later term, or of the same term and later, has the entry that a peer holds as committed. */
  ghost predicate LeadersComplete(run: seq<State>) {
    forall j, k, a: nat, b: nat ::
      && 0 <= j < |run| && 0 <= k < |run| && a < |run[j].servers| && b < |run[k].servers|
      && run[k].servers[b].raft.role == Leader
      && (run[j].servers[a].raft.term < run[k].servers[b].raft.term
          || (run[j].servers[a].raft.term == run[k].servers[b].raft.term && j <= k))
      ==> CommitOf(run[j], a) < |LogOf(run[j], a)| && CommitOf(run[j], a) < |LogOf(run[k], b)|
          && LogOf(run[j], a)[..CommitOf(run[j], a) + 1] == LogOf(run[k], b)[..CommitOf(run[j], a) + 1]
  }

  /** Once committed at a peer, an entry stays in that peer's log, also across crashes. */
  ghost predicate CommitsStay(run: seq<State>) {
    forall j, k, a: nat ::
      0 <= j <= k < |run| && a < |run[j].servers| && a < |run[k].servers| ==>
        && CommitOf(run[j], a) < |LogOf(run[j], a)| && CommitOf(run[j], a) < |LogOf(run[k], a)|
        && LogOf(run[j], a)[..CommitOf(run[j], a) + 1] == LogOf(run[k], a)[..CommitOf(run[j], a) + 1]
  }

  /** The placeholder, positions as indices, terms that never go down and never pass the peer's own. */
  ghost predicate Shaped(s: RaftState) {
    && |s.log| >= 1
    && s.log[0] == PLACEHOLDER
    && (forall i :: 0 <= i < |s.log| ==> s.log[i].index == i && s.log[i].term <= s.term)
    && (forall i, j :: 0 <= i <= j < |s.log| ==> s.log[i].term <= s.log[j].term)
  }

  ghost predicate LogsShaped(run: seq<State>) {
    forall k, a: nat :: 0 <= k < |run| && a < |run[k].servers| ==> Shaped(run[k].servers[a].raft)
  }

  /** The message that the apply loop of peer i sends at moment k. */
  function AppliedAt(run: seq<State>, acts: seq<Action>, k: nat): ApplyMsg
    requires |run| == |acts| + 1 && k < |acts| && acts[k].ApplyNext?
    requires acts[k].i < |run[k].servers| && CanApply(run[k].servers[acts[k].i].raft)
  {
    Apply(run[k].servers[acts[k].i].raft).1
  }
}
