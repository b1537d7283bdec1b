/** Crashes in the cluster, under any rules: any peer at any moment, and what comes back. */
module Recovery {
  import opened Options
  import opened RaftTypes
  import opened RaftHandlers
  import opened Cluster

  /** Between elections everything persistent is saved; during one, all but the new term and the own vote. */
  ghost predicate SavedOk(v: Server) {
    var s, p := v.raft, Stable(v.raft);
    && (v.tally.None? ==> p == Persistent(s.term, s.votedFor, s.log))
    && (v.tally.Some? ==> p.log == s.log && p.term + 1 == v.tally.value.args.term <= s.term)
  }

  ghost predicate SavedInv(c: State) {
    forall i :: 0 <= i < |c.servers| ==> SavedOk(c.servers[i])
  }

  lemma ReplaceSaved(c: State, d: State, i: nat)
    requires SavedInv(c) && i < |c.servers| == |d.servers| && d.servers == c.servers[i := d.servers[i]]
    requires SavedOk(d.servers[i])
    ensures SavedInv(d)
  {
  }

  lemma PollSaved(rules: Rules, c: State, i: nat, to: nat)
    requires SavedInv(c) && Enabled(rules, c, Poll(i, to))
    ensures SavedInv(Next(rules, c, Poll(i, to)))
  {
    var d := With(c, to, HandleVote(c.servers[to].raft, c.servers[i].tally.value.args).0);
    ReplaceSaved(c, d, to);
    ReplaceSaved(d, Next(rules, c, Poll(i, to)), i);
  }

  lemma ExchangeSaved(rules: Rules, c: State, i: nat, to: nat)
    requires SavedInv(c) && Enabled(rules, c, Exchange(i, to))
    ensures SavedInv(Next(rules, c, Exchange(i, to)))
  {
    var d := With(c, to, HandleAppend(rules, c.servers[to].raft, BuildAppend(c.servers[i].raft, to)).0);
    ReplaceSaved(c, d, to);
    ReplaceSaved(d, Next(rules, c, Exchange(i, to)), i);
  }

  lemma LateSaved(rules: Rules, c: State, m: Message)
    requires SavedInv(c) && Enabled(rules, c, LateDelivery(m))
    ensures SavedInv(Next(rules, c, LateDelivery(m)))
  {
    ReplaceSaved(c, Next(rules, c, LateDelivery(m)), m.to);
  }

  lemma OtherSaved(rules: Rules, c: State, a: Action)
    requires SavedInv(c) && Enabled(rules, c, a) && !a.Poll? && !a.Exchange? && !a.LateDelivery?
    ensures SavedInv(Next(rules, c, a))
  {
    assert SavedOk(c.servers[a.i]);
    ReplaceSaved(c, Next(rules, c, a), a.i);
  }

  lemma StepKeepsSaved(rules: Rules, c: State, a: Action)
    requires SavedInv(c) && Enabled(rules, c, a)
    ensures SavedInv(Next(rules, c, a))
  {
    match a
    case Poll(i, to) => PollSaved(rules, c, i, to);
    case Exchange(i, to) => ExchangeSaved(rules, c, i, to);
    case LateDelivery(m) => LateSaved(rules, c, m);
    case _ => OtherSaved(rules, c, a);
  }

  lemma {:induction false} SavedHolds(rules: Rules, n: nat, run: seq<State>, acts: seq<Action>, k: nat)
    requires IsRun(rules, n, run, acts) && k <= |acts|
    ensures SavedInv(run[k])
    decreases k
  {
    if k > 0 {
      SavedHolds(rules, n, run, acts, k - 1);
      assert Taken(rules, run[k - 1], acts[k - 1], run[k - 1 + 1]);
      StepKeepsSaved(rules, run[k - 1], acts[k - 1]);
    }
  }

  /** A crash is possible in every state of every run and for every peer. The log comes back, always; term and vote come
      back between elections; a crash in the middle of an election forgets the new term and the own vote for it.
      Everything else starts afresh, and nobody else notices. */
  lemma CrashComesBack(rules: Rules, n: nat, run: seq<State>, acts: seq<Action>, k: nat, i: nat)
    requires IsRun(rules, n, run, acts) && k <= |acts| && i < |run[k].servers|
    ensures Enabled(rules, run[k], CrashRestart(i))
    ensures
      var c, d := run[k], Next(rules, run[k], CrashRestart(i));
      var s, t := c.servers[i].raft, d.servers[i].raft;
      && d.net == c.net && d.servers == c.servers[i := d.servers[i]]
      && d.servers[i].tally.None? && !d.servers[i].sawLeader
      && t.log == s.log && t.role == Follower && t.commitIndex == 0 && t.lastApplied == 0
      && (c.servers[i].tally.None? ==> t.term == s.term && t.votedFor == s.votedFor)
      && (c.servers[i].tally.Some? ==> t.term + 1 == c.servers[i].tally.value.args.term <= s.term)
  {
    SavedHolds(rules, n, run, acts, k);
    assert SavedOk(run[k].servers[i]);
  }
}
