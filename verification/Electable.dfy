/** No reachable state is a dead end for elections: in every set of peers someone passes the log check of all, and
    from every state of every run, under any rules, the actions can go on to a leader of a new term. */
module Electable {
  import opened Options
  import opened RaftTypes
  import opened RaftHandlers
  import opened Cluster
  import opened Guarantees
  import opened Witnesses

  // ----- the log check

  /** The last entry of a is of a later term, or of the same term and not at a smaller index. */
  ghost predicate Passes(a: Log, b: Log) {
    LastTerm(a) > LastTerm(b) || (LastTerm(a) == LastTerm(b) && LastIndex(a) >= LastIndex(b))
  }

  lemma CheckIsPasses(s: RaftState, log: Log)
    ensures UpToDate(VoteRequest(s), log) <==> Passes(s.log, log)
  {
  }

  /** Of two peers at least one passes the check of the other. */
  lemma OneOfTwoPasses(s: RaftState, t: RaftState)
    ensures UpToDate(VoteRequest(s), t.log) || UpToDate(VoteRequest(t), s.log)
  {
    CheckIsPasses(s, t.log);
    CheckIsPasses(t, s.log);
  }

  /** In every set of peers someone passes the check of all of them. */
  lemma {:induction false} SomeonePasses(c: State, group: set<nat>) returns (i: nat)
    requires group != {} && forall j :: j in group ==> j < |c.servers|
    ensures i in group
    ensures forall j :: j in group ==> UpToDate(VoteRequest(c.servers[i].raft), c.servers[j].raft.log)
    decreases |group|
  {
    var x :| x in group;
    i := x;
    if group != {x} {
      var rest := group - {x};
      assert rest != {};
      i := SomeonePasses(c, rest);
      OneOfTwoPasses(c.servers[x].raft, c.servers[i].raft);
      if UpToDate(VoteRequest(c.servers[x].raft), c.servers[i].raft.log) {
        forall j | j in group ensures UpToDate(VoteRequest(c.servers[x].raft), c.servers[j].raft.log) {
          if j in rest { PassesOn(c.servers[x].raft, c.servers[i].raft, c.servers[j].raft.log); }
        }
        i := x;
      }
    }
  }

  lemma PassesOn(s: RaftState, t: RaftState, log: Log)
    requires UpToDate(VoteRequest(s), t.log) && UpToDate(VoteRequest(t), log)
    ensures UpToDate(VoteRequest(s), log)
  {
  }

  // ----- who is who

  ghost predicate Known(c: State, n: nat) {
    |c.servers| == n && forall i :: 0 <= i < n ==> c.servers[i].raft.me == i && c.servers[i].raft.peers == n
  }

  /** No handler changes who a peer is. */
  lemma SameIdentity(rules: Rules, s: RaftState, a: AppendArgs, v: VoteArgs, f: nat, r: AppendReply)
    ensures HandleAppend(rules, s, a).0.me == s.me && HandleAppend(rules, s, a).0.peers == s.peers
    ensures HandleVote(s, v).0.me == s.me && HandleVote(s, v).0.peers == s.peers
    ensures f < |s.nextIndex| == |s.matchIndex| ==>
              HandleReply(rules, s, f, a, r).me == s.me && HandleReply(rules, s, f, a, r).peers == s.peers
  {
  }

  lemma StepKeepsKnown(rules: Rules, c: State, a: Action, n: nat)
    requires Known(c, n) && Enabled(rules, c, a)
    ensures Known(Next(rules, c, a), n)
  {
    match a
    case Exchange(i, to) =>
      var args := BuildAppend(c.servers[i].raft, to);
      var (q, r) := HandleAppend(rules, c.servers[to].raft, args);
      SameIdentity(rules, c.servers[to].raft, args, VoteArgs(0, 0, 0, 0), to, r);
      SameIdentity(rules, c.servers[i].raft, args, VoteArgs(0, 0, 0, 0), to, r);
    case ExchangeLost(i, to) =>
      SameIdentity(rules, c.servers[i].raft, BuildAppend(c.servers[i].raft, to), VoteArgs(0, 0, 0, 0), to, LOST);
    case LateDelivery(AppendMsg(to, args)) =>
      SameIdentity(rules, c.servers[to].raft, args, VoteArgs(0, 0, 0, 0), 0, LOST);
    case _ =>
  }

  lemma {:induction false} KnownHolds(rules: Rules, n: nat, run: seq<State>, acts: seq<Action>, k: nat)
    requires IsRun(rules, n, run, acts) && k <= |acts|
    ensures Known(run[k], n)
    decreases k
  {
    if k > 0 {
      KnownHolds(rules, n, run, acts, k - 1);
      assert Taken(rules, run[k - 1], acts[k - 1], run[k - 1 + 1]);
      StepKeepsKnown(rules, run[k - 1], acts[k - 1], n);
    }
  }

  // ----- towards a leader

  ghost predicate TermsBelow(c: State, t: nat) {
    forall i :: 0 <= i < |c.servers| ==> c.servers[i].raft.term < t
  }

  ghost predicate SameTerms(c: State, d: State) {
    |d.servers| == |c.servers|
    && forall i :: 0 <= i < |c.servers| ==> d.servers[i].raft.term == c.servers[i].raft.term
  }

  /** Elections that are going on can be brought to their end, one after the other. */
  lemma {:induction false} Settle(rules: Rules, from: State, c: State, n: nat, k: nat) returns (d: State)
    requires Reached(rules, from, {}, c) && Known(c, n) && k <= n
    ensures Reached(rules, from, {}, d) && Known(d, n) && SameTerms(c, d)
    ensures forall i :: 0 <= i < k ==> d.servers[i].tally.None?
    decreases k
  {
    d := c;
    if k > 0 {
      d := Settle(rules, from, c, n, k - 1);
      if d.servers[k - 1].tally.Some? {
        var a := FinishCampaign(k - 1);
        Go(rules, from, {}, d, a);
        FinishSettles(rules, d, k - 1, n);
        d := Next(rules, d, a);
      }
    }
  }

  lemma FinishSettles(rules: Rules, c: State, i: nat, n: nat)
    requires Known(c, n) && i < n && c.servers[i].tally.Some?
    ensures
      var d := Next(rules, c, FinishCampaign(i));
      && Known(d, n) && SameTerms(c, d) && d.servers[i].tally.None?
      && forall j :: 0 <= j < n && j != i ==> d.servers[j] == c.servers[j]
  {
  }

  /** A state without elections, as a scene. */
  ghost function SceneOf(c: State, from: State): (x: Scene)
    ensures |x.rs| == |c.servers| && forall i :: 0 <= i < |c.servers| ==> x.rs[i] == c.servers[i].raft
    ensures x.from == from && x.led == {}
  {
    Scene(seq(|c.servers|, i requires 0 <= i < |c.servers| => c.servers[i].raft),
          (set i: nat | i < |c.servers| && c.servers[i].sawLeader), c.net, {}, from)
  }

  lemma SceneIs(c: State, from: State)
    requires forall i :: 0 <= i < |c.servers| ==> c.servers[i].tally.None?
    ensures Idle(SceneOf(c, from)) == c
  {
    var x := SceneOf(c, from);
    forall i | 0 <= i < |c.servers| ensures Idle(x).servers[i] == c.servers[i] {}
  }

  /** All other peers are as before; peer b has the same log and may run. */
  ghost predicate OnlyTermOf(x: Scene, y: Scene, b: nat) {
    && b < |x.rs| == |y.rs| && y == x.(rs := x.rs[b := y.rs[b]])
    && MayRun(y, b) && y.rs[b].log == x.rs[b].log
  }

  /** By campaigning alone a peer comes to any later term. */
  lemma {:induction false} CatchesUp(rules: Rules, x: Scene, b: nat, t: nat) returns (y: Scene)
    requires Played(rules, x) && |x.rs| >= 2 && MayRun(x, b)
    ensures Played(rules, y) && OnlyTermOf(x, y, b) && y.rs[b].term >= t && y.rs[b].term >= x.rs[b].term
    decreases t - x.rs[b].term
  {
    if x.rs[b].term >= t {
      y := x;
    } else {
      CampaignsAlone(rules, x, b);
      var x1 := x.(rs := x.rs[b := Persist(Campaign(x.rs[b]))]);
      y := CatchesUp(rules, x1, b, t);
      assert y.rs == x.rs[b := y.rs[b]];
    }
  }

  /** Everybody votes for a candidate of a new term that passes all log checks. */
  ghost predicate Favourite(x: Scene, b: nat) {
    && MayRun(x, b)
    && forall j :: 0 <= j < |x.rs| && j != b ==> Willing(x.rs[j], x.rs[b], x.rs[b].term + 1)
  }

  /** The peers below k but b. */
  ghost predicate Others(q: set<nat>, b: nat, k: nat) {
    && |q| == (if b < k then k - 1 else k)
    && forall v: nat :: v in q <==> v < k && v != b
  }

  lemma OneMore(q: set<nat>, b: nat, k: nat)
    requires Others(q, b, k)
    ensures k != b ==> Others(q + {k}, b, k + 1)
    ensures k == b ==> Others(q, b, k + 1)
  {
  }

  /** The first k peers have been asked. */
  ghost predicate Asked(x: Scene, y: Scene, b: nat, k: nat) {
    && b < |x.rs| == |y.rs| && y == x.(rs := y.rs) && y.rs[b] == x.rs[b]
    && forall j :: k <= j < |x.rs| ==> y.rs[j] == x.rs[j]
  }

  lemma {:induction false} Canvass(rules: Rules, x: Scene, b: nat, k: nat) returns (y: Scene, q: set<nat>)
    requires Played(rules, x) && Favourite(x, b) && k <= |x.rs|
    ensures Asked(x, y, b, k) && Others(q, b, k) && Reached(rules, x.from, x.led, Campaigning(y, b, q))
    decreases k
  {
    if k == 0 {
      y, q := x, {};
      StartsCampaign(rules, x, b);
    } else {
      y, q := Canvass(rules, x, b, k - 1);
      OneMore(q, b, k - 1);
      if k - 1 != b {
        y := AsksOne(rules, x, y, b, k - 1, q);
        q := q + {k - 1};
      }
    }
  }

  lemma AsksOne(rules: Rules, x: Scene, z: Scene, b: nat, v: nat, q: set<nat>) returns (y: Scene)
    requires Favourite(x, b) && Asked(x, z, b, v) && v < |x.rs| && v != b && v !in q
    requires Reached(rules, x.from, x.led, Campaigning(z, b, q))
    ensures Asked(x, y, b, v + 1) && Reached(rules, x.from, x.led, Campaigning(y, b, q + {v}))
  {
    GetsVote(rules, z, b, v, q);
    y := z.(rs := z.rs[v := Voted(z.rs[v], b, z.rs[b].term + 1)]);
  }

  lemma FavouriteWins(rules: Rules, x: Scene, b: nat) returns (y: Scene)
    requires Played(rules, x) && Favourite(x, b)
    ensures Played(rules, y) && y.from == x.from && b < |y.rs|
    ensures y.rs[b].role == Leader && y.rs[b].term == x.rs[b].term + 1
  {
    var z, q := Canvass(rules, x, b, |x.rs|);
    WinsCampaign(rules, z, b, q);
    y := Winner(rules, z, b);
  }

  lemma {:induction false} Everyone(n: nat) returns (q: set<nat>)
    ensures forall i: nat :: i in q <==> i < n
    decreases n
  {
    q := {};
    if n > 0 {
      q := Everyone(n - 1);
      q := q + {n - 1};
    }
  }

  function Highest(ts: seq<RaftState>): (t: nat)
    ensures forall i :: 0 <= i < |ts| ==> ts[i].term <= t
  {
    if ts == [] then 0
    else
      var r := Highest(ts[..|ts| - 1]);
      var s := ts[|ts| - 1].term;
      assert forall i :: 0 <= i < |ts| - 1 ==> ts[..|ts| - 1][i] == ts[i];
      if s > r then s else r
  }

  /** A peer that passes all checks steps down if it leads, catches up with all terms, and runs. */
  lemma ElectsFrom(rules: Rules, x: Scene, n: nat, b: nat) returns (y: Scene)
    requires Played(rules, x) && |x.rs| == n >= 1 && b < n
    requires forall i :: 0 <= i < n ==> x.rs[i].me == i && x.rs[i].peers == n
    requires forall j :: 0 <= j < n ==> UpToDate(VoteRequest(x.rs[b]), x.rs[j].log)
    ensures Played(rules, y) && y.from == x.from && b < |y.rs| && y.rs[b].role == Leader
    ensures forall j :: 0 <= j < n ==> x.rs[j].term < y.rs[b].term
  {
    Resigns(rules, x, b);
    var x1 := x.(rs := x.rs[b := StepDown(x.rs[b])]);
    var x2 := x1;
    if n >= 2 { x2 := CatchesUp(rules, x1, b, Highest(x1.rs)); }
    forall j | 0 <= j < n && j != b ensures Willing(x2.rs[j], x2.rs[b], x2.rs[b].term + 1) {
      assert x2.rs[j] == x.rs[j] && x1.rs[j] == x.rs[j];
      assert UpToDate(VoteRequest(x.rs[b]), x.rs[j].log);
    }
    y := FavouriteWins(rules, x2, b);
    forall j | 0 <= j < n ensures x.rs[j].term < y.rs[b].term {
      assert x1.rs[j].term == x.rs[j].term;
    }
  }

  lemma Elects(rules: Rules, c: State, n: nat) returns (d: State, b: nat, t: nat)
    requires Known(c, n) && n >= 1
    ensures Reached(rules, c, {}, d) && LeadsIn(d, b, t)
    ensures TermsBelow(c, t)
  {
    Begin(rules, c);
    var e := Settle(rules, c, c, n, n);
    var x := SceneOf(e, c);
    SceneIs(e, c);
    var all := Everyone(n);
    assert 0 in all;
    b := SomeonePasses(e, all);
    var y := ElectsFrom(rules, x, n, b);
    Forgets(rules, y, {});
    d, t := Idle(y.(led := {})), y.rs[b].term;
    forall i | 0 <= i < n ensures c.servers[i].raft.term < t { assert x.rs[i].term == e.servers[i].raft.term; }
  }

  // ----- the run goes on

  ghost predicate Continues(run: seq<State>, acts: seq<Action>, run': seq<State>, acts': seq<Action>) {
    run <= run' && acts <= acts'
  }

  lemma Joins(rules: Rules, n: nat, run: seq<State>, acts: seq<Action>, more: seq<State>, steps: seq<Action>)
    returns (run': seq<State>, acts': seq<Action>)
    requires IsRun(rules, n, run, acts) && Walk(rules, run[|run| - 1], more, steps)
    ensures IsRun(rules, n, run', acts') && Continues(run, acts, run', acts')
    ensures run'[|run'| - 1] == more[|more| - 1]
  {
    run', acts' := run + more[1..], acts + steps;
    forall k | 0 <= k < |acts'| ensures Taken(rules, run'[k], acts'[k], run'[k + 1]) {
      if k < |acts| {
        assert Taken(rules, run[k], acts[k], run[k + 1]);
      } else {
        var j := k - |acts|;
        assert Taken(rules, more[j], steps[j], more[j + 1]);
        assert run'[k] == more[j];
      }
    }
  }

  /** An election is always possible: every run can go on to a state with a leader of a term later than all there
      were, whatever was lost, crashed or cut on the way, and under any rules. */
  lemma LeaderCanBeElected(rules: Rules, n: nat, run: seq<State>, acts: seq<Action>)
    returns (run': seq<State>, acts': seq<Action>, i: nat, t: nat)
    requires IsRun(rules, n, run, acts) && n >= 1
    ensures IsRun(rules, n, run', acts') && Continues(run, acts, run', acts')
    ensures LeadsIn(run'[|run'| - 1], i, t)
    ensures TermsBelow(run[|run| - 1], t)
  {
    KnownHolds(rules, n, run, acts, |acts|);
    var c := run[|run| - 1];
    var d;
    d, i, t := Elects(rules, c, n);
    var more, steps :| EndsIn(rules, c, more, steps, {}, d);
    run', acts' := Joins(rules, n, run, acts, more, steps);
  }
}
