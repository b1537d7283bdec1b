/** Ordinary runs, under any rules: that the model can do what the program is for. */
module Scenarios {
  import opened Options
  import opened RaftTypes
  import opened RaftHandlers
  import opened Cluster
  import opened Guarantees
  import opened Witnesses
  import opened Necessity

  // ----- a command is committed, applied, and applied again after a crash

  ghost predicate AppliesCommand(run: seq<State>, acts: seq<Action>, k: nat, i: nat, m: ApplyMsg) {
    && |run| == |acts| + 1 && k < |acts| && acts[k] == ApplyNext(i) && i < |run[k].servers|
    && CanApply(run[k].servers[i].raft) && AppliedAt(run, acts, k) == m
  }

  /** The scene is reached by a run that did what `done` says: at the given moments peers applied the messages. */
  ghost predicate After(rules: Rules, c: State, applied: seq<(nat, ApplyMsg)>) {
    exists run, acts, at: seq<nat> :: EndsAfter(rules, c, applied, run, acts, at)
  }

  ghost predicate EndsAfter(rules: Rules, c: State, applied: seq<(nat, ApplyMsg)>, run: seq<State>, acts: seq<Action>,
                            at: seq<nat>)
  {
    && IsRun(rules, 3, run, acts) && run[|run| - 1] == c && |at| == |applied|
    && (forall x, y :: 0 <= x < y < |at| ==> at[x] < at[y])
    && forall x :: 0 <= x < |at| ==> AppliesCommand(run, acts, at[x], applied[x].0, applied[x].1)
  }

  lemma GoesOn(rules: Rules, c: State, applied: seq<(nat, ApplyMsg)>, a: Action)
    requires After(rules, c, applied) && Enabled(rules, c, a)
    ensures After(rules, Next(rules, c, a), applied)
  {
    var run, acts, at: seq<nat> :| EndsAfter(rules, c, applied, run, acts, at);
    var run', acts' := Extend(rules, run, acts, a);
    forall x | 0 <= x < |at| ensures AppliesCommand(run', acts', at[x], applied[x].0, applied[x].1) {
      assert AppliesCommand(run, acts, at[x], applied[x].0, applied[x].1);
    }
    assert EndsAfter(rules, Next(rules, c, a), applied, run', acts', at);
  }

  lemma AppliesMore(rules: Rules, c: State, applied: seq<(nat, ApplyMsg)>, i: nat)
    requires After(rules, c, applied) && Enabled(rules, c, ApplyNext(i))
    ensures After(rules, Next(rules, c, ApplyNext(i)), applied + [(i, Apply(c.servers[i].raft).1)])
  {
    var run, acts, at: seq<nat> :| EndsAfter(rules, c, applied, run, acts, at);
    var run', acts' := Extend(rules, run, acts, ApplyNext(i));
    var more := applied + [(i, Apply(c.servers[i].raft).1)];
    var at': seq<nat> := at + [|acts|];
    forall x | 0 <= x < |at'| ensures AppliesCommand(run', acts', at'[x], more[x].0, more[x].1) {
      if x < |at| { assert AppliesCommand(run, acts, at[x], applied[x].0, applied[x].1); }
    }
    forall x, y | 0 <= x < y < |at'| ensures at'[x] < at'[y] {
      if y == |at| { assert AppliesCommand(run, acts, at[x], applied[x].0, applied[x].1); }
    }
    assert EndsAfter(rules, Next(rules, c, ApplyNext(i)), more, run', acts', at');
  }

  lemma Extend(rules: Rules, run: seq<State>, acts: seq<Action>, a: Action)
    returns (run': seq<State>, acts': seq<Action>)
    requires IsRun(rules, 3, run, acts) && Enabled(rules, run[|run| - 1], a)
    ensures IsRun(rules, 3, run', acts') && run' == run + [Next(rules, run[|run| - 1], a)] && acts' == acts + [a]
  {
    run', acts' := run + [Next(rules, run[|run| - 1], a)], acts + [a];
    forall k | 0 <= k < |acts'| ensures Taken(rules, run'[k], acts'[k], run'[k + 1]) {
      if k < |acts| { assert Taken(rules, run[k], acts[k], run[k + 1]); }
    }
  }

  lemma Opened(rules: Rules, x: Scene)
    requires Played(rules, x) && x.from == Init(3)
    ensures After(rules, Idle(x), [])
  {
    var run, acts :| EndsIn(rules, x.from, run, acts, x.led, Idle(x));
    assert EndsAfter(rules, Idle(x), [], run, acts, []);
  }

  // ----- the scenes

  const MSG := ApplyMsg(Op(0), 1)

  /** Peer 0 has committed its entry; `p` is peer 1. */
  function Committed(rules: Rules, s: RaftState, p: RaftState): State {
    Idle(First3(rules).(rs := [s, p, Boot(2, 3, None)]))
  }

  function Leading(rules: Rules): RaftState {
    LeaderOne(rules, [PLACEHOLDER, A1], 1, 2, 1, 1)
  }

  /** The heartbeat that tells peer 1 that the entry is committed. */
  lemma HeartbeatCommits(rules: Rules, s: RaftState, p: RaftState)
    requires s == Leading(rules).(lastApplied := s.lastApplied)
    requires p.term == 1 && p.log == [PLACEHOLDER, A1] && p.commitIndex == 0
    ensures Sendable(s, 1) && Exchanged(rules, s, p, 1) == (Persist(p.(commitIndex := 1)), s)
  {
    var a := BuildAppend(s, 1);
    assert a == AppendArgs(1, 0, 1, 1, [], 1);
    assert p.log + [] == p.log;
    assert s.nextIndex[1 := 2] == s.nextIndex && s.matchIndex[1 := 1] == s.matchIndex;
  }

  lemma Told(rules: Rules, s: RaftState, p: RaftState, applied: seq<(nat, ApplyMsg)>)
    requires s == Leading(rules).(lastApplied := s.lastApplied)
    requires p.me == 1 && p.term == 1 && p.log == [PLACEHOLDER, A1] && p.commitIndex == 0
    requires After(rules, Committed(rules, s, p), applied)
    ensures After(rules, Committed(rules, s, Persist(p.(commitIndex := 1))), applied)
  {
    HeartbeatCommits(rules, s, p);
    var c, d := Committed(rules, s, p), Committed(rules, s, Persist(p.(commitIndex := 1)));
    GoesOn(rules, c, applied, Exchange(0, 1));
    assert Next(rules, c, Exchange(0, 1)).servers == d.servers;
  }

  lemma FirstCommitted(rules: Rules)
    ensures After(rules, Committed(rules, Leading(rules), FollowerOne([PLACEHOLDER, A1], 0)), [])
  {
    EntryIsMade(rules);
    FirstEntryFits(rules);
    var x := Pair(rules, LeaderOne(rules, [PLACEHOLDER, A1], 0, 1, 1, 0), FollowerOne(P, 0), multiset{});
    var s, p := Leading(rules), FollowerOne([PLACEHOLDER, A1], 0);
    Exchanges(rules, x, 0, 1, p, s);
    var y := x.(rs := x.rs[1 := p][0 := s]);
    assert y.rs == [s, p, Boot(2, 3, None)];
    Opened(rules, y);
  }

  /** A client's command is committed by two of three peers, applied by the leader and by the other, and applied again
      by the other after a crash. */
  lemma CommandIsApplied(rules: Rules)
    ensures exists c :: After(rules, c, [(0, MSG), (1, MSG), (1, MSG)])
  {
    var s, p := Leading(rules), FollowerOne([PLACEHOLDER, A1], 0);
    FirstCommitted(rules);
    var c := Committed(rules, s, p);
    AppliesMore(rules, c, [], 0);
    var s1 := s.(lastApplied := 1);
    assert Next(rules, c, ApplyNext(0)).servers == Committed(rules, s1, p).servers;
    assert [] + [(0, MSG)] == [(0, MSG)];
    Told(rules, s1, p, [(0, MSG)]);
    var q := Persist(p.(commitIndex := 1));
    AppliesMore(rules, Committed(rules, s1, q), [(0, MSG)], 1);
    assert [(0, MSG)] + [(1, MSG)] == [(0, MSG), (1, MSG)];
    var q1 := q.(lastApplied := 1);
    assert Next(rules, Committed(rules, s1, q), ApplyNext(1)).servers == Committed(rules, s1, q1).servers;
    AgainAfterCrash(rules, s1, q1);
  }

  lemma AgainAfterCrash(rules: Rules, s: RaftState, p: RaftState)
    requires s == Leading(rules).(lastApplied := s.lastApplied)
    requires p.me == 1 && p.peers == 3 && p.disk == Some(Persistent(1, 0, [PLACEHOLDER, A1]))
    requires After(rules, Committed(rules, s, p), [(0, MSG), (1, MSG)])
    ensures exists c :: After(rules, c, [(0, MSG), (1, MSG), (1, MSG)])
  {
    var c, r := Committed(rules, s, p), Restart(p);
    GoesOn(rules, c, [(0, MSG), (1, MSG)], CrashRestart(1));
    assert Next(rules, c, CrashRestart(1)).servers == Committed(rules, s, r).servers;
    Told(rules, s, r, [(0, MSG), (1, MSG)]);
    var q := Persist(r.(commitIndex := 1));
    AppliesMore(rules, Committed(rules, s, q), [(0, MSG), (1, MSG)], 1);
    assert [(0, MSG), (1, MSG)] + [(1, MSG)] == [(0, MSG), (1, MSG), (1, MSG)];
  }

  // ----- a vote that comes too late

  const LATE := VoteMsg(1, VoteArgs(1, 0, 0, 0))

  /** Peer 0 has run in term 1 and lost, and its request to peer 1 is still on its way. */
  function Beaten(): Scene {
    Scene([P3(0, Candidate, 1, 0, P, 0, Z3, Z3), Boot(1, 3, None), Boot(2, 3, None)], {}, multiset{LATE}, {}, Init(3))
  }

  lemma LosesWithoutReply(rules: Rules)
    ensures Played(rules, Beaten())
  {
    var x := Boots(3);
    Opens(rules, 3);
    StartsCampaign(rules, x, 0);
    var c0 := Campaigning(x, 0, {});
    Go(rules, Init(3), {}, c0, PollLost(0, 1));
    Boots3(0);
    var c1 := AskedInVain();
    assert Next(rules, c0, PollLost(0, 1)) == c1 by {
      assert {} + {1} == {1} && {0} + {} == {0};
      assert Next(rules, c0, PollLost(0, 1)).servers == c1.servers;
    }
    VainCount(rules);
    Go(rules, Init(3), {}, c1, FinishCampaign(0));
  }

  /** Peer 0 has asked peer 1 and gets no reply. */
  function AskedInVain(): State {
    State([Server(Campaign(Boot(0, 3, None)), Some(Tally(VoteArgs(1, 0, 0, 0), {1}, {0})), false),
           Server(Boot(1, 3, None), None, false), Server(Boot(2, 3, None), None, false)], multiset{LATE})
  }

  lemma VainCount(rules: Rules)
    ensures Enabled(rules, AskedInVain(), FinishCampaign(0))
    ensures Next(rules, AskedInVain(), FinishCampaign(0)) == Idle(Beaten())
  {
    Boots3(0);
    assert Next(rules, AskedInVain(), FinishCampaign(0)).servers == Idle(Beaten()).servers;
  }

  /** A vote request whose reply is not seen still binds the voter: peer 0 loses term 1, then peer 1 votes for it. */
  lemma LateVoteBinds(rules: Rules) returns (c: State)
    ensures Reached(rules, Init(3), {}, c) && |c.servers| == 3
    ensures c.servers[0].raft.role == Candidate && c.servers[0].raft.term == 1
    ensures c.servers[1].raft.term == 1 && c.servers[1].raft.votedFor == 0
  {
    LosesWithoutReply(rules);
    Go(rules, Init(3), {}, Idle(Beaten()), LateDelivery(LATE));
    c := Next(rules, Idle(Beaten()), LateDelivery(LATE));
  }
}
