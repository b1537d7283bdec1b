/** The first four rules are needed: with the code as written in the place of one, some run of three peers breaks
    the guarantees, whatever the other five are. */
module Necessity {
  import opened Options
  import opened RaftTypes
  import opened RaftHandlers
  import opened Cluster
  import opened Guarantees
  import opened Witnesses

  // ----- three peers

  const Z3: seq<int> := [0, 0, 0]
  const P: Log := [PLACEHOLDER]

  function P3(me: nat, role: Role, term: nat, voted: int, log: Log, commit: nat, next: seq<int>, matched: seq<int>)
    : RaftState
  {
    Peer(me, 3, role, term, voted, log, commit, next, matched)
  }

  /** votedFor of a winner. */
  function VoteOf(rules: Rules, i: nat): int {
    if rules.keepVote then i else NOBODY
  }

  /** A leader of term t whose log is only the placeholder. */
  function Fresh3(rules: Rules, i: nat, t: nat): RaftState {
    P3(i, Leader, t, VoteOf(rules, i), P, 0, [1, 1, 1], Z3)
  }

  function Voter(t: nat, i: nat): RaftState {
    P3(1, Follower, t, i, P, 0, Z3, Z3)
  }

  lemma Count3(ms: seq<int>, n: int)
    requires |ms| == 3
    ensures CountAtLeast(ms, n) ==
            (if ms[0] >= n then 1 else 0) + (if ms[1] >= n then 1 else 0) + (if ms[2] >= n then 1 else 0)
  {
    var a, b := ms[..2], ms[..2][..1];
    assert b[..0] == [] && CountAtLeast(b, n) == if ms[0] >= n then 1 else 0;
    assert CountAtLeast(a, n) == CountAtLeast(b, n) + if ms[1] >= n then 1 else 0;
  }

  lemma Boots3(i: nat)
    requires i < 3
    ensures Boot(i, 3, None) == RaftState(i, 3, Follower, 0, NOBODY, P, 0, 0, Z3, Z3, None)
  {
  }

  /** A winner, its lists written out. */
  lemma Wins3(rules: Rules, s: RaftState)
    requires s.peers == 3 && s.me < 3 && s.lastApplied == 0
    ensures
      var l := LastIndex(s.log);
      Won(rules, s) == P3(s.me, Leader, s.term + 1, VoteOf(rules, s.me), s.log, s.commitIndex, [l + 1, l + 1, l + 1],
                          Z3[s.me := l])
  {
    var l := LastIndex(s.log);
    var t := Promote(rules, Campaign(s));
    assert t.nextIndex == [l + 1, l + 1, l + 1];
    assert t.matchIndex == Z3[s.me := l];
  }

  /** Peer 0 as the winner of term 1, having read its role, and peer 1 as its voter. */
  function First3(rules: Rules): Scene {
    Scene([Fresh3(rules, 0, 1), Voter(1, 0), Boot(2, 3, None)], {0}, multiset{}, {Tenure(0, 1, P)}, Init(3))
  }

  lemma FirstWin3(rules: Rules)
    ensures Played(rules, First3(rules))
  {
    var x := Boots(3);
    Opens(rules, 3);
    Boots3(0);
    Boots3(1);
    Wins3(rules, x.rs[0]);
    WinsThree(rules, x, 0, 1);
    var y := Winner(rules, Votes(x, 1, 0), 0);
    assert Z3[0 := 0] == Z3;
    Reads(rules, y, 0);
    assert y.rs == First3(rules).rs;
    assert y.(saw := y.saw + {0}) == First3(rules);
  }

  // ----- two peers that write in one term

  const X2 := Entry(2, 1, Op(0))
  const Y2 := Entry(2, 1, Op(1))

  /** Peers 0 and 2 both may append in term 2, and peer 1 will accept both. */
  predicate Writers(rules: Rules, x: Scene) {
    && |x.rs| == 3 && MayAct(rules, x, 0) && MayAct(rules, x, 2)
    && x.rs[0] == P3(0, x.rs[0].role, 2, x.rs[0].votedFor, P, 0, [1, 1, 1], Z3)
    && x.rs[1] == Voter(2, 2)
    && x.rs[2] == P3(2, x.rs[2].role, 2, x.rs[2].votedFor, P, 0, [1, 1, 1], Z3)
  }

  /** Peer 0 or 2 with its own entry at index 1. */
  function Wrote(s: RaftState, e: Entry, commit: nat, next: int, matched: int): RaftState {
    P3(s.me, s.role, 2, s.votedFor, [PLACEHOLDER, e], commit, [1, next, 1],
       [if s.me == 0 then 1 else 0, matched, if s.me == 2 then 1 else 0])
  }

  lemma WritersCommand(rules: Rules, x: Scene)
    requires Played(rules, x) && Writers(rules, x)
    ensures Played(rules, x.(rs := [Wrote(x.rs[0], X2, 0, 1, 0), x.rs[1], Wrote(x.rs[2], Y2, 0, 1, 0)]))
  {
    var s0, s2 := Wrote(x.rs[0], X2, 0, 1, 0), Wrote(x.rs[2], Y2, 0, 1, 0);
    StartIs(x.rs[0], Op(0), s0);
    StartIs(x.rs[2], Op(1), s2);
    Commands(rules, x, 0, Op(0));
    var y := x.(rs := x.rs[0 := s0]);
    Commands(rules, y, 2, Op(1));
    assert y.rs[2 := s2] == [s0, x.rs[1], s2];
  }

  /** Peer 2 commits its entry on itself and peer 1. */
  lemma SecondCommits(rules: Rules, s: RaftState, p: RaftState)
    requires s == Wrote(s, Y2, 0, 1, 0) && s.me == 2 && p == Voter(2, 2)
    ensures Sendable(s, 1)
    ensures Exchanged(rules, s, p, 1) == (Persist(p.(log := [PLACEHOLDER, Y2])), Wrote(s, Y2, 1, 2, 1))
  {
    var a := BuildAppend(s, 1);
    assert a == AppendArgs(2, 2, 0, 0, [Y2], 0);
    assert p.log + a.entries == [PLACEHOLDER, Y2];
    HeardFits(rules, s, p, 1);
    var t := Noted(s, 1, 2, 1);
    Count3(t.matchIndex, 1);
    CommitsTo(rules, t, 1);
    assert t.nextIndex == [1, 2, 1] && t.matchIndex == [0, 1, 1];
  }

  /** Peer 1 sees no conflict in an entry of the same term, and peer 0 commits its own. */
  lemma FirstCommits(rules: Rules, s: RaftState, p: RaftState) returns (q: RaftState, t: RaftState)
    requires s == Wrote(s, X2, 0, 1, 0) && s.me == 0 && p.term == 2 && p.log == [PLACEHOLDER, Y2]
    ensures Sendable(s, 1) && Exchanged(rules, s, p, 1) == (q, t)
    ensures t.commitIndex == 1 && t.log == s.log && t.role == s.role && t.term == s.term
  {
    var a := BuildAppend(s, 1);
    assert a == AppendArgs(2, 0, 0, 0, [X2], 0);
    assert !Conflicts(p.log, X2) && FirstConflict(p.log, [X2][1..]) == 0;
    assert FirstConflict(p.log, a.entries) == 1;
    var out := HandleAppend(rules, p, a);
    assert out.1.success && out.1.nextIndex >= 2 && out.1.term == 0;
    var u := NoteReply(rules, s, 1, a, out.1);
    assert u.matchIndex[0] == 1 && u.matchIndex[1] >= 1;
    Count3(u.matchIndex, 1);
    CommitsTo(rules, u, 1);
    q, t := out.0, HandleReply(rules, s, 1, a, out.1);
  }

  lemma WritersDisagree(rules: Rules, x: Scene) returns (y: Scene)
    requires Played(rules, x) && Writers(rules, x)
    ensures Played(rules, y) && y.led == x.led && y.from == x.from && |y.rs| == 3
    ensures Conflict(y, 0, 2, 1) && Mismatch(y, 0, 2, 1, 1)
    ensures y.rs[0].log == [PLACEHOLDER, X2] && y.rs[0].role == x.rs[0].role && y.rs[0].term == 2
    ensures y.rs[2].log == [PLACEHOLDER, Y2] && y.rs[2].role == x.rs[2].role && y.rs[2].term == 2
  {
    WritersCommand(rules, x);
    var s0, s2 := Wrote(x.rs[0], X2, 0, 1, 0), Wrote(x.rs[2], Y2, 0, 1, 0);
    var x1 := x.(rs := [s0, x.rs[1], s2]);
    SecondCommits(rules, s2, x.rs[1]);
    var (p, t2) := Exchanged(rules, s2, x.rs[1], 1);
    Exchanges(rules, x1, 2, 1, p, t2);
    var x2 := x1.(rs := x1.rs[1 := p][2 := t2]);
    var q, t0 := FirstCommits(rules, s0, p);
    Exchanges(rules, x2, 0, 1, q, t0);
    y := x2.(rs := x2.rs[1 := q][0 := t0]);
    assert y.rs[2] == t2;
  }

  // ----- the second rule

  predicate Rivals(c: State) {
    && |c.servers| == 3
    && c.servers[0] == Server(Campaign(Boot(0, 3, None)), Some(Tally(VoteArgs(1, 0, 0, 0), {1}, {0, 1})), false)
    && c.servers[1] == Server(Voter(1, 0), None, false)
    && c.servers[2] == Server(P3(2, Candidate, 1, 2, P, 0, Z3, Z3), None, false)
  }

  /** Peer 2 leads term 2 while peer 0 still counts its votes of term 1. */
  function RivalLeads(rules: Rules, c: State): State
    requires Rivals(c)
  {
    c.(servers := [c.servers[0], Server(Voter(2, 2), None, false), Server(Fresh3(rules, 2, 2), None, false)])
  }

  function BothLead(rules: Rules): seq<RaftState> {
    [Fresh3(rules, 0, 2), Voter(2, 2), Fresh3(rules, 2, 2)]
  }

  lemma RivalWins(rules: Rules, c: State)
    requires Rivals(c) && Reached(rules, Init(3), {}, c)
    ensures Reached(rules, Init(3), {}, RivalLeads(rules, c))
  {
    var c1 := Next(rules, c, StartCampaign(2));
    Go(rules, Init(3), {}, c, StartCampaign(2));
    RivalPolls(rules, c, c1);
    var c2 := Next(rules, c1, Poll(2, 1));
    Go(rules, Init(3), {}, c1, Poll(2, 1));
    RivalCounts(rules, c, c2);
    Go(rules, Init(3), {}, c2, FinishCampaign(2));
  }

  function Rival(asked: set<nat>, votes: set<nat>): Server {
    Server(Campaign(P3(2, Candidate, 1, 2, P, 0, Z3, Z3)), Some(Tally(VoteArgs(2, 2, 0, 0), asked, votes)), false)
  }

  lemma RivalPolls(rules: Rules, c: State, c1: State)
    requires Rivals(c) && c1 == Next(rules, c, StartCampaign(2))
    ensures Enabled(rules, c1, Poll(2, 1))
    ensures Next(rules, c1, Poll(2, 1)) ==
            c.(servers := [c.servers[0], Server(Voter(2, 2), None, false), Rival({1}, {1, 2})])
  {
    WillingVotes(c.servers[1].raft, Campaign(c.servers[2].raft));
    var d := Next(rules, c1, Poll(2, 1));
    assert {} + {1} == {1} && {2} + {1} == {1, 2};
    assert d.servers[1] == Server(Voter(2, 2), None, false) && d.servers[2] == Rival({1}, {1, 2});
  }

  lemma RivalCounts(rules: Rules, c: State, c2: State)
    requires Rivals(c) && c2 == c.(servers := [c.servers[0], Server(Voter(2, 2), None, false), Rival({1}, {1, 2})])
    ensures Enabled(rules, c2, FinishCampaign(2)) && Next(rules, c2, FinishCampaign(2)) == RivalLeads(rules, c)
  {
    Wins3(rules, c.servers[2].raft);
    assert Z3[2 := 0] == Z3;
    assert |{1, 2}| == 2;
  }

  lemma RivalOvertakes(rules: Rules, c: State)
    requires !rules.giveUp && Rivals(c) && c.net == multiset{} && Reached(rules, Init(3), {}, RivalLeads(rules, c))
    ensures Played(rules, Scene(BothLead(rules), {}, multiset{}, {}, Init(3)))
  {
    var d := RivalLeads(rules, c);
    var d1 := Next(rules, d, Poll(0, 2));
    Go(rules, Init(3), {}, d, Poll(0, 2));
    assert d1.servers[0].tally.value.votes == {0, 1};
    var d2 := Next(rules, d1, FinishCampaign(0));
    Go(rules, Init(3), {}, d1, FinishCampaign(0));
    var e := Idle(Scene(BothLead(rules), {}, multiset{}, {}, Init(3)));
    assert d2.servers[0] == e.servers[0] && d2.servers[1] == e.servers[1] && d2.servers[2] == e.servers[2];
    assert d2 == e;
  }

  lemma BothComeToLead(rules: Rules)
    requires !rules.giveUp
    ensures Played(rules, Scene(BothLead(rules), {}, multiset{}, {}, Init(3)))
  {
    var x := Boots(3);
    Opens(rules, 3);
    CampaignsAlone(rules, x, 2);
    var y := x.(rs := x.rs[2 := Persist(Campaign(x.rs[2]))]);
    StartsCampaign(rules, y, 0);
    GetsVote(rules, y, 0, 1, {});
    var c := Campaigning(Votes(y, 1, 0), 0, {} + {1});
    assert {0} + ({} + {1}) == {0, 1} && {} + {1} == {1};
    assert Rivals(c);
    RivalWins(rules, c);
    RivalOvertakes(rules, c);
  }

  /** Second rule: peer 0 has its majority for term 1 when peer 2, leader of term 2, answers; it leads term 2 too.
      Both then commit an entry of their own. */
  lemma OvertakenCandidateLeads(rules: Rules) returns (run: seq<State>, acts: seq<Action>)
    requires !rules.giveUp
    ensures IsRun(rules, 3, run, acts)
    ensures !ElectionSafe(run) && !LeadersOnlyAppend(run) && !LogsMatch(run)
    ensures !CommitsAgree(run) && !LeadersComplete(run)
  {
    BothComeToLead(rules);
    var x := Scene(BothLead(rules), {}, multiset{}, {}, Init(3));
    Reads(rules, x, 0);
    var x1 := x.(saw := x.saw + {0});
    Reads(rules, x1, 2);
    var y := WritersDisagree(rules, x1.(saw := x1.saw + {2}));
    var p, q := Tenure(0, 2, [PLACEHOLDER, X2]), Tenure(2, 2, [PLACEHOLDER, Y2]);
    Mark(rules, Init(3), y.led, Idle(y), p);
    Mark(rules, Init(3), y.led + {p}, Idle(y), q);
    run, acts :| EndsIn(rules, Init(3), run, acts, y.led + {p} + {q}, Idle(y));
    assert HasLed(run, p) && HasLed(run, q);
    TwoLeadersBreak(run, p, q);
    TwoLogsBreak(run, p, q);
    MismatchBreaks(run, y, 0, 2, 1, 1);
    ConflictBreaks(run, y, 0, 2, 1);
  }

  // ----- the third rule

  const A1 := Entry(1, 1, Op(0))

  /** Peer 0, which led term 1, has met peer 2, the leader of term 2. */
  function Deposed(rules: Rules, log: Log, matched: int): Scene {
    Scene([P3(0, Follower, 2, VoteOf(rules, 0), log, 0, [1, 1, 1], [matched, 0, 0]), Voter(2, 2), Fresh3(rules, 2, 2)],
          {0, 2}, multiset{}, {Tenure(0, 1, P), Tenure(2, 2, P)}, Init(3))
  }

  lemma SecondLeads(rules: Rules, x: Scene, log: Log, matched: int)
    requires !rules.leaderOnly && Played(rules, x) && |x.rs| == 3 && x.saw == {0} && x.net == multiset{}
    requires x.rs[0] == P3(0, Leader, 1, VoteOf(rules, 0), log, 0, [1, 1, 1], [matched, 0, 0]) && |log| >= 1
    requires x.rs[1] == Voter(1, 0) && x.rs[2] == Boot(2, 3, None) && x.led == {Tenure(0, 1, P)} && x.from == Init(3)
    requires LastIndex(log) == |log| - 1
    ensures Played(rules, Deposed(rules, log, matched))
  {
    var s := P3(2, Candidate, 1, 2, P, 0, Z3, Z3);
    CampaignsAlone(rules, x, 2);
    Boots3(2);
    assert Persist(Campaign(x.rs[2])) == s;
    var x1 := x.(rs := x.rs[2 := s]);
    Wins3(rules, s);
    assert Z3[2 := 0] == Z3;
    WinsThree(rules, x1, 2, 1);
    var x2 := Winner(rules, Votes(x1, 1, 2), 2);
    assert x2.rs == [x.rs[0], Voter(2, 2), Fresh3(rules, 2, 2)];
    Reads(rules, x2, 2);
    var x3 := x2.(saw := x2.saw + {2});
    var t := P3(0, Follower, 2, VoteOf(rules, 0), log, 0, [1, 1, 1], [matched, 0, 0]);
    assert Exchanged(rules, x3.rs[0], x3.rs[2], 2) == (x3.rs[2], t);
    Exchanges(rules, x3, 0, 2, x3.rs[2], t);
    assert x3.rs[2 := x3.rs[2]][0 := t] == Deposed(rules, log, matched).rs;
    assert x3.(rs := x3.rs[2 := x3.rs[2]][0 := t]) == Deposed(rules, log, matched);
  }

  /** Third rule: peer 0, no longer leader, appends and commits a command in the term of peer 2. */
  lemma StaleRoleAppends(rules: Rules) returns (run: seq<State>, acts: seq<Action>)
    requires !rules.leaderOnly
    ensures IsRun(rules, 3, run, acts) && !LogsMatch(run) && !CommitsAgree(run) && !LeadersComplete(run)
  {
    FirstWin3(rules);
    SecondLeads(rules, First3(rules), P, 0);
    var y := WritersDisagree(rules, Deposed(rules, P, 0));
    run, acts :| EndsIn(rules, Init(3), run, acts, y.led, Idle(y));
    MismatchBreaks(run, y, 0, 2, 1, 1);
    ConflictBreaks(run, y, 0, 2, 1);
  }

  function LeaderTwo(rules: Rules, log: Log, matched: int): RaftState {
    P3(2, Leader, 2, VoteOf(rules, 2), log, 0, [1, 1, 1], [0, 0, matched])
  }

  /** A request of peer 0 in the term of peer 2 cuts the log of peer 2, who leads it. */
  lemma LeaderIsCut(rules: Rules, s: RaftState, p: RaftState)
    requires s == Deposed(rules, [PLACEHOLDER, A1], 1).rs[0] && p == LeaderTwo(rules, [PLACEHOLDER, Y2], 1)
    ensures Sendable(s, 2) && Exchanged(rules, s, p, 2) == (LeaderTwo(rules, P, 1), s)
  {
    var a := BuildAppend(s, 2);
    assert a == AppendArgs(2, 0, 0, 0, [A1], 0);
    assert Conflicts(p.log, A1) && FirstConflict(p.log, a.entries) == 0;
    assert p.log[..1] == P;
    assert s.nextIndex[2 := 1] == s.nextIndex && s.matchIndex[2 := 0] == s.matchIndex;
  }

  /** Third rule again: peer 0, no longer leader, sends in the term of peer 2, whose log is cut by it. */
  lemma StaleRoleTruncates(rules: Rules) returns (run: seq<State>, acts: seq<Action>)
    requires !rules.leaderOnly
    ensures IsRun(rules, 3, run, acts) && !LeadersOnlyAppend(run)
  {
    FirstWin3(rules);
    var x := First3(rules);
    Commands(rules, x, 0, Op(0));
    var s := P3(0, Leader, 1, VoteOf(rules, 0), [PLACEHOLDER, A1], 0, [1, 1, 1], [1, 0, 0]);
    StartIs(x.rs[0], Op(0), s);
    SecondLeads(rules, x.(rs := x.rs[0 := s]), [PLACEHOLDER, A1], 1);
    run, acts := SecondIsCut(rules);
  }

  lemma SecondIsCut(rules: Rules) returns (run: seq<State>, acts: seq<Action>)
    requires !rules.leaderOnly && Played(rules, Deposed(rules, [PLACEHOLDER, A1], 1))
    ensures IsRun(rules, 3, run, acts) && !LeadersOnlyAppend(run)
  {
    var x := Deposed(rules, [PLACEHOLDER, A1], 1);
    var p, q := Tenure(2, 2, [PLACEHOLDER, Y2]), Tenure(2, 2, [PLACEHOLDER, W2]);
    var y := SecondWrites(rules, x, 0, Op(1), Y2);
    var x1 := CutOnce(rules, y);
    var z := SecondWrites(rules, x1, 1, Op(2), W2);
    run, acts :| EndsIn(rules, Init(3), run, acts, z.led, Idle(z));
    assert HasLed(run, p) && HasLed(run, q);
    assert !(p.log <= q.log) && !(q.log <= p.log) by { assert p.log[1] != q.log[1]; }
    TwoLogsBreak(run, p, q);
  }

  const W2 := Entry(2, 1, Op(2))

  lemma SecondWrites(rules: Rules, x: Scene, matched: int, command: Command, e: Entry) returns (y: Scene)
    requires Played(rules, x) && |x.rs| == 3 && 2 in x.saw && x.rs[2] == LeaderTwo(rules, P, matched)
    requires e == Entry(2, 1, command)
    ensures y == x.(rs := x.rs[2 := LeaderTwo(rules, [PLACEHOLDER, e], 1)],
                    led := x.led + {Tenure(2, 2, [PLACEHOLDER, e])})
    ensures Played(rules, y)
  {
    var l := LeaderTwo(rules, [PLACEHOLDER, e], 1);
    Commands(rules, x, 2, command);
    StartIs(x.rs[2], command, l);
    var x1 := x.(rs := x.rs[2 := l]);
    Mark(rules, x.from, x.led, Idle(x1), Tenure(2, 2, [PLACEHOLDER, e]));
    y := x1.(led := x.led + {Tenure(2, 2, [PLACEHOLDER, e])});
    assert Idle(y) == Idle(x1);
  }

  lemma CutOnce(rules: Rules, x: Scene) returns (y: Scene)
    requires !rules.leaderOnly && Played(rules, x) && |x.rs| == 3 && 0 in x.saw
    requires x.rs[0] == Deposed(rules, [PLACEHOLDER, A1], 1).rs[0]
    requires x.rs[2] == LeaderTwo(rules, [PLACEHOLDER, Y2], 1)
    ensures y == x.(rs := x.rs[2 := LeaderTwo(rules, P, 1)]) && Played(rules, y)
  {
    LeaderIsCut(rules, x.rs[0], x.rs[2]);
    Exchanges(rules, x, 0, 2, LeaderTwo(rules, P, 1), x.rs[0]);
    y := x.(rs := x.rs[2 := LeaderTwo(rules, P, 1)]);
    assert x.rs[2 := LeaderTwo(rules, P, 1)][0 := x.rs[0]] == y.rs;
  }

  // ----- the fourth rule

  const Z1 := Entry(1, 2, Op(1))

  /** Peer 0 leading term 1, with what it knows of peer 1. */
  function LeaderOne(rules: Rules, log: Log, commit: nat, next: int, own: int, matched: int): RaftState {
    P3(0, Leader, 1, VoteOf(rules, 0), log, commit, [1, next, 1], [own, matched, 0])
  }

  function FollowerOne(log: Log, commit: nat): RaftState {
    P3(1, Follower, 1, 0, log, commit, Z3, Z3)
  }

  function Pair(rules: Rules, s: RaftState, p: RaftState, net: multiset<Message>): Scene {
    First3(rules).(rs := [s, p, Boot(2, 3, None)], net := net)
  }

  /** Peer 1 has the entry, peer 0 knows it and has committed it, and the first request is still on its way. */
  lemma EntryIsSent(rules: Rules)
    ensures
      var s, p := LeaderOne(rules, [PLACEHOLDER, A1], 1, 2, 1, 1), FollowerOne([PLACEHOLDER, A1], 0);
      Played(rules, Pair(rules, s, p, multiset{AppendMsg(1, AppendArgs(1, 0, 0, 0, [A1], 0))}))
  {
    var a := AppendArgs(1, 0, 0, 0, [A1], 0);
    var s, p := LeaderOne(rules, [PLACEHOLDER, A1], 0, 1, 1, 0), FollowerOne(P, 0);
    EntryIsMade(rules);
    var x := Pair(rules, s, p, multiset{});
    FirstEntryFits(rules);
    Sends(rules, x, 0, 1);
    var y := x.(net := x.net + multiset{AppendMsg(1, a)});
    var s', p' := LeaderOne(rules, [PLACEHOLDER, A1], 1, 2, 1, 1), FollowerOne([PLACEHOLDER, A1], 0);
    Exchanges(rules, y, 0, 1, p', s');
    assert y.rs[1 := p'][0 := s'] == [s', p', Boot(2, 3, None)];
    assert y.(rs := [s', p', Boot(2, 3, None)]) == Pair(rules, s', p', multiset{AppendMsg(1, a)});
  }

  lemma EntryIsMade(rules: Rules)
    ensures Played(rules, Pair(rules, LeaderOne(rules, [PLACEHOLDER, A1], 0, 1, 1, 0), FollowerOne(P, 0), multiset{}))
  {
    var s := LeaderOne(rules, [PLACEHOLDER, A1], 0, 1, 1, 0);
    FirstWin3(rules);
    Commands(rules, First3(rules), 0, Op(0));
    StartIs(First3(rules).rs[0], Op(0), s);
    assert First3(rules).(rs := First3(rules).rs[0 := s]) == Pair(rules, s, FollowerOne(P, 0), multiset{});
  }

  lemma FirstEntryFits(rules: Rules)
    ensures
      var s := LeaderOne(rules, [PLACEHOLDER, A1], 0, 1, 1, 0);
      && Sendable(s, 1) && BuildAppend(s, 1) == AppendArgs(1, 0, 0, 0, [A1], 0)
      && Exchanged(rules, s, FollowerOne(P, 0), 1) ==
         (FollowerOne([PLACEHOLDER, A1], 0), LeaderOne(rules, [PLACEHOLDER, A1], 1, 2, 1, 1))
  {
    var s, p := LeaderOne(rules, [PLACEHOLDER, A1], 0, 1, 1, 0), FollowerOne(P, 0);
    var a := BuildAppend(s, 1);
    assert a == AppendArgs(1, 0, 0, 0, [A1], 0);
    assert p.log + a.entries == [PLACEHOLDER, A1];
    HeardFits(rules, s, p, 1);
    var t := Noted(s, 1, 2, 1);
    assert t.nextIndex == [1, 2, 1] && t.matchIndex == [1, 1, 0];
    Count3(t.matchIndex, 1);
    CommitsTo(rules, t, 1);
  }

  /** Entries of the same term never conflict, and all are appended. */
  lemma AppendsAll(rules: Rules, p: RaftState, a: AppendArgs)
    requires !rules.appendNew && p.term == a.term && |a.entries| <= 1 && a.prevIndex < |p.log|
    requires a.prevIndex == 0 || p.log[a.prevIndex].term == a.prevTerm
    requires forall i :: 1 <= i < |p.log| ==> p.log[i].term == 1
    requires |a.entries| == 1 ==> a.entries[0].term == 1 && a.entries[0].index >= 1
    ensures HandleAppend(rules, p, a) ==
            (Persist(p.(log := p.log + a.entries,
                        commitIndex := CommitCap(p.commitIndex, a.leaderCommit, |p.log| + |a.entries| - 1))),
             AppendReply(0, true, |p.log| + |a.entries|))
  {
    if |a.entries| == 1 {
      assert !Conflicts(p.log, a.entries[0]);
      assert FirstConflict(p.log, a.entries[1..]) == 0;
    }
    assert FirstConflict(p.log, a.entries) == |a.entries|;
  }

  /** The first request arrives late, and its entry is appended again. */
  lemma EntryIsRepeated(rules: Rules)
    requires !rules.appendNew
    ensures Played(rules, Pair(rules, LeaderOne(rules, [PLACEHOLDER, A1, Z1], 1, 2, 2, 1),
                               FollowerOne([PLACEHOLDER, A1, A1], 0), multiset{}))
  {
    var a := AppendArgs(1, 0, 0, 0, [A1], 0);
    var s, p := LeaderOne(rules, [PLACEHOLDER, A1], 1, 2, 1, 1), FollowerOne([PLACEHOLDER, A1], 0);
    var x := Pair(rules, s, p, multiset{AppendMsg(1, a)});
    EntryIsSent(rules);
    AppendsAll(rules, p, a);
    assert p.log + a.entries == [PLACEHOLDER, A1, A1];
    Arrives(rules, x, 1, a);
    var p' := FollowerOne([PLACEHOLDER, A1, A1], 0);
    var y := Pair(rules, s, p', multiset{});
    assert Arrived(rules, x, 1, a) == y;
    Commands(rules, y, 0, Op(1));
    var s' := LeaderOne(rules, [PLACEHOLDER, A1, Z1], 1, 2, 2, 1);
    StartIs(s, Op(1), s');
    assert y.(rs := y.rs[0 := s']) == Pair(rules, s', p', multiset{});
  }

  /** Peer 0 commits its second entry, which peer 1 has one place too far. */
  lemma SecondEntryCommits(rules: Rules)
    requires !rules.appendNew
    ensures
      var m := if rules.matchVerified then 2 else 3;
      Played(rules, Pair(rules, LeaderOne(rules, [PLACEHOLDER, A1, Z1], 2, 4, 2, m),
                         FollowerOne([PLACEHOLDER, A1, A1, Z1], 1), multiset{}))
  {
    var s, p := LeaderOne(rules, [PLACEHOLDER, A1, Z1], 1, 2, 2, 1), FollowerOne([PLACEHOLDER, A1, A1], 0);
    var a := AppendArgs(1, 0, 1, 1, [Z1], 1);
    EntryIsRepeated(rules);
    assert BuildAppend(s, 1) == a;
    AppendsAll(rules, p, a);
    assert p.log + a.entries == [PLACEHOLDER, A1, A1, Z1];
    var m := if rules.matchVerified then 2 else 3;
    var t := Noted(s, 1, 4, m);
    assert t.nextIndex == [1, 4, 1] && t.matchIndex == [2, m, 0];
    Count3(t.matchIndex, 2);
    CommitsTo(rules, t, 2);
    var s', p' := LeaderOne(rules, [PLACEHOLDER, A1, Z1], 2, 4, 2, m), FollowerOne([PLACEHOLDER, A1, A1, Z1], 1);
    assert NoteReply(rules, s, 1, a, AppendReply(0, true, 4)) == t;
    assert Exchanged(rules, s, p, 1) == (p', s');
    var x := Pair(rules, s, p, multiset{});
    Exchanges(rules, x, 0, 1, p', s');
    assert x.(rs := x.rs[1 := p'][0 := s']) == Pair(rules, s', p', multiset{});
  }

  /** Fourth rule: a late request appends its entry again, one place too far; everything after it is misplaced, and
      in the end peers 0 and 1 hold different entries at index 2 as committed. */
  lemma EntryAppendedTwice(rules: Rules) returns (run: seq<State>, acts: seq<Action>)
    requires !rules.appendNew
    ensures IsRun(rules, 3, run, acts)
    ensures !LogsShaped(run) && !LogsMatch(run) && !CommitsAgree(run) && !LeadersComplete(run)
  {
    var m := if rules.matchVerified then 2 else 3;
    var s, p := LeaderOne(rules, [PLACEHOLDER, A1, Z1], 2, 4, 2, m), FollowerOne([PLACEHOLDER, A1, A1, Z1], 1);
    var x := Pair(rules, s, p, multiset{});
    SecondEntryCommits(rules);
    var a := BuildAppend(s, 1);
    assert a == AppendArgs(1, 0, 2, 1, [], 2);
    AppendsAll(rules, p, a);
    assert p.log + a.entries == p.log;
    var (q, t) := Exchanged(rules, s, p, 1);
    Exchanges(rules, x, 0, 1, q, t);
    var y := x.(rs := x.rs[1 := q][0 := t]);
    run, acts :| EndsIn(rules, Init(3), run, acts, y.led, Idle(y));
    assert y.rs[0].log == s.log && y.rs[0].commitIndex == 2 && y.rs[1].log == p.log && y.rs[1].commitIndex == 2;
    MismatchBreaks(run, y, 0, 1, 2, 2);
    ConflictBreaks(run, y, 1, 0, 2);
    assert !Shaped(run[|run| - 1].servers[1].raft);
  }
}
