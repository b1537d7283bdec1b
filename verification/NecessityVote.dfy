/** The first rule is needed: a winner whose vote was cleared votes again in its own term. Its late requests then
    meet the logs of a second leader of that term, and cut what that leader committed or wrote. */
module NecessityVote {
  import opened Options
  import opened RaftTypes
  import opened RaftHandlers
  import opened Cluster
  import opened Guarantees
  import opened Witnesses
  import opened Necessity

  const B2 := Entry(2, 1, Op(1))
  const C3 := Entry(3, 2, Op(2))

  /** Peer 0 or 2 leading term t since its log ended at index 1, with what it knows of peer 1. */
  function Led(i: nat, t: nat, log: Log, commit: nat, next: int, own: int, matched: int): RaftState {
    P3(i, Leader, t, NOBODY, log, commit, [2, next, 2], if i == 0 then [own, matched, 0] else [0, matched, own])
  }

  function Follows(t: nat, log: Log): RaftState {
    P3(1, Follower, t, 0, log, 0, Z3, Z3)
  }

  function Stage(rs: seq<RaftState>, net: multiset<Message>, led: set<Tenure>): Scene {
    Scene(rs, {0, 2}, net, led, Init(3))
  }

  // ----- a leader with one old entry commits a second one on itself and peer 1

  predicate MayCommitPair(x: Scene, i: nat, t: nat, e: Entry) {
    && |x.rs| == 3 && (i == 0 || i == 2) && i in x.saw && e.index == 1 && e.term < t
    && x.rs[i] == Led(i, t, [PLACEHOLDER, e], 0, 2, 1, 0) && x.rs[1] == Follows(t, P)
  }

  lemma PairAgreesOnFirst(rules: Rules, x: Scene, i: nat, t: nat, e: Entry)
    requires Played(rules, x) && MayCommitPair(x, i, t, e)
    ensures
      var log := [PLACEHOLDER, e];
      Played(rules, x.(rs := x.rs[1 := Follows(t, log)][i := Led(i, t, log, 0, 2, 1, 1)]))
  {
    var log := [PLACEHOLDER, e];
    var u, v := Led(i, t, log, 0, 1, 1, 0), Led(i, t, log, 0, 2, 1, 1);
    var p, q := Follows(t, P), Follows(t, log);
    FirstIsShort(rules, i, t, e);
    Exchanges(rules, x, i, 1, p, u);
    var y := x.(rs := x.rs[1 := p][i := u]);
    FirstFits(rules, i, t, e);
    Exchanges(rules, y, i, 1, q, v);
    assert y.rs[1 := q][i := v] == x.rs[1 := q][i := v];
  }

  lemma FirstIsShort(rules: Rules, i: nat, t: nat, e: Entry)
    requires (i == 0 || i == 2) && e.index == 1
    ensures
      var log, p := [PLACEHOLDER, e], Follows(t, P);
      var s := Led(i, t, log, 0, 2, 1, 0);
      Sendable(s, 1) && Exchanged(rules, s, p, 1) == (p, Led(i, t, log, 0, 1, 1, 0))
  {
    var s := Led(i, t, [PLACEHOLDER, e], 0, 2, 1, 0);
    HeardShort(rules, s, Follows(t, P), 1);
    assert Noted(s, 1, 1, 0) == Led(i, t, [PLACEHOLDER, e], 0, 1, 1, 0);
  }

  lemma FirstFits(rules: Rules, i: nat, t: nat, e: Entry)
    requires (i == 0 || i == 2) && e.index == 1 && e.term < t
    ensures
      var log := [PLACEHOLDER, e];
      var s := Led(i, t, log, 0, 1, 1, 0);
      Sendable(s, 1) && Exchanged(rules, s, Follows(t, P), 1) == (Follows(t, log), Led(i, t, log, 0, 2, 1, 1))
  {
    var log := [PLACEHOLDER, e];
    var s := Led(i, t, log, 0, 1, 1, 0);
    assert BuildAppend(s, 1).entries == [e] && P + [e] == log;
    HeardFits(rules, s, Follows(t, P), 1);
    assert Noted(s, 1, 2, 1) == Led(i, t, log, 0, 2, 1, 1);
  }

  lemma PairCommitsSecond(rules: Rules, x: Scene, i: nat, t: nat, e: Entry, command: Command)
    requires Played(rules, x) && |x.rs| == 3 && (i == 0 || i == 2) && i in x.saw && e.index == 1 && e.term < t
    requires x.rs[i] == Led(i, t, [PLACEHOLDER, e], 0, 2, 1, 1) && x.rs[1] == Follows(t, [PLACEHOLDER, e])
    ensures
      var log := [PLACEHOLDER, e, Entry(t, 2, command)];
      Played(rules, x.(rs := x.rs[1 := Follows(t, log)][i := Led(i, t, log, 2, 3, 2, 2)]))
  {
    var f := Entry(t, 2, command);
    var log := [PLACEHOLDER, e, f];
    var s, u := Led(i, t, log, 0, 2, 2, 1), Led(i, t, log, 2, 3, 2, 2);
    var p, q := Follows(t, [PLACEHOLDER, e]), Follows(t, log);
    Commands(rules, x, i, command);
    StartIs(x.rs[i], command, s);
    var y := x.(rs := x.rs[i := s]);
    assert Exchanged(rules, s, p, 1) == (q, u) by { SecondFits(rules, i, t, e, f); }
    Exchanges(rules, y, i, 1, q, u);
    assert y.rs[1 := q][i := u] == x.rs[1 := q][i := u];
  }

  lemma SecondFits(rules: Rules, i: nat, t: nat, e: Entry, f: Entry)
    requires (i == 0 || i == 2) && e.index == 1 && f.index == 2 && f.term == t
    ensures
      var log := [PLACEHOLDER, e, f];
      var s := Led(i, t, log, 0, 2, 2, 1);
      && Sendable(s, 1)
      && Exchanged(rules, s, Follows(t, [PLACEHOLDER, e]), 1) == (Follows(t, log), Led(i, t, log, 2, 3, 2, 2))
  {
    var log := [PLACEHOLDER, e, f];
    var s, p := Led(i, t, log, 0, 2, 2, 1), Follows(t, [PLACEHOLDER, e]);
    assert BuildAppend(s, 1).entries == [f] && p.log + [f] == log;
    HeardFits(rules, s, p, 1);
    var n := Noted(s, 1, 3, 2);
    assert n == Led(i, t, log, 0, 3, 2, 2);
    Count3(n.matchIndex, 2);
    CommitsTo(rules, n, 2);
  }

  // ----- two leaders of term 3

  lemma OldLogs(rules: Rules)
    requires !rules.keepVote
    ensures Played(rules, Stage([P3(0, Leader, 1, NOBODY, [PLACEHOLDER, A1], 0, [1, 1, 1], [1, 0, 0]), Voter(2, 2),
                                 P3(2, Leader, 2, NOBODY, [PLACEHOLDER, B2], 0, [1, 1, 1], [0, 0, 1])], multiset{}, {}))
  {
    var s0 := P3(0, Leader, 1, NOBODY, [PLACEHOLDER, A1], 0, [1, 1, 1], [1, 0, 0]);
    var s2 := P3(2, Leader, 2, NOBODY, [PLACEHOLDER, B2], 0, [1, 1, 1], [0, 0, 1]);
    FirstWin3(rules);
    var x := First3(rules);
    Commands(rules, x, 0, Op(0));
    StartIs(x.rs[0], Op(0), s0);
    var x1 := x.(rs := x.rs[0 := s0]);
    SecondWins(rules, x1);
    var x2 := x1.(rs := [s0, Voter(2, 2), Fresh3(rules, 2, 2)], led := {});
    Reads(rules, x2, 2);
    var x3 := x2.(saw := x2.saw + {2});
    Commands(rules, x3, 2, Op(1));
    StartIs(x3.rs[2], Op(1), s2);
    assert x3.(rs := x3.rs[2 := s2]) == Stage([s0, Voter(2, 2), s2], multiset{}, {});
  }

  lemma SecondWins(rules: Rules, x: Scene)
    requires Played(rules, x) && |x.rs| == 3 && x.rs[1] == Voter(1, 0) && x.rs[2] == Boot(2, 3, None)
    ensures Played(rules, x.(rs := [x.rs[0], Voter(2, 2), Fresh3(rules, 2, 2)], led := {}))
  {
    var s := P3(2, Candidate, 1, 2, P, 0, Z3, Z3);
    CampaignsAlone(rules, x, 2);
    Boots3(2);
    assert Persist(Campaign(x.rs[2])) == s;
    var y := x.(rs := x.rs[2 := s]);
    Wins3(rules, s);
    assert Z3[2 := 0] == Z3;
    WinsThree(rules, y, 2, 1);
    var z := Winner(rules, Votes(y, 1, 2), 2);
    assert z.rs == [x.rs[0], Voter(2, 2), Fresh3(rules, 2, 2)];
    Forgets(rules, z, {});
  }

  function LateOf(): AppendArgs { AppendArgs(3, 0, 1, 1, [], 0) }

  function Late(): multiset<Message> { multiset{AppendMsg(1, LateOf()), AppendMsg(2, LateOf())} }

  function FirstTenure(): Tenure { Tenure(0, 3, [PLACEHOLDER, A1]) }

  function SecondTenure(): Tenure { Tenure(2, 3, [PLACEHOLDER, B2]) }

  /** Peer 0 leads term 3 and sends two requests that are late. */
  lemma FirstLeads(rules: Rules)
    requires !rules.keepVote
    ensures Played(rules, Stage([Led(0, 3, [PLACEHOLDER, A1], 0, 2, 1, 0), Follows(3, P),
                                 P3(2, Leader, 2, NOBODY, [PLACEHOLDER, B2], 0, [1, 1, 1], [0, 0, 1])],
                                Late(), {FirstTenure()}))
  {
    var s := P3(0, Candidate, 2, 0, [PLACEHOLDER, A1], 0, [1, 1, 1], [1, 0, 0]);
    var s2 := P3(2, Leader, 2, NOBODY, [PLACEHOLDER, B2], 0, [1, 1, 1], [0, 0, 1]);
    var l := Led(0, 3, [PLACEHOLDER, A1], 0, 2, 1, 0);
    OldLogs(rules);
    var s0 := P3(0, Leader, 1, NOBODY, [PLACEHOLDER, A1], 0, [1, 1, 1], [1, 0, 0]);
    var x := Stage([s0, Voter(2, 2), s2], multiset{}, {});
    Resigns(rules, x, 0);
    var x1 := x.(rs := x.rs[0 := StepDown(x.rs[0])]);
    CampaignsAlone(rules, x1, 0);
    assert Persist(Campaign(x1.rs[0])) == s;
    var x2 := x1.(rs := x1.rs[0 := s]);
    Wins3(rules, s);
    assert Z3[0 := 1] == [1, 0, 0];
    WinsThree(rules, x2, 0, 1);
    var x3 := Winner(rules, Votes(x2, 1, 0), 0);
    assert x3 == Stage([l, Follows(3, P), s2], multiset{}, {FirstTenure()}) by {
      assert x3.rs == [l, Follows(3, P), s2];
      assert {} + {FirstTenure()} == {FirstTenure()};
    }
    TwoRequests(rules, x3);
  }

  lemma TwoRequests(rules: Rules, x: Scene)
    requires Played(rules, x) && |x.rs| == 3 && x.saw == {0, 2} && x.net == multiset{}
    requires x.rs[0] == Led(0, 3, [PLACEHOLDER, A1], 0, 2, 1, 0)
    ensures Played(rules, x.(net := Late()))
  {
    assert BuildAppend(x.rs[0], 1) == LateOf() && BuildAppend(x.rs[0], 2) == LateOf();
    Sends(rules, x, 0, 1);
    var y := x.(net := x.net + multiset{AppendMsg(1, LateOf())});
    Sends(rules, y, 0, 2);
    assert y.net + multiset{AppendMsg(2, LateOf())} == Late();
  }

  /** Peer 0 steps down and votes for peer 2, which leads term 3 as well. */
  lemma BothLeadThree(rules: Rules)
    requires !rules.keepVote
    ensures Played(rules, Stage([P3(0, Follower, 3, 2, [PLACEHOLDER, A1], 0, [2, 2, 2], [1, 0, 0]), Follows(3, P),
                                 Led(2, 3, [PLACEHOLDER, B2], 0, 2, 1, 0)], Late(), {FirstTenure(), SecondTenure()}))
  {
    var s2 := P3(2, Leader, 2, NOBODY, [PLACEHOLDER, B2], 0, [1, 1, 1], [0, 0, 1]);
    FirstLeads(rules);
    var x := Stage([Led(0, 3, [PLACEHOLDER, A1], 0, 2, 1, 0), Follows(3, P), s2], Late(), {FirstTenure()});
    Resigns(rules, x, 0);
    var x1 := x.(rs := x.rs[0 := StepDown(x.rs[0])]);
    Resigns(rules, x1, 2);
    var x2 := x1.(rs := x1.rs[2 := StepDown(s2)]);
    Wins3(rules, x2.rs[2]);
    assert Z3[2 := 1] == [0, 0, 1];
    WinsThree(rules, x2, 2, 0);
    var x3 := Winner(rules, Votes(x2, 0, 2), 2);
    assert x3.rs == [P3(0, Follower, 3, 2, [PLACEHOLDER, A1], 0, [2, 2, 2], [1, 0, 0]), Follows(3, P),
                     Led(2, 3, [PLACEHOLDER, B2], 0, 2, 1, 0)];
    assert x3.led == {FirstTenure(), SecondTenure()};
  }

  /** Peer 2 has committed two entries on itself and peer 1. */
  function Settled3(net: multiset<Message>): Scene {
    Stage([P3(0, Follower, 3, 2, [PLACEHOLDER, A1], 0, [2, 2, 2], [1, 0, 0]), Follows(3, [PLACEHOLDER, B2, C3]),
           Led(2, 3, [PLACEHOLDER, B2, C3], 2, 3, 2, 2)], net, {FirstTenure(), SecondTenure()})
  }

  lemma SecondSettles(rules: Rules)
    requires !rules.keepVote
    ensures Played(rules, Settled3(Late()))
  {
    BothLeadThree(rules);
    var x := Settled3(Late()).(rs := [Settled3(Late()).rs[0], Follows(3, P), Led(2, 3, [PLACEHOLDER, B2], 0, 2, 1, 0)]);
    PairAgreesOnFirst(rules, x, 2, 3, B2);
    var y := x.(rs := [x.rs[0], Follows(3, [PLACEHOLDER, B2]), Led(2, 3, [PLACEHOLDER, B2], 0, 2, 1, 1)]);
    assert x.(rs := x.rs[1 := y.rs[1]][2 := y.rs[2]]) == y;
    PairCommitsSecond(rules, y, 2, 3, B2, Op(2));
    assert y.(rs := y.rs[1 := Settled3(Late()).rs[1]][2 := Settled3(Late()).rs[2]]) == Settled3(Late());
  }

  /** The late request disagrees with the log at index 1, which is cut to the placeholder. */
  lemma LateRequestCuts(rules: Rules, p: RaftState)
    requires p.term == 3 && p.log == [PLACEHOLDER, B2, C3]
    ensures HandleAppend(rules, p, LateOf()).0 == Persist(p.(log := P))
  {
    assert p.log[..1] == P;
  }

  /** Peer 0 wins term 4 with the vote of peer 1, whose log was cut. */
  lemma FirstLeadsAgain(rules: Rules)
    requires !rules.keepVote
    ensures
      var x := Settled3(multiset{AppendMsg(2, LateOf())});
      Played(rules, x.(rs := [Led(0, 4, [PLACEHOLDER, A1], 0, 2, 1, 0), Follows(4, P), x.rs[2]]))
  {
    OtherIsCut(rules);
    var y := Cut3();
    Wins3(rules, y.rs[0]);
    assert Z3[0 := 1] == [1, 0, 0];
    WinsThree(rules, y, 0, 1);
    var z := Winner(rules, Votes(y, 1, 0), 0);
    assert z.rs == [Led(0, 4, [PLACEHOLDER, A1], 0, 2, 1, 0), Follows(4, P), y.rs[2]];
    Forgets(rules, z, y.led);
  }

  /** The log of peer 1 has been cut. */
  function Cut3(): Scene {
    var x := Settled3(multiset{AppendMsg(2, LateOf())});
    x.(rs := x.rs[1 := Follows(3, P)])
  }

  lemma OtherIsCut(rules: Rules)
    requires !rules.keepVote
    ensures Played(rules, Cut3())
  {
    SecondSettles(rules);
    var x := Settled3(Late());
    LateRequestCuts(rules, x.rs[1]);
    Arrives(rules, x, 1, LateOf());
    assert Late() - multiset{AppendMsg(1, LateOf())} == multiset{AppendMsg(2, LateOf())};
    assert Arrived(rules, x, 1, LateOf()) == Cut3();
  }

  /** Peer 0 has committed two entries on itself and peer 1, unlike those of peer 2. */
  function Settled4(): Scene {
    var b, log := Settled3(multiset{AppendMsg(2, LateOf())}), [PLACEHOLDER, A1, Entry(4, 2, Op(3))];
    b.(rs := [Led(0, 4, log, 2, 3, 2, 2), Follows(4, log), b.rs[2]])
  }

  lemma FirstSettles(rules: Rules)
    requires !rules.keepVote
    ensures Played(rules, Settled4())
  {
    FirstLeadsAgain(rules);
    var z := Settled4();
    var x := z.(rs := [Led(0, 4, [PLACEHOLDER, A1], 0, 2, 1, 0), Follows(4, P), z.rs[2]]);
    PairAgreesOnFirst(rules, x, 0, 4, A1);
    var y := z.(rs := [Led(0, 4, [PLACEHOLDER, A1], 0, 2, 1, 1), Follows(4, [PLACEHOLDER, A1]), z.rs[2]]);
    assert x.(rs := x.rs[1 := y.rs[1]][0 := y.rs[0]]) == y;
    PairCommitsSecond(rules, y, 0, 4, A1, Op(3));
    assert y.(rs := y.rs[1 := z.rs[1]][0 := z.rs[0]]) == z;
  }

  /** First rule: peers 0 and 2 both lead term 3, and a late request of the first removes from peer 1 what the second
      has committed; the first then commits something else. */
  lemma VoteClearedByVictory(rules: Rules) returns (run: seq<State>, acts: seq<Action>)
    requires !rules.keepVote
    ensures IsRun(rules, 3, run, acts)
    ensures !ElectionSafe(run) && !LeadersOnlyAppend(run) && !CommitsAgree(run) && !LeadersComplete(run)
  {
    var z := Settled4();
    FirstSettles(rules);
    run, acts :| EndsIn(rules, Init(3), run, acts, z.led, Idle(z));
    var p, q := FirstTenure(), SecondTenure();
    assert p in z.led && q in z.led;
    assert !(p.log <= q.log) && !(q.log <= p.log) by { assert p.log[1] != q.log[1]; }
    TwoLeadersBreak(run, p, q);
    TwoLogsBreak(run, p, q);
    ConflictBreaks(run, z, 2, 0, 1);
  }

  /** First rule again: a late request of the first leader of term 3 cuts the log of the second, which then writes
      other entries of term 3 at the same places. */
  lemma LeaderOverwrites(rules: Rules) returns (run: seq<State>, acts: seq<Action>)
    requires !rules.keepVote
    ensures IsRun(rules, 3, run, acts) && !LogsMatch(run)
  {
    SecondSettles(rules);
    var x := Settled3(Late());
    LateRequestCuts(rules, x.rs[2]);
    Arrives(rules, x, 2, LateOf());
    var x1 := Arrived(rules, x, 2, LateOf());
    Commands(rules, x1, 2, Op(3));
    var x2 := x1.(rs := x1.rs[2 := Start(x1.rs[2], Op(3))]);
    Commands(rules, x2, 2, Op(4));
    var x3 := x2.(rs := x2.rs[2 := Start(x2.rs[2], Op(4))]);
    assert x3.rs[2].log == [PLACEHOLDER, Entry(3, 1, Op(3)), Entry(3, 2, Op(4))];
    run, acts :| EndsIn(rules, Init(3), run, acts, x3.led, Idle(x3));
    MismatchBreaks(run, x3, 1, 2, 1, 2);
  }
}
