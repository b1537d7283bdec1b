/** Rules five and six: five peers, and an entry that is committed on too few of them. */
module NecessityFive {
  import opened Options
  import opened RaftTypes
  import opened RaftHandlers
  import opened Cluster
  import opened Guarantees
  import opened Witnesses
  import opened Necessity

  const Z: seq<int> := [0, 0, 0, 0, 0]

  function Five(rs: seq<RaftState>, saw: set<nat>): Scene {
    Scene(rs, saw, multiset{}, {}, Init(5))
  }

  ghost predicate Reached5(rules: Rules, rs: seq<RaftState>, saw: set<nat>) {
    && Played(rules, Five(rs, saw))
    && forall i :: 0 <= i < |rs| && rs[i].role == Leader ==> i in saw
  }

  /** The five peers are in the states `rs`, between elections, and leaders have read that they are. */
  ghost predicate At(rules: Rules, rs: seq<RaftState>) {
    |rs| == 5 && exists saw :: Reached5(rules, rs, saw)
  }

  function P5(me: nat, role: Role, term: nat, voted: int, log: Log, commit: nat, next: seq<int>, matched: seq<int>)
    : RaftState
  {
    Peer(me, 5, role, term, voted, log, commit, next, matched)
  }

  /** A leader, and a follower that never led. */
  function L5(rules: Rules, me: nat, term: nat, log: Log, commit: nat, next: seq<int>, matched: seq<int>): RaftState {
    P5(me, Leader, term, VoteOf(rules, me), log, commit, next, matched)
  }

  function F5(me: nat, term: nat, voted: int, log: Log): RaftState {
    P5(me, Follower, term, voted, log, 0, Z, Z)
  }

  function B5(me: nat): RaftState { Boot(me, 5, None) }

  function Start5(): seq<RaftState> { [B5(0), B5(1), B5(2), B5(3), B5(4)] }

  lemma BootsAre()
    ensures forall i :: 0 <= i < 5 ==>
                          Start5()[i] == RaftState(i, 5, Follower, 0, NOBODY, P, 0, 0, Z, Z, None)
  {
    assert seq(5, _ => 0) == Z;
  }

  lemma Begin5(rules: Rules)
    ensures At(rules, Start5())
  {
    Opens(rules, 5);
    assert Boots(5) == Five(Start5(), {});
    assert Reached5(rules, Start5(), {});
  }

  predicate MayRun5(rs: seq<RaftState>, i: nat) {
    |rs| == 5 && i < 5 && rs[i].me == i && rs[i].peers == 5 && rs[i].role != Leader
  }

  function Won5(rules: Rules, s: RaftState): RaftState
    requires s.me < 5
  {
    var l := LastIndex(s.log);
    L5(rules, s.me, s.term + 1, s.log, s.commitIndex, [l + 1, l + 1, l + 1, l + 1, l + 1], Z[s.me := l])
  }

  lemma Wins5(rules: Rules, s: RaftState)
    requires s.peers == 5 && s.me < 5 && s.lastApplied == 0
    ensures Won(rules, s) == Won5(rules, s)
  {
    var t := Promote(rules, Campaign(s));
    assert t.nextIndex == Won5(rules, s).nextIndex;
    assert t.matchIndex == Won5(rules, s).matchIndex;
  }

  /** Peer i wins term t with the votes of v and w; w', v' and i' are the three afterwards. */
  lemma Win(rules: Rules, rs: seq<RaftState>, i: nat, v: nat, w: nat, i': RaftState, v': RaftState, w': RaftState)
    returns (to: seq<RaftState>)
    requires At(rules, rs) && v < 5 && w < 5 && i != v && i != w && v != w && MayRun5(rs, i)
    requires Willing(rs[v], rs[i], rs[i].term + 1) && Willing(rs[w], rs[i], rs[i].term + 1)
    requires rs[i].lastApplied == 0 && i' == Won5(rules, rs[i])
    requires v' == Voted(rs[v], i, rs[i].term + 1) && w' == Voted(rs[w], i, rs[i].term + 1)
    ensures to == rs[v := v'][w := w'][i := i'] && At(rules, to)
  {
    var saw :| Reached5(rules, rs, saw);
    to := rs[v := v'][w := w'][i := i'];
    Wins5(rules, rs[i]);
    WinsFive(rules, Five(rs, saw), i, v, w);
    var x := Winner(rules, Votes(Votes(Five(rs, saw), v, i), w, i), i);
    Forgets(rules, x, {});
    assert x.(led := {}) == Five(to, saw);
    Reads(rules, Five(to, saw), i);
    assert Reached5(rules, to, saw + {i});
  }

  lemma Alone(rules: Rules, rs: seq<RaftState>, i: nat, i': RaftState) returns (to: seq<RaftState>)
    requires At(rules, rs) && MayRun5(rs, i) && i' == Persist(Campaign(rs[i]))
    ensures to == rs[i := i'] && At(rules, to)
  {
    var saw :| Reached5(rules, rs, saw);
    to := rs[i := i'];
    CampaignsAlone(rules, Five(rs, saw), i);
    assert Reached5(rules, to, saw);
  }

  lemma Resign(rules: Rules, rs: seq<RaftState>, i: nat) returns (to: seq<RaftState>)
    requires At(rules, rs) && i < 5
    ensures to == rs[i := StepDown(rs[i])] && At(rules, to)
  {
    var saw :| Reached5(rules, rs, saw);
    to := rs[i := StepDown(rs[i])];
    Resigns(rules, Five(rs, saw), i);
    assert Reached5(rules, to, saw);
  }

  lemma Command5(rules: Rules, rs: seq<RaftState>, i: nat, command: Command, i': RaftState) returns (to: seq<RaftState>)
    requires At(rules, rs) && i < 5 && rs[i].me == i && |rs[i].matchIndex| == 5
    requires rs[i].role == Leader && i' == Start(rs[i], command)
    ensures to == rs[i := i'] && At(rules, to)
  {
    var saw :| Reached5(rules, rs, saw);
    to := rs[i := i'];
    Commands(rules, Five(rs, saw), i, command);
    assert Reached5(rules, to, saw);
  }

  predicate MaySend5(rs: seq<RaftState>, i: nat, to: nat) {
    |rs| == 5 && i < 5 && to < 5 && i != to && rs[i].me == i && rs[i].role == Leader && Sendable(rs[i], to)
  }

  lemma Ex(rules: Rules, rs: seq<RaftState>, i: nat, to: nat, q: RaftState, t: RaftState) returns (out: seq<RaftState>)
    requires At(rules, rs) && MaySend5(rs, i, to) && Exchanged(rules, rs[i], rs[to], to) == (q, t)
    requires q.role == Leader ==> rs[to].role == Leader
    ensures out == rs[to := q][i := t] && At(rules, out)
  {
    var saw :| Reached5(rules, rs, saw);
    out := rs[to := q][i := t];
    Exchanges(rules, Five(rs, saw), i, to, q, t);
    assert Reached5(rules, out, saw);
  }

  lemma Count5(a: int, b: int, c: int, d: int, e: int, n: int)
    ensures CountAtLeast([a, b, c, d, e], n) ==
            (if a >= n then 1 else 0) + (if b >= n then 1 else 0) + (if c >= n then 1 else 0)
            + (if d >= n then 1 else 0) + (if e >= n then 1 else 0)
  {
    var ms := [a, b, c, d, e];
    assert ms[..4] == [a, b, c, d] && [a, b, c, d][..3] == [a, b, c] && [a, b, c][..2] == [a, b] && [a, b][..1] == [a];
    assert [a][..0] == [];
    assert CountAtLeast([a], n) == if a >= n then 1 else 0;
    assert CountAtLeast([a, b], n) == CountAtLeast([a], n) + (if b >= n then 1 else 0);
    assert CountAtLeast([a, b, c], n) == CountAtLeast([a, b], n) + (if c >= n then 1 else 0);
    assert CountAtLeast([a, b, c, d], n) == CountAtLeast([a, b, c], n) + (if d >= n then 1 else 0);
  }

  // ----- the same, as steps of a run

  lemma ExOld(rules: Rules, rs: seq<RaftState>, i: nat, to: nat, q: RaftState) returns (out: seq<RaftState>)
    requires At(rules, rs) && MaySend5(rs, i, to) && rs[to].term < rs[i].term
    requires q == Persist(rs[to].(term := rs[i].term, role := Follower)) && rs[i] == Persist(rs[i])
    ensures out == rs[to := q] && At(rules, out)
  {
    HeardOld(rules, rs[i], rs[to], to);
    out := Ex(rules, rs, i, to, q, rs[i]);
    assert out == rs[to := q];
  }

  lemma ExShort(rules: Rules, rs: seq<RaftState>, i: nat, to: nat, t: RaftState) returns (out: seq<RaftState>)
    requires At(rules, rs) && MaySend5(rs, i, to) && rs[to].term == rs[i].term && |rs[to].log| == 1
    requires BuildAppend(rs[i], to).prevIndex >= 1 && (forall e :: e in BuildAppend(rs[i], to).entries ==> e.index >= 1)
    requires rs[i].matchIndex[to] == 0 && rs[to] == Persist(rs[to])
    requires t == Persist(Noted(rs[i], to, 1, 0))
    ensures out == rs[i := t] && At(rules, out)
  {
    HeardShort(rules, rs[i], rs[to], to);
    out := Ex(rules, rs, i, to, rs[to], t);
    assert out == rs[i := t];
  }

  lemma ExFits(rules: Rules, rs: seq<RaftState>, i: nat, to: nat, q: RaftState, t: RaftState)
    returns (out: seq<RaftState>)
    requires At(rules, rs) && MaySend5(rs, i, to) && Fits(rs[i], rs[to], to)
    requires |rs[to].log| >= 1 && BuildAppend(rs[i], to).entries != []
    requires BuildAppend(rs[i], to).entries[0].term != rs[i].term
    requires q == Persist(rs[to].(log := rs[to].log + BuildAppend(rs[i], to).entries))
    requires t == Persist(Noted(rs[i], to, |q.log|, |q.log| - 1))
    ensures out == rs[to := q][i := t] && At(rules, out)
  {
    assert Exchanged(rules, rs[i], rs[to], to) == (q, t) by { HeardFits(rules, rs[i], rs[to], to); }
    out := Ex(rules, rs, i, to, q, t);
  }

  /** The same with entries of the current term, after which a majority has reached k and not k + 1. */
  lemma ExCommits(rules: Rules, rs: seq<RaftState>, i: nat, to: nat, q: RaftState, s: RaftState, k: nat)
    returns (out: seq<RaftState>)
    requires At(rules, rs) && MaySend5(rs, i, to) && Fits(rs[i], rs[to], to)
    requires |rs[to].log| >= 1 && BuildAppend(rs[i], to).entries != []
    requires BuildAppend(rs[i], to).entries[0].term == rs[i].term
    requires q == Persist(rs[to].(log := rs[to].log + BuildAppend(rs[i], to).entries))
    requires s == Noted(rs[i], to, |q.log|, |q.log| - 1)
    requires s.commitIndex == 0 && 1 <= k <= 2 && k < |s.log| <= k + 2 && s.peers == 5
    requires CountAtLeast(s.matchIndex, k) > 2 && (|s.log| == k + 2 ==> CountAtLeast(s.matchIndex, k + 1) <= 2)
    requires rules.currentTermOnly ==> s.log[k].term == s.term
    ensures out == rs[to := q][i := Persist(s.(commitIndex := k))] && At(rules, out)
  {
    var t := Persist(s.(commitIndex := k));
    HeardCommits(rules, rs[i], rs[to], to, q, s, k);
    out := Ex(rules, rs, i, to, q, t);
  }

  lemma HeardCommits(rules: Rules, l: RaftState, p: RaftState, to: nat, q: RaftState, s: RaftState, k: nat)
    requires Fits(l, p, to) && |p.log| >= 1 && BuildAppend(l, to).entries != []
    requires BuildAppend(l, to).entries[0].term == l.term
    requires q == Persist(p.(log := p.log + BuildAppend(l, to).entries)) && s == Noted(l, to, |q.log|, |q.log| - 1)
    requires s.commitIndex == 0 && 1 <= k <= 2 && k < |s.log| <= k + 2 && s.peers == 5
    requires CountAtLeast(s.matchIndex, k) > 2 && (|s.log| == k + 2 ==> CountAtLeast(s.matchIndex, k + 1) <= 2)
    requires rules.currentTermOnly ==> s.log[k].term == s.term
    ensures Exchanged(rules, l, p, to) == (q, Persist(s.(commitIndex := k)))
  {
    CommitsTo(rules, s, k);
    HeardFits(rules, l, p, to);
  }

  /** A reached state in which two peers hold different entries at index 1 as committed. */
  lemma Disagree(rules: Rules, rs: seq<RaftState>, a: nat, b: nat) returns (run: seq<State>, acts: seq<Action>)
    requires At(rules, rs) && Conflict(Five(rs, {}), a, b, 1) && rs[b].role == Leader && rs[a].term <= rs[b].term
    ensures IsRun(rules, 5, run, acts) && !CommitsAgree(run) && !LeadersComplete(run)
  {
    var saw :| Reached5(rules, rs, saw);
    run, acts :| EndsIn(rules, Init(5), run, acts, {}, Idle(Five(rs, saw)));
    ConflictBreaks(run, Five(rs, saw), a, b, 1);
  }

  // ----- rule five: matchIndex is set from a follower's longer log

  const F2 := Entry(2, 1, Op(1))
  const D3 := Entry(3, 2, Op(2))
  const E3 := Entry(3, 3, Op(3))

  /** As written, an empty request that matches makes the whole of a longer log count as replicated. */
  lemma HeardLonger(rules: Rules, s: RaftState, p: RaftState, to: nat)
    requires !rules.matchVerified && Sendable(s, to) && p.term == s.term && s.commitIndex == 0
    requires BuildAppend(s, to).entries == [] && BuildAppend(s, to).prevIndex == 0 && |p.log| >= 1
    ensures Exchanged(rules, s, p, to) == (Persist(p), Persist(Noted(s, to, |p.log|, |p.log| - 1)))
  {
    assert p.log + [] == p.log;
  }

  lemma ExLonger(rules: Rules, rs: seq<RaftState>, i: nat, to: nat, t: RaftState) returns (out: seq<RaftState>)
    requires At(rules, rs) && MaySend5(rs, i, to) && !rules.matchVerified
    requires rs[to].term == rs[i].term && rs[i].commitIndex == 0 && |rs[to].log| >= 1 && rs[to] == Persist(rs[to])
    requires BuildAppend(rs[i], to).entries == [] && BuildAppend(rs[i], to).prevIndex == 0
    requires t == Persist(Noted(rs[i], to, |rs[to].log|, |rs[to].log| - 1))
    ensures out == rs[i := t] && At(rules, out)
  {
    HeardLonger(rules, rs[i], rs[to], to);
    out := Ex(rules, rs, i, to, rs[to], t);
    assert out == rs[i := t];
  }

  function M1(rules: Rules): seq<RaftState> {
    [L5(rules, 0, 2, P, 0, [1, 1, 1, 1, 1], Z),
     F5(1, 2, 0, P),
     L5(rules, 2, 1, [PLACEHOLDER, A1], 0, [1, 1, 1, 1, 1], [0, 0, 1, 0, 0]),
     F5(3, 2, 0, P), F5(4, 1, 2, P)]
  }

  function M0(rules: Rules): seq<RaftState> {
    [B5(0), B5(1), L5(rules, 2, 1, [PLACEHOLDER, A1], 0, [1, 1, 1, 1, 1], [0, 0, 1, 0, 0]),
     F5(3, 1, 2, P), F5(4, 1, 2, P)]
  }

  lemma ReachM0(rules: Rules)
    requires At(rules, Start5())
    ensures At(rules, M0(rules))
  {
    var rs := Start5();
    BootsAre();
    rs := Win(rules, rs, 2, 3, 4, L5(rules, 2, 1, P, 0, [1, 1, 1, 1, 1], Z), F5(3, 1, 2, P), F5(4, 1, 2, P));
    assert rs[2].matchIndex[2 := 1] == [0, 0, 1, 0, 0] && rs[2].log + [A1] == [PLACEHOLDER, A1];
    rs := Command5(rules, rs, 2, Op(0), M0(rules)[2]);
    assert rs == M0(rules);
  }

  lemma ReachM1(rules: Rules)
    requires At(rules, M0(rules))
    ensures At(rules, M1(rules))
  {
    var rs := M0(rules);
    BootsAre();
    rs := Alone(rules, rs, 0, P5(0, Candidate, 1, 0, P, 0, Z, Z));
    rs := Win(rules, rs, 0, 1, 3, L5(rules, 0, 2, P, 0, [1, 1, 1, 1, 1], Z), F5(1, 2, 0, P), F5(3, 2, 0, P));
    assert rs == M1(rules);
  }

  function M2(rules: Rules): seq<RaftState> {
    [L5(rules, 0, 2, [PLACEHOLDER, F2], 0, [1, 1, 2, 1, 1], [1, 0, 1, 0, 0]),
     F5(1, 2, 0, P),
     P5(2, Follower, 2, VoteOf(rules, 2), [PLACEHOLDER, A1], 0, [1, 1, 1, 1, 1], [0, 0, 1, 0, 0]),
     F5(3, 2, 0, P), F5(4, 1, 2, P)]
  }

  lemma ReachM2(rules: Rules)
    requires !rules.matchVerified && At(rules, M1(rules))
    ensures At(rules, M2(rules))
  {
    var rs := M1(rules);
    rs := ExOld(rules, rs, 0, 2,
                P5(2, Follower, 2, VoteOf(rules, 2), [PLACEHOLDER, A1], 0, [1, 1, 1, 1, 1], [0, 0, 1, 0, 0]));
    assert rs[0].nextIndex[2 := 2] == [1, 1, 2, 1, 1] && rs[0].matchIndex[2 := 1] == [0, 0, 1, 0, 0];
    rs := ExLonger(rules, rs, 0, 2, L5(rules, 0, 2, P, 0, [1, 1, 2, 1, 1], [0, 0, 1, 0, 0]));
    assert rs[0].matchIndex[0 := 1] == [1, 0, 1, 0, 0] && rs[0].log + [F2] == [PLACEHOLDER, F2];
    rs := Command5(rules, rs, 0, Op(1), L5(rules, 0, 2, [PLACEHOLDER, F2], 0, [1, 1, 2, 1, 1], [1, 0, 1, 0, 0]));
    assert rs == M2(rules);
  }

  function M3(rules: Rules): seq<RaftState> {
    [L5(rules, 0, 2, [PLACEHOLDER, F2], 1, [1, 2, 2, 1, 1], [1, 1, 1, 0, 0]),
     F5(1, 2, 0, [PLACEHOLDER, F2]),
     P5(2, Follower, 2, VoteOf(rules, 2), [PLACEHOLDER, A1], 0, [1, 1, 1, 1, 1], [0, 0, 1, 0, 0]),
     F5(3, 2, 0, P), F5(4, 1, 2, P)]
  }

  lemma ReachM3(rules: Rules)
    requires !rules.matchVerified && At(rules, M2(rules))
    ensures At(rules, M3(rules))
  {
    var rs := M2(rules);
    assert rs[0].nextIndex[1 := 2] == [1, 2, 2, 1, 1] && rs[0].matchIndex[1 := 1] == [1, 1, 1, 0, 0];
    assert rs[1].log + BuildAppend(rs[0], 1).entries == [PLACEHOLDER, F2];
    Count5(1, 1, 1, 0, 0, 1);
    rs := ExCommits(rules, rs, 0, 1, F5(1, 2, 0, [PLACEHOLDER, F2]),
                    Noted(rs[0], 1, 2, 1), 1);
    assert rs == M3(rules);
  }

  function M4(rules: Rules): seq<RaftState> {
    [L5(rules, 0, 2, [PLACEHOLDER, F2], 1, [1, 2, 2, 1, 1], [1, 1, 1, 0, 0]),
     F5(1, 2, 0, [PLACEHOLDER, F2]),
     L5(rules, 2, 3, [PLACEHOLDER, A1, D3], 0, [2, 2, 2, 1, 2], [0, 0, 2, 0, 0]),
     F5(3, 3, 2, P), F5(4, 3, 2, P)]
  }

  lemma ReachM4(rules: Rules)
    requires !rules.matchVerified && At(rules, M3(rules))
    ensures At(rules, M4(rules))
  {
    var rs := M3(rules);
    rs := Win(rules, rs, 2, 3, 4,
              L5(rules, 2, 3, [PLACEHOLDER, A1], 0, [2, 2, 2, 2, 2], [0, 0, 1, 0, 0]),
              F5(3, 3, 2, P), F5(4, 3, 2, P));
    assert rs[2].matchIndex[2 := 2] == [0, 0, 2, 0, 0] && rs[2].log + [D3] == [PLACEHOLDER, A1, D3];
    rs := Command5(rules, rs, 2, Op(2), L5(rules, 2, 3, [PLACEHOLDER, A1, D3], 0, [2, 2, 2, 2, 2], [0, 0, 2, 0, 0]));
    assert rs[2].nextIndex[3 := 1] == [2, 2, 2, 1, 2] && rs[2].matchIndex[3 := 0] == [0, 0, 2, 0, 0];
    rs := ExShort(rules, rs, 2, 3, L5(rules, 2, 3, [PLACEHOLDER, A1, D3], 0, [2, 2, 2, 1, 2], [0, 0, 2, 0, 0]));
    assert rs == M4(rules);
  }

  function M5(rules: Rules): seq<RaftState> {
    [L5(rules, 0, 2, [PLACEHOLDER, F2], 1, [1, 2, 2, 1, 1], [1, 1, 1, 0, 0]),
     F5(1, 2, 0, [PLACEHOLDER, F2]),
     L5(rules, 2, 3, [PLACEHOLDER, A1, D3], 0, [2, 2, 2, 3, 3], [0, 0, 2, 2, 2]),
     F5(3, 3, 2, [PLACEHOLDER, A1, D3]), F5(4, 3, 2, [PLACEHOLDER, A1, D3])]
  }

  lemma ReachM5(rules: Rules)
    requires !rules.matchVerified && At(rules, M4(rules))
    ensures At(rules, M5(rules))
  {
    ReachM4Half(rules);
    ReachM4More(rules);
    var rs := M4More(rules);
    assert rs[2].nextIndex[4 := 3] == [2, 2, 2, 3, 3] && rs[2].matchIndex[4 := 2] == [0, 0, 2, 2, 2];
    assert rs[4].log + BuildAppend(rs[2], 4).entries == [PLACEHOLDER, A1, D3];
    rs := ExFits(rules, rs, 2, 4, F5(4, 3, 2, [PLACEHOLDER, A1, D3]),
                 L5(rules, 2, 3, [PLACEHOLDER, A1, D3], 0, [2, 2, 2, 3, 3], [0, 0, 2, 2, 2]));
    assert rs == M5(rules);
  }

  function M4More(rules: Rules): seq<RaftState> {
    M4Half(rules)[2 := L5(rules, 2, 3, [PLACEHOLDER, A1, D3], 0, [2, 2, 2, 3, 1], [0, 0, 2, 2, 0])]
  }

  lemma ReachM4More(rules: Rules)
    requires At(rules, M4Half(rules))
    ensures At(rules, M4More(rules))
  {
    var rs := M4Half(rules);
    assert rs[2].nextIndex[4 := 1] == [2, 2, 2, 3, 1] && rs[2].matchIndex[4 := 0] == [0, 0, 2, 2, 0];
    rs := ExShort(rules, rs, 2, 4, M4More(rules)[2]);
    assert rs == M4More(rules);
  }

  function M4Half(rules: Rules): seq<RaftState> {
    M4(rules)[2 := L5(rules, 2, 3, [PLACEHOLDER, A1, D3], 0, [2, 2, 2, 3, 2], [0, 0, 2, 2, 0])]
        [3 := F5(3, 3, 2, [PLACEHOLDER, A1, D3])]
  }

  lemma ReachM4Half(rules: Rules)
    requires !rules.matchVerified && At(rules, M4(rules))
    ensures At(rules, M4Half(rules))
  {
    var rs := M4(rules);
    assert rs[2].nextIndex[3 := 3] == [2, 2, 2, 3, 2] && rs[2].matchIndex[3 := 2] == [0, 0, 2, 2, 0];
    assert rs[3].log + BuildAppend(rs[2], 3).entries == [PLACEHOLDER, A1, D3];
    rs := ExFits(rules, rs, 2, 3, F5(3, 3, 2, [PLACEHOLDER, A1, D3]),
                 L5(rules, 2, 3, [PLACEHOLDER, A1, D3], 0, [2, 2, 2, 3, 2], [0, 0, 2, 2, 0]));
    assert rs == M4Half(rules);
  }

  function M6(rules: Rules): seq<RaftState> {
    [L5(rules, 0, 2, [PLACEHOLDER, F2], 1, [1, 2, 2, 1, 1], [1, 1, 1, 0, 0]),
     F5(1, 2, 0, [PLACEHOLDER, F2]),
     L5(rules, 2, 3, [PLACEHOLDER, A1, D3, E3], 0, [2, 2, 2, 3, 3], [0, 0, 3, 2, 2]),
     F5(3, 3, 2, [PLACEHOLDER, A1, D3]), F5(4, 3, 2, [PLACEHOLDER, A1, D3])]
  }

  lemma ReachM6(rules: Rules)
    requires !rules.matchVerified && At(rules, M5(rules))
    ensures At(rules, M6(rules))
  {
    var rs := M5(rules);
    assert rs[2].matchIndex[2 := 3] == [0, 0, 3, 2, 2] && rs[2].log + [E3] == [PLACEHOLDER, A1, D3, E3];
    rs := Command5(rules, rs, 2, Op(3),
                   L5(rules, 2, 3, [PLACEHOLDER, A1, D3, E3], 0, [2, 2, 2, 3, 3], [0, 0, 3, 2, 2]));
    assert rs == M6(rules);
  }

  function M7(rules: Rules): seq<RaftState> {
    [L5(rules, 0, 2, [PLACEHOLDER, F2], 1, [1, 2, 2, 1, 1], [1, 1, 1, 0, 0]),
     F5(1, 2, 0, [PLACEHOLDER, F2]),
     L5(rules, 2, 3, [PLACEHOLDER, A1, D3, E3], 2, [2, 2, 2, 4, 3], [0, 0, 3, 3, 2]),
     F5(3, 3, 2, [PLACEHOLDER, A1, D3, E3]), F5(4, 3, 2, [PLACEHOLDER, A1, D3])]
  }

  lemma ReachM7(rules: Rules)
    requires !rules.matchVerified && At(rules, M6(rules))
    ensures At(rules, M7(rules))
  {
    var rs := M6(rules);
    assert rs[2].nextIndex[3 := 4] == [2, 2, 2, 4, 3] && rs[2].matchIndex[3 := 3] == [0, 0, 3, 3, 2];
    assert rs[3].log + BuildAppend(rs[2], 3).entries == [PLACEHOLDER, A1, D3, E3];
    Count5(0, 0, 3, 3, 2, 2);
    Count5(0, 0, 3, 3, 2, 3);
    rs := ExCommits(rules, rs, 2, 3, F5(3, 3, 2, [PLACEHOLDER, A1, D3, E3]),
                    Noted(rs[2], 3, 4, 3), 2);
    assert rs == M7(rules);
  }

  /** Fifth rule: peer 0 counts peer 2's unrelated entry, commits with two copies, and loses the entry. */
  lemma UnverifiedMatchCounts(rules: Rules) returns (run: seq<State>, acts: seq<Action>)
    requires !rules.matchVerified
    ensures IsRun(rules, 5, run, acts) && !CommitsAgree(run) && !LeadersComplete(run)
  {
    Begin5(rules);
    ReachM0(rules);
    ReachM1(rules);
    ReachM2(rules);
    ReachM3(rules);
    ReachM4(rules);
    ReachM5(rules);
    ReachM6(rules);
    ReachM7(rules);
    run, acts := Disagree(rules, M7(rules), 0, 2);
  }

  // ----- rule six: an entry of an earlier term is committed by counting

  const B2 := Entry(2, 1, Op(4))
  const C3 := Entry(3, 2, Op(5))
  const D4 := Entry(4, 2, Op(6))
  const E4 := Entry(4, 3, Op(7))

  lemma HeardOther(rules: Rules, s: RaftState, p: RaftState, to: nat)
    requires Sendable(s, to) && p.term == s.term && s.matchIndex[to] == 0
    requires BuildAppend(s, to).prevIndex == 1 < |p.log| && p.log[1].term != BuildAppend(s, to).prevTerm
    ensures Exchanged(rules, s, p, to) == (Persist(p.(log := p.log[..1])), Persist(Noted(s, to, 1, 0)))
  {
  }

  lemma ExOther(rules: Rules, rs: seq<RaftState>, i: nat, to: nat, q: RaftState, t: RaftState)
    returns (out: seq<RaftState>)
    requires At(rules, rs) && MaySend5(rs, i, to) && rs[to].term == rs[i].term
    requires BuildAppend(rs[i], to).prevIndex == 1 < |rs[to].log| && rs[i].matchIndex[to] == 0
    requires rs[to].log[1].term != BuildAppend(rs[i], to).prevTerm
    requires q == Persist(rs[to].(log := rs[to].log[..1])) && t == Persist(Noted(rs[i], to, 1, 0))
    ensures out == rs[to := q][i := t] && At(rules, out)
  {
    HeardOther(rules, rs[i], rs[to], to);
    out := Ex(rules, rs, i, to, q, t);
  }

  function T1(rules: Rules): seq<RaftState> {
    [L5(rules, 0, 1, [PLACEHOLDER, A1], 0, [1, 1, 1, 1, 1], [1, 0, 0, 0, 0]),
     F5(1, 1, 0, P), F5(2, 2, 4, P),
     F5(3, 2, 4, P),
     L5(rules, 4, 2, P, 0, [1, 1, 1, 1, 1], Z)]
  }

  function T0(rules: Rules): seq<RaftState> {
    [L5(rules, 0, 1, [PLACEHOLDER, A1], 0, [1, 1, 1, 1, 1], [1, 0, 0, 0, 0]), F5(1, 1, 0, P), F5(2, 1, 0, P),
     B5(3), B5(4)]
  }

  lemma ReachT0(rules: Rules)
    requires At(rules, Start5())
    ensures At(rules, T0(rules))
  {
    var rs := Start5();
    BootsAre();
    rs := Win(rules, rs, 0, 1, 2, L5(rules, 0, 1, P, 0, [1, 1, 1, 1, 1], Z), F5(1, 1, 0, P), F5(2, 1, 0, P));
    assert rs[0].matchIndex[0 := 1] == [1, 0, 0, 0, 0] && rs[0].log + [A1] == [PLACEHOLDER, A1];
    rs := Command5(rules, rs, 0, Op(0), T0(rules)[0]);
    assert rs == T0(rules);
  }

  lemma ReachT1(rules: Rules)
    requires At(rules, T0(rules))
    ensures At(rules, T1(rules))
  {
    var rs := T0(rules);
    BootsAre();
    rs := Alone(rules, rs, 4, P5(4, Candidate, 1, 4, P, 0, Z, Z));
    rs := Win(rules, rs, 4, 2, 3, L5(rules, 4, 2, P, 0, [1, 1, 1, 1, 1], Z), F5(2, 2, 4, P), F5(3, 2, 4, P));
    assert rs == T1(rules);
  }

  function T2(rules: Rules): seq<RaftState> {
    [L5(rules, 0, 3, [PLACEHOLDER, A1], 0, [2, 2, 2, 2, 2], [1, 0, 0, 0, 0]),
     F5(1, 3, 0, P), F5(2, 3, 0, P),
     F5(3, 2, 4, P),
     L5(rules, 4, 2, [PLACEHOLDER, B2], 0, [1, 1, 1, 1, 1], [0, 0, 0, 0, 1])]
  }

  lemma ReachT2(rules: Rules)
    requires !rules.currentTermOnly && At(rules, T1(rules))
    ensures At(rules, T2(rules))
  {
    var rs := T1(rules);
    assert rs[4].matchIndex[4 := 1] == [0, 0, 0, 0, 1] && rs[4].log + [B2] == [PLACEHOLDER, B2];
    rs := Command5(rules, rs, 4, Op(4), L5(rules, 4, 2, [PLACEHOLDER, B2], 0, [1, 1, 1, 1, 1], [0, 0, 0, 0, 1]));
    rs := Resign(rules, rs, 0);
    rs := Alone(rules, rs, 0, P5(0, Candidate, 2, 0, [PLACEHOLDER, A1], 0, [1, 1, 1, 1, 1], [1, 0, 0, 0, 0]));
    rs := Win(rules, rs, 0, 1, 2,
              L5(rules, 0, 3, [PLACEHOLDER, A1], 0, [2, 2, 2, 2, 2], [1, 0, 0, 0, 0]),
              F5(1, 3, 0, P), F5(2, 3, 0, P));
    assert rs == T2(rules);
  }

  function T3(rules: Rules): seq<RaftState> {
    [L5(rules, 0, 3, [PLACEHOLDER, A1], 0, [2, 2, 1, 2, 2], [1, 1, 0, 0, 0]),
     F5(1, 3, 0, [PLACEHOLDER, A1]), F5(2, 3, 0, P),
     F5(3, 2, 4, P),
     L5(rules, 4, 2, [PLACEHOLDER, B2], 0, [1, 1, 1, 1, 1], [0, 0, 0, 0, 1])]
  }

  lemma ReachT3(rules: Rules)
    requires !rules.currentTermOnly && At(rules, T2(rules))
    ensures At(rules, T3(rules))
  {
    ReachT2Half(rules);
    var rs := T2Half(rules);
    assert rs[0].nextIndex[2 := 1] == [2, 2, 1, 2, 2] && rs[0].matchIndex[2 := 0] == [1, 1, 0, 0, 0];
    rs := ExShort(rules, rs, 0, 2, L5(rules, 0, 3, [PLACEHOLDER, A1], 0, [2, 2, 1, 2, 2], [1, 1, 0, 0, 0]));
    assert rs == T3(rules);
  }

  function T2Half(rules: Rules): seq<RaftState> {
    T2(rules)[0 := L5(rules, 0, 3, [PLACEHOLDER, A1], 0, [2, 2, 2, 2, 2], [1, 1, 0, 0, 0])]
        [1 := F5(1, 3, 0, [PLACEHOLDER, A1])]
  }

  lemma ReachT2Half(rules: Rules)
    requires !rules.currentTermOnly && At(rules, T2(rules))
    ensures At(rules, T2Half(rules))
  {
    var rs := T2(rules);
    assert rs[0].nextIndex[1 := 1] == [2, 1, 2, 2, 2] && rs[0].matchIndex[1 := 0] == [1, 0, 0, 0, 0];
    rs := ExShort(rules, rs, 0, 1, L5(rules, 0, 3, [PLACEHOLDER, A1], 0, [2, 1, 2, 2, 2], [1, 0, 0, 0, 0]));
    assert rs[0].nextIndex[1 := 2] == [2, 2, 2, 2, 2] && rs[0].matchIndex[1 := 1] == [1, 1, 0, 0, 0];
    assert rs[1].log + BuildAppend(rs[0], 1).entries == [PLACEHOLDER, A1];
    rs := ExFits(rules, rs, 0, 1, F5(1, 3, 0, [PLACEHOLDER, A1]),
                 L5(rules, 0, 3, [PLACEHOLDER, A1], 0, [2, 2, 2, 2, 2], [1, 1, 0, 0, 0]));
    assert rs == T2Half(rules);
  }

  function T4(rules: Rules): seq<RaftState> {
    [L5(rules, 0, 3, [PLACEHOLDER, A1, C3], 0, [2, 2, 2, 2, 2], [2, 1, 1, 0, 0]),
     F5(1, 3, 0, [PLACEHOLDER, A1]), F5(2, 3, 0, [PLACEHOLDER, A1]),
     F5(3, 2, 4, P),
     L5(rules, 4, 2, [PLACEHOLDER, B2], 0, [1, 1, 1, 1, 1], [0, 0, 0, 0, 1])]
  }

  lemma ReachT4(rules: Rules)
    requires !rules.currentTermOnly && At(rules, T3(rules))
    ensures At(rules, T4(rules))
  {
    var rs := T3(rules);
    assert rs[0].nextIndex[2 := 2] == [2, 2, 2, 2, 2] && rs[0].matchIndex[2 := 1] == [1, 1, 1, 0, 0];
    assert rs[2].log + BuildAppend(rs[0], 2).entries == [PLACEHOLDER, A1];
    rs := ExFits(rules, rs, 0, 2, F5(2, 3, 0, [PLACEHOLDER, A1]),
                 L5(rules, 0, 3, [PLACEHOLDER, A1], 0, [2, 2, 2, 2, 2], [1, 1, 1, 0, 0]));
    assert rs[0].matchIndex[0 := 2] == [2, 1, 1, 0, 0] && rs[0].log + [C3] == [PLACEHOLDER, A1, C3];
    rs := Command5(rules, rs, 0, Op(5), L5(rules, 0, 3, [PLACEHOLDER, A1, C3], 0, [2, 2, 2, 2, 2], [2, 1, 1, 0, 0]));
    assert rs == T4(rules);
  }

  function T5(rules: Rules): seq<RaftState> {
    [L5(rules, 0, 3, [PLACEHOLDER, A1, C3], 1, [2, 3, 2, 2, 2], [2, 2, 1, 0, 0]),
     F5(1, 3, 0, [PLACEHOLDER, A1, C3]), F5(2, 3, 0, [PLACEHOLDER, A1]),
     F5(3, 2, 4, P),
     L5(rules, 4, 2, [PLACEHOLDER, B2], 0, [1, 1, 1, 1, 1], [0, 0, 0, 0, 1])]
  }

  lemma ReachT5(rules: Rules)
    requires !rules.currentTermOnly && At(rules, T4(rules))
    ensures At(rules, T5(rules))
  {
    var rs := T4(rules);
    assert rs[0].nextIndex[1 := 3] == [2, 3, 2, 2, 2] && rs[0].matchIndex[1 := 2] == [2, 2, 1, 0, 0];
    assert rs[1].log + BuildAppend(rs[0], 1).entries == [PLACEHOLDER, A1, C3];
    Count5(2, 2, 1, 0, 0, 1);
    Count5(2, 2, 1, 0, 0, 2);
    rs := ExCommits(rules, rs, 0, 1, F5(1, 3, 0, [PLACEHOLDER, A1, C3]),
                    Noted(rs[0], 1, 3, 2), 1);
    assert rs == T5(rules);
  }

  function T6(rules: Rules): seq<RaftState> {
    [L5(rules, 0, 3, [PLACEHOLDER, A1, C3], 1, [2, 3, 2, 2, 2], [2, 2, 1, 0, 0]),
     F5(1, 3, 0, [PLACEHOLDER, A1, C3]), F5(2, 4, 4, [PLACEHOLDER, A1]),
     F5(3, 4, 4, P),
     L5(rules, 4, 4, [PLACEHOLDER, B2, D4], 0, [2, 2, 2, 2, 2], [0, 0, 0, 0, 2])]
  }

  lemma ReachT6(rules: Rules)
    requires !rules.currentTermOnly && At(rules, T5(rules))
    ensures At(rules, T6(rules))
  {
    var rs := T5(rules);
    rs := Resign(rules, rs, 4);
    rs := Alone(rules, rs, 4, P5(4, Candidate, 3, 4, [PLACEHOLDER, B2], 0, [1, 1, 1, 1, 1], [0, 0, 0, 0, 1]));
    rs := Win(rules, rs, 4, 2, 3,
              L5(rules, 4, 4, [PLACEHOLDER, B2], 0, [2, 2, 2, 2, 2], [0, 0, 0, 0, 1]),
              F5(2, 4, 4, [PLACEHOLDER, A1]), F5(3, 4, 4, P));
    assert rs[4].matchIndex[4 := 2] == [0, 0, 0, 0, 2] && rs[4].log + [D4] == [PLACEHOLDER, B2, D4];
    rs := Command5(rules, rs, 4, Op(6), L5(rules, 4, 4, [PLACEHOLDER, B2, D4], 0, [2, 2, 2, 2, 2], [0, 0, 0, 0, 2]));
    assert rs == T6(rules);
  }

  function T7(rules: Rules): seq<RaftState> {
    [L5(rules, 0, 3, [PLACEHOLDER, A1, C3], 1, [2, 3, 2, 2, 2], [2, 2, 1, 0, 0]),
     F5(1, 3, 0, [PLACEHOLDER, A1, C3]), F5(2, 4, 4, P),
     F5(3, 4, 4, [PLACEHOLDER, B2, D4]),
     L5(rules, 4, 4, [PLACEHOLDER, B2, D4], 0, [2, 2, 1, 3, 2], [0, 0, 0, 2, 2])]
  }

  lemma ReachT7(rules: Rules)
    requires !rules.currentTermOnly && At(rules, T6(rules))
    ensures At(rules, T7(rules))
  {
    ReachT6Half(rules);
    var rs := T6Half(rules);
    assert rs[4].nextIndex[2 := 1] == [2, 2, 1, 3, 2] && rs[4].matchIndex[2 := 0] == [0, 0, 0, 2, 2];
    assert rs[2].log[..1] == P;
    rs := ExOther(rules, rs, 4, 2, F5(2, 4, 4, P),
                  L5(rules, 4, 4, [PLACEHOLDER, B2, D4], 0, [2, 2, 1, 3, 2], [0, 0, 0, 2, 2]));
    assert rs == T7(rules);
  }

  function T6Half(rules: Rules): seq<RaftState> {
    T6(rules)[3 := F5(3, 4, 4, [PLACEHOLDER, B2, D4])]
        [4 := L5(rules, 4, 4, [PLACEHOLDER, B2, D4], 0, [2, 2, 2, 3, 2], [0, 0, 0, 2, 2])]
  }

  lemma ReachT6Half(rules: Rules)
    requires !rules.currentTermOnly && At(rules, T6(rules))
    ensures At(rules, T6Half(rules))
  {
    var rs := T6(rules);
    assert rs[4].nextIndex[3 := 1] == [2, 2, 2, 1, 2] && rs[4].matchIndex[3 := 0] == [0, 0, 0, 0, 2];
    rs := ExShort(rules, rs, 4, 3, L5(rules, 4, 4, [PLACEHOLDER, B2, D4], 0, [2, 2, 2, 1, 2], [0, 0, 0, 0, 2]));
    assert rs[4].nextIndex[3 := 3] == [2, 2, 2, 3, 2] && rs[4].matchIndex[3 := 2] == [0, 0, 0, 2, 2];
    assert rs[3].log + BuildAppend(rs[4], 3).entries == [PLACEHOLDER, B2, D4];
    rs := ExFits(rules, rs, 4, 3, F5(3, 4, 4, [PLACEHOLDER, B2, D4]),
                 L5(rules, 4, 4, [PLACEHOLDER, B2, D4], 0, [2, 2, 2, 3, 2], [0, 0, 0, 2, 2]));
    assert rs == T6Half(rules);
  }

  function T8(rules: Rules): seq<RaftState> {
    [L5(rules, 0, 3, [PLACEHOLDER, A1, C3], 1, [2, 3, 2, 2, 2], [2, 2, 1, 0, 0]),
     F5(1, 3, 0, [PLACEHOLDER, A1, C3]), F5(2, 4, 4, [PLACEHOLDER, B2, D4]),
     F5(3, 4, 4, [PLACEHOLDER, B2, D4]),
     L5(rules, 4, 4, [PLACEHOLDER, B2, D4, E4], 0, [2, 2, 3, 3, 2], [0, 0, 2, 2, 3])]
  }

  lemma ReachT8(rules: Rules)
    requires !rules.currentTermOnly && At(rules, T7(rules))
    ensures At(rules, T8(rules))
  {
    var rs := T7(rules);
    assert rs[4].nextIndex[2 := 3] == [2, 2, 3, 3, 2] && rs[4].matchIndex[2 := 2] == [0, 0, 2, 2, 2];
    assert rs[2].log + BuildAppend(rs[4], 2).entries == [PLACEHOLDER, B2, D4];
    rs := ExFits(rules, rs, 4, 2, F5(2, 4, 4, [PLACEHOLDER, B2, D4]),
                 L5(rules, 4, 4, [PLACEHOLDER, B2, D4], 0, [2, 2, 3, 3, 2], [0, 0, 2, 2, 2]));
    assert rs[4].matchIndex[4 := 3] == [0, 0, 2, 2, 3] && rs[4].log + [E4] == [PLACEHOLDER, B2, D4, E4];
    rs := Command5(rules, rs, 4, Op(7),
                   L5(rules, 4, 4, [PLACEHOLDER, B2, D4, E4], 0, [2, 2, 3, 3, 2], [0, 0, 2, 2, 3]));
    assert rs == T8(rules);
  }

  function T9(rules: Rules): seq<RaftState> {
    [L5(rules, 0, 3, [PLACEHOLDER, A1, C3], 1, [2, 3, 2, 2, 2], [2, 2, 1, 0, 0]),
     F5(1, 3, 0, [PLACEHOLDER, A1, C3]), F5(2, 4, 4, [PLACEHOLDER, B2, D4]),
     F5(3, 4, 4, [PLACEHOLDER, B2, D4, E4]),
     L5(rules, 4, 4, [PLACEHOLDER, B2, D4, E4], 2, [2, 2, 3, 4, 2], [0, 0, 2, 3, 3])]
  }

  lemma ReachT9(rules: Rules)
    requires !rules.currentTermOnly && At(rules, T8(rules))
    ensures At(rules, T9(rules))
  {
    var rs := T8(rules);
    assert rs[4].nextIndex[3 := 4] == [2, 2, 3, 4, 2] && rs[4].matchIndex[3 := 3] == [0, 0, 2, 3, 3];
    assert rs[3].log + BuildAppend(rs[4], 3).entries == [PLACEHOLDER, B2, D4, E4];
    Count5(0, 0, 2, 3, 3, 2);
    Count5(0, 0, 2, 3, 3, 3);
    rs := ExCommits(rules, rs, 4, 3, F5(3, 4, 4, [PLACEHOLDER, B2, D4, E4]),
                    Noted(rs[4], 3, 4, 3), 2);
    assert rs == T9(rules);
  }

  /** Sixth rule: peer 0 commits an entry of term 1 in term 3, and peer 4 overwrites it. */
  lemma OldTermCounts(rules: Rules) returns (run: seq<State>, acts: seq<Action>)
    requires !rules.currentTermOnly
    ensures IsRun(rules, 5, run, acts) && !CommitsAgree(run) && !LeadersComplete(run)
  {
    Begin5(rules);
    ReachT0(rules);
    ReachT1(rules);
    ReachT2(rules);
    ReachT3(rules);
    ReachT4(rules);
    ReachT5(rules);
    ReachT6(rules);
    ReachT7(rules);
    ReachT8(rules);
    ReachT9(rules);
    run, acts := Disagree(rules, T9(rules), 0, 4);
  }
}
