/** Building runs a few actions at a time, for the runs that break a guarantee. */
module Witnesses {
  import opened Options
  import opened RaftTypes
  import opened RaftHandlers
  import opened Cluster
  import opened Guarantees

  /** A peer that led a term, and its log at a moment when it did. */
  datatype Tenure = Tenure(peer: nat, term: nat, log: Log)

  ghost predicate Leads(c: State, p: Tenure) {
    LeadsIn(c, p.peer, p.term) && LogOf(c, p.peer) == p.log
  }

  ghost predicate HasLed(run: seq<State>, p: Tenure) {
    exists k :: 0 <= k < |run| && Leads(run[k], p)
  }

  /** Actions that lead from one state to others. */
  ghost predicate Walk(rules: Rules, from: State, run: seq<State>, acts: seq<Action>) {
    && |run| == |acts| + 1
    && run[0] == from
    && forall k :: 0 <= k < |acts| ==> Taken(rules, run[k], acts[k], run[k + 1])
  }

  /** `run` starts in `from` and ends in c, and on the way came by every tenure of `led`. */
  ghost predicate EndsIn(rules: Rules, from: State, run: seq<State>, acts: seq<Action>, led: set<Tenure>, c: State)
  {
    && Walk(rules, from, run, acts)
    && run[|run| - 1] == c
    && forall p :: p in led ==> HasLed(run, p)
  }

  ghost predicate Reached(rules: Rules, from: State, led: set<Tenure>, c: State) {
    exists run, acts :: EndsIn(rules, from, run, acts, led, c)
  }

  lemma Begin(rules: Rules, from: State)
    ensures Reached(rules, from, {}, from)
  {
    assert EndsIn(rules, from, [from], [], {}, from);
  }

  lemma Go(rules: Rules, from: State, led: set<Tenure>, c: State, a: Action)
    requires Reached(rules, from, led, c) && Enabled(rules, c, a)
    ensures Reached(rules, from, led, Next(rules, c, a))
  {
    var run, acts :| EndsIn(rules, from, run, acts, led, c);
    var d := Next(rules, c, a);
    var run', acts' := run + [d], acts + [a];
    forall k | 0 <= k < |acts'| ensures Taken(rules, run'[k], acts'[k], run'[k + 1]) {
      if k < |acts| { assert Taken(rules, run[k], acts[k], run[k + 1]); }
    }
    forall p | p in led ensures HasLed(run', p) {
      var k :| 0 <= k < |run| && Leads(run[k], p);
      assert Leads(run'[k], p);
    }
    assert EndsIn(rules, from, run', acts', led, d);
  }

  lemma Mark(rules: Rules, from: State, led: set<Tenure>, c: State, p: Tenure)
    requires Reached(rules, from, led, c) && Leads(c, p)
    ensures Reached(rules, from, led + {p}, c)
  {
    var run, acts :| EndsIn(rules, from, run, acts, led, c);
    assert Leads(run[|run| - 1], p);
    assert EndsIn(rules, from, run, acts, led + {p}, c);
  }

  // ----- states in which no election is going on

  /** The peers, those in `saw` having read their role as leader, the requests in `net`, the tenures
      passed, and the state from which they were reached. */
  datatype Scene = Scene(rs: seq<RaftState>, saw: set<nat>, net: multiset<Message>, led: set<Tenure>, from: State)

  function Idle(x: Scene): State {
    State(seq(|x.rs|, i requires 0 <= i < |x.rs| => Server(x.rs[i], None, i in x.saw)), x.net)
  }

  ghost predicate Played(rules: Rules, x: Scene) {
    Reached(rules, x.from, x.led, Idle(x))
  }

  /** Tenures may be dropped from the record. */
  lemma Forgets(rules: Rules, x: Scene, led: set<Tenure>)
    requires Played(rules, x) && led <= x.led
    ensures Played(rules, x.(led := led))
  {
    var run, acts :| EndsIn(rules, x.from, run, acts, x.led, Idle(x));
    assert Idle(x.(led := led)) == Idle(x);
    assert EndsIn(rules, x.from, run, acts, led, Idle(x));
  }

  function Boots(n: nat): Scene {
    Scene(seq(n, i requires 0 <= i < n => Boot(i, n, None)), {}, multiset{}, {}, Init(n))
  }

  lemma Opens(rules: Rules, n: nat)
    ensures Played(rules, Boots(n))
  {
    Begin(rules, Init(n));
    assert Init(n) == Idle(Boots(n));
  }

  /** A peer whose fields are all saved. */
  function Peer(me: nat, n: nat, role: Role, term: nat, voted: int, log: Log, commit: nat,
                next: seq<int>, matched: seq<int>): RaftState {
    RaftState(me, n, role, term, voted, log, commit, 0, next, matched, Some(Persistent(term, voted, log)))
  }

  function Voted(s: RaftState, i: nat, t: nat): RaftState {
    Persist(s.(term := t, votedFor := i, role := Follower))
  }

  function Won(rules: Rules, s: RaftState): RaftState {
    Persist(Promote(rules, Campaign(s)))
  }

  /** The peer will vote for candidate `s` of term `t`. */
  predicate Willing(v: RaftState, s: RaftState, t: nat) {
    && (v.term < t || (v.term == t && v.role != Leader && v.votedFor == NOBODY))
    && UpToDate(VoteArgs(t, s.me, LastIndex(s.log), LastTerm(s.log)), v.log)
  }

  lemma WillingVotes(v: RaftState, s: RaftState)
    requires Willing(v, s, s.term)
    ensures HandleVote(v, VoteRequest(s)) == (Voted(v, s.me, s.term), VoteReply(v.term, true))
  {
  }

  predicate MayRun(x: Scene, i: nat) {
    i < |x.rs| && x.rs[i].me == i && x.rs[i].peers == |x.rs| && x.rs[i].role != Leader
  }

  /** An election in which only the candidate itself votes. */
  lemma CampaignsAlone(rules: Rules, x: Scene, i: nat)
    requires Played(rules, x) && |x.rs| >= 2 && MayRun(x, i)
    ensures Played(rules, x.(rs := x.rs[i := Persist(Campaign(x.rs[i]))]))
  {
    var c := Idle(x);
    Go(rules, x.from, x.led, c, StartCampaign(i));
    var d := Next(rules, c, StartCampaign(i));
    Go(rules, x.from, x.led, d, FinishCampaign(i));
    assert Next(rules, d, FinishCampaign(i)) == Idle(x.(rs := x.rs[i := Persist(Campaign(x.rs[i]))]));
  }

  /** The candidate holds the lock and has the votes of itself and `got`. */
  function Campaigning(x: Scene, i: nat, got: set<nat>): State
    requires i < |x.rs|
  {
    var s := Campaign(x.rs[i]);
    Idle(x).(servers := Idle(x).servers[i := Server(s, Some(Tally(VoteRequest(s), got, {i} + got)), i in x.saw)])
  }

  lemma StartsCampaign(rules: Rules, x: Scene, i: nat)
    requires Played(rules, x) && MayRun(x, i)
    ensures Reached(rules, x.from, x.led, Campaigning(x, i, {}))
  {
    Go(rules, x.from, x.led, Idle(x), StartCampaign(i));
    assert {i} + {} == {i};
    assert Next(rules, Idle(x), StartCampaign(i)) == Campaigning(x, i, {});
  }

  lemma GetsVote(rules: Rules, x: Scene, i: nat, v: nat, got: set<nat>)
    requires i < |x.rs| && v < |x.rs| && i != v && v !in got && x.rs[i].me == i
    requires Willing(x.rs[v], x.rs[i], x.rs[i].term + 1)
    requires Reached(rules, x.from, x.led, Campaigning(x, i, got))
    ensures
      var y := x.(rs := x.rs[v := Voted(x.rs[v], i, x.rs[i].term + 1)]);
      Reached(rules, x.from, x.led, Campaigning(y, i, got + {v}))
  {
    var y := x.(rs := x.rs[v := Voted(x.rs[v], i, x.rs[i].term + 1)]);
    var c, e := Campaigning(x, i, got), Campaigning(y, i, got + {v});
    WillingVotes(x.rs[v], Campaign(x.rs[i]));
    Go(rules, x.from, x.led, c, Poll(i, v));
    var d := Next(rules, c, Poll(i, v));
    assert ({i} + got) + {v} == {i} + (got + {v});
    assert d.servers[i] == e.servers[i] && d.servers[v] == e.servers[v];
    assert d.servers == e.servers;
  }

  lemma WinsCampaign(rules: Rules, x: Scene, i: nat, got: set<nat>)
    requires MayRun(x, i) && i !in got && |got| >= |x.rs| / 2
    requires Reached(rules, x.from, x.led, Campaigning(x, i, got))
    ensures Played(rules, Winner(rules, x, i))
  {
    Go(rules, x.from, x.led, Campaigning(x, i, got), FinishCampaign(i));
    CountedOut(rules, x, i, got);
    var d := Idle(Winner(rules, x, i));
    Mark(rules, x.from, x.led, d, Tenure(i, x.rs[i].term + 1, x.rs[i].log));
  }

  lemma CountedOut(rules: Rules, x: Scene, i: nat, got: set<nat>)
    requires MayRun(x, i) && i !in got && |got| >= |x.rs| / 2
    ensures Enabled(rules, Campaigning(x, i, got), FinishCampaign(i))
    ensures Next(rules, Campaigning(x, i, got), FinishCampaign(i)) == Idle(Winner(rules, x, i))
  {
    var d := Next(rules, Campaigning(x, i, got), FinishCampaign(i));
    assert |{i} + got| == 1 + |got|;
    assert d.servers[i] == Idle(Winner(rules, x, i)).servers[i];
    assert d.servers == Idle(Winner(rules, x, i)).servers;
  }

  /** Peer i leads its next term, and that is noted. */
  function Winner(rules: Rules, x: Scene, i: nat): Scene
    requires i < |x.rs|
  {
    x.(rs := x.rs[i := Won(rules, x.rs[i])], led := x.led + {Tenure(i, x.rs[i].term + 1, x.rs[i].log)})
  }

  function Votes(x: Scene, v: nat, i: nat): Scene
    requires v < |x.rs| && i < |x.rs|
  {
    x.(rs := x.rs[v := Voted(x.rs[v], i, x.rs[i].term + 1)])
  }

  /** Three peers: i wins its next term with the vote of v. */
  lemma WinsThree(rules: Rules, x: Scene, i: nat, v: nat)
    requires Played(rules, x) && |x.rs| == 3 && MayRun(x, i) && v < 3 && i != v
    requires Willing(x.rs[v], x.rs[i], x.rs[i].term + 1)
    ensures Played(rules, Winner(rules, Votes(x, v, i), i))
  {
    StartsCampaign(rules, x, i);
    GetsVote(rules, x, i, v, {});
    assert {} + {v} == {v};
    WinsCampaign(rules, Votes(x, v, i), i, {v});
  }

  /** Five peers: i wins its next term with the votes of v and w. */
  lemma WinsFive(rules: Rules, x: Scene, i: nat, v: nat, w: nat)
    requires Played(rules, x) && |x.rs| == 5 && MayRun(x, i) && v < 5 && w < 5 && i != v && i != w && v != w
    requires Willing(x.rs[v], x.rs[i], x.rs[i].term + 1) && Willing(x.rs[w], x.rs[i], x.rs[i].term + 1)
    ensures Played(rules, Winner(rules, Votes(Votes(x, v, i), w, i), i))
  {
    StartsCampaign(rules, x, i);
    GetsVote(rules, x, i, v, {});
    assert {} + {v} == {v};
    GetsVote(rules, Votes(x, v, i), i, w, {v});
    assert {v} + {w} == {v, w} && |{v, w}| == 2;
    WinsCampaign(rules, Votes(Votes(x, v, i), w, i), i, {v, w});
  }

  lemma Reads(rules: Rules, x: Scene, i: nat)
    requires Played(rules, x) && i < |x.rs| && x.rs[i].role == Leader
    ensures Played(rules, x.(saw := x.saw + {i}))
  {
    Go(rules, x.from, x.led, Idle(x), ReadRole(i));
    assert Next(rules, Idle(x), ReadRole(i)) == Idle(x.(saw := x.saw + {i}));
  }

  lemma Resigns(rules: Rules, x: Scene, i: nat)
    requires Played(rules, x) && i < |x.rs|
    ensures Played(rules, x.(rs := x.rs[i := StepDown(x.rs[i])]))
  {
    Go(rules, x.from, x.led, Idle(x), GiveUpRole(i));
    assert Next(rules, Idle(x), GiveUpRole(i)) == Idle(x.(rs := x.rs[i := StepDown(x.rs[i])]));
  }

  /** The peer is leader, or has read so and not looked again. */
  predicate MayAct(rules: Rules, x: Scene, i: nat) {
    i < |x.rs| && x.rs[i].me == i && if rules.leaderOnly then x.rs[i].role == Leader else i in x.saw
  }

  predicate MaySend(rules: Rules, x: Scene, i: nat, to: nat) {
    MayAct(rules, x, i) && to < |x.rs| && i != to && Sendable(x.rs[i], to)
  }

  lemma Commands(rules: Rules, x: Scene, i: nat, command: Command)
    requires Played(rules, x) && MayAct(rules, x, i) && i < |x.rs[i].matchIndex|
    ensures Played(rules, x.(rs := x.rs[i := Start(x.rs[i], command)]))
  {
    Go(rules, x.from, x.led, Idle(x), ClientStart(i, command));
    assert Next(rules, Idle(x), ClientStart(i, command)) == Idle(x.(rs := x.rs[i := Start(x.rs[i], command)]));
  }

  /** The state after a command, its lists written out. */
  lemma StartIs(s: RaftState, command: Command, t: RaftState)
    requires s.me < |s.matchIndex| && t == Persist(s.(log := t.log, matchIndex := t.matchIndex))
    requires |t.log| == |s.log| + 1 && (forall i :: 0 <= i < |s.log| ==> t.log[i] == s.log[i])
    requires t.log[|s.log|] == Entry(s.term, LastIndex(s.log) + 1, command)
    requires |t.matchIndex| == |s.matchIndex|
    requires forall i :: 0 <= i < |s.matchIndex| ==>
                           t.matchIndex[i] == if i == s.me then LastIndex(s.log) + 1 else s.matchIndex[i]
    ensures Start(s, command) == t
  {
    assert s.log + [Entry(s.term, LastIndex(s.log) + 1, command)] == t.log;
    assert s.matchIndex[s.me := LastIndex(s.log) + 1] == t.matchIndex;
  }

  /** A request whose reply will not be seen. */
  lemma Sends(rules: Rules, x: Scene, i: nat, to: nat)
    requires Played(rules, x) && MaySend(rules, x, i, to) && x.rs[i] == Persist(x.rs[i])
    ensures Played(rules, x.(net := x.net + multiset{AppendMsg(to, BuildAppend(x.rs[i], to))}))
  {
    var a := BuildAppend(x.rs[i], to);
    Go(rules, x.from, x.led, Idle(x), ExchangeLost(i, to));
    assert HandleReply(rules, x.rs[i], to, a, LOST) == x.rs[i];
    assert Next(rules, Idle(x), ExchangeLost(i, to)) == Idle(x.(net := x.net + multiset{AppendMsg(to, a)}));
  }

  /** A late request arrives. */
  lemma Arrives(rules: Rules, x: Scene, to: nat, a: AppendArgs)
    requires Played(rules, x) && to < |x.rs| && AppendMsg(to, a) in x.net
    ensures Played(rules, Arrived(rules, x, to, a))
  {
    var m := AppendMsg(to, a);
    Go(rules, x.from, x.led, Idle(x), LateDelivery(m));
    assert Next(rules, Idle(x), LateDelivery(m)) == Idle(Arrived(rules, x, to, a));
  }

  function Arrived(rules: Rules, x: Scene, to: nat, a: AppendArgs): Scene
    requires to < |x.rs|
  {
    x.(rs := x.rs[to := HandleAppend(rules, x.rs[to], a).0], net := x.net - multiset{AppendMsg(to, a)})
  }

  /** The follower's and the leader's state after an exchange. */
  function Exchanged(rules: Rules, s: RaftState, p: RaftState, to: nat): (RaftState, RaftState)
    requires Sendable(s, to)
  {
    var a := BuildAppend(s, to);
    var (q, r) := HandleAppend(rules, p, a);
    (q, HandleReply(rules, s, to, a, r))
  }

  lemma Exchanges(rules: Rules, x: Scene, i: nat, to: nat, q: RaftState, t: RaftState)
    requires Played(rules, x) && MaySend(rules, x, i, to) && Exchanged(rules, x.rs[i], x.rs[to], to) == (q, t)
    ensures Played(rules, x.(rs := x.rs[to := q][i := t]))
  {
    Go(rules, x.from, x.led, Idle(x), Exchange(i, to));
    assert Next(rules, Idle(x), Exchange(i, to)) == Idle(x.(rs := x.rs[to := q][i := t]));
  }

  // ----- what breaks a guarantee

  /** Peers a and b hold different entries at k as committed; where b leads, it lacks what a has. */
  predicate Conflict(x: Scene, a: nat, b: nat, k: nat) {
    && a < |x.rs| && b < |x.rs| && k < |x.rs[a].log| && k < |x.rs[b].log|
    && k <= x.rs[a].commitIndex && k <= x.rs[b].commitIndex && x.rs[a].log[k] != x.rs[b].log[k]
  }

  lemma ConflictBreaks(run: seq<State>, x: Scene, a: nat, b: nat, k: nat)
    requires run != [] && run[|run| - 1] == Idle(x) && Conflict(x, a, b, k)
    requires x.rs[b].role == Leader && x.rs[a].term <= x.rs[b].term
    ensures !CommitsAgree(run) && !LeadersComplete(run)
  {
    var c := run[|run| - 1];
    assert LogOf(c, a)[k] != LogOf(c, b)[k];
    assert !Agree(c, a, c, b);
    var n := CommitOf(c, a) + 1;
    assert n <= |LogOf(c, a)| && n <= |LogOf(c, b)| ==> LogOf(c, a)[..n][k] != LogOf(c, b)[..n][k];
  }

  /** Peers a and b have entries of one term at k, after different entries at j. */
  predicate Mismatch(x: Scene, a: nat, b: nat, j: nat, k: nat) {
    && a < |x.rs| && b < |x.rs| && j <= k < |x.rs[a].log| && k < |x.rs[b].log|
    && x.rs[a].log[k].term == x.rs[b].log[k].term && x.rs[a].log[j] != x.rs[b].log[j]
  }

  lemma MismatchBreaks(run: seq<State>, x: Scene, a: nat, b: nat, j: nat, k: nat)
    requires run != [] && run[|run| - 1] == Idle(x) && Mismatch(x, a, b, j, k)
    ensures !LogsMatch(run)
  {
    var c := run[|run| - 1];
    var l, m := LogOf(c, a), LogOf(c, b);
    assert l[..k + 1][j] == l[j] && m[..k + 1][j] == m[j];
    assert !Matching(l, m);
  }

  lemma TwoLeadersBreak(run: seq<State>, p: Tenure, q: Tenure)
    requires HasLed(run, p) && HasLed(run, q) && p.term == q.term && p.peer != q.peer
    ensures !ElectionSafe(run)
  {
  }

  lemma TwoLogsBreak(run: seq<State>, p: Tenure, q: Tenure)
    requires HasLed(run, p) && HasLed(run, q) && p.term == q.term && !(p.log <= q.log) && !(q.log <= p.log)
    ensures !LeadersOnlyAppend(run)
  {
  }

  // ----- the ways an exchange goes in these runs

  lemma NoConflicts(log: Log, entries: seq<Entry>)
    requires forall e :: e in entries ==> e.index >= |log|
    ensures FirstConflict(log, entries) == |entries|
  {
  }

  /** The leader after noting what the follower reported. */
  function Noted(s: RaftState, to: nat, next: int, matched: int): RaftState
    requires to < |s.nextIndex| == |s.matchIndex|
  {
    s.(nextIndex := s.nextIndex[to := next], matchIndex := s.matchIndex[to := matched])
  }

  lemma HeardOld(rules: Rules, s: RaftState, p: RaftState, to: nat)
    requires Sendable(s, to) && p.term < s.term
    ensures Exchanged(rules, s, p, to) == (Persist(p.(term := s.term, role := Follower)), Persist(s))
  {
  }

  lemma HeardShort(rules: Rules, s: RaftState, p: RaftState, to: nat)
    requires Sendable(s, to) && p.term == s.term && |p.log| >= 1
    requires BuildAppend(s, to).prevIndex >= |p.log|
    requires forall e :: e in BuildAppend(s, to).entries ==> e.index >= |p.log|
    ensures Exchanged(rules, s, p, to) ==
            (Persist(p), Persist(Noted(s, to, |p.log|, if rules.matchVerified then s.matchIndex[to] else |p.log| - 1)))
  {
    NoConflicts(p.log, BuildAppend(s, to).entries);
  }

  /** The entries fit at the follower's end. */
  predicate Fits(s: RaftState, p: RaftState, to: nat) {
    && Sendable(s, to) && p.term == s.term
    && var a := BuildAppend(s, to);
    && a.prevIndex + 1 == |p.log| && (a.prevIndex == 0 || p.log[a.prevIndex].term == a.prevTerm)
    && (forall e :: e in a.entries ==> e.index >= |p.log|)
    && a.leaderCommit <= p.commitIndex
  }

  lemma FitsAppends(rules: Rules, s: RaftState, p: RaftState, to: nat)
    requires Fits(s, p, to)
    ensures
      var a := BuildAppend(s, to);
      HandleAppend(rules, p, a) == (Persist(p.(log := p.log + a.entries)), AppendReply(0, true, |p.log + a.entries|))
  {
    var a := BuildAppend(s, to);
    NoConflicts(p.log, a.entries);
    assert a.entries[|p.log| - a.prevIndex - 1..] == a.entries;
    assert a.entries == [] ==> p.log + a.entries == p.log;
  }

  lemma HeardFits(rules: Rules, s: RaftState, p: RaftState, to: nat)
    requires Fits(s, p, to) && |p.log| >= 1
    ensures
      var a := BuildAppend(s, to);
      var next := |p.log| + |a.entries|;
      var t := Noted(s, to, next, next - 1);
      Exchanged(rules, s, p, to) ==
        (Persist(p.(log := p.log + a.entries)),
         Persist(if a.entries != [] && a.entries[0].term == s.term then CommitLog(rules, t) else t))
  {
    FitsAppends(rules, s, p, to);
  }

  /** commitLog, when a majority has reached k and not k + 1, and entry k is of the current term. */
  lemma CommitsTo(rules: Rules, s: RaftState, k: nat)
    requires s.commitIndex < k <= s.commitIndex + 2 && k < |s.log| <= k + 2 && Replicated(s, k)
    requires rules.currentTermOnly ==> s.log[k].term == s.term
    requires |s.log| == k + 2 ==> !Replicated(s, k + 1)
    ensures CommitLog(rules, s) == s.(commitIndex := k)
  {
    var c := if k == s.commitIndex + 2 && MayCommit(rules, s, k - 1) then k - 1 else s.commitIndex;
    assert CommitScan(rules, s, s.commitIndex + 1, s.commitIndex) == CommitScan(rules, s, k, c);
    assert MayCommit(rules, s, k);
    assert CommitScan(rules, s, k, c) == CommitScan(rules, s, k + 1, k);
    if |s.log| == k + 2 {
      assert !MayCommit(rules, s, k + 1);
      assert CommitScan(rules, s, k + 1, k) == CommitScan(rules, s, k + 2, k);
    }
  }
}
