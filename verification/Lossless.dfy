/** entry.go as written, in runs where a call is either answered or its request never arrives: appending all
    entries of a request never repeats one, because the leader always knows where the follower's log ends. */
module Lossless {
  import opened Options
  import opened RaftTypes
  import opened RaftHandlers
  import opened Cluster
  import opened History
  import opened Record
  import opened Elections
  import opened LogSteps
  import opened Guarantees
  import opened Safety
  import Shape

  /** Rules one to three hold; entries are appended and matchIndex is set as written. */
  ghost predicate AppendsAsWritten(rules: Rules) {
    ElectionRules(rules) && !rules.appendNew && !rules.matchVerified
  }

  /** No append request is handled after its caller stopped waiting. */
  ghost predicate NoLateAppends(acts: seq<Action>) {
    forall k :: 0 <= k < |acts| ==> InTime(acts[k])
  }

  ghost predicate InTime(a: Action) {
    !(a.LateDelivery? && a.m.AppendMsg?)
  }

  /** The leader has not reached the follower in this term: nextIndex is where its own log ended when it won. */
  ghost predicate Fresh(h: Past, s: RaftState, f: nat, log: Log)
    requires s.term in h.reigns && f < |s.nextIndex| == |s.matchIndex|
  {
    && s.nextIndex[f] == |h.reigns[s.term].base|
    && s.matchIndex[f] == 0
    && forall i :: 0 <= i < |log| ==> log[i].term != s.term
  }

  /** nextIndex is the follower's log length and matchIndex one less. */
  ghost predicate Tracked(s: RaftState, f: nat, log: Log)
    requires f < |s.nextIndex| == |s.matchIndex|
  {
    s.nextIndex[f] == |log| && s.matchIndex[f] == |log| - 1
  }

  /** Leader i's view of peer f, as long as f's term is not past the leader's. */
  ghost predicate ViewOk(h: Past, v: Server, f: nat, w: Server) {
    var s, p := v.raft, w.raft;
    s.role == Leader && Stable(p).term <= s.term ==>
      && s.term in h.reigns && f < |s.nextIndex| == |s.matchIndex|
      && (Fresh(h, s, f, p.log) || (Stable(p).term == s.term && Tracked(s, f, p.log)))
  }

  ghost predicate ViewsOk(h: Past, c: State) {
    forall i, f :: 0 <= i < |c.servers| && 0 <= f < |c.servers| && i != f ==>
                     ViewOk(h, c.servers[i], f, c.servers[f])
  }

  // ----- one exchange

  /** An accepted non-empty request starts exactly where the follower's log ends. */
  lemma AcceptedFits(rules: Rules, h: Past, n: nat, i: nat, f: nat, v: Server, w: Server)
    requires !rules.appendNew && i != f
    requires ReignsOk(h, n) && ServerLog(h, n, i, v) && ServerLog(h, n, f, w) && ViewOk(h, v, f, w)
    requires v.raft.role == Leader && w.tally.None?
    ensures CanSend(v.raft, f) && NoRepeat(rules, w.raft, BuildAppend(v.raft, f))
  {
    var s, p := v.raft, w.raft;
    RequestStep(h, n, i, s, f);
    LastIsPosition(h, s.log);
    var a := BuildAppend(s, f);
    assert ReignOk(h, n, s.term);
    if a.entries != [] && HandleAppend(rules, p, a).1.success {
      assert p.term == s.term;
      if Fresh(h, s, f, p.log) && |p.log| > a.prevIndex + 1 {
        FreshConflicts(h, n, s, f, p.log);
        assert false;
      }
    }
  }

  lemma FreshConflicts(h: Past, n: nat, s: RaftState, f: nat, log: Log)
    requires s.term in h.reigns && h.reigns[s.term].log == s.log && ReignOk(h, n, s.term) && Rooted(h, s.log)
    requires f < |s.nextIndex| == |s.matchIndex| && Fresh(h, s, f, log) && CanSend(s, f)
    requires BuildAppend(s, f).entries != [] && |log| > s.nextIndex[f]
    ensures FirstConflict(log, BuildAppend(s, f).entries) == 0
  {
    var e := BuildAppend(s, f).entries[0];
    assert e == s.log[s.nextIndex[f]];
    assert EntryOk(h, s.log, s.nextIndex[f]);
    assert Conflicts(log, e);
  }

  /** After any exchange in the leader's term the leader's view of the follower is exact. */
  lemma ExchangeTracks(rules: Rules, s: RaftState, f: nat, p: RaftState, a: AppendArgs)
    requires !rules.matchVerified && f < |s.nextIndex| == |s.matchIndex|
    requires a.term == s.term == p.term && |p.log| >= 1
    requires forall j :: 0 <= j < |a.entries| ==> a.entries[j].index >= 1
    ensures
      var (q, r) := HandleAppend(rules, p, a);
      var t := HandleReply(rules, s, f, a, r);
      && t.term == s.term && t.role == s.role
      && |t.nextIndex| == |s.nextIndex| && |t.matchIndex| == |s.matchIndex|
      && Tracked(t, f, q.log)
      && (forall g :: 0 <= g < |s.nextIndex| && g != f ==>
                        t.nextIndex[g] == s.nextIndex[g] && t.matchIndex[g] == s.matchIndex[g])
  {
  }

  // ----- every action

  /** If still leader, v' leads the same term and sees f as v did. */
  ghost predicate SeesSame(v: Server, v': Server, f: nat) {
    v'.raft.role == Leader ==>
      && v.raft.role == Leader && v'.raft.term == v.raft.term
      && |v'.raft.nextIndex| == |v.raft.nextIndex| && |v'.raft.matchIndex| == |v.raft.matchIndex|
      && (f < |v.raft.nextIndex| == |v.raft.matchIndex| ==>
            v'.raft.nextIndex[f] == v.raft.nextIndex[f] && v'.raft.matchIndex[f] == v.raft.matchIndex[f])
  }

  /** w' has the log of w, or one whose entries are of terms up to its own, which is not t. */
  ghost predicate LooksSame(w: Server, w': Server, t: nat) {
    && Stable(w.raft).term <= Stable(w'.raft).term
    && (w'.raft.log == w.raft.log
        || (Stable(w.raft).term == Stable(w'.raft).term != t && TermsUpTo(w'.raft.log, Stable(w'.raft).term)))
  }

  lemma QuietView(h: Past, g: Past, v: Server, v': Server, f: nat, w: Server, w': Server)
    requires ViewOk(h, v, f, w) && ReignsGrow(h, g) && SeesSame(v, v', f)
    requires v'.raft.role == Leader ==> LooksSame(w, w', v'.raft.term)
    ensures ViewOk(g, v', f, w')
  {
  }

  /** A server's own fields that other servers' views depend on do not move. */
  ghost predicate Calm(v: Server, w: Server) {
    && w.raft.log == v.raft.log
    && Stable(v.raft).term <= Stable(w.raft).term
    && (w.raft.role == Leader ==>
          && v.raft.role == Leader && w.raft.term == v.raft.term
          && w.raft.nextIndex == v.raft.nextIndex && w.raft.matchIndex == v.raft.matchIndex)
  }

  lemma CalmStep(h: Past, g: Past, c: State, d: State)
    requires ViewsOk(h, c) && ReignsGrow(h, g) && |d.servers| == |c.servers|
    requires forall i :: 0 <= i < |c.servers| ==> Calm(c.servers[i], d.servers[i])
    ensures ViewsOk(g, d)
  {
    forall i, f | 0 <= i < |c.servers| && 0 <= f < |c.servers| && i != f
      ensures ViewOk(g, d.servers[i], f, d.servers[f])
    {
      QuietView(h, g, c.servers[i], d.servers[i], f, c.servers[f], d.servers[f]);
    }
  }

  lemma CalmActions(rules: Rules, h: Past, c: State, a: Action)
    requires ElectionRules(rules) && LogInv(h, c) && Enabled(rules, c, a) && InTime(a)
    requires !a.Exchange? && !a.ClientStart?
    requires a.FinishCampaign? ==> !Wins(rules, c.servers[a.i].raft, |c.servers[a.i].tally.value.votes|)
    ensures |Next(rules, c, a).servers| == |c.servers|
    ensures forall i :: 0 <= i < |c.servers| ==> Calm(c.servers[i], Next(rules, c, a).servers[i])
  {
    forall i | 0 <= i < |c.servers| ensures Calm(c.servers[i], Next(rules, c, a).servers[i]) {
      assert ServerLog(h, |c.servers|, i, c.servers[i]);
      CalmServer(rules, h, c, a, i);
    }
  }

  lemma CalmServer(rules: Rules, h: Past, c: State, a: Action, i: nat)
    requires Enabled(rules, c, a) && InTime(a) && !a.Exchange? && !a.ClientStart?
    requires a.FinishCampaign? ==> !Wins(rules, c.servers[a.i].raft, |c.servers[a.i].tally.value.votes|)
    requires i < |c.servers| && ServerLog(h, |c.servers|, i, c.servers[i])
    ensures Calm(c.servers[i], Next(rules, c, a).servers[i])
  {
    match a
    case ExchangeLost(j, to) => CalmWhenLost(rules, c, j, to, i);
    case FinishCampaign(j) => CalmWhenBeaten(rules, h, c, j, i);
    case LateDelivery(m) => CalmLateVote(rules, h, c, m, i);
    case Poll(j, to) => CalmPoll(rules, h, c, j, to, i);
    case _ => CalmOtherwise(rules, h, c, a, i);
  }

  lemma CalmWhenLost(rules: Rules, c: State, j: nat, to: nat, i: nat)
    requires Enabled(rules, c, ExchangeLost(j, to)) && i < |c.servers|
    requires c.servers[i].tally.None? ==> Stable(c.servers[i].raft) == Saved(c.servers[i].raft)
    ensures Calm(c.servers[i], Next(rules, c, ExchangeLost(j, to)).servers[i])
  {
    LostChangesNothing(rules, c.servers[j].raft, to, BuildAppend(c.servers[j].raft, to));
  }

  lemma CalmWhenBeaten(rules: Rules, h: Past, c: State, j: nat, i: nat)
    requires Enabled(rules, c, FinishCampaign(j)) && i < |c.servers|
    requires !Wins(rules, c.servers[j].raft, |c.servers[j].tally.value.votes|)
    requires ServerLog(h, |c.servers|, i, c.servers[i])
    ensures Calm(c.servers[i], Next(rules, c, FinishCampaign(j)).servers[i])
  {
  }

  lemma CalmLateVote(rules: Rules, h: Past, c: State, m: Message, i: nat)
    requires Enabled(rules, c, LateDelivery(m)) && m.VoteMsg? && i < |c.servers|
    requires ServerLog(h, |c.servers|, i, c.servers[i])
    ensures Calm(c.servers[i], Next(rules, c, LateDelivery(m)).servers[i])
  {
  }

  lemma CalmPoll(rules: Rules, h: Past, c: State, j: nat, to: nat, i: nat)
    requires Enabled(rules, c, Poll(j, to)) && i < |c.servers| && ServerLog(h, |c.servers|, i, c.servers[i])
    ensures Calm(c.servers[i], Next(rules, c, Poll(j, to)).servers[i])
  {
  }

  lemma CalmOtherwise(rules: Rules, h: Past, c: State, a: Action, i: nat)
    requires Enabled(rules, c, a) && (a.StartCampaign? || Quiet(a)) && i < |c.servers|
    requires ServerLog(h, |c.servers|, i, c.servers[i])
    ensures Calm(c.servers[i], Next(rules, c, a).servers[i])
  {
  }

  lemma LostChangesNothing(rules: Rules, s: RaftState, f: nat, a: AppendArgs)
    requires f < |s.nextIndex| == |s.matchIndex|
    ensures HandleReply(rules, s, f, a, LOST) == Persist(s)
  {
  }

  /** A new leader is fresh towards everyone: nobody has an entry of a term that was not won before. */
  lemma WinView(rules: Rules, h: Past, g: Past, n: nat, i: nat, v: Server, f: nat, w: Server)
    requires rules.giveUp && ReignsOk(h, n) && ServerLog(h, n, i, v) && ServerLog(h, n, f, w) && v.tally.Some? && i != f
    requires Wins(rules, v.raft, |v.tally.value.votes|) && g == AfterTally(rules, h, v.raft, v.tally.value)
    ensures ViewOk(g, v.(raft := Finish(rules, v.raft, |v.tally.value.votes|), tally := None), f, w)
  {
    AllWon(h, n);
    TermIsUnclaimed(h, n, i, v);
    LastIsPosition(h, v.raft.log);
    var t := v.raft.term;
    forall k | 0 <= k < |w.raft.log| ensures w.raft.log[k].term != t {
      if k > 0 { assert EntryOk(h, w.raft.log, k); }
    }
  }

  lemma WinKeepsViews(rules: Rules, h: Past, c: State, i: nat)
    requires ElectionRules(rules) && LogInv(h, c) && ViewsOk(h, c) && Enabled(rules, c, FinishCampaign(i))
    requires Wins(rules, c.servers[i].raft, |c.servers[i].tally.value.votes|)
    ensures ViewsOk(After(rules, h, c, FinishCampaign(i)), Next(rules, c, FinishCampaign(i)))
  {
    var n, d := |c.servers|, Next(rules, c, FinishCampaign(i));
    var g := After(rules, h, c, FinishCampaign(i));
    TallyStep(rules, h, g, n, i, c.servers[i]);
    forall j, f | 0 <= j < n && 0 <= f < n && j != f ensures ViewOk(g, d.servers[j], f, d.servers[f]) {
      assert ServerLog(h, n, i, c.servers[i]) && ServerLog(h, n, f, c.servers[f]);
      if j == i {
        WinView(rules, h, g, n, i, c.servers[i], f, c.servers[f]);
      } else {
        QuietView(h, g, c.servers[j], d.servers[j], f, c.servers[f], d.servers[f]);
      }
    }
  }

  lemma StartKeepsViews(rules: Rules, h: Past, c: State, i: nat, command: Command)
    requires rules.leaderOnly && LogInv(h, c) && ViewsOk(h, c) && Enabled(rules, c, ClientStart(i, command))
    ensures ViewsOk(After(rules, h, c, ClientStart(i, command)), Next(rules, c, ClientStart(i, command)))
  {
    var n, d := |c.servers|, Next(rules, c, ClientStart(i, command));
    var g := After(rules, h, c, ClientStart(i, command));
    assert ServerLog(h, n, i, c.servers[i]);
    EntryStep(h, g, n, i, c.servers[i], command);
    forall j, f | 0 <= j < n && 0 <= f < n && j != f ensures ViewOk(g, d.servers[j], f, d.servers[f]) {
      assert ServerLog(h, n, j, c.servers[j]);
      StartSeen(h, g, n, i, c.servers[i], command, j, c.servers[j], f, c.servers[f]);
    }
  }

  /** A new entry at i, as seen from and by the others: no other leader is of i's term. */
  lemma StartSeen(h: Past, g: Past, n: nat, i: nat, v: Server, command: Command, j: nat, w: Server, f: nat, x: Server)
    requires ServerLog(h, n, i, v) && v.tally.None? && v.raft.role == Leader && ReignsGrow(h, g)
    requires ServerLog(g, n, i, v.(raft := Start(v.raft, command))) && ServerLog(h, n, j, w) && ViewOk(h, w, f, x)
    requires j != f < n && (j == i ==> w == v) && (f == i ==> x == v)
    ensures
      var v' := v.(raft := Start(v.raft, command));
      ViewOk(g, if j == i then v' else w, f, if f == i then v' else x)
  {
    var v' := v.(raft := Start(v.raft, command));
    var w', x' := if j == i then v' else w, if f == i then v' else x;
    assert SeesSame(w, w', f);
    assert w'.raft.role == Leader ==> LooksSame(x, x', w'.raft.term);
    QuietView(h, g, w, w', f, x, x');
  }

  lemma ExchangeKeepsViews(rules: Rules, h: Past, c: State, i: nat, to: nat)
    requires AppendsAsWritten(rules) && LogInv(h, c) && ViewsOk(h, c) && Enabled(rules, c, Exchange(i, to))
    requires NoRepeats(rules, c, Exchange(i, to))
    ensures ViewsOk(After(rules, h, c, Exchange(i, to)), Next(rules, c, Exchange(i, to)))
  {
    var n, d := |c.servers|, Next(rules, c, Exchange(i, to));
    var g := After(rules, h, c, Exchange(i, to));
    ExchangeKeepsLogs(rules, h, c, i, to);
    forall j, f | 0 <= j < n && 0 <= f < n && j != f ensures ViewOk(g, d.servers[j], f, d.servers[f]) {
      ExchangeKeepsView(rules, h, g, c, i, to, j, f);
    }
  }

  lemma ExchangeKeepsView(rules: Rules, h: Past, g: Past, c: State, i: nat, to: nat, j: nat, f: nat)
    requires AppendsAsWritten(rules) && LogInv(h, c) && ViewsOk(h, c) && Enabled(rules, c, Exchange(i, to))
    requires LogInv(g, Next(rules, c, Exchange(i, to))) && ReignsGrow(h, g)
    requires j < |c.servers| && f < |c.servers| && j != f
    ensures ViewOk(g, Next(rules, c, Exchange(i, to)).servers[j], f, Next(rules, c, Exchange(i, to)).servers[f])
  {
    var n, d := |c.servers|, Next(rules, c, Exchange(i, to));
    assert ViewOk(h, c.servers[j], f, c.servers[f]);
    if j == i && f == to && c.servers[i].raft.term == c.servers[to].raft.term {
      assert ServerLog(g, n, i, d.servers[i]) && ServerLog(g, n, to, d.servers[to]);
      ExchangeTracksPair(rules, h, c, i, to);
    } else {
      ExchangeSees(rules, h, c, i, to, j, f);
      ExchangeLooks(rules, h, g, c, i, to, j, f);
      QuietView(h, g, c.servers[j], d.servers[j], f, c.servers[f], d.servers[f]);
    }
  }

  lemma ExchangeTracksPair(rules: Rules, h: Past, c: State, i: nat, to: nat)
    requires AppendsAsWritten(rules) && LogInv(h, c) && Enabled(rules, c, Exchange(i, to))
    requires c.servers[i].raft.term == c.servers[to].raft.term
    ensures
      var d := Next(rules, c, Exchange(i, to));
      var s, p := d.servers[i].raft, d.servers[to].raft;
      && s.role == Leader && s.term == p.term == c.servers[i].raft.term && Stable(p).term == p.term
      && to < |s.nextIndex| == |s.matchIndex| && Tracked(s, to, p.log)
  {
    var n := |c.servers|;
    assert ServerLog(h, n, i, c.servers[i]) && ServerLog(h, n, to, c.servers[to]);
    EntriesHavePositions(h, n, i, c.servers[i].raft, to);
    ExchangeTracks(rules, c.servers[i].raft, to, c.servers[to].raft, BuildAppend(c.servers[i].raft, to));
  }

  /** Every other leader's numbers stay as they are. */
  lemma ExchangeSees(rules: Rules, h: Past, c: State, i: nat, to: nat, j: nat, f: nat)
    requires AppendsAsWritten(rules) && LogInv(h, c) && Enabled(rules, c, Exchange(i, to))
    requires j < |c.servers| && !(j == i && f == to && c.servers[i].raft.term == c.servers[to].raft.term)
    ensures SeesSame(c.servers[j], Next(rules, c, Exchange(i, to)).servers[j], f)
  {
    var n := |c.servers|;
    var s, p := c.servers[i].raft, c.servers[to].raft;
    var a := BuildAppend(s, to);
    assert ServerLog(h, n, i, c.servers[i]) && ServerLog(h, n, to, c.servers[to]);
    if s.term == p.term {
      EntriesHavePositions(h, n, i, s, to);
      ExchangeTracks(rules, s, to, p, a);
    } else {
      OtherTermExchange(rules, s, to, p, a);
    }
  }

  /** Every other follower's log stays as it is, or is of no concern to the leader that looks. */
  lemma ExchangeLooks(rules: Rules, h: Past, g: Past, c: State, i: nat, to: nat, j: nat, f: nat)
    requires AppendsAsWritten(rules) && LogInv(h, c) && Enabled(rules, c, Exchange(i, to))
    requires LogInv(g, Next(rules, c, Exchange(i, to))) && ReignsGrow(h, g)
    requires j < |c.servers| && f < |c.servers| && j != f
    requires !(j == i && f == to && c.servers[i].raft.term == c.servers[to].raft.term)
    ensures
      var d := Next(rules, c, Exchange(i, to));
      d.servers[j].raft.role == Leader ==> LooksSame(c.servers[f], d.servers[f], d.servers[j].raft.term)
  {
    var n, d := |c.servers|, Next(rules, c, Exchange(i, to));
    ExchangedServers(rules, c, i, to);
    assert ServerLog(h, n, i, c.servers[i]) && ServerLog(h, n, to, c.servers[to]);
    if f == i {
      SenderLooksSame(rules, h, n, i, c.servers[i], to, c.servers[to], d.servers[i], d.servers[j].raft.term);
    } else if f == to {
      assert ServerLog(g, n, to, d.servers[to]) && ServerLog(g, n, j, d.servers[j]);
      ReceiverLooksSame(rules, h, g, n, i, c.servers[i], to, c.servers[to], d.servers[to], j, d.servers[j]);
    }
  }

  lemma ExchangedServers(rules: Rules, c: State, i: nat, to: nat)
    requires Enabled(rules, c, Exchange(i, to))
    ensures
      var d := Next(rules, c, Exchange(i, to));
      var a := BuildAppend(c.servers[i].raft, to);
      var (q, r) := HandleAppend(rules, c.servers[to].raft, a);
      && |d.servers| == |c.servers|
      && d.servers[to].raft == q && d.servers[i].raft == HandleReply(rules, c.servers[i].raft, to, a, r)
      && (forall x :: 0 <= x < |c.servers| && x != i && x != to ==> d.servers[x] == c.servers[x])
  {
  }

  lemma SenderLooksSame(rules: Rules, h: Past, n: nat, i: nat, v: Server, to: nat, w: Server, v': Server, t: nat)
    requires ServerLog(h, n, i, v) && v.tally.None? && Sendable(v.raft, to)
    requires
      var a := BuildAppend(v.raft, to);
      v'.raft == HandleReply(rules, v.raft, to, a, HandleAppend(rules, w.raft, a).1)
    ensures LooksSame(v, v', t)
  {
    var a := BuildAppend(v.raft, to);
    if v.raft.term != w.raft.term {
      OtherTermExchange(rules, v.raft, to, w.raft, a);
    } else {
      SameTermExchange(rules, v.raft, to, w.raft, a);
    }
  }

  lemma ReceiverLooksSame(rules: Rules, h: Past, g: Past, n: nat, i: nat, v: Server, to: nat, w: Server, w': Server,
                          j: nat, x: Server)
    requires ServerLog(h, n, i, v) && v.raft.role == Leader && v.tally.None? && Sendable(v.raft, to) && ReignsGrow(h, g)
    requires ServerLog(h, n, to, w) && w.tally.None? && ServerLog(g, n, to, w') && ServerLog(g, n, j, x)
    requires w'.raft == HandleAppend(rules, w.raft, BuildAppend(v.raft, to)).0
    requires j != to && (j == i ==> v.raft.term != w.raft.term)
    ensures x.raft.role == Leader ==> LooksSame(w, w', x.raft.term)
  {
    var a := BuildAppend(v.raft, to);
    if v.raft.term != w.raft.term {
      OtherTermExchange(rules, v.raft, to, w.raft, a);
    } else {
      SameTermExchange(rules, v.raft, to, w.raft, a);
    }
  }

  lemma SameTermExchange(rules: Rules, s: RaftState, f: nat, p: RaftState, a: AppendArgs)
    requires f < |s.nextIndex| == |s.matchIndex| && a.term == s.term == p.term
    ensures
      var (q, r) := HandleAppend(rules, p, a);
      var t := HandleReply(rules, s, f, a, r);
      q.term == p.term && q.disk == Some(Saved(q)) && t.log == s.log && t.term == s.term && t.disk == Some(Saved(t))
  {
  }

  lemma OtherTermExchange(rules: Rules, s: RaftState, f: nat, p: RaftState, a: AppendArgs)
    requires f < |s.nextIndex| == |s.matchIndex| && a.term == s.term != p.term
    ensures
      var (q, r) := HandleAppend(rules, p, a);
      var t := HandleReply(rules, s, f, a, r);
      && q.log == p.log && q.term >= p.term && q.disk == Some(Saved(q))
      && (q.role == Leader ==> q == Persist(p))
      && t.log == s.log && t.term >= s.term && t.disk == Some(Saved(t))
      && (t.role == Leader ==> t == Persist(s))
  {
  }

  lemma EntriesHavePositions(h: Past, n: nat, i: nat, s: RaftState, to: nat)
    requires Rooted(h, s.log) && LeaderOk(h, n, i, s) && to < n && CanSend(s, to)
    ensures forall j :: 0 <= j < |BuildAppend(s, to).entries| ==> BuildAppend(s, to).entries[j].index >= 1
  {
    var a := BuildAppend(s, to);
    RequestStep(h, n, i, s, to);
    forall j | 0 <= j < |a.entries| ensures a.entries[j].index >= 1 {
      assert EntryOk(h, s.log, a.prevIndex + 1 + j);
    }
  }

  lemma StepKeepsViews(rules: Rules, h: Past, c: State, a: Action)
    requires AppendsAsWritten(rules) && LogInv(h, c) && ViewsOk(h, c) && Enabled(rules, c, a) && InTime(a)
    ensures NoRepeats(rules, c, a)
    ensures LogInv(After(rules, h, c, a), Next(rules, c, a))
    ensures ViewsOk(After(rules, h, c, a), Next(rules, c, a))
  {
    if a.Exchange? {
      var n := |c.servers|;
      assert ViewOk(h, c.servers[a.i], a.to, c.servers[a.to]);
      AcceptedFits(rules, h, n, a.i, a.to, c.servers[a.i], c.servers[a.to]);
      ExchangeKeepsViews(rules, h, c, a.i, a.to);
    } else if a.ClientStart? {
      StartKeepsViews(rules, h, c, a.i, a.command);
    } else if a.FinishCampaign? && Wins(rules, c.servers[a.i].raft, |c.servers[a.i].tally.value.votes|) {
      WinKeepsViews(rules, h, c, a.i);
    } else {
      StepKeepsLogs(rules, h, c, a);
      CalmActions(rules, h, c, a);
      CalmStep(h, After(rules, h, c, a), c, Next(rules, c, a));
    }
    StepKeepsLogs(rules, h, c, a);
  }

  // ----- whole runs

  lemma {:induction false} ViewsHold(rules: Rules, n: nat, run: seq<State>, acts: seq<Action>, k: nat)
    requires AppendsAsWritten(rules) && IsRun(rules, n, run, acts) && NoLateAppends(acts) && k <= |acts|
    ensures LogInv(Trace(rules, n, run, acts, k), run[k]) && ViewsOk(Trace(rules, n, run, acts, k), run[k])
    decreases k
  {
    if k == 0 {
      InitLogs(n);
    } else {
      ViewsHold(rules, n, run, acts, k - 1);
      assert Taken(rules, run[k - 1], acts[k - 1], run[k - 1 + 1]) && InTime(acts[k - 1]);
      StepKeepsViews(rules, Trace(rules, n, run, acts, k - 1), run[k - 1], acts[k - 1]);
    }
  }

  /** Where nothing is repeated, appending all entries is appending the new ones. */
  lemma NoRepeatIsRule(rules: Rules, s: RaftState, a: AppendArgs)
    requires !rules.appendNew && NoRepeat(rules, s, a)
    ensures HandleAppend(rules, s, a) == HandleAppend(rules.(appendNew := true), s, a)
  {
    if HandleAppend(rules, s, a).1.success {
      SameExtension(rules, s.log, a);
    }
  }

  lemma SameExtension(rules: Rules, log: Log, a: AppendArgs)
    requires !rules.appendNew && a.prevIndex < |log| && (a.entries == [] || |log| == a.prevIndex + 1)
    ensures Extended(rules, log, a) == Extended(rules.(appendNew := true), log, a)
  {
    if a.entries != [] { assert a.entries[|log| - a.prevIndex - 1..] == a.entries; }
  }

  lemma SameStep(rules: Rules, c: State, a: Action)
    requires !rules.appendNew && Enabled(rules, c, a) && NoRepeats(rules, c, a)
    ensures Enabled(rules.(appendNew := true), c, a)
    ensures Next(rules, c, a) == Next(rules.(appendNew := true), c, a)
  {
    match a
    case Exchange(i, to) =>
      var args := BuildAppend(c.servers[i].raft, to);
      NoRepeatIsRule(rules, c.servers[to].raft, args);
      SameReply(rules, c.servers[i].raft, to, args, HandleAppend(rules, c.servers[to].raft, args).1);
    case ExchangeLost(i, to) =>
      SameReply(rules, c.servers[i].raft, to, BuildAppend(c.servers[i].raft, to), LOST);
    case LateDelivery(AppendMsg(to, args)) => NoRepeatIsRule(rules, c.servers[to].raft, args);
    case _ =>
  }

  lemma {:induction false} SameScan(rules: Rules, s: RaftState, n: nat, c: nat)
    ensures CommitScan(rules, s, n, c) == CommitScan(rules.(appendNew := true), s, n, c)
    decreases |s.log| - n
  {
    if n < |s.log| { SameScan(rules, s, n + 1, if MayCommit(rules, s, n) then n else c); }
  }

  lemma SameReply(rules: Rules, s: RaftState, f: nat, a: AppendArgs, r: AppendReply)
    requires f < |s.nextIndex| == |s.matchIndex|
    ensures HandleReply(rules, s, f, a, r) == HandleReply(rules.(appendNew := true), s, f, a, r)
  {
    var t := NoteReply(rules, s, f, a, r);
    SameScan(rules, t, t.commitIndex + 1, t.commitIndex);
  }

  /** Every run of entry.go as written without late append requests is a run of the rule that appends only
      new entries: line 219 never duplicates an entry. */
  lemma AppendAllRefinesAppendNew(rules: Rules, n: nat, run: seq<State>, acts: seq<Action>)
    requires AppendsAsWritten(rules) && IsRun(rules, n, run, acts) && NoLateAppends(acts)
    ensures IsRun(rules.(appendNew := true), n, run, acts)
  {
    forall k | 0 <= k < |acts| ensures Taken(rules.(appendNew := true), run[k], acts[k], run[k + 1]) {
      ViewsHold(rules, n, run, acts, k);
      assert Taken(rules, run[k], acts[k], run[k + 1]) && InTime(acts[k]);
      StepKeepsViews(rules, Trace(rules, n, run, acts, k), run[k], acts[k]);
      SameStep(rules, run[k], acts[k]);
    }
  }

  /** So log matching and log shape hold of those runs. */
  lemma LosslessLogsMatch(rules: Rules, n: nat, run: seq<State>, acts: seq<Action>)
    requires AppendsAsWritten(rules) && IsRun(rules, n, run, acts) && NoLateAppends(acts)
    ensures LogsMatch(run) && LogsShaped(run)
  {
    AppendAllRefinesAppendNew(rules, n, run, acts);
    LogMatching(rules.(appendNew := true), n, run, acts);
    Shape.LogShape(rules.(appendNew := true), n, run, acts);
  }

  /** Leader i of term t and peer f, whose stored term is t as well. */
  ghost predicate Together(c: State, i: nat, f: nat, t: nat) {
    i < |c.servers| && f < |c.servers| && i != f && LeadsIn(c, i, t) && Stable(c.servers[f].raft).term == t
  }

  ghost predicate TracksExactly(c: State, i: nat, f: nat) {
    && i < |c.servers| && f < |c.servers|
    && f < |c.servers[i].raft.nextIndex| == |c.servers[i].raft.matchIndex|
    && Tracked(c.servers[i].raft, f, c.servers[f].raft.log)
  }

  lemma SameViewTracks(c: State, d: State, i: nat, f: nat, t: nat)
    requires TracksExactly(c, i, f) && |d.servers| == |c.servers|
    requires Together(c, i, f, t) && Together(d, i, f, t)
    requires SeesSame(c.servers[i], d.servers[i], f) && LooksSame(c.servers[f], d.servers[f], t)
    ensures TracksExactly(d, i, f)
  {
  }

  lemma ExchangeTracking(rules: Rules, h: Past, c: State, k: nat, to: nat, i: nat, f: nat, t: nat)
    requires AppendsAsWritten(rules) && LogInv(h, c) && ViewsOk(h, c) && Enabled(rules, c, Exchange(k, to))
    requires Together(c, i, f, t) && Together(Next(rules, c, Exchange(k, to)), i, f, t)
    requires TracksExactly(c, i, f) || (k == i && to == f)
    ensures TracksExactly(Next(rules, c, Exchange(k, to)), i, f)
  {
    var a := Exchange(k, to);
    StepKeepsViews(rules, h, c, a);
    assert ServerLog(h, |c.servers|, f, c.servers[f]);
    if k == i && to == f {
      ExchangeTracksPair(rules, h, c, i, f);
    } else {
      StepKeepsLogs(rules, h, c, a);
      ExchangeSees(rules, h, c, k, to, i, f);
      ExchangeLooks(rules, h, After(rules, h, c, a), c, k, to, i, f);
      SameViewTracks(c, Next(rules, c, a), i, f, t);
    }
  }

  lemma StartTracking(rules: Rules, h: Past, c: State, a: Action, i: nat, f: nat, t: nat)
    requires AppendsAsWritten(rules) && LogInv(h, c) && Enabled(rules, c, a)
    requires a.ClientStart? || a.FinishCampaign?
    requires Together(c, i, f, t) && Together(Next(rules, c, a), i, f, t) && TracksExactly(c, i, f)
    ensures TracksExactly(Next(rules, c, a), i, f)
  {
    assert ServerLog(h, |c.servers|, i, c.servers[i]) && ServerLog(h, |c.servers|, f, c.servers[f]);
  }

  lemma StepKeepsTracking(rules: Rules, h: Past, c: State, a: Action, i: nat, f: nat, t: nat)
    requires AppendsAsWritten(rules) && LogInv(h, c) && ViewsOk(h, c) && Enabled(rules, c, a) && InTime(a)
    requires Together(c, i, f, t) && Together(Next(rules, c, a), i, f, t)
    requires TracksExactly(c, i, f) || a == Exchange(i, f)
    ensures TracksExactly(Next(rules, c, a), i, f)
  {
    if a.Exchange? {
      ExchangeTracking(rules, h, c, a.i, a.to, i, f, t);
    } else if a.ClientStart? || a.FinishCampaign? {
      StartTracking(rules, h, c, a, i, f, t);
    } else {
      CalmActions(rules, h, c, a);
      assert Calm(c.servers[i], Next(rules, c, a).servers[i]) && Calm(c.servers[f], Next(rules, c, a).servers[f]);
      SameViewTracks(c, Next(rules, c, a), i, f, t);
    }
  }

  /** After any exchange in the leader's term, nextIndex is the follower's log length and matchIndex one less,
      until the leader steps down or a term changes. */
  lemma {:induction false} ExchangeKeepsTracking(
    rules: Rules, n: nat, run: seq<State>, acts: seq<Action>, j: nat, k: nat, i: nat, f: nat, t: nat)
    requires AppendsAsWritten(rules) && IsRun(rules, n, run, acts) && NoLateAppends(acts)
    requires j < k <= |acts| && acts[j] == Exchange(i, f)
    requires forall m :: j <= m <= k ==> Together(run[m], i, f, t)
    ensures TracksExactly(run[k], i, f)
    decreases k
  {
    if j + 1 < k { ExchangeKeepsTracking(rules, n, run, acts, j, k - 1, i, f, t); }
    assert Together(run[k - 1], i, f, t) && Together(run[k], i, f, t);
    TrackedOnce(rules, n, run, acts, k, i, f, t);
  }

  lemma TrackedOnce(rules: Rules, n: nat, run: seq<State>, acts: seq<Action>, k: nat, i: nat, f: nat, t: nat)
    requires AppendsAsWritten(rules) && IsRun(rules, n, run, acts) && NoLateAppends(acts) && 1 <= k <= |acts|
    requires Together(run[k - 1], i, f, t) && Together(run[k], i, f, t)
    requires TracksExactly(run[k - 1], i, f) || acts[k - 1] == Exchange(i, f)
    ensures TracksExactly(run[k], i, f)
  {
    ViewsHold(rules, n, run, acts, k - 1);
    assert Taken(rules, run[k - 1], acts[k - 1], run[k - 1 + 1]) && InTime(acts[k - 1]);
    StepKeepsTracking(rules, Trace(rules, n, run, acts, k - 1), run[k - 1], acts[k - 1], i, f, t);
  }
}
