/** The shape of logs: it needs the fourth rule only, whoever wins elections and whoever sends. */
module Shape {
  import opened RaftTypes
  import opened RaftHandlers
  import opened Cluster
  import opened Guarantees

  /** The placeholder, positions as indices, terms that never go down and never pass t. */
  ghost predicate LogOk(log: Log, t: int) {
    && |log| >= 1
    && log[0] == PLACEHOLDER
    && (forall i :: 0 <= i < |log| ==> log[i].index == i && log[i].term <= t)
    && (forall i, j :: 0 <= i <= j < |log| ==> log[i].term <= log[j].term)
  }

  /** Entries that continue a log after prevIndex: positions, and terms between prevTerm and the sender's. */
  ghost predicate RequestShaped(a: AppendArgs) {
    && (forall j :: 0 <= j < |a.entries| ==> a.entries[j].index == a.prevIndex + 1 + j)
    && (forall j :: 0 <= j < |a.entries| ==> a.prevTerm <= a.entries[j].term <= a.term)
    && (forall i, j :: 0 <= i <= j < |a.entries| ==> a.entries[i].term <= a.entries[j].term)
  }

  /** What a restart would read has the same log, and a term that bounds it. */
  ghost predicate PeerShaped(v: Server) {
    var s, p := v.raft, Stable(v.raft);
    && p.log == s.log && p.term <= s.term && LogOk(s.log, p.term)
    && (v.tally.None? ==> p.term == s.term)
    && (v.tally.Some? ==> p.term < v.tally.value.args.term)
  }

  ghost predicate ShapeInv(c: State) {
    && (forall i :: 0 <= i < |c.servers| ==> PeerShaped(c.servers[i]))
    && (forall m :: m in c.net && m.AppendMsg? ==> RequestShaped(m.append))
  }

  // ----- the handlers

  lemma CutShaped(log: Log, t: int, k: nat)
    requires LogOk(log, t) && 1 <= k <= |log|
    ensures LogOk(log[..k], t)
  {
  }

  /** Only new entries are appended, after an entry that agrees with the request. */
  lemma ExtensionShaped(rules: Rules, log: Log, a: AppendArgs)
    requires rules.appendNew && LogOk(log, a.term) && RequestShaped(a)
    requires a.prevIndex < |log| && (a.prevIndex == 0 || log[a.prevIndex].term == a.prevTerm)
    requires FirstConflict(log, a.entries) == |a.entries|
    ensures LogOk(Extended(rules, log, a), a.term)
  {
    var d := |log| - a.prevIndex - 1;
    if d < |a.entries| {
      var rest := a.entries[d..];
      assert log[|log| - 1].term <= rest[0].term by {
        if d > 0 { assert !Conflicts(log, a.entries[d - 1]); }
      }
      JoinShaped(log, rest, a.term);
    }
  }

  lemma JoinShaped(log: Log, rest: seq<Entry>, t: int)
    requires LogOk(log, t) && rest != [] && log[|log| - 1].term <= rest[0].term
    requires forall j :: 0 <= j < |rest| ==> rest[j].index == |log| + j && rest[0].term <= rest[j].term <= t
    requires forall i, j :: 0 <= i <= j < |rest| ==> rest[i].term <= rest[j].term
    ensures LogOk(log + rest, t)
  {
    var out := log + rest;
    forall i, j | 0 <= i <= j < |out| ensures out[i].term <= out[j].term {
      if i < |log| <= j {
        assert log[i].term <= log[|log| - 1].term <= rest[0].term <= rest[j - |log|].term;
      }
    }
  }

  lemma AppendShaped(rules: Rules, v: Server, a: AppendArgs)
    requires rules.appendNew && PeerShaped(v) && v.tally.None? && RequestShaped(a)
    ensures PeerShaped(v.(raft := HandleAppend(rules, v.raft, a).0))
  {
    var s := v.raft;
    var j := FirstConflict(s.log, a.entries);
    if s.term != a.term {
    } else if 0 < a.prevIndex < |s.log| && s.log[a.prevIndex].term != a.prevTerm {
      CutShaped(s.log, s.term, a.prevIndex);
    } else if j < |a.entries| {
      CutShaped(s.log, s.term, a.entries[j].index);
    } else if a.prevIndex < |s.log| {
      ExtensionShaped(rules, s.log, a);
    }
  }

  lemma SentShaped(s: RaftState, to: nat)
    requires LogOk(s.log, s.term) && CanSend(s, to)
    ensures RequestShaped(BuildAppend(s, to))
  {
  }

  lemma ReplyShaped(rules: Rules, v: Server, to: nat, a: AppendArgs, r: AppendReply)
    requires PeerShaped(v) && v.tally.None? && to < |v.raft.nextIndex| == |v.raft.matchIndex|
    ensures PeerShaped(v.(raft := HandleReply(rules, v.raft, to, a, r)))
  {
  }

  lemma StartShaped(v: Server, command: Command)
    requires PeerShaped(v) && v.tally.None? && v.raft.me < |v.raft.matchIndex|
    ensures PeerShaped(v.(raft := Start(v.raft, command)))
  {
    var s := v.raft;
    JoinShaped(s.log, [Entry(s.term, LastIndex(s.log) + 1, command)], s.term);
  }

  lemma VoteShaped(v: Server, a: VoteArgs)
    requires PeerShaped(v) && v.tally.None?
    ensures PeerShaped(v.(raft := HandleVote(v.raft, a).0))
  {
    assert v.raft.term <= HandleVote(v.raft, a).0.term;
  }

  // ----- every action

  /** One server changes, and the network gains only well-formed requests. */
  ghost predicate OneChanges(c: State, d: State, i: nat) {
    && i < |c.servers| == |d.servers| && d.servers == c.servers[i := d.servers[i]]
    && PeerShaped(d.servers[i])
    && forall m :: m in d.net && m.AppendMsg? && m !in c.net ==> RequestShaped(m.append)
  }

  lemma ReplaceShaped(c: State, d: State, i: nat)
    requires ShapeInv(c) && OneChanges(c, d, i)
    ensures ShapeInv(d)
  {
    forall j | 0 <= j < |d.servers| ensures PeerShaped(d.servers[j]) {
      if j != i { assert d.servers[j] == c.servers[j]; }
    }
  }

  lemma PollShaped(rules: Rules, c: State, i: nat, to: nat)
    requires ShapeInv(c) && Enabled(rules, c, Poll(i, to))
    ensures ShapeInv(Next(rules, c, Poll(i, to)))
  {
    var a := c.servers[i].tally.value.args;
    var d := With(c, to, HandleVote(c.servers[to].raft, a).0);
    VoteShaped(c.servers[to], a);
    ReplaceShaped(c, d, to);
    ReplaceShaped(d, Next(rules, c, Poll(i, to)), i);
  }

  lemma ExchangeShaped(rules: Rules, c: State, i: nat, to: nat)
    requires rules.appendNew && ShapeInv(c) && Enabled(rules, c, Exchange(i, to))
    ensures ShapeInv(Next(rules, c, Exchange(i, to)))
  {
    var a := BuildAppend(c.servers[i].raft, to);
    var (q, r) := HandleAppend(rules, c.servers[to].raft, a);
    var d := With(c, to, q);
    SentShaped(c.servers[i].raft, to);
    AppendShaped(rules, c.servers[to], a);
    ReplaceShaped(c, d, to);
    ReplyShaped(rules, d.servers[i], to, a, r);
    ReplaceShaped(d, Next(rules, c, Exchange(i, to)), i);
  }

  lemma ExchangeLostShaped(rules: Rules, c: State, i: nat, to: nat)
    requires ShapeInv(c) && Enabled(rules, c, ExchangeLost(i, to))
    ensures ShapeInv(Next(rules, c, ExchangeLost(i, to)))
  {
    var a := BuildAppend(c.servers[i].raft, to);
    SentShaped(c.servers[i].raft, to);
    ReplyShaped(rules, c.servers[i], to, a, LOST);
    ReplaceShaped(c, Next(rules, c, ExchangeLost(i, to)), i);
  }

  lemma LateShaped(rules: Rules, c: State, m: Message)
    requires rules.appendNew && ShapeInv(c) && Enabled(rules, c, LateDelivery(m))
    ensures ShapeInv(Next(rules, c, LateDelivery(m)))
  {
    match m
    case AppendMsg(to, a) => AppendShaped(rules, c.servers[to], a);
    case VoteMsg(to, a) => VoteShaped(c.servers[to], a);
    ReplaceShaped(c, Next(rules, c, LateDelivery(m)), m.to);
  }

  lemma FinishShaped(rules: Rules, c: State, i: nat)
    requires ShapeInv(c) && Enabled(rules, c, FinishCampaign(i))
    ensures ShapeInv(Next(rules, c, FinishCampaign(i)))
  {
    ReplaceShaped(c, Next(rules, c, FinishCampaign(i)), i);
  }

  lemma ClientShaped(rules: Rules, c: State, i: nat, command: Command)
    requires ShapeInv(c) && Enabled(rules, c, ClientStart(i, command))
    ensures ShapeInv(Next(rules, c, ClientStart(i, command)))
  {
    StartShaped(c.servers[i], command);
    ReplaceShaped(c, Next(rules, c, ClientStart(i, command)), i);
  }

  lemma QuietShaped(rules: Rules, c: State, a: Action)
    requires ShapeInv(c) && Enabled(rules, c, a)
    requires a.StartCampaign? || a.PollLost? || a.GiveUpRole? || a.ReadRole? || a.ForgetRole? || a.ApplyNext?
          || a.CrashRestart?
    ensures ShapeInv(Next(rules, c, a))
  {
    assert PeerShaped(c.servers[a.i]);
    ReplaceShaped(c, Next(rules, c, a), a.i);
  }

  lemma StepKeepsShape(rules: Rules, c: State, a: Action)
    requires rules.appendNew && ShapeInv(c) && Enabled(rules, c, a)
    ensures ShapeInv(Next(rules, c, a))
  {
    match a
    case Poll(i, to) => PollShaped(rules, c, i, to);
    case FinishCampaign(i) => FinishShaped(rules, c, i);
    case Exchange(i, to) => ExchangeShaped(rules, c, i, to);
    case ExchangeLost(i, to) => ExchangeLostShaped(rules, c, i, to);
    case LateDelivery(m) => LateShaped(rules, c, m);
    case ClientStart(i, command) => ClientShaped(rules, c, i, command);
    case _ => QuietShaped(rules, c, a);
  }

  lemma {:induction false} ShapeHolds(rules: Rules, n: nat, run: seq<State>, acts: seq<Action>, k: nat)
    requires rules.appendNew && IsRun(rules, n, run, acts) && k <= |acts|
    ensures ShapeInv(run[k])
    decreases k
  {
    if k > 0 {
      ShapeHolds(rules, n, run, acts, k - 1);
      assert Taken(rules, run[k - 1], acts[k - 1], run[k - 1 + 1]);
      StepKeepsShape(rules, run[k - 1], acts[k - 1]);
    }
  }

  /** Log shape, in every state of every run that appends only new entries. */
  lemma LogShape(rules: Rules, n: nat, run: seq<State>, acts: seq<Action>)
    requires rules.appendNew && IsRun(rules, n, run, acts)
    ensures LogsShaped(run)
  {
    forall k, a: nat | 0 <= k < |run| && a < |run[k].servers| ensures Shaped(run[k].servers[a].raft) {
      ShapeHolds(rules, n, run, acts, k);
      assert PeerShaped(run[k].servers[a]);
    }
  }
}
