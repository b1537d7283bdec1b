/** Where the commands come from and in which order they are applied, in every run and under any rules. */
module Origin {
  import opened RaftTypes
  import opened RaftHandlers
  import opened Cluster
  import opened Guarantees

  /** The entries after position 0 are all in `made`. */
  ghost predicate From(log: Log, made: set<Entry>) {
    && |log| >= 1 && log[0] == PLACEHOLDER
    && forall p :: 1 <= p < |log| ==> log[p] in made
  }

  ghost predicate AllFrom(entries: seq<Entry>, made: set<Entry>) {
    forall e :: e in entries ==> e in made
  }

  ghost predicate OriginInv(c: State, made: set<Entry>) {
    && (forall e :: e in made ==> e.index >= 1)
    && (forall i :: 0 <= i < |c.servers| ==> PeerFrom(c.servers[i].raft, made))
    && (forall m :: m in c.net && m.AppendMsg? ==> AllFrom(m.append.entries, made))
  }

  ghost predicate PeerFrom(s: RaftState, made: set<Entry>) {
    From(s.log, made) && From(Stable(s).log, made)
  }

  /** The entry that an action makes, if any. */
  ghost function Makes(c: State, a: Action): set<Entry> {
    if a.ClientStart? && a.i < |c.servers| then
      var s := c.servers[a.i].raft;
      {Entry(s.term, LastIndex(s.log) + 1, a.command)}
    else {}
  }

  // ----- the handlers

  lemma AppendFrom(rules: Rules, s: RaftState, a: AppendArgs, made: set<Entry>)
    requires PeerFrom(s, made) && AllFrom(a.entries, made) && forall e :: e in made ==> e.index >= 1
    ensures PeerFrom(HandleAppend(rules, s, a).0, made)
  {
    var j := FirstConflict(s.log, a.entries);
    if j < |a.entries| {
      assert a.entries[j] in a.entries;
    } else if a.prevIndex < |s.log| {
      ExtendedFrom(rules, s.log, a, made);
    }
  }

  lemma ExtendedFrom(rules: Rules, log: Log, a: AppendArgs, made: set<Entry>)
    requires From(log, made) && AllFrom(a.entries, made) && a.prevIndex < |log|
    ensures From(Extended(rules, log, a), made)
  {
    var out := Extended(rules, log, a);
    forall p | |log| <= p < |out| ensures out[p] in made {
      assert out[p] in a.entries;
    }
  }

  lemma RequestFrom(s: RaftState, to: nat, made: set<Entry>)
    requires PeerFrom(s, made) && CanSend(s, to)
    ensures AllFrom(BuildAppend(s, to).entries, made)
  {
  }

  lemma ReplyFrom(rules: Rules, s: RaftState, to: nat, a: AppendArgs, r: AppendReply, made: set<Entry>)
    requires PeerFrom(s, made) && to < |s.nextIndex| == |s.matchIndex|
    ensures PeerFrom(HandleReply(rules, s, to, a, r), made)
  {
  }

  lemma VoteFrom(s: RaftState, a: VoteArgs, made: set<Entry>)
    requires PeerFrom(s, made)
    ensures PeerFrom(HandleVote(s, a).0, made)
  {
  }

  lemma StartFrom(s: RaftState, command: Command, made: set<Entry>)
    requires PeerFrom(s, made) && s.me < |s.matchIndex|
    ensures PeerFrom(Start(s, command), made + {Entry(s.term, LastIndex(s.log) + 1, command)})
  {
  }

  // ----- every action

  lemma ReplaceFrom(c: State, d: State, i: nat, made: set<Entry>)
    requires OriginInv(c, made) && i < |c.servers| == |d.servers| && d.servers == c.servers[i := d.servers[i]]
    requires PeerFrom(d.servers[i].raft, made)
    requires forall m :: m in d.net && m.AppendMsg? && m !in c.net ==> AllFrom(m.append.entries, made)
    ensures OriginInv(d, made)
  {
  }

  lemma ExchangeFrom(rules: Rules, c: State, i: nat, to: nat, made: set<Entry>)
    requires OriginInv(c, made) && Enabled(rules, c, Exchange(i, to))
    ensures OriginInv(Next(rules, c, Exchange(i, to)), made)
  {
    var a := BuildAppend(c.servers[i].raft, to);
    var (q, r) := HandleAppend(rules, c.servers[to].raft, a);
    var d := With(c, to, q);
    RequestFrom(c.servers[i].raft, to, made);
    AppendFrom(rules, c.servers[to].raft, a, made);
    ReplaceFrom(c, d, to, made);
    ReplyFrom(rules, d.servers[i].raft, to, a, r, made);
    ReplaceFrom(d, Next(rules, c, Exchange(i, to)), i, made);
  }

  lemma ExchangeLostFrom(rules: Rules, c: State, i: nat, to: nat, made: set<Entry>)
    requires OriginInv(c, made) && Enabled(rules, c, ExchangeLost(i, to))
    ensures OriginInv(Next(rules, c, ExchangeLost(i, to)), made)
  {
    var a := BuildAppend(c.servers[i].raft, to);
    RequestFrom(c.servers[i].raft, to, made);
    ReplyFrom(rules, c.servers[i].raft, to, a, LOST, made);
    ReplaceFrom(c, Next(rules, c, ExchangeLost(i, to)), i, made);
  }

  lemma LateFrom(rules: Rules, c: State, m: Message, made: set<Entry>)
    requires OriginInv(c, made) && Enabled(rules, c, LateDelivery(m))
    ensures OriginInv(Next(rules, c, LateDelivery(m)), made)
  {
    match m
    case AppendMsg(to, a) => AppendFrom(rules, c.servers[to].raft, a, made);
    case VoteMsg(to, a) => VoteFrom(c.servers[to].raft, a, made);
    ReplaceFrom(c, Next(rules, c, LateDelivery(m)), m.to, made);
  }

  lemma PollFrom(rules: Rules, c: State, i: nat, to: nat, made: set<Entry>)
    requires OriginInv(c, made) && Enabled(rules, c, Poll(i, to))
    ensures OriginInv(Next(rules, c, Poll(i, to)), made)
  {
    var a := c.servers[i].tally.value.args;
    var d := With(c, to, HandleVote(c.servers[to].raft, a).0);
    VoteFrom(c.servers[to].raft, a, made);
    ReplaceFrom(c, d, to, made);
    ReplaceFrom(d, Next(rules, c, Poll(i, to)), i, made);
  }

  lemma MoreMade(c: State, made: set<Entry>, e: Entry)
    requires OriginInv(c, made) && e.index >= 1
    ensures OriginInv(c, made + {e})
  {
    forall i | 0 <= i < |c.servers| ensures PeerFrom(c.servers[i].raft, made + {e}) {
      assert PeerFrom(c.servers[i].raft, made);
    }
  }

  lemma ClientFrom(rules: Rules, c: State, i: nat, command: Command, made: set<Entry>)
    requires OriginInv(c, made) && Enabled(rules, c, ClientStart(i, command))
    ensures OriginInv(Next(rules, c, ClientStart(i, command)), made + Makes(c, ClientStart(i, command)))
  {
    var s := c.servers[i].raft;
    var e := Entry(s.term, LastIndex(s.log) + 1, command);
    MoreMade(c, made, e);
    StartFrom(s, command, made);
    ReplaceFrom(c, Next(rules, c, ClientStart(i, command)), i, made + {e});
  }

  lemma OtherFrom(rules: Rules, c: State, a: Action, made: set<Entry>)
    requires OriginInv(c, made) && Enabled(rules, c, a)
    requires a.StartCampaign? || a.PollLost? || a.FinishCampaign? || a.GiveUpRole? || a.ReadRole? || a.ForgetRole?
          || a.ApplyNext? || a.CrashRestart?
    ensures OriginInv(Next(rules, c, a), made)
  {
    assert PeerFrom(c.servers[a.i].raft, made);
    ReplaceFrom(c, Next(rules, c, a), a.i, made);
  }

  lemma StepKeepsOrigin(rules: Rules, c: State, a: Action, made: set<Entry>)
    requires OriginInv(c, made) && Enabled(rules, c, a)
    ensures OriginInv(Next(rules, c, a), made + Makes(c, a))
  {
    assert !a.ClientStart? ==> made + Makes(c, a) == made;
    match a
    case Poll(i, to) => PollFrom(rules, c, i, to, made);
    case Exchange(i, to) => ExchangeFrom(rules, c, i, to, made);
    case ExchangeLost(i, to) => ExchangeLostFrom(rules, c, i, to, made);
    case LateDelivery(m) => LateFrom(rules, c, m, made);
    case ClientStart(i, command) => ClientFrom(rules, c, i, command, made);
    case _ => OtherFrom(rules, c, a, made);
  }

  // ----- whole runs

  /** A client gave the command of entry e before moment k, and it was put into a log in the term that e carries. */
  ghost predicate Given(run: seq<State>, acts: seq<Action>, k: nat, e: Entry) {
    exists j :: 0 <= j < k && j < |acts| && j < |run| && GivenAt(run[j], acts[j], e)
  }

  ghost predicate GivenAt(c: State, a: Action, e: Entry) {
    && a.ClientStart? && a.i < |c.servers|
    && a.command == e.command && c.servers[a.i].raft.term == e.term && LastIndex(c.servers[a.i].raft.log) + 1 == e.index
  }

  lemma {:induction false} OriginHolds(rules: Rules, n: nat, run: seq<State>, acts: seq<Action>, k: nat)
    returns (made: set<Entry>)
    requires IsRun(rules, n, run, acts) && k <= |acts|
    ensures OriginInv(run[k], made) && forall e :: e in made ==> Given(run, acts, k, e)
    decreases k
  {
    if k == 0 {
      made := {};
    } else {
      var before := OriginHolds(rules, n, run, acts, k - 1);
      assert Taken(rules, run[k - 1], acts[k - 1], run[k - 1 + 1]);
      StepKeepsOrigin(rules, run[k - 1], acts[k - 1], before);
      made := before + Makes(run[k - 1], acts[k - 1]);
      forall e | e in made ensures Given(run, acts, k, e) {
        if e in before {
          var j :| 0 <= j < k - 1 && j < |acts| && j < |run| && GivenAt(run[j], acts[j], e);
        } else {
          assert GivenAt(run[k - 1], acts[k - 1], e);
        }
      }
    }
  }

  /** Nothing is made up: every entry of every log after the placeholder is a command that a client gave before. */
  lemma EntriesWereGiven(rules: Rules, n: nat, run: seq<State>, acts: seq<Action>, k: nat, a: nat, p: nat)
    requires IsRun(rules, n, run, acts) && k <= |acts| && a < |run[k].servers| && 1 <= p < |LogOf(run[k], a)|
    ensures Given(run, acts, k, LogOf(run[k], a)[p])
  {
    var made := OriginHolds(rules, n, run, acts, k);
    assert PeerFrom(run[k].servers[a].raft, made);
  }

  /** The apply loop sends the command at the next index of the peer's own log, not beyond its commitIndex, and a
      client gave that command before. */
  lemma AppliedWasGiven(rules: Rules, n: nat, run: seq<State>, acts: seq<Action>, k: nat)
    requires IsRun(rules, n, run, acts) && k < |acts| && acts[k].ApplyNext?
    ensures Enabled(rules, run[k], acts[k])
    ensures
      var i, x := acts[k].i, AppliedAt(run, acts, k).index;
      && x == run[k].servers[i].raft.lastApplied + 1 <= CommitOf(run[k], i) && x < |LogOf(run[k], i)|
      && AppliedAt(run, acts, k).command == LogOf(run[k], i)[x].command
      && Given(run, acts, k, LogOf(run[k], i)[x])
      && run[k + 1].servers[i].raft.lastApplied == x
  {
    assert Taken(rules, run[k], acts[k], run[k + 1]);
    EntriesWereGiven(rules, n, run, acts, k, acts[k].i, AppliedAt(run, acts, k).index);
  }

  /** Peer i has applied index x before moment k. */
  ghost predicate Applied(run: seq<State>, acts: seq<Action>, k: nat, i: nat, x: nat) {
    exists j :: 0 <= j < k && j < |acts| && j < |run| && AppliesAt(run[j], acts[j], i, x)
  }

  ghost predicate AppliesAt(c: State, a: Action, i: nat, x: nat) {
    a == ApplyNext(i) && i < |c.servers| && c.servers[i].raft.lastApplied + 1 == x
  }

  /** lastApplied stays, starts again, or goes one up by applying that index. */
  ghost predicate AppliesOne(c: State, a: Action, d: State, i: nat) {
    && i < |c.servers| == |d.servers|
    && var x, y := c.servers[i].raft.lastApplied, d.servers[i].raft.lastApplied;
    && (y == x || y == 0 || AppliesAt(c, a, i, y))
  }

  lemma HandlersApplyNothing(rules: Rules, s: RaftState, a: AppendArgs, v: VoteArgs, f: nat, r: AppendReply)
    ensures HandleAppend(rules, s, a).0.lastApplied == s.lastApplied
    ensures HandleVote(s, v).0.lastApplied == s.lastApplied
    ensures f < |s.nextIndex| == |s.matchIndex| ==> HandleReply(rules, s, f, a, r).lastApplied == s.lastApplied
  {
  }

  lemma StepApplies(rules: Rules, c: State, a: Action, i: nat)
    requires Enabled(rules, c, a) && i < |c.servers|
    ensures AppliesOne(c, a, Next(rules, c, a), i)
  {
    match a
    case Exchange(j, to) => ExchangeAppliesNothing(rules, c, j, to, i);
    case ExchangeLost(j, to) =>
      var args := BuildAppend(c.servers[j].raft, to);
      HandlersApplyNothing(rules, c.servers[j].raft, args, VoteArgs(0, 0, 0, 0), to, LOST);
    case LateDelivery(m) => LateAppliesNothing(rules, c, m, i);
    case Poll(j, to) => PollAppliesNothing(rules, c, j, to, i);
    case _ => OthersApply(rules, c, a, i);
  }

  lemma ExchangeAppliesNothing(rules: Rules, c: State, j: nat, to: nat, i: nat)
    requires Enabled(rules, c, Exchange(j, to)) && i < |c.servers|
    ensures AppliesOne(c, Exchange(j, to), Next(rules, c, Exchange(j, to)), i)
  {
    var a := BuildAppend(c.servers[j].raft, to);
    var r := HandleAppend(rules, c.servers[to].raft, a).1;
    HandlersApplyNothing(rules, c.servers[to].raft, a, VoteArgs(0, 0, 0, 0), to, r);
    HandlersApplyNothing(rules, c.servers[j].raft, a, VoteArgs(0, 0, 0, 0), to, r);
  }

  lemma LateAppliesNothing(rules: Rules, c: State, m: Message, i: nat)
    requires Enabled(rules, c, LateDelivery(m)) && i < |c.servers|
    ensures AppliesOne(c, LateDelivery(m), Next(rules, c, LateDelivery(m)), i)
  {
    match m
    case AppendMsg(to, a) => HandlersApplyNothing(rules, c.servers[to].raft, a, VoteArgs(0, 0, 0, 0), 0, LOST);
    case VoteMsg(to, v) =>
  }

  lemma PollAppliesNothing(rules: Rules, c: State, j: nat, to: nat, i: nat)
    requires Enabled(rules, c, Poll(j, to)) && i < |c.servers|
    ensures AppliesOne(c, Poll(j, to), Next(rules, c, Poll(j, to)), i)
  {
  }

  lemma OthersApply(rules: Rules, c: State, a: Action, i: nat)
    requires Enabled(rules, c, a) && i < |c.servers|
    requires !a.Exchange? && !a.ExchangeLost? && !a.LateDelivery? && !a.Poll?
    ensures AppliesOne(c, a, Next(rules, c, a), i)
  {
  }

  lemma {:induction false} LastWasApplied(rules: Rules, n: nat, run: seq<State>, acts: seq<Action>, k: nat, i: nat)
    requires IsRun(rules, n, run, acts) && k <= |acts| && i < n
    ensures |run[k].servers| == n
    ensures var x := run[k].servers[i].raft.lastApplied; x == 0 || Applied(run, acts, k, i, x)
    decreases k
  {
    if k > 0 {
      LastWasApplied(rules, n, run, acts, k - 1, i);
      assert Taken(rules, run[k - 1], acts[k - 1], run[k - 1 + 1]);
      StepApplies(rules, run[k - 1], acts[k - 1], i);
      var x, y := run[k - 1].servers[i].raft.lastApplied, run[k].servers[i].raft.lastApplied;
      if y != 0 && y == x {
        var j :| 0 <= j < k - 1 && j < |acts| && j < |run| && AppliesAt(run[j], acts[j], i, x);
      }
    }
  }

  /** Indices are applied in order: a peer applies an index only if it has applied the one before. */
  lemma AppliedInOrder(rules: Rules, n: nat, run: seq<State>, acts: seq<Action>, k: nat)
    requires IsRun(rules, n, run, acts) && k < |acts| && acts[k].ApplyNext?
    ensures Enabled(rules, run[k], acts[k])
    ensures AppliedAt(run, acts, k).index > 1 ==> Applied(run, acts, k, acts[k].i, AppliedAt(run, acts, k).index - 1)
  {
    assert Taken(rules, run[k], acts[k], run[k + 1]);
    SizeIsFixed(rules, n, run, acts, k);
    LastWasApplied(rules, n, run, acts, k, acts[k].i);
  }
}
