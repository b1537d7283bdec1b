/** A cluster of peers, a lossy network and crashes, as a state machine.
    One action is one critical section, or one call whose caller holds its lock until the reply is in. */
module Cluster {
  import opened Options
  import opened RaftTypes
  import opened RaftHandlers

  /** The local variables of a running startElection: its request, who was asked, who granted. */
  datatype Tally = Tally(args: VoteArgs, asked: set<nat>, votes: set<nat>)

  /** One process. While `tally` is set the election goroutine holds the peer's lock.
      `sawLeader` holds after a goroutine read the role as Leader and until it is done acting on it. */
  datatype Server = Server(raft: RaftState, tally: Option<Tally>, sawLeader: bool)

  datatype Message =
    | AppendMsg(to: nat, append: AppendArgs)
    | VoteMsg(to: nat, vote: VoteArgs)

  /** `net` holds the requests whose caller has stopped waiting; each is handled at most once. */
  datatype State = State(servers: seq<Server>, net: multiset<Message>)

  datatype Action =
    | StartCampaign(i: nat)               // the election timer fires
    | Poll(i: nat, to: nat)               // a vote request and its reply
    | PollLost(i: nat, to: nat)           // a vote request whose reply will not be seen
    | FinishCampaign(i: nat)              // the tally
    | GiveUpRole(i: nat)                  // changeRole(Follower) after a failed startElection
    | ReadRole(i: nat)                    // GetState returned isLeader
    | ForgetRole(i: nat)                  // the goroutine that read the role is done
    | Exchange(i: nat, to: nat)           // an append request and its reply
    | ExchangeLost(i: nat, to: nat)       // an append request whose reply will not be seen
    | LateDelivery(m: Message)            // a handler runs, its reply is discarded
    | ClientStart(i: nat, command: Command)
    | ApplyNext(i: nat)
    | CrashRestart(i: nat)                // at any time, also in the middle of an election

  function Init(n: nat): State {
    State(seq(n, i requires 0 <= i < n => Server(Boot(i, n, None), None, false)), multiset{})
  }

  predicate Free(c: State, i: nat) {
    i < |c.servers| && c.servers[i].tally.None?
  }

  predicate MayActAsLeader(rules: Rules, c: State, i: nat)
    requires i < |c.servers|
  {
    if rules.leaderOnly then c.servers[i].raft.role == Leader else c.servers[i].sawLeader
  }

  predicate Enabled(rules: Rules, c: State, a: Action) {
    match a
    case StartCampaign(i) => Free(c, i) && c.servers[i].raft.role != Leader
    case Poll(i, to) =>
      && i < |c.servers| && c.servers[i].tally.Some? && i != to && Free(c, to)
      && to !in c.servers[i].tally.value.asked
    case PollLost(i, to) =>
      && i < |c.servers| && c.servers[i].tally.Some? && i != to && to < |c.servers|
      && to !in c.servers[i].tally.value.asked
    case FinishCampaign(i) => i < |c.servers| && c.servers[i].tally.Some?
    case GiveUpRole(i) => Free(c, i)
    case ReadRole(i) => Free(c, i) && c.servers[i].raft.role == Leader
    case ForgetRole(i) => i < |c.servers|
    case Exchange(i, to) =>
      Free(c, i) && Free(c, to) && i != to && MayActAsLeader(rules, c, i) && Sendable(c.servers[i].raft, to)
    case ExchangeLost(i, to) =>
      Free(c, i) && i != to && to < |c.servers| && MayActAsLeader(rules, c, i) && Sendable(c.servers[i].raft, to)
    case LateDelivery(m) => m in c.net && Free(c, m.to)
    case ClientStart(i, _) =>
      && Free(c, i) && MayActAsLeader(rules, c, i)
      && c.servers[i].raft.me < |c.servers[i].raft.matchIndex|
    case ApplyNext(i) => Free(c, i) && CanApply(c.servers[i].raft)
    case CrashRestart(i) => i < |c.servers|
  }

  /** The request can be built and its reply recorded without an index out of range. */
  predicate Sendable(s: RaftState, f: nat) {
    CanSend(s, f) && f < |s.matchIndex| == |s.nextIndex|
  }

  function With(c: State, i: nat, s: RaftState): State
    requires i < |c.servers|
  {
    c.(servers := c.servers[i := c.servers[i].(raft := s)])
  }

  function WithTally(c: State, i: nat, s: RaftState, t: Option<Tally>): State
    requires i < |c.servers|
  {
    c.(servers := c.servers[i := c.servers[i].(raft := s, tally := t)])
  }

  function Send(c: State, m: Message): State {
    c.(net := c.net + multiset{m})
  }

  function Next(rules: Rules, c: State, a: Action): State
    requires Enabled(rules, c, a)
  {
    match a
    case StartCampaign(i) =>
      var s := Campaign(c.servers[i].raft);
      WithTally(c, i, s, Some(Tally(VoteRequest(s), {}, {i})))
    case Poll(i, to) =>
      var t := c.servers[i].tally.value;
      var (v, r) := HandleVote(c.servers[to].raft, t.args);
      var d := With(c, to, v);
      WithTally(d, i, HearVote(d.servers[i].raft, t.args, r),
                Some(t.(asked := t.asked + {to}, votes := if r.granted then t.votes + {to} else t.votes)))
    case PollLost(i, to) =>
      var t := c.servers[i].tally.value;
      Send(WithTally(c, i, c.servers[i].raft, Some(t.(asked := t.asked + {to}))), VoteMsg(to, t.args))
    case FinishCampaign(i) =>
      WithTally(c, i, Finish(rules, c.servers[i].raft, |c.servers[i].tally.value.votes|), None)
    case GiveUpRole(i) => With(c, i, StepDown(c.servers[i].raft))
    case ReadRole(i) => c.(servers := c.servers[i := c.servers[i].(sawLeader := true)])
    case ForgetRole(i) => c.(servers := c.servers[i := c.servers[i].(sawLeader := false)])
    case Exchange(i, to) =>
      var args := BuildAppend(c.servers[i].raft, to);
      var (f, r) := HandleAppend(rules, c.servers[to].raft, args);
      var d := With(c, to, f);
      With(d, i, HandleReply(rules, d.servers[i].raft, to, args, r))
    case ExchangeLost(i, to) =>
      var s := c.servers[i].raft;
      Send(With(c, i, HandleReply(rules, s, to, BuildAppend(s, to), LOST)), AppendMsg(to, BuildAppend(s, to)))
    case LateDelivery(m) =>
      var d := c.(net := c.net - multiset{m});
      var s := c.servers[m.to].raft;
      With(d, m.to,
           match m
           case AppendMsg(_, a) => HandleAppend(rules, s, a).0
           case VoteMsg(_, v) => HandleVote(s, v).0)
    case ClientStart(i, command) => With(c, i, Start(c.servers[i].raft, command))
    case ApplyNext(i) => With(c, i, Apply(c.servers[i].raft).0)
    case CrashRestart(i) =>
      c.(servers := c.servers[i := Server(Restart(c.servers[i].raft), None, false)])
  }

  /** A run of n peers: run[0] is the initial state and acts[k] leads from run[k] to run[k + 1]. */
  ghost predicate IsRun(rules: Rules, n: nat, run: seq<State>, acts: seq<Action>) {
    && |run| == |acts| + 1
    && run[0] == Init(n)
    && forall k :: 0 <= k < |acts| ==> Taken(rules, run[k], acts[k], run[k + 1])
  }

  ghost predicate Taken(rules: Rules, c: State, a: Action, d: State) {
    Enabled(rules, c, a) && d == Next(rules, c, a)
  }

  lemma {:induction false} SizeIsFixed(rules: Rules, n: nat, run: seq<State>, acts: seq<Action>, k: nat)
    requires IsRun(rules, n, run, acts) && k <= |acts|
    ensures |run[k].servers| == n
    decreases k
  {
    if k > 0 {
      SizeIsFixed(rules, n, run, acts, k - 1);
      assert Taken(rules, run[k - 1], acts[k - 1], run[k - 1 + 1]);
    }
  }
}
