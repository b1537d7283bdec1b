/** How each action extends the history. */
module Record {
  import opened RaftTypes
  import opened RaftHandlers
  import opened Cluster
  import opened History

  function NoteVote(h: Past, voter: nat, t: nat, candidate: nat): Past {
    h.(votes := h.votes[(voter, t) := candidate])
  }

  function NoteWin(h: Past, t: nat, id: nat, log: Log, voters: set<nat>): Past {
    h.(reigns := h.reigns[t := Reign(id, log, log, voters)],
    acked := h.acked[(id, t) := if log == [] then 0 else |log| - 1])
  }

  function NoteEntry(h: Past, t: nat, id: nat, log: Log): Past {
    if t !in h.reigns || log == [] then h
    else h.(reigns := h.reigns[t := h.reigns[t].(log := log)], acked := h.acked[(id, t) := |log| - 1])
  }

  function NoteAck(h: Past, f: nat, t: nat, k: nat): Past {
    if (f, t) in h.acked && h.acked[(f, t)] >= k then h else h.(acked := h.acked[(f, t) := k])
  }

  function AfterVote(h: Past, s: RaftState, a: VoteArgs): Past {
    if HandleVote(s, a).1.granted then NoteVote(h, s.me, a.term, a.candidate) else h
  }

  function AfterTally(rules: Rules, h: Past, s: RaftState, t: Tally): Past {
    var g := NoteVote(h, s.me, t.args.term, s.me);
    if Wins(rules, s, |t.votes|) then NoteWin(g, s.term, s.me, s.log, t.votes) else g
  }

  function AfterAppend(rules: Rules, h: Past, s: RaftState, a: AppendArgs): Past {
    if HandleAppend(rules, s, a).1.success then NoteAck(h, s.me, a.term, a.prevIndex + |a.entries|) else h
  }

  function After(rules: Rules, h: Past, c: State, a: Action): Past
    requires Enabled(rules, c, a)
  {
    match a
    case Poll(i, to) => AfterVote(h, c.servers[to].raft, c.servers[i].tally.value.args)
    case FinishCampaign(i) => AfterTally(rules, h, c.servers[i].raft, c.servers[i].tally.value)
    case Exchange(i, to) => AfterAppend(rules, h, c.servers[to].raft, BuildAppend(c.servers[i].raft, to))
    case LateDelivery(AppendMsg(to, args)) => AfterAppend(rules, h, c.servers[to].raft, args)
    case LateDelivery(VoteMsg(to, args)) => AfterVote(h, c.servers[to].raft, args)
    case ClientStart(i, command) =>
      NoteEntry(h, c.servers[i].raft.term, i, Start(c.servers[i].raft, command).log)
    case _ => h
  }
}
