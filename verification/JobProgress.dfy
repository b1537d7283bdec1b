/** No state of a job is a dead end: whatever has crashed, failed or been repeated, it can still come to its end. */
module JobProgress {
  import opened KeyValues
  import opened MapReduce
  import opened Options
  import opened Master
  import opened Job

  // ----- going on from a state

  ghost predicate Goes(p: Program, c: State, run: seq<State>, events: seq<Event>, d: State) {
    && |run| == |events| + 1 && run[0] == c && run[|events|] == d
    && forall k :: 0 <= k < |events| ==> Taken(p, run[k], events[k], run[k + 1])
  }

  /** d is a state of the job that c can lead to. */
  ghost predicate Leads(p: Program, c: State, d: State) {
    JobInv(p, d) && exists run, events :: Goes(p, c, run, events, d)
  }

  lemma Stays(p: Program, c: State)
    requires JobInv(p, c)
    ensures Leads(p, c, c)
  {
    assert Goes(p, c, [c], [], c);
  }

  lemma Does(p: Program, c: State, d: State, e: Event)
    requires Leads(p, c, d) && Enabled(p, d, e)
    ensures Leads(p, c, Next(p, d, e))
  {
    var run, events :| Goes(p, c, run, events, d);
    var run', events' := run + [Next(p, d, e)], events + [e];
    forall k | 0 <= k < |events'| ensures Taken(p, run'[k], events'[k], run'[k + 1]) {
      if k < |events| { assert Taken(p, run[k], events[k], run[k + 1]); }
    }
    assert Goes(p, c, run', events', Next(p, d, e));
    StepKeepsJob(p, d, e);
  }

  // ----- sorting and listing are always possible

  lemma {:induction false} SortExists(s: seq<KeyValue>) returns (out: seq<KeyValue>)
    ensures SortOf(s, out)
    decreases |s|
  {
    if s == [] {
      out := [];
    } else {
      var last := |s| - 1;
      var rest := SortExists(s[..last]);
      out := Insert(rest, s[last]);
      assert s == s[..last] + [s[last]];
    }
  }

  lemma {:induction false} Insert(s: seq<KeyValue>, x: KeyValue) returns (out: seq<KeyValue>)
    requires Sorted(s)
    ensures Sorted(out) && multiset(out) == multiset(s) + multiset{x}
    decreases |s|
  {
    if s == [] || !KeyLess(x.key, s[|s| - 1].key) {
      out := s + [x];
      forall i | 0 <= i < |s| ensures !KeyLess(x.key, s[i].key) { LastIsGreatest(s, x.key, i); }
    } else {
      var last, rest := s[|s| - 1], s[..|s| - 1];
      var front := Insert(rest, x);
      out := front + [last];
      assert s == rest + [last];
      forall i | 0 <= i < |front| ensures !KeyLess(last.key, front[i].key) { FrontIsBefore(s, x, front, i); }
    }
  }

  lemma FrontIsBefore(s: seq<KeyValue>, x: KeyValue, front: seq<KeyValue>, i: nat)
    requires s != [] && Sorted(s) && KeyLess(x.key, s[|s| - 1].key) && i < |front|
    requires multiset(front) == multiset(s[..|s| - 1]) + multiset{x}
    ensures !KeyLess(s[|s| - 1].key, front[i].key)
  {
    assert front[i] in multiset(front);
    if front[i] == x {
      NotBoth(x.key, s[|s| - 1].key);
    } else {
      assert front[i] in s[..|s| - 1];
    }
  }

  lemma LastIsGreatest(s: seq<KeyValue>, k: string, i: nat)
    requires Sorted(s) && i < |s| && !KeyLess(k, s[|s| - 1].key)
    ensures !KeyLess(k, s[i].key)
  {
    var last := s[|s| - 1].key;
    if i < |s| - 1 && KeyLess(k, s[i].key) {
      assert !KeyLess(last, s[i].key);
      LessIsTotal(last, s[i].key);
      if KeyLess(s[i].key, last) { LessIsTransitive(k, s[i].key, last); }
    }
  }

  lemma {:induction false} NotBoth(a: string, b: string)
    requires KeyLess(a, b)
    ensures !KeyLess(b, a)
  {
    if a != [] && a[0] == b[0] { NotBoth(a[1..], b[1..]); }
  }

  lemma {:induction false} ListExists(ids: set<nat>) returns (order: seq<nat>)
    ensures forall i, j :: 0 <= i < j < |order| ==> order[i] != order[j]
    ensures forall id: nat :: id in order <==> id in ids
    decreases |ids|
  {
    order := [];
    if ids != {} {
      var x :| x in ids;
      var rest := ListExists(ids - {x});
      order := rest + [x];
    }
  }

  // ----- one task

  lemma {:induction false} WritesFiles(p: Program, c: State, d: State, id: nat, k: nat) returns (e: State)
    requires p.n >= 1 && Leads(p, c, d) && IsMapTask(d, id) && k <= p.n
    ensures Leads(p, c, e) && e.master == d.master && forall b: nat :: b < k ==> (id, b) in e.store
    decreases k
  {
    e := d;
    if k > 0 {
      e := WritesFiles(p, c, d, id, k - 1);
      var sorted := SortExists(p.mapf(d.master.tasks[id].name.file));
      Does(p, c, e, WriteFile(id, k - 1, sorted));
      e := Next(p, e, WriteFile(id, k - 1, sorted));
    }
  }

  /** Task id is finished, the others and the schedule are as they were. */
  ghost predicate Finishes(m: MasterState, m': MasterState, id: nat) {
    && id in m.tasks && id in m'.tasks && m'.tasks[id].state == Finished
    && m' == m.(tasks := m.tasks[id := m'.tasks[id]])
  }

  lemma FinishesMap(p: Program, c: State, d: State, id: nat) returns (e: State)
    requires p.n >= 1 && Leads(p, c, d) && IsMapTask(d, id)
    ensures Leads(p, c, e) && Finishes(d.master, e.master, id)
  {
    e := WritesFiles(p, c, d, id, p.n);
    Does(p, c, e, FinishMap(id, 0));
    e := Next(p, e, FinishMap(id, 0));
  }

  lemma FinishesReduce(p: Program, c: State, d: State, id: nat) returns (e: State)
    requires p.n >= 1 && Leads(p, c, d) && IsReduceTask(d, id)
    ensures Leads(p, c, e) && Finishes(d.master, e.master, id)
  {
    var b := d.master.tasks[id].name.bucket;
    var order := ListExists(set k | k in d.store.Keys && k.1 == b :: k.0);
    assert Lists(order, d, b) by {
      forall i: nat ensures i in order <==> (i, b) in d.store {
        if (i, b) in d.store { assert (i, b) in d.store.Keys && (i, b).1 == b; }
      }
    }
    var sorted := SortExists(Flatten(Found(d, order, b)));
    Does(p, c, d, WriteOut(id, order, sorted));
    e := Next(p, d, WriteOut(id, order, sorted));
    Does(p, c, e, FinishReduce(id, 0));
    e := Next(p, e, FinishReduce(id, 0));
  }

  lemma FinishesTask(p: Program, c: State, d: State, id: nat) returns (e: State)
    requires Leads(p, c, d) && id in d.master.tasks
    ensures Leads(p, c, e) && Finishes(d.master, e.master, id)
  {
    assert TaskOk(p, id, d.master.tasks[id]);
    if id <= |p.files| {
      e := FinishesMap(p, c, d, id);
    } else {
      e := FinishesReduce(p, c, d, id);
    }
  }

  // ----- all tasks

  ghost predicate SameSchedule(m: MasterState, m': MasterState) {
    m'.stage == m.stage && m'.taskSeq == m.taskSeq
  }

  lemma {:induction false} FinishesAll(p: Program, c: State, d: State, k: nat) returns (e: State)
    requires Leads(p, c, d) && k <= d.master.taskSeq
    ensures Leads(p, c, e) && SameSchedule(d.master, e.master)
    ensures forall id: nat :: 1 <= id <= k ==> id in e.master.tasks && e.master.tasks[id].state == Finished
    decreases k
  {
    e := d;
    if k > 0 {
      var x := FinishesAll(p, c, d, k - 1);
      assert k in x.master.tasks;
      e := FinishesTask(p, c, x, k);
    }
  }

  lemma EveryTaskFinished(p: Program, c: State, d: State) returns (e: State)
    requires Leads(p, c, d)
    ensures Leads(p, c, e) && SameSchedule(d.master, e.master) && AllFinished(e.master)
  {
    e := FinishesAll(p, c, d, d.master.taskSeq);
  }

  // ----- the schedule

  lemma {:induction false} HandsOutMaps(p: Program, c: State, d: State) returns (e: State)
    requires Leads(p, c, d) && d.master.stage.Maps?
    ensures Leads(p, c, e) && e.master.stage == Maps(|p.files|)
    decreases |p.files| - d.master.stage.sent
  {
    e := d;
    if d.master.stage.sent < |p.files| {
      Does(p, c, d, GetNew(1, 0));
      e := HandsOutMaps(p, c, Next(p, d, GetNew(1, 0)));
    }
  }

  lemma {:induction false} HandsOutReduces(p: Program, c: State, d: State) returns (e: State)
    requires Leads(p, c, d) && d.master.stage.Reduces?
    ensures Leads(p, c, e) && e.master.stage == Reduces(p.n)
    decreases p.n - d.master.stage.sent
  {
    e := d;
    if d.master.stage.sent < p.n {
      Does(p, c, d, GetNew(1, 0));
      e := HandsOutReduces(p, c, Next(p, d, GetNew(1, 0)));
    }
  }

  lemma ComesToReduces(p: Program, c: State, d: State) returns (e: State)
    requires Leads(p, c, d) && (d.master.stage.Maps? || d.master.stage.MapsDone?)
    ensures Leads(p, c, e) && e.master.stage.Reduces?
  {
    e := d;
    if e.master.stage.Maps? {
      e := HandsOutMaps(p, c, e);
      e := EveryTaskFinished(p, c, e);
      Does(p, c, e, MapsChecked);
      e := Next(p, e, MapsChecked);
    }
    Does(p, c, e, SwitchPhase);
    e := Next(p, e, SwitchPhase);
  }

  lemma ComesToDone(p: Program, c: State, d: State) returns (e: State)
    requires Leads(p, c, d) && (d.master.stage.Reduces? || d.master.stage.ReducesDone?)
    ensures Leads(p, c, e) && e.master.done && e.master.stage.ReducesDone?
  {
    e := d;
    if e.master.stage.Reduces? {
      e := HandsOutReduces(p, c, e);
      e := EveryTaskFinished(p, c, e);
      Does(p, c, e, ReducesChecked);
      e := Next(p, e, ReducesChecked);
    }
    Does(p, c, e, Done);
    e := Next(p, e, Done);
  }

  lemma Finishable(p: Program, c: State) returns (d: State)
    requires JobInv(p, c)
    ensures Leads(p, c, d) && d.master.done && d.master.stage.ReducesDone?
  {
    Stays(p, c);
    d := c;
    if c.master.stage.Maps? || c.master.stage.MapsDone? { d := ComesToReduces(p, c, c); }
    d := ComesToDone(p, c, d);
  }

  lemma Joins(p: Program, run: seq<State>, events: seq<Event>, more: seq<State>, steps: seq<Event>, d: State)
    returns (run': seq<State>, events': seq<Event>)
    requires IsRun(p, run, events) && Goes(p, run[|events|], more, steps, d)
    ensures IsRun(p, run', events') && run <= run' && events <= events' && run'[|events'|] == d
  {
    run', events' := run + more[1..], events + steps;
    forall k | 0 <= k < |events'| ensures Taken(p, run'[k], events'[k], run'[k + 1]) {
      if k < |events| {
        assert Taken(p, run[k], events[k], run[k + 1]);
      } else {
        var j := k - |events|;
        assert Taken(p, more[j], steps[j], more[j + 1]);
        assert run'[k] == more[j];
      }
    }
  }

  /** In every state of every run any task may be reported as failed and then handed to any worker again, and any map
      task may write any of its files once more. */
  lemma AnyTaskMayBeRepeated(p: Program, run: seq<State>, events: seq<Event>, k: nat, id: nat, w: nat, now: nat)
    requires WellFormed(p) && IsRun(p, run, events) && k <= |events| && id in run[k].master.tasks
    ensures Enabled(p, run[k], Report(id, Failed, now))
    ensures Enabled(p, Next(p, run[k], Report(id, Failed, now)), GetAgain(w, id, now))
    ensures 1 <= id <= |p.files| ==>
              forall b: nat, sorted :: b < p.n && SortOf(p.mapf(p.files[id - 1]), sorted) ==>
                                         Enabled(p, run[k], WriteFile(id, b, sorted))
  {
    JobHolds(p, run, events, k);
    assert TaskOk(p, id, run[k].master.tasks[id]);
  }

  /** Every run of every job can go on until the job is done, with every output file written. */
  lemma JobCanFinish(p: Program, run: seq<State>, events: seq<Event>) returns (run': seq<State>, events': seq<Event>)
    requires WellFormed(p) && IsRun(p, run, events)
    ensures IsRun(p, run', events') && run <= run' && events <= events'
    ensures run'[|events'|].master.done && forall b: nat :: b < p.n ==> b in run'[|events'|].outs
  {
    JobHolds(p, run, events, |events|);
    var d := Finishable(p, run[|events|]);
    var more, steps :| Goes(p, run[|events|], more, steps, d);
    run', events' := Joins(p, run, events, more, steps, d);
  }
}
