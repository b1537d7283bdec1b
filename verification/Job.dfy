/** A whole job: the master, any number of workers that may crash, be slow or repeat one another, and the
    files they write. Writing one file is one step. */
module Job {
  import opened KeyValues
  import opened MapReduce
  import opened Master

  /** What a job computes: the inputs, mapf on each input file, the hash, reducef. */
  datatype Program = Program(files: seq<string>, mapf: string -> seq<KeyValue>, hash: Hash, n: nat, reducef: Reducer)

  /** store: (map task, bucket) -> intermediate file. outs: bucket -> output file. */
  datatype State = State(master: MasterState, store: map<(nat, nat), seq<KeyValue>>, outs: map<nat, seq<Line>>)

  datatype Event =
    | GetNew(worker: nat, now: nat)
    | GetAgain(worker: nat, id: nat, now: nat)
    | WriteFile(id: nat, bucket: nat, sorted: seq<KeyValue>)           // doMap, one file
    | FinishMap(id: nat, now: nat)                                     // doMap returned
    | WriteOut(id: nat, order: seq<nat>, sorted: seq<KeyValue>)        // doReduce
    | FinishReduce(id: nat, now: nat)                                  // doReduce returned
    | Report(id: nat, s: TaskState, now: nat)                          // any other state, from worker or heartbeat
    | SignOfLife(id: nat, now: nat)                                    // WorkerHeartBeat
    | MapsChecked                                                      // isTasksDone after the last file
    | SwitchPhase
    | ReducesChecked                                                   // isTasksDone after the last bucket
    | Done

  function Mapped(p: Program): seq<seq<KeyValue>> {
    seq(|p.files|, t requires 0 <= t < |p.files| => p.mapf(p.files[t]))
  }

  function Begin(p: Program): State {
    State(Fresh(p.files, p.n), map[], map[])
  }

  predicate IsMapTask(c: State, id: nat) {
    id in c.master.tasks && c.master.tasks[id].phase == MapPhase && c.master.tasks[id].name.Input?
  }

  predicate IsReduceTask(c: State, id: nat) {
    id in c.master.tasks && c.master.tasks[id].phase == ReducePhase && c.master.tasks[id].name.Pattern?
  }

  /** The numbers of the map tasks that have a file for the bucket, each once, in the order the glob lists them. */
  ghost predicate Lists(order: seq<nat>, c: State, bucket: nat) {
    && (forall i, j :: 0 <= i < j < |order| ==> order[i] != order[j])
    && (forall id: nat :: id in order <==> (id, bucket) in c.store)
  }

  function Found(c: State, order: seq<nat>, bucket: nat): seq<seq<KeyValue>>
    requires forall id :: id in order ==> (id, bucket) in c.store
  {
    seq(|order|, x requires 0 <= x < |order| => c.store[(order[x], bucket)])
  }

  ghost predicate Enabled(p: Program, c: State, e: Event) {
    match e
    case GetNew(_, _) => Offered(c.master).Some?
    case GetAgain(_, id, _) => id in c.master.tasks && c.master.tasks[id].state == Failed
    case WriteFile(id, b, sorted) =>
      IsMapTask(c, id) && b < p.n && SortOf(p.mapf(c.master.tasks[id].name.file), sorted)
    case FinishMap(id, _) => IsMapTask(c, id) && forall b :: 0 <= b < p.n ==> (id, b) in c.store
    case WriteOut(id, order, sorted) =>
      && IsReduceTask(c, id)
      && var b := c.master.tasks[id].name.bucket;
      && Lists(order, c, b) && SortOf(Flatten(Found(c, order, b)), sorted)
    case FinishReduce(id, _) => IsReduceTask(c, id) && c.master.tasks[id].name.bucket in c.outs
    case Report(_, s, _) => s != Finished
    case SignOfLife(_, _) => true
    case MapsChecked => c.master.stage == Maps(|c.master.files|) && AllFinished(c.master)
    case SwitchPhase => c.master.stage == MapsDone
    case ReducesChecked => c.master.stage == Reduces(c.master.nReduce) && AllFinished(c.master)
    case Done => c.master.stage == ReducesDone
  }

  ghost function Next(p: Program, c: State, e: Event): State
    requires p.n >= 1 && Enabled(p, c, e)
  {
    match e
    case GetNew(w, now) => c.(master := GiveNew(c.master, w, now))
    case GetAgain(w, id, now) => c.(master := GiveAgain(c.master, w, id, now))
    case WriteFile(id, b, sorted) => c.(store := c.store[(id, b) := Bucket(sorted, p.hash, p.n, b)])
    case FinishMap(id, now) => c.(master := SetState(c.master, id, Finished, now))
    case WriteOut(id, _, sorted) =>
      c.(outs := c.outs[c.master.tasks[id].name.bucket := Groups(sorted, p.reducef)])
    case FinishReduce(id, now) => c.(master := SetState(c.master, id, Finished, now))
    case Report(id, s, now) => c.(master := SetState(c.master, id, s, now))
    case SignOfLife(id, now) => c.(master := Beat(c.master, id, now))
    case MapsChecked => c.(master := c.master.(stage := MapsDone))
    case SwitchPhase => c.(master := c.master.(stage := Reduces(0), phase := ReducePhase))
    case ReducesChecked => c.(master := c.master.(stage := ReducesDone))
    case Done => c.(master := c.master.(done := true))
  }

  ghost predicate IsRun(p: Program, run: seq<State>, events: seq<Event>) {
    && |run| == |events| + 1
    && run[0] == Begin(p)
    && forall k :: 0 <= k < |events| ==> Taken(p, run[k], events[k], run[k + 1])
  }

  ghost predicate Taken(p: Program, c: State, e: Event, d: State) {
    p.n >= 1 && Enabled(p, c, e) && d == Next(p, c, e)
  }

  /** At least one bucket, and no more tasks than there are task numbers. */
  ghost predicate WellFormed(p: Program) {
    p.n >= 1 && |p.files| + p.n < ID_LIMIT
  }

  // ----- the task table

  function Created(p: Program, m: MasterState): nat {
    match m.stage
    case Maps(k) => k
    case MapsDone => |p.files|
    case Reduces(k) => |p.files| + k
    case ReducesDone => |p.files| + p.n
  }

  /** Task number id is the one for input file id - 1, or after the files for bucket id - |files| - 1. */
  ghost predicate TaskOk(p: Program, id: nat, t: Task)
    requires id >= 1
  {
    && t.id == id && t.nReduce == p.n
    && (if id <= |p.files| then t.phase == MapPhase && t.name == Input(p.files[id - 1])
        else t.phase == ReducePhase && t.name == Pattern(id - |p.files| - 1))
  }

  ghost predicate TableOk(p: Program, m: MasterState) {
    && m.files == p.files && m.nReduce == p.n
    && m.taskSeq == Created(p, m)
    && (m.stage.Maps? ==> m.stage.sent <= |p.files|)
    && (m.stage.Reduces? ==> m.stage.sent <= p.n)
    && (m.phase == MapPhase <==> m.stage.Maps? || m.stage.MapsDone?)
    && (forall id: nat :: id in m.tasks <==> 1 <= id <= m.taskSeq)
    && (forall id: nat :: id in m.tasks ==> TaskOk(p, id, m.tasks[id]))
  }

  lemma StepKeepsTable(p: Program, c: State, e: Event)
    requires WellFormed(p) && TableOk(p, c.master) && Enabled(p, c, e)
    ensures TableOk(p, Next(p, c, e).master)
  {
    var m := c.master;
    match e
    case GetNew(w, now) => NewTaskFits(p, m, w, now);
    case GetAgain(w, id, now) => SameTaskFits(p, m, GiveAgain(m, w, id, now), id);
    case FinishMap(id, now) => SameTaskFits(p, m, SetState(m, id, Finished, now), id);
    case FinishReduce(id, now) => SameTaskFits(p, m, SetState(m, id, Finished, now), id);
    case Report(id, s, now) => if id in m.tasks { SameTaskFits(p, m, SetState(m, id, s, now), id); }
    case SignOfLife(id, now) => if id != 0 && id in m.tasks { SameTaskFits(p, m, Beat(m, id, now), id); }
    case _ => StageMoves(p, m, Next(p, c, e).master);
  }

  lemma NewTaskFits(p: Program, m: MasterState, w: nat, now: nat)
    requires WellFormed(p) && TableOk(p, m) && Offered(m).Some?
    ensures TableOk(p, GiveNew(m, w, now))
  {
    assert NextID(m) == m.taskSeq + 1;
  }

  lemma SameTaskFits(p: Program, m: MasterState, m': MasterState, id: nat)
    requires TableOk(p, m) && id in m.tasks && id in m'.tasks && SameTask(m.tasks[id], m'.tasks[id])
    requires m' == m.(tasks := m.tasks[id := m'.tasks[id]])
    ensures TableOk(p, m')
  {
  }

  /** The schedule moves on without touching the tasks. */
  lemma StageMoves(p: Program, m: MasterState, m': MasterState)
    requires TableOk(p, m) && m' == m.(stage := m'.stage, phase := m'.phase, done := m'.done)
    requires Created(p, m') == Created(p, m)
    requires m'.stage.Maps? || m'.stage.Reduces? ==> m'.stage == m.stage || m'.stage == Reduces(0)
    requires m'.phase == MapPhase <==> m'.stage.Maps? || m'.stage.MapsDone?
    ensures TableOk(p, m')
  {
  }

  // ----- files

  /** Every intermediate file there is holds the right bucket, whichever attempt wrote it last. */
  ghost predicate StoreOk(p: Program, c: State)
    requires p.n >= 1
  {
    forall id: nat, b: nat :: (id, b) in c.store ==>
                                && 1 <= id <= |p.files| && b < p.n
                                && IsBucket(c.store[(id, b)], p.mapf(p.files[id - 1]), p.hash, p.n, b)
  }

  ghost predicate Written(p: Program, c: State, id: nat) {
    forall b: nat :: b < p.n ==> (id, b) in c.store
  }

  /** A finished map task has all its files; past the map phase every map task has. */
  ghost predicate MapsOk(p: Program, c: State) {
    && (forall id: nat :: id in c.master.tasks && id <= |p.files| && c.master.tasks[id].state == Finished ==>
                            Written(p, c, id))
    && (!c.master.stage.Maps? ==> forall id: nat :: 1 <= id <= |p.files| ==> Written(p, c, id))
  }

  /** The output of bucket b is the reduction of bucket b of everything. */
  ghost predicate OutOk(p: Program, b: nat, lines: seq<Line>)
    requires p.n >= 1
  {
    exists part ::
      Sorted(part) && IsBucket(part, Flatten(Mapped(p)), p.hash, p.n, b) && lines == Groups(part, p.reducef)
  }

  ghost predicate OutsRight(p: Program, outs: map<nat, seq<Line>>)
    requires p.n >= 1
  {
    forall b: nat :: b in outs ==> b < p.n && OutOk(p, b, outs[b])
  }

  ghost predicate OutsThere(p: Program, c: State) {
    && (forall id: nat :: id in c.master.tasks && id > |p.files| && c.master.tasks[id].state == Finished ==>
                            id - |p.files| - 1 in c.outs)
    && (c.master.stage.ReducesDone? ==> forall b: nat :: b < p.n ==> b in c.outs)
    && (c.master.done ==> p.files == [] || c.master.stage.ReducesDone?)
  }

  ghost predicate OutsOk(p: Program, c: State)
    requires p.n >= 1
  {
    OutsRight(p, c.outs) && OutsThere(p, c)
  }

  ghost predicate JobInv(p: Program, c: State) {
    WellFormed(p) && TableOk(p, c.master) && StoreOk(p, c) && MapsOk(p, c) && OutsOk(p, c)
  }

  lemma WrittenBucket(p: Program, mapped: seq<KeyValue>, sorted: seq<KeyValue>, b: nat)
    requires p.n >= 1 && SortOf(mapped, sorted)
    ensures IsBucket(Bucket(sorted, p.hash, p.n, b), mapped, p.hash, p.n, b)
  {
    forall kv: KeyValue { BucketCount(sorted, p.hash, p.n, b, kv); }
  }

  /** Whatever an attempt writes, each file holds its bucket. */
  lemma StepKeepsStore(p: Program, c: State, e: Event)
    requires WellFormed(p) && TableOk(p, c.master) && StoreOk(p, c) && Enabled(p, c, e)
    ensures StoreOk(p, Next(p, c, e))
    ensures forall k :: k in c.store ==> k in Next(p, c, e).store
  {
    if e.WriteFile? {
      assert TaskOk(p, e.id, c.master.tasks[e.id]);
      assert e.id <= |p.files|;
      WrittenBucket(p, p.mapf(p.files[e.id - 1]), e.sorted, e.bucket);
      FileAdded(p, c, Next(p, c, e), e.id, e.bucket);
    } else {
      StoreUntouched(p, c, e);
    }
  }

  lemma StoreUntouched(p: Program, c: State, e: Event)
    requires p.n >= 1 && Enabled(p, c, e) && !e.WriteFile?
    ensures Next(p, c, e).store == c.store
  {
  }

  lemma FileAdded(p: Program, c: State, d: State, id: nat, b: nat)
    requires p.n >= 1 && StoreOk(p, c) && 1 <= id <= |p.files| && b < p.n
    requires (id, b) in d.store && d.store == c.store[(id, b) := d.store[(id, b)]]
    requires IsBucket(d.store[(id, b)], p.mapf(p.files[id - 1]), p.hash, p.n, b)
    ensures StoreOk(p, d)
  {
  }

  lemma StepKeepsMaps(p: Program, c: State, e: Event)
    requires WellFormed(p) && TableOk(p, c.master) && StoreOk(p, c) && MapsOk(p, c) && Enabled(p, c, e)
    ensures MapsOk(p, Next(p, c, e))
  {
    var d := Next(p, c, e);
    StepKeepsStore(p, c, e);
    forall id: nat | Written(p, c, id) ensures Written(p, d, id) {}
    if e.MapsChecked? {
      forall id: nat | 1 <= id <= |p.files| ensures Written(p, d, id) { assert id in c.master.tasks; }
    }
    if e.FinishMap? { assert Written(p, c, e.id); }
    if e.FinishReduce? { assert TaskOk(p, e.id, c.master.tasks[e.id]); }
  }

  // ----- reading a bucket

  function Column(p: Program, c: State, b: nat): seq<seq<KeyValue>>
    requires forall id: nat :: 1 <= id <= |p.files| ==> (id, b) in c.store
  {
    seq(|p.files|, t requires 0 <= t < |p.files| => c.store[(t + 1, b)])
  }

  function Numbers(n: nat): seq<nat> {
    seq(n, t requires 0 <= t < n => t + 1)
  }

  lemma {:induction false} ListsAll(order: seq<nat>, n: nat)
    requires forall i, j :: 0 <= i < j < |order| ==> order[i] != order[j]
    requires forall id: nat :: id in order <==> 1 <= id <= n
    ensures multiset(order) == multiset(Numbers(n))
  {
    forall x: nat ensures multiset(order)[x] == multiset(Numbers(n))[x] {
      OnceEach(order, x);
      OnceEach(Numbers(n), x);
      assert 1 <= x <= n ==> Numbers(n)[x - 1] == x;
    }
  }

  lemma {:induction false} OnceEach(s: seq<nat>, x: nat)
    requires forall i, j :: 0 <= i < j < |s| ==> s[i] != s[j]
    ensures multiset(s)[x] == if x in s then 1 else 0
  {
    if s != [] {
      var last := |s| - 1;
      assert s == s[..last] + [s[last]];
      OnceEach(s[..last], x);
      assert x in s[..last] ==> x != s[last];
    }
  }

  function Pick(f: map<nat, seq<KeyValue>>, s: seq<nat>): seq<seq<KeyValue>>
    requires forall x :: x in s ==> x in f
  {
    seq(|s|, i requires 0 <= i < |s| => f[s[i]])
  }

  lemma PickAround(f: map<nat, seq<KeyValue>>, b: seq<nat>, k: nat, at: nat, rest: seq<nat>)
    requires k < |b| && (forall x :: x in b ==> x in f) && at == b[k] && rest == b[..k] + b[k + 1..]
    ensures forall x :: x in rest ==> x in f
    ensures multiset(Pick(f, b)) == multiset(Pick(f, rest)) + multiset{f[at]}
    ensures multiset(b) == multiset(rest) + multiset{at}
  {
    var x, y := Pick(f, b[..k]), Pick(f, b[k + 1..]);
    assert b == b[..k] + [at] + b[k + 1..];
    assert Pick(f, b) == x + [f[at]] + y;
    assert Pick(f, rest) == x + y;
  }

  lemma {:induction false} PickAnyOrder(f: map<nat, seq<KeyValue>>, a: seq<nat>, b: seq<nat>)
    requires multiset(a) == multiset(b) && (forall x :: x in a ==> x in f) && (forall x :: x in b ==> x in f)
    ensures multiset(Pick(f, a)) == multiset(Pick(f, b))
    decreases |a|
  {
    if a == [] {
      assert |b| == |multiset(b)| == 0;
      assert b == [];
    } else {
      assert a[0] in multiset(b);
      var k :| 0 <= k < |b| && b[k] == a[0];
      var x, a', b' := a[0], a[..0] + a[1..], b[..k] + b[k + 1..];
      PickAround(f, a, 0, x, a');
      PickAround(f, b, k, x, b');
      SameRest(multiset(a'), multiset(b'), x);
      PickAnyOrder(f, a', b');
    }
  }

  /** Once all map files are there, a reduce task sees exactly its bucket of everything, however they are listed. */
  lemma ReduceSeesBucket(p: Program, c: State, b: nat, order: seq<nat>, sorted: seq<KeyValue>)
    requires WellFormed(p) && StoreOk(p, c) && b < p.n && Lists(order, c, b)
    requires forall id: nat :: 1 <= id <= |p.files| ==> Written(p, c, id)
    requires SortOf(Flatten(Found(c, order, b)), sorted)
    ensures OutOk(p, b, Groups(sorted, p.reducef))
  {
    forall id: nat | 1 <= id <= |p.files| ensures (id, b) in c.store { assert Written(p, c, id); }
    var column := Column(p, c, b);
    ColumnIsBucket(p, c, b, column);
    FilesInAnyOrder(p, c, b, order, column);
    FlattenAnyOrder(Found(c, order, b), column);
    assert IsBucket(sorted, Flatten(Mapped(p)), p.hash, p.n, b);
  }

  lemma ColumnIsBucket(p: Program, c: State, b: nat, column: seq<seq<KeyValue>>)
    requires p.n >= 1 && StoreOk(p, c) && (forall id: nat :: 1 <= id <= |p.files| ==> (id, b) in c.store)
    requires column == Column(p, c, b)
    ensures IsBucket(Flatten(column), Flatten(Mapped(p)), p.hash, p.n, b)
  {
    forall t | 0 <= t < |column| ensures IsBucket(column[t], Mapped(p)[t], p.hash, p.n, b) {}
    FlattenBucket(column, Mapped(p), p.hash, p.n, b);
  }

  lemma FilesInAnyOrder(p: Program, c: State, b: nat, order: seq<nat>, column: seq<seq<KeyValue>>)
    requires p.n >= 1 && StoreOk(p, c) && Lists(order, c, b)
    requires (forall id: nat :: 1 <= id <= |p.files| ==> (id, b) in c.store) && column == Column(p, c, b)
    ensures multiset(Found(c, order, b)) == multiset(column)
  {
    var numbers := Numbers(|p.files|);
    ListsAll(order, |p.files|);
    var f: map<nat, seq<KeyValue>> := map id: nat | id in order :: c.store[(id, b)];
    PickAnyOrder(f, order, numbers);
    assert Pick(f, order) == Found(c, order, b);
    assert Pick(f, numbers) == column;
  }

  lemma StepKeepsOutsRight(p: Program, c: State, e: Event)
    requires WellFormed(p) && TableOk(p, c.master) && StoreOk(p, c) && MapsOk(p, c) && OutsRight(p, c.outs)
    requires Enabled(p, c, e)
    ensures OutsRight(p, Next(p, c, e).outs)
  {
    if e.WriteOut? {
      assert TaskOk(p, e.id, c.master.tasks[e.id]);
      var b := c.master.tasks[e.id].name.bucket;
      ReduceSeesBucket(p, c, b, e.order, e.sorted);
      OutAdded(p, c.outs, b, Groups(e.sorted, p.reducef));
    }
  }

  lemma OutAdded(p: Program, outs: map<nat, seq<Line>>, b: nat, lines: seq<Line>)
    requires p.n >= 1 && OutsRight(p, outs) && b < p.n && OutOk(p, b, lines)
    ensures OutsRight(p, outs[b := lines])
  {
  }

  lemma StepKeepsOutsThere(p: Program, c: State, e: Event)
    requires WellFormed(p) && TableOk(p, c.master) && OutsThere(p, c) && Enabled(p, c, e)
    ensures OutsThere(p, Next(p, c, e))
  {
    if e.ReducesChecked? {
      forall b: nat | b < p.n ensures b in c.outs {
        var id := b + |p.files| + 1;
        assert id in c.master.tasks;
      }
    } else if e.FinishReduce? || e.FinishMap? {
      assert TaskOk(p, e.id, c.master.tasks[e.id]);
    }
  }

  lemma StepKeepsJob(p: Program, c: State, e: Event)
    requires JobInv(p, c) && Enabled(p, c, e)
    ensures JobInv(p, Next(p, c, e))
  {
    StepKeepsTable(p, c, e);
    StepKeepsStore(p, c, e);
    StepKeepsMaps(p, c, e);
    StepKeepsOutsRight(p, c, e);
    StepKeepsOutsThere(p, c, e);
  }

  lemma {:induction false} JobHolds(p: Program, run: seq<State>, events: seq<Event>, k: nat)
    requires WellFormed(p) && IsRun(p, run, events) && k <= |events|
    ensures JobInv(p, run[k])
    decreases k
  {
    if k > 0 {
      JobHolds(p, run, events, k - 1);
      assert Taken(p, run[k - 1], events[k - 1], run[k - 1 + 1]);
      StepKeepsJob(p, run[k - 1], events[k - 1]);
    }
  }

  // ----- what the job promises

  /** Retries are idempotent, over whole runs: whichever attempts were completed, cut short or repeated, every
      intermediate file there is holds its bucket of its own input file, and a finished map task has all of its. */
  lemma FilesAreRight(p: Program, run: seq<State>, events: seq<Event>, k: nat)
    requires WellFormed(p) && IsRun(p, run, events) && k <= |events|
    ensures StoreOk(p, run[k])
    ensures forall id: nat :: MapFinished(p, run[k], id) ==> Written(p, run[k], id)
  {
    JobHolds(p, run, events, k);
  }

  /** The output files together, in bucket order; a missing one counts as empty. */
  function Output(p: Program, c: State): seq<seq<Line>> {
    seq(p.n, b requires 0 <= b < p.n => if b in c.outs then c.outs[b] else [])
  }

  /** Everything about a task but who works on it and how far it is. */
  ghost predicate SameTask(a: Task, b: Task) {
    a.id == b.id && a.nReduce == b.nReduce && a.phase == b.phase && a.name == b.name
  }

  ghost predicate TasksKept(m: MasterState, m': MasterState) {
    forall id :: id in m.tasks ==> id in m'.tasks && SameTask(m.tasks[id], m'.tasks[id])
  }

  /** File t is the business of task t + 1, from the moment it is handed out, and of no other map task. */
  ghost predicate OneTaskPerFile(p: Program, m: MasterState) {
    && (forall id :: id in m.tasks && m.tasks[id].phase == MapPhase ==>
                       1 <= id <= |p.files| && m.tasks[id].name == Input(p.files[id - 1]))
    && (m.stage.Maps? ==> forall id: nat :: id in m.tasks <==> 1 <= id <= m.stage.sent)
    && (!m.stage.Maps? ==> forall id: nat :: 1 <= id <= |p.files| ==> id in m.tasks && m.tasks[id].phase == MapPhase)
  }

  /** Conservation: a task once in the table stays, with its number, phase and name, and each file has one task. */
  lemma TasksAreConserved(p: Program, run: seq<State>, events: seq<Event>, j: nat, k: nat)
    requires WellFormed(p) && IsRun(p, run, events) && j <= k <= |events|
    ensures TasksKept(run[j].master, run[k].master) && OneTaskPerFile(p, run[k].master)
  {
    TasksStay(p, run, events, j, k);
    FilesHaveTasks(p, run, events, k);
  }

  lemma {:induction false} TasksStay(p: Program, run: seq<State>, events: seq<Event>, j: nat, k: nat)
    requires WellFormed(p) && IsRun(p, run, events) && j <= k <= |events|
    ensures TasksKept(run[j].master, run[k].master)
    decreases k
  {
    if j < k {
      TasksStay(p, run, events, j, k - 1);
      OneStepKeepsTasks(p, run, events, k - 1);
      KeptTwice(run[j].master, run[k - 1].master, run[k].master);
    }
  }

  lemma FilesHaveTasks(p: Program, run: seq<State>, events: seq<Event>, k: nat)
    requires WellFormed(p) && IsRun(p, run, events) && k <= |events|
    ensures OneTaskPerFile(p, run[k].master)
  {
    JobHolds(p, run, events, k);
    TableGivesTasks(p, run[k].master);
  }

  lemma OneStepKeepsTasks(p: Program, run: seq<State>, events: seq<Event>, k: nat)
    requires WellFormed(p) && IsRun(p, run, events) && k < |events|
    ensures TasksKept(run[k].master, run[k + 1].master)
  {
    JobHolds(p, run, events, k);
    assert Taken(p, run[k], events[k], run[k + 1]);
    StepKeepsTasks(p, run[k], events[k]);
  }

  lemma KeptTwice(a: MasterState, b: MasterState, c: MasterState)
    requires TasksKept(a, b) && TasksKept(b, c)
    ensures TasksKept(a, c)
  {
  }

  lemma TableGivesTasks(p: Program, m: MasterState)
    requires TableOk(p, m)
    ensures OneTaskPerFile(p, m)
  {
    forall id | id in m.tasks ensures id >= 1 && TaskOk(p, id, m.tasks[id]) {}
  }

  lemma StepKeepsTasks(p: Program, c: State, e: Event)
    requires WellFormed(p) && TableOk(p, c.master) && Enabled(p, c, e)
    ensures TasksKept(c.master, Next(p, c, e).master)
  {
    var m := c.master;
    match e
    case GetNew(w, now) => NewTaskAdded(m, GiveNew(m, w, now), NextID(m));
    case GetAgain(w, id, now) => OneTaskMoves(m, GiveAgain(m, w, id, now), id);
    case FinishMap(id, now) => OneTaskMoves(m, SetState(m, id, Finished, now), id);
    case FinishReduce(id, now) => OneTaskMoves(m, SetState(m, id, Finished, now), id);
    case Report(id, s, now) => if id in m.tasks { OneTaskMoves(m, SetState(m, id, s, now), id); }
    case SignOfLife(id, now) => if id != 0 && id in m.tasks { OneTaskMoves(m, Beat(m, id, now), id); }
    case _ =>
  }

  lemma NewTaskAdded(m: MasterState, m': MasterState, id: nat)
    requires id !in m.tasks && id in m'.tasks && m'.tasks == m.tasks[id := m'.tasks[id]]
    ensures TasksKept(m, m')
  {
  }

  lemma OneTaskMoves(m: MasterState, m': MasterState, id: nat)
    requires id in m.tasks && id in m'.tasks && SameTask(m.tasks[id], m'.tasks[id])
    requires m'.tasks == m.tasks[id := m'.tasks[id]]
    ensures TasksKept(m, m')
  {
  }

  /** Event e hands task number id to a worker. */
  ghost predicate HandsOut(c: State, e: Event, id: nat) {
    || (e.GetAgain? && e.id == id)
    || (e.GetNew? && NextID(c.master) == id)
  }

  ghost predicate ReportsFailure(e: Event, id: nat) {
    e.Report? && e.id == id && e.s == Failed
  }

  /** What is handed out is on record as sent to that worker at that time. */
  lemma HandedOutIsSent(p: Program, c: State, e: Event, id: nat)
    requires p.n >= 1 && Enabled(p, c, e) && HandsOut(c, e, id)
    ensures
      var m := Next(p, c, e).master;
      id in m.tasks && m.tasks[id].state == Sending && m.tasks[id].worker == e.worker && m.tasks[id].beat == e.now
  {
  }

  lemma OnlyReportsFail(p: Program, c: State, e: Event, id: nat)
    requires WellFormed(p) && TableOk(p, c.master) && Enabled(p, c, e) && !ReportsFailure(e, id)
    requires id in c.master.tasks && c.master.tasks[id].state != Failed
    ensures id in Next(p, c, e).master.tasks && Next(p, c, e).master.tasks[id].state != Failed
  {
  }

  lemma {:induction false} StaysSent(p: Program, run: seq<State>, events: seq<Event>, j: nat, k: nat, id: nat)
    requires WellFormed(p) && IsRun(p, run, events) && j < k <= |events| && HandsOut(run[j], events[j], id)
    requires forall m :: j < m < k ==> !ReportsFailure(events[m], id)
    ensures id in run[k].master.tasks && run[k].master.tasks[id].state != Failed
    decreases k
  {
    assert Taken(p, run[k - 1], events[k - 1], run[k - 1 + 1]);
    if k == j + 1 {
      HandedOutIsSent(p, run[j], events[j], id);
    } else {
      StaysSent(p, run, events, j, k - 1, id);
      JobHolds(p, run, events, k - 1);
      OnlyReportsFail(p, run[k - 1], events[k - 1], id);
    }
  }

  /** A task that was handed out is handed out again only after a report that it failed. */
  lemma HandedOutAgainAfterFailure(p: Program, run: seq<State>, events: seq<Event>, j: nat, k: nat, id: nat)
    requires WellFormed(p) && IsRun(p, run, events) && j < k < |events|
    requires HandsOut(run[j], events[j], id) && HandsOut(run[k], events[k], id)
    ensures exists m :: j < m < k && ReportsFailure(events[m], id)
  {
    if forall m :: j < m < k ==> !ReportsFailure(events[m], id) {
      StaysSent(p, run, events, j, k, id);
      NotHandedOut(p, run, events, k, id);
    }
  }

  lemma NotHandedOut(p: Program, run: seq<State>, events: seq<Event>, k: nat, id: nat)
    requires WellFormed(p) && IsRun(p, run, events) && k < |events|
    requires id in run[k].master.tasks && run[k].master.tasks[id].state != Failed
    ensures !HandsOut(run[k], events[k], id)
  {
    JobHolds(p, run, events, k);
    assert Taken(p, run[k], events[k], run[k + 1]);
  }

  ghost predicate MapFinished(p: Program, c: State, id: nat) {
    1 <= id <= |p.files| && id in c.master.tasks && c.master.tasks[id].state == Finished
  }

  ghost predicate AllMapsFinished(p: Program, c: State) {
    forall id: nat :: 1 <= id <= |p.files| ==> MapFinished(p, c, id)
  }

  lemma {:induction false} PhaseBarrierHolds(p: Program, run: seq<State>, events: seq<Event>, k: nat)
    requires WellFormed(p) && IsRun(p, run, events) && k <= |events|
    ensures !run[k].master.stage.Maps? ==> exists j :: 0 <= j < k && AllMapsFinished(p, run[j])
    decreases k
  {
    if k > 0 {
      PhaseBarrierHolds(p, run, events, k - 1);
      JobHolds(p, run, events, k - 1);
      assert Taken(p, run[k - 1], events[k - 1], run[k - 1 + 1]);
      if events[k - 1].MapsChecked? {
        assert AllMapsFinished(p, run[k - 1]);
      }
    }
  }

  /** Phase barrier: where a reduce task exists, every file's map task was finished at some earlier moment. */
  lemma PhaseBarrier(p: Program, run: seq<State>, events: seq<Event>, k: nat, id: nat)
    requires WellFormed(p) && IsRun(p, run, events) && k <= |events| && IsReduceTask(run[k], id)
    ensures exists j :: 0 <= j < k && AllMapsFinished(p, run[j])
  {
    JobHolds(p, run, events, k);
    assert TaskOk(p, id, run[k].master.tasks[id]);
    PhaseBarrierHolds(p, run, events, k);
  }

  /** When the job reports done, the output files hold exactly the lines that the sequential program prints for
      the same input, each key in one file and once, whatever crashed, was retried or ran twice on the way. */
  lemma JobEqualsSequential(p: Program, run: seq<State>, events: seq<Event>, k: nat, sorted: seq<KeyValue>)
    requires WellFormed(p) && IsRun(p, run, events) && k <= |events| && run[k].master.done
    requires OrderFree(p.reducef) && SortOf(Flatten(Mapped(p)), sorted)
    ensures multiset(Flatten(Output(p, run[k]))) == multiset(Groups(sorted, p.reducef))
    ensures DistinctKeys(Flatten(Output(p, run[k])))
    ensures p.files != [] ==> forall b: nat :: b < p.n ==> b in run[k].outs
    ensures forall b: nat, line: Line :: b < p.n && line in Output(p, run[k])[b] ==> p.hash(line.key) % p.n == b
    ensures forall b: nat :: b < p.n ==> Ascending(Output(p, run[k])[b])
  {
    JobHolds(p, run, events, k);
    var c := run[k];
    var parts := Parts(p, c);
    assert BucketsReduced(Output(p, c), parts, sorted, p.hash, p.n, p.reducef);
    BucketsEquivalent(Output(p, c), parts, sorted, p.hash, p.n, p.reducef);
  }

  /** What each output file was made from. */
  lemma Parts(p: Program, c: State) returns (parts: seq<seq<KeyValue>>)
    requires p.n >= 1 && OutsOk(p, c) && c.master.done
    ensures |parts| == p.n && AllMade(p, c, parts)
  {
    parts := [];
    for b := 0 to p.n
      invariant |parts| == b && AllMade(p, c, parts)
    {
      var part := PartOf(p, c, b);
      OneMoreMade(p, c, parts, part);
      parts := parts + [part];
    }
  }

  ghost predicate AllMade(p: Program, c: State, parts: seq<seq<KeyValue>>)
    requires p.n >= 1
  {
    |parts| <= p.n && forall b: nat :: b < |parts| ==> MadeFrom(p, c, b, parts[b])
  }

  lemma OneMoreMade(p: Program, c: State, parts: seq<seq<KeyValue>>, part: seq<KeyValue>)
    requires p.n >= 1 && |parts| < p.n && AllMade(p, c, parts) && MadeFrom(p, c, |parts|, part)
    ensures AllMade(p, c, parts + [part])
  {
    var more := parts + [part];
    forall b: nat | b < |more| ensures MadeFrom(p, c, b, more[b]) {
      if b < |parts| { assert more[b] == parts[b]; } else { assert more[b] == part; }
    }
  }

  ghost predicate MadeFrom(p: Program, c: State, b: nat, part: seq<KeyValue>)
    requires p.n >= 1 && b < p.n
  {
    && Sorted(part) && IsBucket(part, Flatten(Mapped(p)), p.hash, p.n, b)
    && Output(p, c)[b] == Groups(part, p.reducef)
  }

  lemma PartOf(p: Program, c: State, b: nat) returns (part: seq<KeyValue>)
    requires p.n >= 1 && OutsOk(p, c) && c.master.done && b < p.n
    ensures MadeFrom(p, c, b, part)
  {
    if b in c.outs {
      assert OutOk(p, b, c.outs[b]);
      part :| Sorted(part) && IsBucket(part, Flatten(Mapped(p)), p.hash, p.n, b)
              && c.outs[b] == Groups(part, p.reducef);
    } else {
      assert p.files == [] && Flatten(Mapped(p)) == [];
      part := [];
    }
  }
}
