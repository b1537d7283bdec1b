/** The master's task table and schedule (lab1_mapreduce/mr/master.go). */
module Master {
  import opened Options

  datatype Phase = MapPhase | ReducePhase

  datatype TaskState = Queued | Sending | Running | Finished | Failed

  /** What a task works on: an input file, or the files mr-*-bucket. */
  datatype Name = Input(file: string) | Pattern(bucket: nat)

  /** `beat` is the time of the last sign of life. */
  datatype Task = Task(worker: nat, id: nat, nReduce: nat, phase: Phase, name: Name, state: TaskState,
                       beat: nat)

  /** How far schedule() has come: names handed over so far, and whether its checks have passed.
      Reduces(nReduce) is the moment from which the channel is closed. */
  datatype Stage = Maps(sent: nat) | MapsDone | Reduces(sent: nat) | ReducesDone

  datatype MasterState = MasterState(
    phase: Phase,
    done: bool,
    taskSeq: nat,
    tasks: map<nat, Task>,
    files: seq<string>,
    nReduce: nat,
    stage: Stage)

  /** Task numbers are uint32 and wrap around. */
  const ID_LIMIT: nat := 0x1_0000_0000

  /** MakeMaster, and the first lines of schedule. */
  function Fresh(files: seq<string>, nReduce: nat): MasterState {
    MasterState(MapPhase, files == [], 0, map[], files, nReduce, Maps(0))
  }

  function NextID(m: MasterState): nat {
    (m.taskSeq + 1) % ID_LIMIT
  }

  /** The name that schedule() is about to hand over, if it is sending. */
  function Offered(m: MasterState): Option<Name> {
    match m.stage
    case Maps(k) => if k < |m.files| then Some(Input(m.files[k])) else None
    case Reduces(k) => if k < m.nReduce then Some(Pattern(k)) else None
    case _ => None
  }

  function Sent(m: MasterState): Stage {
    match m.stage
    case Maps(k) => Maps(k + 1)
    case Reduces(k) => Reduces(k + 1)
    case s => s
  }

  /** GetTask, a name received: a new task under a new number, stored before anything else happens. */
  function GiveNew(m: MasterState, worker: nat, now: nat): MasterState
    requires Offered(m).Some?
  {
    var id := NextID(m);
    m.(taskSeq := id, stage := Sent(m),
    tasks := m.tasks[id := Task(worker, id, m.nReduce, m.phase, Offered(m).value, Sending, now)])
  }

  /** GetTask, a failed task found: it goes out again under its number and name. */
  function GiveAgain(m: MasterState, worker: nat, id: nat, now: nat): MasterState
    requires id in m.tasks
  {
    m.(tasks := m.tasks[id := m.tasks[id].(worker := worker, state := Sending, beat := now)])
  }

  function SetState(m: MasterState, id: nat, s: TaskState, now: nat): MasterState {
    if id in m.tasks then m.(tasks := m.tasks[id := m.tasks[id].(state := s, beat := now)]) else m
  }

  /** WorkerHeartBeat. */
  function Beat(m: MasterState, id: nat, now: nat): MasterState {
    if id != 0 && id in m.tasks then m.(tasks := m.tasks[id := m.tasks[id].(beat := now)]) else m
  }

  ghost predicate AllFinished(m: MasterState) {
    forall id :: id in m.tasks ==> m.tasks[id].state == Finished
  }

  ghost predicate AnyFailed(m: MasterState) {
    exists id :: id in m.tasks && m.tasks[id].state == Failed
  }

  /** The channel is closed once the last bucket is handed over. */
  ghost predicate Closed(m: MasterState) {
    m.stage == Reduces(m.nReduce) || m.stage == ReducesDone
  }

  /** The failed task `id` went out again: marked as sent, to this worker, now, and otherwise as it was. */
  ghost predicate SentAgain(tasks: map<nat, Task>, tasks': map<nat, Task>, id: nat, worker: nat, now: nat,
                            reply: Option<Task>)
  {
    && id in tasks && tasks[id].state == Failed
    && reply == Some(Task(worker, id, tasks[id].nReduce, tasks[id].phase, tasks[id].name, Sending, now))
    && tasks' == tasks[id := reply.value]
  }

  ghost predicate Distinct(s: seq<nat>) {
    forall i, j :: 0 <= i < j < |s| ==> s[i] != s[j]
  }

  /** A worker has a task among `over` that gave no sign of life for more than ten seconds. */
  ghost predicate Abandoned(tasks: map<nat, Task>, over: set<nat>, now: nat, worker: nat) {
    exists id :: id in over && id in tasks && now - tasks[id].beat > 10 && tasks[id].worker == worker
  }

  /** The Master object. */
  class Server {
    var phase: Phase
    var done: bool
    var taskSeq: nat
    var tasks: map<nat, Task>
    const files: seq<string>
    const nReduce: nat
    var workerIDs: seq<nat>
    ghost var stage: Stage

    /** The task table and the schedule; the pool of worker numbers is beside it. */
    ghost function View(): MasterState
      reads this
    {
      MasterState(phase, done, taskSeq, tasks, files, nReduce, stage)
    }

    /** Tasks are filed under their numbers, and a free worker number is free once. */
    ghost predicate Valid()
      reads this
    {
      (forall id :: id in tasks ==> tasks[id].id == id) && Distinct(workerIDs)
    }

    constructor (files: seq<string>, nReduce: nat)
      ensures Valid() && View() == Fresh(files, nReduce)
      ensures this.files == files && this.nReduce == nReduce && phase == MapPhase && taskSeq == 0 && tasks == map[]
      ensures done <==> files == []
      ensures forall w :: w in workerIDs <==> 1 <= w <= 10
    {
      workerIDs := seq(10, i => i + 1);
      this.files, this.nReduce := files, nReduce;
      phase, taskSeq, tasks := MapPhase, 0, map[];
      done := |files| == 0;
      stage := Maps(0);
      new;
      forall w | 1 <= w <= 10 ensures w in workerIDs { assert workerIDs[w - 1] == w; }
    }

    method GenTaskID() returns (id: nat)
      modifies this
      ensures id == (old(taskSeq) + 1) % 0x1_0000_0000
      ensures View() == old(View()).(taskSeq := id) && workerIDs == old(workerIDs)
    {
      taskSeq := (taskSeq + 1) % ID_LIMIT;
      id := taskSeq;
    }

    /** isTasksDone: the walk over the table stops at the first task that is not finished. */
    method IsTasksDone() returns (all: bool)
      ensures all <==> forall id :: id in tasks ==> tasks[id].state == Finished
      ensures all <==> AllFinished(View())
    {
      all := true;
      var rest := tasks.Keys;
      while rest != {}
        invariant rest <= tasks.Keys
        invariant all && forall id :: id in tasks && id !in rest ==> tasks[id].state == Finished
        decreases |rest|
      {
        var id :| id in rest;
        if tasks[id].state != Finished {
          all := false;
          return;
        }
        rest := rest - {id};
      }
    }

    /** GetTask: a failed task goes out first, whichever the walk over the table meets; otherwise `file` is what
        the channel yields, and nothing only once it is closed. What goes out is on record as sent. */
    method GetTask(worker: nat, file: Option<Name>, now: nat) returns (reply: Option<Task>)
      requires Valid()
      requires AnyFailed(View()) || file == Offered(View())
      requires AnyFailed(View()) || file.Some? || Closed(View())
      modifies this
      ensures Valid() && workerIDs == old(workerIDs)
      ensures reply.Some? ==>
                && reply.value.state == Sending && reply.value.worker == worker && reply.value.beat == now
                && reply.value.id in tasks && tasks[reply.value.id] == reply.value
      ensures old(AnyFailed(View())) ==>
                exists id ::
                  && SentAgain(old(tasks), tasks, id, worker, now, reply)
                  && View() == GiveAgain(old(View()), worker, id, now)
      ensures !old(AnyFailed(View())) && file.Some? ==>
                && taskSeq == (old(taskSeq) + 1) % 0x1_0000_0000
                && reply == Some(Task(worker, taskSeq, nReduce, phase, file.value, Sending, now))
                && tasks == old(tasks)[taskSeq := reply.value]
                && View() == GiveNew(old(View()), worker, now)
      ensures !old(AnyFailed(View())) && file.None? ==> View() == old(View()) && reply == None
    {
      ghost var before := View();
      var rest := tasks.Keys;
      while rest != {}
        invariant rest <= tasks.Keys && View() == before && Valid() && workerIDs == old(workerIDs)
        invariant forall id :: id in tasks && id !in rest ==> tasks[id].state != Failed
        decreases |rest|
      {
        var id :| id in rest;
        if tasks[id].state == Failed {
          var was := tasks[id];
          var task := Task(worker, was.id, was.nReduce, was.phase, was.name, Sending, now);
          tasks := tasks[id := task];
          reply := Some(task);
          assert SentAgain(before.tasks, tasks, id, worker, now, reply);
          assert View() == GiveAgain(before, worker, id, now);
          return;
        }
        rest := rest - {id};
      }
      match file
      case None => reply := None;
      case Some(name) =>
        var id := GenTaskID();
        var task := Task(worker, id, nReduce, phase, name, Sending, now);
        tasks := tasks[id := task];
        stage := Sent(before);
        reply := Some(task);
    }

    method SetTaskState(id: nat, s: TaskState, now: nat) returns (ok: bool)
      requires Valid()
      modifies this
      ensures Valid() && workerIDs == old(workerIDs)
      ensures ok <==> id in old(tasks)
      ensures ok ==> tasks == old(tasks)[id := old(tasks[id]).(state := s, beat := now)]
      ensures !ok ==> tasks == old(tasks)
      ensures View() == SetState(old(View()), id, s, now)
    {
      if id !in tasks { return false; }
      tasks := tasks[id := tasks[id].(state := s, beat := now)];
      ok := true;
    }

    /** A sign of life; a worker without a task reports number 0. */
    method WorkerHeartBeat(id: nat, now: nat) returns (ok: bool)
      requires Valid()
      modifies this
      ensures Valid() && workerIDs == old(workerIDs)
      ensures ok <==> id == 0 || id in old(tasks)
      ensures id != 0 && id in old(tasks) ==> tasks == old(tasks)[id := old(tasks[id]).(beat := now)]
      ensures id == 0 || id !in old(tasks) ==> tasks == old(tasks)
      ensures View() == Beat(old(View()), id, now)
    {
      if id == 0 { return true; }
      if id !in tasks { return false; }
      tasks := tasks[id := tasks[id].(beat := now)];
      ok := true;
    }

    /** getWorkerID: the first free number, or none. */
    method GetWorkerID() returns (id: Option<nat>)
      requires Valid()
      modifies this
      ensures Valid() && View() == old(View())
      ensures id.None? <==> old(workerIDs) == []
      ensures id.None? ==> workerIDs == []
      ensures id.Some? ==> old(workerIDs) == [id.value] + workerIDs && id.value !in workerIDs
    {
      if |workerIDs| == 0 { return None; }
      id := Some(workerIDs[0]);
      workerIDs := workerIDs[1..];
    }

    /** putWorkerID: a number that is free already is not put back twice. */
    method PutWorkerID(id: nat)
      requires Valid()
      modifies this
      ensures Valid() && View() == old(View())
      ensures forall w :: w in workerIDs <==> w in old(workerIDs) || w == id
    {
      if id in workerIDs { return; }
      workerIDs := workerIDs + [id];
    }

    /** What handleHeartbeat does with one task. */
    method CheckTask(id: nat, now: nat)
      requires Valid() && id in tasks
      modifies this
      ensures Valid() && View() == old(View()).(tasks := tasks)
      ensures now - old(tasks[id].beat) > 10 && old(tasks[id].state) != Finished ==>
                tasks == old(tasks)[id := old(tasks[id]).(state := Failed, beat := now)]
      ensures now - old(tasks[id].beat) <= 10 || old(tasks[id].state) == Finished ==> tasks == old(tasks)
      ensures forall w :: w in workerIDs <==>
                            w in old(workerIDs) || (now - old(tasks[id].beat) > 10 && w == old(tasks[id].worker))
    {
      var task := tasks[id];
      if now - task.beat > 10 {
        if task.state != Finished {
          var _ := SetTaskState(id, Failed, now);
        }
        PutWorkerID(task.worker);
      }
    }

    /** One round of handleHeartbeat: tasks without a sign of life for more than ten seconds fail, unless they are
        finished, and the numbers of the workers that had them are free again. */
    method HandleHeartbeat(now: nat)
      requires Valid()
      modifies this
      ensures Valid() && View() == old(View()).(tasks := tasks) && tasks.Keys == old(tasks.Keys)
      ensures forall id :: id in tasks && now - old(tasks[id].beat) > 10 && old(tasks[id].state) != Finished ==>
                             tasks[id] == old(tasks[id]).(state := Failed, beat := now)
      ensures forall id :: id in tasks && (now - old(tasks[id].beat) <= 10 || old(tasks[id].state) == Finished) ==>
                             tasks[id] == old(tasks[id])
      ensures forall w :: w in workerIDs <==> w in old(workerIDs) || Abandoned(old(tasks), old(tasks.Keys), now, w)
    {
      var rest := tasks.Keys;
      while rest != {}
        invariant Valid() && View() == old(View()).(tasks := tasks) && AllChecked(old(tasks), tasks, rest, now)
        invariant forall w :: w in workerIDs <==>
                                w in old(workerIDs) || Abandoned(old(tasks), old(tasks.Keys) - rest, now, w)
        decreases |rest|
      {
        var id :| id in rest;
        ghost var before := tasks;
        CheckTask(id, now);
        CheckedTask(old(tasks), before, tasks, rest, id, now);
        OneMoreChecked(old(tasks), old(tasks.Keys) - rest, id, now);
        assert old(tasks.Keys) - (rest - {id}) == old(tasks.Keys) - rest + {id};
        rest := rest - {id};
      }
    }
  }

  /** All tasks but those in `rest` have been checked. */
  ghost predicate AllChecked(before: map<nat, Task>, after: map<nat, Task>, rest: set<nat>, now: nat) {
    && rest <= after.Keys && after.Keys == before.Keys
    && forall id :: id in before ==>
                      if id in rest then after[id] == before[id] else CheckedOk(before[id], after[id], now)
  }

  lemma CheckedTask(first: map<nat, Task>, before: map<nat, Task>, after: map<nat, Task>, rest: set<nat>, id: nat,
                    now: nat)
    requires AllChecked(first, before, rest, now) && id in rest && id in after
    requires after == before[id := after[id]] && CheckedOk(before[id], after[id], now)
    ensures AllChecked(first, after, rest - {id}, now)
  {
  }

  ghost predicate CheckedOk(t: Task, u: Task, now: nat) {
    u == if now - t.beat > 10 && t.state != Finished then t.(state := Failed, beat := now) else t
  }

  lemma OneMoreChecked(tasks: map<nat, Task>, over: set<nat>, id: nat, now: nat)
    requires id in tasks
    ensures forall w :: Abandoned(tasks, over + {id}, now, w) <==>
                          Abandoned(tasks, over, now, w) || (now - tasks[id].beat > 10 && tasks[id].worker == w)
  {
    forall w | Abandoned(tasks, over, now, w) ensures Abandoned(tasks, over + {id}, now, w) {
      var x :| x in over && x in tasks && now - tasks[x].beat > 10 && tasks[x].worker == w;
      assert x in over + {id};
    }
  }

  /** MakeMaster refuses a job without buckets. */
  method MakeMaster(files: seq<string>, nReduce: int) returns (m: Option<Server>)
    ensures nReduce <= 0 ==> m == None
    ensures nReduce > 0 ==>
              && m.Some? && fresh(m.value) && m.value.Valid() && m.value.View() == Fresh(files, nReduce)
              && m.value.files == files && m.value.nReduce == nReduce
  {
    if nReduce <= 0 { return None; }
    var server := new Server(files, nReduce);
    m := Some(server);
  }
}
