/** A run in which a slot leaks: a client reserves a task's output id, the worker completes the task with the same
    metadata, the client commits, and the reaper later drops the record. */
module LeakExample {
  import opened Types
  import opened Resources
  import opened Model
  import R = Runs
  import A = ArenaModel
  import opened Agreement
  import opened Leaks

  const OPERATION: OperationKey := OperationKey(Name("a"), Name("b"), 1)
  const DESCRIPTOR: OperationDescriptor := OperationDescriptor(OPERATION, RawBytes, RawBytes, 0)
  const ADDRESS: Name := Name("w:1")
  const IDENTITY: WorkerIdentity := WorkerIdentity(1, 1, 1, 0)
  const OUTPUT: ObjectId := 2
  const CHECKSUM: Digest := 5
  const FENCE: TaskFence := TaskFence(1, 1, 7)
  const REPORT: TaskCompletion := TaskCompletion(FENCE, OUTPUT, RawBytes, 0, CHECKSUM, ADDRESS, None)
  const LATER: int := 1 + TERMINAL_TASK_TTL_MS

  function TheWorker(free: int): Worker
  {
    Worker(IDENTITY, Alive, ADDRESS, map[], map[], 1, free, map[OPERATION := DESCRIPTOR], 1_000_000_000)
  }

  function TheTask(attempt: int, state: TaskState, holder: Option<Assignment>, since: int): Task
  {
    Task(OPERATION, [], OUTPUT, map[], 1, attempt, state, holder, 0, since)
  }

  function TheState(revision: int, free: int, tasks: map<TaskId, Task>, objects: map<ObjectId, ObjectRecord>,
                    runnable: seq<TaskId>, born: map<TaskId, int>): State
  {
    State(0, revision, map[1 := TheWorker(free)], tasks, objects, map[OPERATION := DESCRIPTOR], map[], runnable,
          {}, {}, born)
  }

  const RESERVED: ObjectRecord := ObjectRecord(Reserved, Some(RawBytes), None, None, None, None, None)
  const DONE: ObjectRecord :=
    ObjectRecord(Available, Some(RawBytes), None, Some(0), Some(CHECKSUM), Some(ADDRESS), Some(1))

  const REGISTERED: State := TheState(1, 1, map[], map[], [], map[])
  const SUBMITTED: State :=
    TheState(2, 1, map[1 := TheTask(0, Runnable, None, 0)], map[OUTPUT := RESERVED], [1], map[1 := 0])
  const ASSIGNED: State :=
    TheState(3, 0, map[1 := TheTask(1, Assigned, Some(Assignment(1, 1, 1, 7)), 0)], map[OUTPUT := RESERVED], [],
             map[1 := 0])
  const COMPLETED: State :=
    TheState(4, 1, map[1 := TheTask(1, Succeeded, None, 0)], map[OUTPUT := DONE], [], map[1 := 0])
  const STAMPED: State :=
    TheState(4, 1, map[1 := TheTask(1, Succeeded, None, 1)], map[OUTPUT := DONE], [], map[1 := 0])

  // ---------------------------------------------------------------- the coordinator's steps

  lemma Registers(h: Bytes -> Digest)
    ensures var register := R.DoRegister(RegisterWorker(1, 1, ADDRESS, map[], 1, [DESCRIPTOR]), true, 1, 0,
                                         1_000_000_000);
      R.Legal(Init(0), h, register) && R.Next(Init(0), h, register) == REGISTERED
  {
    assert [DESCRIPTOR][..0] == [];
    assert CollectOperations(map[], [DESCRIPTOR]) == Ok(map[OPERATION := DESCRIPTOR]);
  }

  lemma Submits(h: Bytes -> Digest)
    ensures R.Legal(REGISTERED, h, R.DoSubmit(OPERATION, [], map[], 1, 1, OUTPUT))
    ensures R.Next(REGISTERED, h, R.DoSubmit(OPERATION, [], map[], 1, 1, OUTPUT)) == SUBMITTED
  {
    assert 1 in REGISTERED.workers;
    assert SomeWorkerFits(REGISTERED, OPERATION, map[]);
  }

  lemma Assigns(h: Bytes -> Digest)
    ensures R.Legal(SUBMITTED, h, R.DoAssign(1, 0, 7)) && R.Next(SUBMITTED, h, R.DoAssign(1, 0, 7)) == ASSIGNED
  {
    var s := SUBMITTED;
    var w := s.workers[1];
    var first := Scan(0, [], [], None);
    var second := ScanEntry(s, 1, w, 0, first);
    assert Deps(s.tasks[1]) == {};
    assert second == Scan(1, [1], [], None);
    assert FullScan(s, 1, w, 0) == ScanQueue(s, 1, w, 0, second) == second;
    assert QueueAfter(s, second) == [];
    assert Minus(map[], map[]) == map[];
  }

  /** With nobody waiting there is nothing to reconcile. */
  lemma NothingToSettle(s: State)
    requires s.waiting == {}
    ensures Ready(s) == {} && Settle(s, []) == s
  {
    var s' := Settle(s, []);
    assert Doomed(s) == {} && Ready(s) == {};
    assert OutputsOf(s.tasks, {}) == {};
    assert s'.tasks.Keys == s.tasks.Keys && s'.objects.Keys == s.objects.Keys;
    assert forall t :: t in s.tasks ==> s'.tasks[t] == s.tasks[t];
    assert s'.tasks == s.tasks && s'.objects == s.objects;
  }

  lemma CompletesTo(h: Bytes -> Digest)
    ensures CompleteVerdict(ASSIGNED, h, IDENTITY, REPORT).Apply?
    ensures CompleteMid(ASSIGNED, IDENTITY, REPORT) == COMPLETED.(revision := 3)
  {
    assert Plus(map[], map[], map[]) == map[];
  }

  lemma Completes(h: Bytes -> Digest)
    ensures R.Legal(ASSIGNED, h, R.DoComplete(IDENTITY, REPORT, []))
    ensures R.Next(ASSIGNED, h, R.DoComplete(IDENTITY, REPORT, [])) == COMPLETED
  {
    hide CompleteVerdict, CompleteMid, Settle, Ready;
    CompletesTo(h);
    NothingToSettle(COMPLETED.(revision := 3));
    assert Elements<TaskId>([]) == {};
  }

  lemma Stamps(h: Bytes -> Digest)
    ensures R.Legal(COMPLETED, h, R.DoReap(1, []))
    ensures R.Next(COMPLETED, h, R.DoReap(1, [])) == STAMPED
  {
    var s' := Stamp(COMPLETED, 1);
    assert s'.tasks == STAMPED.tasks;
    assert DueTasks(s', 1) == {};
    assert DueOutputs(s', 1) == {} == Elements<ObjectId>([]);
  }

  lemma Drops(h: Bytes -> Digest)
    ensures R.Legal(STAMPED, h, R.DoReap(LATER, [OUTPUT]))
    ensures OUTPUT in DueOutputs(Stamp(STAMPED, LATER), LATER)
  {
    var s' := Stamp(STAMPED, LATER);
    assert s'.tasks == STAMPED.tasks;
    assert !InUse(s', OUTPUT);
    assert DueTasks(s', LATER) == {1};
    assert DueOutputs(s', LATER) == {OUTPUT} == Elements([OUTPUT]);
  }

  // ---------------------------------------------------------------- the arena's steps

  function Granted(mem: Bytes): A.Arena
  {
    A.Arena(8, map[], map[OUTPUT := A.NewEntry(0, 0, RawBytes, CHECKSUM, A.Direct, 0, 1)], mem, map[0 := 8], {1})
  }

  function Committed(mem: Bytes): A.Arena
  {
    A.Commit(Granted(mem), OUTPUT, 1).arena
  }

  lemma Reserves(mem: Bytes)
    ensures IsOrder([], A.ExpiredIds(A.Fresh(mem), 0))
    ensures A.Reserve(A.Fresh(mem), OUTPUT, 0, RawBytes, CHECKSUM, A.Direct, 0, 1, []).arena == Granted(mem)
  {
    assert A.SlotFor(0) == 8;
    assert A.ExpiredIds(A.Fresh(mem), 0) == {} == Elements<ObjectId>([]);
  }

  lemma Commits(mem: Bytes)
    ensures CommitEvent(Cluster(COMPLETED, Granted(mem)), OUTPUT, 1) == Cluster(COMPLETED, Committed(mem))
    ensures CommittedIn(Committed(mem), OUTPUT)
  {
  }

  // ---------------------------------------------------------------- the run

  lemma RunExtends(h: Bytes -> Digest, clusters: seq<Cluster>, events: seq<Event>, e: Event, c: Cluster)
    requires IsRun(h, clusters, events)
    requires LegalEvent(clusters[|events|], h, e) && c == Handle(clusters[|events|], h, e)
    ensures IsRun(h, clusters + [c], events + [e])
  {
    hide LegalEvent, Handle;
    var clusters', events' := clusters + [c], events + [e];
    forall k: nat | k < |events'| ensures StepAt(h, clusters', events', k) {
      if k < |events| {
        assert StepAt(h, clusters, events, k);
        assert clusters'[k] == clusters[k] && clusters'[k + 1] == clusters[k + 1] && events'[k] == events[k];
      }
    }
  }

  /** One more step of the coordinator alone. */
  lemma Advance(h: Bytes -> Digest, clusters: seq<Cluster>, events: seq<Event>, a: R.Action, s': State)
    requires IsRun(h, clusters, events) && StateOnly(a)
    requires R.Legal(clusters[|events|].state, h, a) && R.Next(clusters[|events|].state, h, a) == s'
    ensures IsRun(h, clusters + [Cluster(s', clusters[|events|].arena)], events + [Coordinate(a)])
  {
    hide StepAt, R.Legal, R.Next;
    RunExtends(h, clusters, events, Coordinate(a), Cluster(s', clusters[|events|].arena));
  }

  /** Up to the completion of the task, with the client's reservation in between. */
  lemma RunToCompletion(h: Bytes -> Digest, mem: Bytes) returns (clusters: seq<Cluster>, events: seq<Event>)
    requires |mem| == A.ARENA_BYTES
    ensures IsRun(h, clusters, events) && clusters[|events|] == Cluster(COMPLETED, Granted(mem))
  {
    hide R.Legal, R.Next, A.Reserve, LegalEvent, Handle;
    var empty := A.Fresh(mem);
    clusters, events := [Cluster(Init(0), empty)], [];
    var register := R.DoRegister(RegisterWorker(1, 1, ADDRESS, map[], 1, [DESCRIPTOR]), true, 1, 0, 1_000_000_000);
    Registers(h);
    Advance(h, clusters, events, register, REGISTERED);
    clusters, events := clusters + [Cluster(REGISTERED, empty)], events + [Coordinate(register)];
    Submits(h);
    var submit := R.DoSubmit(OPERATION, [], map[], 1, 1, OUTPUT);
    Advance(h, clusters, events, submit, SUBMITTED);
    clusters, events := clusters + [Cluster(SUBMITTED, empty)], events + [Coordinate(submit)];
    var reserve := ReserveArena(OUTPUT, RawBytes, 0, CHECKSUM, A.Direct, 0, 1, []);
    ReservesOutput(h, mem);
    RunExtends(h, clusters, events, reserve, Cluster(SUBMITTED, Granted(mem)));
    clusters, events := clusters + [Cluster(SUBMITTED, Granted(mem))], events + [reserve];
    Assigns(h);
    Advance(h, clusters, events, R.DoAssign(1, 0, 7), ASSIGNED);
    clusters, events := clusters + [Cluster(ASSIGNED, Granted(mem))], events + [Coordinate(R.DoAssign(1, 0, 7))];
    Completes(h);
    var complete := R.DoComplete(IDENTITY, REPORT, []);
    Advance(h, clusters, events, complete, COMPLETED);
    clusters, events := clusters + [Cluster(COMPLETED, Granted(mem))], events + [Coordinate(complete)];
  }

  lemma ReservesOutput(h: Bytes -> Digest, mem: Bytes)
    ensures var reserve := ReserveArena(OUTPUT, RawBytes, 0, CHECKSUM, A.Direct, 0, 1, []);
      && LegalEvent(Cluster(SUBMITTED, A.Fresh(mem)), h, reserve)
      && Handle(Cluster(SUBMITTED, A.Fresh(mem)), h, reserve) == Cluster(SUBMITTED, Granted(mem))
  {
    Reserves(mem);
    assert Resolve(SUBMITTED, OUTPUT) == Err(ObjectPending(OUTPUT));
  }

  /** The last step of this run drops the record of a committed object, whose slot then has no record. */
  lemma LeakReached(h: Bytes -> Digest, mem: Bytes) returns (clusters: seq<Cluster>, events: seq<Event>)
    requires |mem| == A.ARENA_BYTES
    ensures IsRun(h, clusters, events) && |events| > 0
    ensures NoLeak(clusters[|events| - 1]) && !NoLeak(clusters[|events|])
  {
    hide R.Legal, R.Next, A.Reserve, LegalEvent, Handle, NoLeak, Stamp, DueOutputs, CommitEvent, Strands;
    clusters, events := RunToCompletion(h, mem);
    CommitsOutput(h, mem);
    RunExtends(h, clusters, events, CommitArena(OUTPUT, 1), Cluster(COMPLETED, Committed(mem)));
    clusters, events := clusters + [Cluster(COMPLETED, Committed(mem))], events + [CommitArena(OUTPUT, 1)];
    Stamps(h);
    Advance(h, clusters, events, R.DoReap(1, []), STAMPED);
    clusters, events := clusters + [Cluster(STAMPED, Committed(mem))], events + [Coordinate(R.DoReap(1, []))];
    RecordedSoFar(mem);
    RunAgrees(h, clusters, events, |events|);
    Drops(h);
    var reap := Coordinate(R.DoReap(LATER, [OUTPUT]));
    var last := Cluster(R.Next(STAMPED, h, reap.action), Committed(mem));
    DropStrands(h, mem, reap);
    Advance(h, clusters, events, reap.action, last.state);
    HandleLeaksIff(clusters[|events|], h, reap, last);
    clusters, events := clusters + [last], events + [reap];
  }

  lemma CommitsOutput(h: Bytes -> Digest, mem: Bytes)
    ensures LegalEvent(Cluster(COMPLETED, Granted(mem)), h, CommitArena(OUTPUT, 1))
    ensures Handle(Cluster(COMPLETED, Granted(mem)), h, CommitArena(OUTPUT, 1)) == Cluster(COMPLETED, Committed(mem))
  {
    Commits(mem);
  }

  lemma RecordedSoFar(mem: Bytes)
    ensures NoLeak(Cluster(STAMPED, Committed(mem)))
  {
  }

  lemma DropStrands(h: Bytes -> Digest, mem: Bytes, e: Event)
    requires e == Coordinate(R.DoReap(LATER, [OUTPUT]))
    ensures Strands(Cluster(STAMPED, Committed(mem)), e) && LegalEvent(Cluster(STAMPED, Committed(mem)), h, e)
    ensures Handle(Cluster(STAMPED, Committed(mem)), h, e) == Cluster(R.Next(STAMPED, h, e.action), Committed(mem))
  {
    hide R.Legal, R.Next, Stamp, DueOutputs;
    Drops(h);
    Commits(mem);
  }
}
