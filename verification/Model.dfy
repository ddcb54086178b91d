/** The coordinator's state as one value, and each transition as a function of it.

    Three things a transition cannot compute are arguments: freshly drawn ids, the
    clock, and the order in which a hash table is visited.
 */
module Model {
  import opened Types
  import opened Resources

  const MAX_TASKS: nat := 16_384
  const MAX_OBJECTS: nat := 65_536
  const RETRY_BACKOFF_BASE_MS: nat := 100
  const RETRY_BACKOFF_CAP_MS: nat := 30_000
  const TERMINAL_TASK_TTL_MS: nat := 600_000
  const LOCALITY_LOOKAHEAD: nat := 16
  const MAX_OPERATION_COMPONENT_BYTES: nat := 128
  const MAX_INLINE_ARG_BYTES: nat := 64 * 1024

  // ---------------------------------------------------------------- records

  datatype WorkerState = Alive | Draining | Dead

  datatype Worker = Worker(
    identity: WorkerIdentity,
    state: WorkerState,
    addr: Name,
    total: ResourceSet,
    available: ResourceSet,
    slots: int,
    freeSlots: int,
    operations: map<OperationKey, OperationDescriptor>,
    leaseDeadline: int)

  datatype TaskState =
    | Waiting
    | Runnable
    | Assigned
    | Running
    | CancelRequested
    | Succeeded
    | Failed(message: string)
    | Cancelled
  {
    predicate Terminal() { Succeeded? || Failed? || Cancelled? }
    predicate InFlight() { Assigned? || Running? || CancelRequested? }
  }

  datatype Assignment = Assignment(node: NodeId, workerEpoch: Epoch, session: SessionId, lease: LeaseId)

  datatype Task = Task(
    operation: OperationKey,
    args: seq<TaskArg>,
    output: ObjectId,
    resources: ResourceSet,
    maxAttempts: int,
    attempt: int,
    state: TaskState,
    holder: Option<Assignment>,
    notBefore: int,
    terminalSince: int)

  datatype ObjectState = Reserved | Available | ProducerFailed | ProducerCancelled | Lost

  datatype ObjectRecord = ObjectRecord(
    state: ObjectState,
    codec: Option<Codec>,
    bytes: Option<Bytes>,
    size: Option<int>,
    checksum: Option<Digest>,
    location: Option<Name>,
    owner: Option<NodeId>)

  /** `born` is history the program does not keep: every task id ever issued, with its submission rank. */
  datatype State = State(
    epoch: Epoch,
    revision: int,
    workers: map<NodeId, Worker>,
    tasks: map<TaskId, Task>,
    objects: map<ObjectId, ObjectRecord>,
    operations: map<OperationKey, OperationDescriptor>,
    pendingDeletes: map<NodeId, seq<ObjectId>>,
    runnable: seq<TaskId>,
    waiting: set<TaskId>,
    cancelRequested: set<TaskId>,
    born: map<TaskId, int>)

  datatype RegisterWorker = RegisterWorker(
    node: NodeId,
    workerEpoch: Epoch,
    addr: Name,
    resources: ResourceSet,
    slots: nat,
    operations: seq<OperationDescriptor>)

  datatype TaskAssignment = TaskAssignment(
    fence: TaskFence,
    operation: OperationKey,
    args: seq<TaskArg>,
    output: ObjectId,
    resources: ResourceSet)

  datatype TaskCompletion = TaskCompletion(
    fence: TaskFence,
    output: ObjectId,
    codec: Codec,
    size: int,
    checksum: Digest,
    location: Name,
    bytes: Option<Bytes>)

  datatype ObjectPayload = ObjectPayload(
    id: ObjectId,
    codec: Codec,
    size: int,
    checksum: Digest,
    location: Name,
    bytes: Option<Bytes>)

  /** A transition's new state and what it answers. */
  datatype Outcome<+T> = Outcome(state: State, reply: Result<T>)

  /** What the checks in front of a worker report decide. */
  datatype Verdict = Reject(error: Error) | Duplicate | Apply

  const COORDINATOR: Name := Name("coordinator")

  function Init(epoch: Epoch): State
  {
    State(epoch, 0, map[], map[], map[], map[], map[], [], {}, {}, map[])
  }

  function Bump(s: State): State
  {
    s.(revision := s.revision + 1)
  }

  // ---------------------------------------------------------------- dependencies

  function Deps(task: Task): set<ObjectId>
  {
    set arg | arg in task.args && arg.ObjectArg? :: arg.id
  }

  /** A dependency that can never become available: gone, failed, cancelled or lost. */
  predicate Broken(s: State, o: ObjectId)
  {
    o !in s.objects || !(s.objects[o].state.Reserved? || s.objects[o].state.Available?)
  }

  predicate HasBroken(s: State, t: TaskId)
  {
    t in s.tasks && exists o :: o in Deps(s.tasks[t]) && Broken(s, o)
  }

  predicate IsAvailable(s: State, o: ObjectId)
  {
    o in s.objects && s.objects[o].state.Available?
  }

  predicate AllAvailable(s: State, t: TaskId)
  {
    t in s.tasks && forall o :: o in Deps(s.tasks[t]) ==> IsAvailable(s, o)
  }

  /** Task `u` produces an object that task `t` depends on. */
  predicate Feeds(s: State, u: TaskId, t: TaskId)
  {
    u in s.tasks && t in s.tasks && s.tasks[u].output in Deps(s.tasks[t])
  }

  /** A chain of waiting tasks, each fed by the next, ending at one with a broken dependency. */
  ghost predicate DoomChain(s: State, chain: seq<TaskId>)
  {
    && |chain| > 0
    && (forall i :: 0 <= i < |chain| ==> chain[i] in s.waiting)
    && (forall i :: 0 <= i < |chain| - 1 ==> Feeds(s, chain[i + 1], chain[i]))
    && HasBroken(s, chain[|chain| - 1])
  }

  ghost predicate IsDoomed(s: State, t: TaskId)
  {
    exists chain :: DoomChain(s, chain) && chain[0] == t
  }

  /** The waiting tasks that a broken dependency reaches, directly or through other waiting tasks. */
  ghost function Doomed(s: State): set<TaskId>
  {
    set t | t in s.waiting && IsDoomed(s, t)
  }

  /** The waiting tasks whose dependencies have all arrived. */
  function Ready(s: State): set<TaskId>
  {
    set t | t in s.waiting && AllAvailable(s, t)
  }

  const DEPENDENCY_FAILED: string := "dependency failed"

  function SettledTask(task: Task, doomed: bool, ready: bool): Task
  {
    if doomed then task.(state := TaskState.Failed(DEPENDENCY_FAILED))
    else if ready then task.(state := Runnable)
    else task
  }

  function OutputsOf(tasks: map<TaskId, Task>, ids: set<TaskId>): set<ObjectId>
  {
    set t | t in ids && t in tasks :: tasks[t].output
  }

  /** Fails the tasks in `failed` and makes those in `freed`, listed by `order`, runnable. */
  function SettleBy(s: State, failed: set<TaskId>, freed: set<TaskId>, order: seq<TaskId>): State
  {
    var lost := OutputsOf(s.tasks, failed);
    s.(tasks := map t | t in s.tasks :: SettledTask(s.tasks[t], t in failed, t in freed),
       objects := map o | o in s.objects ::
         if o in lost then s.objects[o].(state := ProducerFailed) else s.objects[o],
       waiting := s.waiting - failed - freed,
       runnable := s.runnable + order)
  }

  /** What `reconcile_dependencies` makes of `s`, whatever order it visits the blocked tasks in:
      `order` only decides in which order the freed tasks are queued. */
  ghost function Settle(s: State, order: seq<TaskId>): State
  {
    SettleBy(s, Doomed(s), Ready(s), order)
  }

  // ---------------------------------------------------------------- fencing

  predicate IdentityOk(s: State, i: WorkerIdentity)
  {
    && i.coordinatorEpoch == s.epoch
    && i.node in s.workers
    && var w := s.workers[i.node];
       !w.state.Dead? && w.identity.workerEpoch == i.workerEpoch && w.identity.session == i.session
  }

  predicate Holds(task: Task, i: WorkerIdentity, lease: LeaseId)
  {
    task.holder == Some(Assignment(i.node, i.workerEpoch, i.session, lease))
  }

  predicate FenceOk(s: State, i: WorkerIdentity, f: TaskFence)
  {
    && IdentityOk(s, i)
    && f.task in s.tasks
    && Holds(s.tasks[f.task], i, f.lease)
    && s.tasks[f.task].attempt == f.attempt
  }

  // ---------------------------------------------------------------- workers

  predicate ValidComponent(n: Name)
  {
    && 0 < |n.text| <= MAX_OPERATION_COMPONENT_BYTES
    && forall i :: 0 <= i < |n.text| ==>
         var c := n.text[i];
         'a' <= c <= 'z' || 'A' <= c <= 'Z' || '0' <= c <= '9' || c == '-' || c == '_' || c == '.'
  }

  function DescriptorError(d: OperationDescriptor): Option<Error>
  {
    if !ValidComponent(d.key.namespace) then Some(Protocol("invalid operation namespace"))
    else if !ValidComponent(d.key.name) then Some(Protocol("invalid operation name"))
    else if d.key.version == 0 then Some(Protocol("operation version must be positive"))
    else if d.maxInlineArgBytes > MAX_INLINE_ARG_BYTES then
      Some(Protocol("max inline argument size exceeds 65536 bytes"))
    else None
  }

  /** Collects a worker's operations, refusing an invalid or a conflicting descriptor. */
  function CollectOperations(known: map<OperationKey, OperationDescriptor>, ds: seq<OperationDescriptor>)
    : Result<map<OperationKey, OperationDescriptor>>
  {
    if ds == [] then Ok(map[]) else
      var last := ds[|ds| - 1];
      match CollectOperations(known, ds[..|ds| - 1])
      case Err(e) => Err(e)
      case Ok(found) =>
        var bad := DescriptorError(last);
        if bad.Some? then Err(bad.value)
        else if last.key in found && found[last.key] != last then Err(OperationConflict(last.key))
        else if last.key in known && known[last.key] != last then Err(OperationConflict(last.key))
        else Ok(found[last.key := last])
  }

  predicate SameRegistration(w: Worker, r: RegisterWorker, ops: map<OperationKey, OperationDescriptor>)
  {
    && w.identity.workerEpoch == r.workerEpoch && w.addr == r.addr && w.total == r.resources
    && w.slots == r.slots && w.operations == ops
  }

  /** The same worker registering again only renews its lease. */
  function Renewed(s: State, node: NodeId, now: int, leaseMs: int): State
    requires node in s.workers
  {
    Bump(s.(workers := s.workers[node := s.workers[node].(leaseDeadline := SatAdd(now, leaseMs))]))
  }

  /** A new worker starts with every slot and resource free. */
  function Joined(s: State, r: RegisterWorker, ops: map<OperationKey, OperationDescriptor>, session: SessionId,
                  now: int, leaseMs: int): State
  {
    var identity := WorkerIdentity(r.node, r.workerEpoch, session, s.epoch);
    var w := Worker(identity, Alive, r.addr, r.resources, r.resources, r.slots, r.slots, ops, SatAdd(now, leaseMs));
    Bump(s.(workers := s.workers[r.node := w], operations := s.operations + ops))
  }

  function Register(s: State, r: RegisterWorker, addrOk: bool, session: SessionId, now: int, leaseMs: int)
    : Outcome<WorkerIdentity>
  {
    if !addrOk then Outcome(s, Err(InvalidAddress(r.addr.text)))
    else if r.slots == 0 then Outcome(s, Err(InvalidResource("worker slots must be positive")))
    else match CollectOperations(s.operations, r.operations)
      case Err(e) => Outcome(s, Err(e))
      case Ok(ops) =>
        if r.node in s.workers && !s.workers[r.node].state.Dead? then
          if !SameRegistration(s.workers[r.node], r, ops) then
            Outcome(s, Err(Protocol("duplicate active node id")))
          else Outcome(Renewed(s, r.node, now, leaseMs), Ok(s.workers[r.node].identity))
        else
          Outcome(Joined(s, r, ops, session, now, leaseMs),
                  Ok(WorkerIdentity(r.node, r.workerEpoch, session, s.epoch)))
  }

  function Heartbeat(s: State, i: WorkerIdentity, now: int, leaseMs: int): Outcome<()>
  {
    if !IdentityOk(s, i) then Outcome(s, Err(StaleFence))
    else
      var w := s.workers[i.node].(leaseDeadline := SatAdd(now, leaseMs));
      Outcome(s.(workers := s.workers[i.node := w]), Ok(()))
  }

  function Drain(s: State, i: WorkerIdentity): Outcome<()>
  {
    if !IdentityOk(s, i) then Outcome(s, Err(StaleFence))
    else
      Outcome(Bump(s.(workers := s.workers[i.node := s.workers[i.node].(state := Draining)])), Ok(()))
  }

  // ---------------------------------------------------------------- objects

  function Admit(s: State, id: ObjectId, codec: Codec, size: int, checksum: Digest, bytes: Option<Bytes>)
    : Outcome<ObjectId>
  {
    if id in s.objects then
      var o := s.objects[id];
      if o.state.Available? && o.codec == Some(codec) && o.size == Some(size) && o.checksum == Some(checksum)
      then Outcome(s, Ok(id))
      else Outcome(s, Err(ObjectConflict(id)))
    else if |s.objects| >= MAX_OBJECTS then Outcome(s, Err(CapacityExceeded("object store limit reached")))
    else
      var o := ObjectRecord(Available, Some(codec), bytes, Some(size), Some(checksum), Some(COORDINATOR), None);
      Outcome(Bump(s.(objects := s.objects[id := o])), Ok(id))
  }

  /** The digest function is a parameter: `h` stands for BLAKE3. */
  function PutInline(s: State, h: Bytes -> Digest, codec: Codec, bytes: Bytes): Outcome<ObjectId>
  {
    Admit(s, h(bytes), codec, |bytes|, h(bytes), Some(bytes))
  }

  predicate Complete?(o: ObjectRecord)
  {
    o.codec.Some? && o.size.Some? && o.checksum.Some? && o.location.Some?
  }

  function Resolve(s: State, id: ObjectId): Result<ObjectPayload>
  {
    if id !in s.objects then Err(Protocol("object unavailable"))
    else
      var o := s.objects[id];
      match o.state
      case Available =>
        if Complete?(o) then
          Ok(ObjectPayload(id, o.codec.value, o.size.value, o.checksum.value, o.location.value, o.bytes))
        else Err(Protocol("incomplete record"))
      case Lost => Err(ObjectLost(id))
      case Reserved => Err(ObjectPending(id))
      case _ => Err(Protocol("object unavailable"))
  }

  /** Some task that has not finished names `id` as an argument. */
  predicate InUse(s: State, id: ObjectId)
  {
    exists t :: t in s.tasks && !s.tasks[t].state.Terminal() && id in Deps(s.tasks[t])
  }

  function WithDelete(pending: map<NodeId, seq<ObjectId>>, node: NodeId, id: ObjectId): map<NodeId, seq<ObjectId>>
  {
    pending[node := (if node in pending then pending[node] else []) + [id]]
  }

  function TasksWithout(tasks: map<TaskId, Task>, id: ObjectId): map<TaskId, Task>
  {
    map t | t in tasks && tasks[t].output != id :: tasks[t]
  }

  /** The effect of releasing an object that may be released. */
  function RemoveObject(s: State, id: ObjectId): State
    requires id in s.objects
  {
    var owner := s.objects[id].owner;
    s.(pendingDeletes :=
         if owner.Some? && owner.value in s.workers then WithDelete(s.pendingDeletes, owner.value, id)
         else s.pendingDeletes,
       objects := s.objects - {id},
       tasks := TasksWithout(s.tasks, id),
       revision := s.revision + 1)
  }

  function ReleaseObject(s: State, id: ObjectId): Outcome<()>
  {
    if id !in s.objects then Outcome(s, Ok(()))
    else if s.objects[id].state.Reserved? || InUse(s, id) then Outcome(s, Err(ObjectInUse(id)))
    else Outcome(RemoveObject(s, id), Ok(()))
  }

  // ---------------------------------------------------------------- submission

  function InlineError(d: OperationDescriptor, args: seq<TaskArg>): Option<Error>
  {
    if args == [] then None else
      var earlier := InlineError(d, args[..|args| - 1]);
      var arg := args[|args| - 1];
      if earlier.Some? then earlier
      else if arg.Inline? && arg.codec != d.inputCodec then Some(Protocol("inline argument codec mismatch"))
      else if arg.Inline? && |arg.bytes| > d.maxInlineArgBytes then
        Some(Protocol("inline argument exceeds operation limit"))
      else None
  }

  /** Whether the task must wait for a dependency, or why it cannot be accepted. */
  function ScanArgs(s: State, d: OperationDescriptor, args: seq<TaskArg>): Result<bool>
  {
    if args == [] then Ok(false) else
      var arg := args[|args| - 1];
      match ScanArgs(s, d, args[..|args| - 1])
      case Err(e) => Err(e)
      case Ok(waiting) =>
        if arg.Inline? then Ok(waiting)
        else if arg.id !in s.objects then Err(ObjectNotFound(arg.id))
        else
          var o := s.objects[arg.id];
          if o.codec.Some? && o.codec.value != d.inputCodec then Err(Protocol("object argument codec mismatch"))
          else match o.state
            case Available => Ok(waiting)
            case Reserved => Ok(true)
            case _ => Err(DependencyFailed(arg.id))
  }

  predicate SomeWorkerFits(s: State, op: OperationKey, resources: ResourceSet)
  {
    exists n :: n in s.workers &&
      s.workers[n].state.Alive? && op in s.workers[n].operations && CanFit(s.workers[n].total, resources)
  }

  /** Admission: `Ok(true)` when the task must wait for a dependency. */
  function SubmitCheck(s: State, op: OperationKey, args: seq<TaskArg>, resources: ResourceSet, maxAttempts: int)
    : Result<bool>
  {
    if maxAttempts == 0 then Err(IllegalTransition("max_attempts must be positive"))
    else if |s.tasks| >= MAX_TASKS then Err(CapacityExceeded("task limit reached"))
    else if |s.objects| >= MAX_OBJECTS then Err(CapacityExceeded("object store limit reached"))
    else if op !in s.operations then Err(OperationUnavailable(op))
    else
      var inline := InlineError(s.operations[op], args);
      if inline.Some? then Err(inline.value)
      else if !SomeWorkerFits(s, op, resources) then
        Err(InvalidResource("no registered worker can satisfy task resources"))
      else ScanArgs(s, s.operations[op], args)
  }

  function NewTask(op: OperationKey, args: seq<TaskArg>, output: ObjectId, resources: ResourceSet,
                   maxAttempts: int, waiting: bool): Task
  {
    Task(op, args, output, resources, maxAttempts, 0, if waiting then Waiting else Runnable, None, 0, 0)
  }

  function AddTask(s: State, id: TaskId, task: Task, codec: Codec): State
  {
    var reserved := ObjectRecord(Reserved, Some(codec), None, None, None, None, None);
    s.(objects := s.objects[task.output := reserved],
       tasks := s.tasks[id := task],
       waiting := if task.state.Waiting? then s.waiting + {id} else s.waiting,
       runnable := if task.state.Waiting? then s.runnable else s.runnable + [id],
       born := s.born[id := |s.born|],
       revision := s.revision + 1)
  }

  function Submit(s: State, op: OperationKey, args: seq<TaskArg>, resources: ResourceSet, maxAttempts: int,
                  id: TaskId, output: ObjectId): Outcome<(TaskId, ObjectId)>
  {
    match SubmitCheck(s, op, args, resources, maxAttempts)
    case Err(e) => Outcome(s, Err(e))
    case Ok(waiting) =>
      if op !in s.operations then Outcome(s, Err(OperationUnavailable(op))) else
      Outcome(AddTask(s, id, NewTask(op, args, output, resources, maxAttempts, waiting),
                      s.operations[op].outputCodec),
              Ok((id, output)))
  }

  // ---------------------------------------------------------------- scheduling

  predicate IsRunnable(s: State, t: TaskId)
  {
    t in s.tasks && s.tasks[t].state.Runnable?
  }

  /** A runnable task that is due and that the worker can serve now. */
  predicate Servable(s: State, w: Worker, now: int, t: TaskId)
  {
    && IsRunnable(s, t)
    && s.tasks[t].notBefore <= now
    && s.tasks[t].operation in w.operations
    && CanFit(w.available, s.tasks[t].resources)
  }

  /** The worker owns one of the task's inputs. */
  predicate Local(s: State, node: NodeId, t: TaskId)
  {
    t in s.tasks &&
    exists o :: o in Deps(s.tasks[t]) && o in s.objects && s.objects[o].owner == Some(node)
  }

  /** How far the scheduler got through the queue: `seen` entries were taken off,
      `picked` is a local match. */
  datatype Scan = Scan(seen: nat, passed: seq<TaskId>, requeue: seq<TaskId>, picked: Option<TaskId>)

  /** One queue entry at a time from `scan.seen` on, stopping at a local match or after the look-ahead. */
  function ScanQueue(s: State, node: NodeId, w: Worker, now: int, scan: Scan): Scan
    requires scan.seen <= |s.runnable|
    decreases |s.runnable| - scan.seen
  {
    if scan.picked.Some? || |scan.passed| >= LOCALITY_LOOKAHEAD || scan.seen == |s.runnable| then scan
    else ScanQueue(s, node, w, now, ScanEntry(s, node, w, now, scan))
  }

  function ScanEntry(s: State, node: NodeId, w: Worker, now: int, scan: Scan): (r: Scan)
    requires scan.seen < |s.runnable|
    ensures r.seen == scan.seen + 1
  {
    var t := s.runnable[scan.seen];
    var next := scan.(seen := scan.seen + 1);
    if !IsRunnable(s, t) then next
    else if !Servable(s, w, now, t) then next.(requeue := scan.requeue + [t])
    else if Local(s, node, t) then next.(picked := Some(t))
    else next.(passed := scan.passed + [t])
  }

  function FullScan(s: State, node: NodeId, w: Worker, now: int): Scan
  {
    ScanQueue(s, node, w, now, Scan(0, [], [], None))
  }

  function Chosen(scan: Scan): Option<TaskId>
  {
    if scan.picked.Some? then scan.picked
    else if scan.passed != [] then Some(scan.passed[0])
    else None
  }

  /** The queue afterwards: passed-over tasks keep their place in front, tasks this worker
      cannot serve now go to the back, and stale entries that were seen are gone. */
  function QueueAfter(s: State, scan: Scan): seq<TaskId>
    requires scan.seen <= |s.runnable|
  {
    (if scan.picked.Some? || scan.passed == [] then scan.passed else scan.passed[1..])
    + s.runnable[scan.seen..] + scan.requeue
  }

  function AssignedTask(task: Task, w: Worker, node: NodeId, lease: LeaseId): Task
  {
    task.(attempt := task.attempt + 1,
          state := Assigned,
          holder := Some(Assignment(node, w.identity.workerEpoch, w.identity.session, lease)))
  }

  function AssignmentOf(t: TaskId, task: Task, lease: LeaseId): TaskAssignment
  {
    TaskAssignment(TaskFence(t, task.attempt, lease), task.operation, task.args, task.output, task.resources)
  }

  /** Books task `t` on the worker. */
  function Book(s: State, node: NodeId, t: TaskId, lease: LeaseId): State
    requires node in s.workers && t in s.tasks && CanFit(s.workers[node].available, s.tasks[t].resources)
  {
    var w := s.workers[node];
    s.(workers := s.workers[node := w.(available := Minus(w.available, s.tasks[t].resources),
                                       freeSlots := w.freeSlots - 1)],
       tasks := s.tasks[t := AssignedTask(s.tasks[t], w, node, lease)],
       revision := s.revision + 1)
  }

  function AssignNext(s: State, node: NodeId, now: int, lease: LeaseId): Outcome<Option<TaskAssignment>>
  {
    if node !in s.workers then Outcome(s, Err(StaleFence))
    else
      var w := s.workers[node];
      if !w.state.Alive? || w.freeSlots == 0 then Outcome(s, Ok(None))
      else
        var scan := FullScan(s, node, w, now);
        if scan.seen > |s.runnable| then Outcome(s, Ok(None)) else
        var queued := s.(runnable := QueueAfter(s, scan));
        match Chosen(scan)
        case None => Outcome(queued, Ok(None))
        case Some(t) =>
          if t !in s.tasks || !CanFit(w.available, s.tasks[t].resources) then
            Outcome(queued, Err(InvalidResource("insufficient resources")))
          else
            var booked := Book(queued, node, t, lease);
            Outcome(booked, Ok(Some(AssignmentOf(t, booked.tasks[t], lease))))
  }

  // ---------------------------------------------------------------- worker reports

  function Started(s: State, i: WorkerIdentity, f: TaskFence): Outcome<()>
  {
    if f.task !in s.tasks then Outcome(s, Err(TaskNotFound(f.task)))
    else if s.tasks[f.task].state.Running? then Outcome(s, Ok(()))
    else if !FenceOk(s, i, f) then Outcome(s, Err(StaleFence))
    else if !s.tasks[f.task].state.Assigned? then Outcome(s, Err(IllegalTransition("task not assigned")))
    else
      Outcome(Bump(s.(tasks := s.tasks[f.task := s.tasks[f.task].(state := Running)])), Ok(()))
  }

  const RELEASE_EXCEEDS: string := "resource slot release exceeds worker total"

  /** The worker's slot and resources can be handed back. */
  predicate CanGiveBack(s: State, node: NodeId, resources: ResourceSet)
  {
    && node in s.workers
    && s.workers[node].freeSlots < s.workers[node].slots
    && CanReturn(s.workers[node].available, resources, s.workers[node].total)
  }

  function GiveBack(s: State, node: NodeId, resources: ResourceSet): State
    requires CanGiveBack(s, node, resources)
  {
    var w := s.workers[node];
    s.(workers := s.workers[node := w.(available := Plus(w.available, resources, w.total),
                                       freeSlots := w.freeSlots + 1)])
  }

  /** Ends a task's current attempt: hands its booking back, then records `task` and its output as `record`. */
  function EndAttempt(s: State, node: NodeId, t: TaskId, task: Task, record: ObjectRecord): State
    requires CanGiveBack(s, node, task.resources)
  {
    GiveBack(s, node, task.resources).(tasks := s.tasks[t := task], objects := s.objects[task.output := record])
  }

  function CompleteVerdict(s: State, h: Bytes -> Digest, i: WorkerIdentity, r: TaskCompletion): Verdict
  {
    if r.fence.task !in s.tasks then Reject(TaskNotFound(r.fence.task))
    else
      var task := s.tasks[r.fence.task];
      if task.state.Succeeded? then
        if task.output !in s.objects then Duplicate
        else
          var o := s.objects[task.output];
          if o.state.Available? && o.checksum == Some(r.checksum) && o.size == Some(r.size) then Duplicate
          else Reject(ObjectConflict(task.output))
      else if !FenceOk(s, i, r.fence) then Reject(StaleFence)
      else if !(task.state.Assigned? || task.state.Running?) then
        Reject(IllegalTransition("task cannot complete in current state"))
      else if task.operation !in s.operations then Reject(OperationUnavailable(task.operation))
      else if r.bytes.Some? && (|r.bytes.value| != r.size || h(r.bytes.value) != r.checksum) then
        Reject(ObjectConflict(task.output))
      else if || task.output != r.output
              || task.output !in s.objects
              || !s.objects[task.output].state.Reserved?
              || r.codec != s.operations[task.operation].outputCodec
              || r.location != s.workers[i.node].addr
              || r.size > MAX_OBJECT_BYTES
      then Reject(ObjectConflict(task.output))
      else if !CanGiveBack(s, i.node, task.resources) then
        Reject(InvalidResource(RELEASE_EXCEEDS))
      else Apply
  }

  function CompleteMid(s: State, i: WorkerIdentity, r: TaskCompletion): State
    requires r.fence.task in s.tasks
    requires CanGiveBack(s, i.node, s.tasks[r.fence.task].resources)
  {
    var task := s.tasks[r.fence.task];
    EndAttempt(s, i.node, r.fence.task, task.(state := Succeeded, holder := None),
               ObjectRecord(Available, Some(r.codec), r.bytes, Some(r.size), Some(r.checksum),
                            Some(r.location), Some(i.node)))
  }

  ghost function Complete(s: State, h: Bytes -> Digest, i: WorkerIdentity, r: TaskCompletion, order: seq<TaskId>)
    : Outcome<()>
  {
    match CompleteVerdict(s, h, i, r)
    case Reject(e) => Outcome(s, Err(e))
    case Duplicate => Outcome(s, Ok(()))
    case Apply => Outcome(Bump(Settle(CompleteMid(s, i, r), order)), Ok(()))
  }

  /** 2 to the power `n`. */
  function Pow2(n: nat): (r: nat)
    ensures r >= 1
  {
    if n == 0 then 1 else 2 * Pow2(n - 1)
  }

  /** Backoff after the `attempt`-th failure; the exponent is clamped so the shift cannot overflow. */
  function RetryBackoff(attempt: int): int
  {
    Min(Min(RETRY_BACKOFF_BASE_MS * Pow2(Min(Max(attempt - 1, 0), 20)), U64_MAX), RETRY_BACKOFF_CAP_MS)
  }

  function RetriedTask(task: Task, now: int): Task
  {
    task.(state := Runnable, holder := None, notBefore := SatAdd(now, RetryBackoff(task.attempt)))
  }

  function FailVerdict(s: State, i: WorkerIdentity, f: TaskFence): Verdict
  {
    if f.task !in s.tasks then Reject(TaskNotFound(f.task))
    else
      var task := s.tasks[f.task];
      if task.state.Terminal() then Duplicate
      else if !FenceOk(s, i, f) then Reject(StaleFence)
      else if !(task.state.Assigned? || task.state.Running?) then
        Reject(IllegalTransition("task cannot fail in current state"))
      else if !CanGiveBack(s, i.node, task.resources) || task.output !in s.objects then
        Reject(InvalidResource(RELEASE_EXCEEDS))
      else Apply
  }

  predicate Retries(task: Task, kind: FailureClass)
  {
    kind.Transient? && task.attempt < task.maxAttempts
  }

  /** The state after a failure report, before dependants are settled. */
  function FailMid(s: State, i: WorkerIdentity, f: TaskFence, message: string, kind: FailureClass, now: int): State
    requires f.task in s.tasks && s.tasks[f.task].output in s.objects
    requires CanGiveBack(s, i.node, s.tasks[f.task].resources)
  {
    var task := s.tasks[f.task];
    var o := s.objects[task.output];
    if Retries(task, kind) then
      EndAttempt(s, i.node, f.task, RetriedTask(task, now), o).(runnable := s.runnable + [f.task],
                                                                waiting := s.waiting - {f.task})
    else
      EndAttempt(s, i.node, f.task, task.(state := TaskState.Failed(message), holder := None),
                 o.(state := ProducerFailed))
  }

  /** Answers whether the report made the failure permanent. */
  ghost function Fail(s: State, i: WorkerIdentity, f: TaskFence, message: string, kind: FailureClass, now: int,
                      order: seq<TaskId>): Outcome<bool>
  {
    match FailVerdict(s, i, f)
    case Reject(e) => Outcome(s, Err(e))
    case Duplicate => Outcome(s, Ok(false))
    case Apply =>
      var mid := FailMid(s, i, f, message, kind, now);
      if Retries(s.tasks[f.task], kind) then Outcome(Bump(mid), Ok(false))
      else Outcome(Bump(Settle(mid, order)), Ok(true))
  }

  function AckVerdict(s: State, i: WorkerIdentity, f: TaskFence): Verdict
  {
    if f.task !in s.tasks then Reject(TaskNotFound(f.task))
    else
      var task := s.tasks[f.task];
      if task.state.Cancelled? then Duplicate
      else if !FenceOk(s, i, f) then Reject(StaleFence)
      else if !task.state.CancelRequested? then Reject(IllegalTransition("task is not awaiting cancellation"))
      else if !CanGiveBack(s, i.node, task.resources) || task.output !in s.objects then
        Reject(InvalidResource(RELEASE_EXCEEDS))
      else Apply
  }

  function AckMid(s: State, i: WorkerIdentity, f: TaskFence): State
    requires f.task in s.tasks && s.tasks[f.task].output in s.objects
    requires CanGiveBack(s, i.node, s.tasks[f.task].resources)
  {
    var task := s.tasks[f.task];
    EndAttempt(s, i.node, f.task, task.(state := TaskState.Cancelled, holder := None),
               s.objects[task.output].(state := ProducerCancelled))
      .(cancelRequested := s.cancelRequested - {f.task})
  }

  ghost function AckCancel(s: State, i: WorkerIdentity, f: TaskFence, order: seq<TaskId>): Outcome<()>
  {
    match AckVerdict(s, i, f)
    case Reject(e) => Outcome(s, Err(e))
    case Duplicate => Outcome(s, Ok(()))
    case Apply => Outcome(Bump(Settle(AckMid(s, i, f), order)), Ok(()))
  }

  // ---------------------------------------------------------------- cancellation

  function CancelVerdict(s: State, t: TaskId): Verdict
  {
    if t !in s.tasks then Reject(TaskNotFound(t))
    else if s.tasks[t].state.Terminal() then Reject(IllegalTransition("task is already terminal"))
    else if s.tasks[t].state.CancelRequested? then Duplicate
    else Apply
  }

  /** Cancelling a task no worker holds, before dependants are settled. */
  function CancelMid(s: State, t: TaskId): State
    requires t in s.tasks
  {
    var task := s.tasks[t];
    s.(tasks := s.tasks[t := task.(state := TaskState.Cancelled)],
       waiting := s.waiting - {t},
       objects := if task.output in s.objects
                  then s.objects[task.output := s.objects[task.output].(state := ProducerCancelled)]
                  else s.objects)
  }

  ghost function Cancel(s: State, t: TaskId, order: seq<TaskId>): Outcome<()>
  {
    match CancelVerdict(s, t)
    case Reject(e) => Outcome(s, Err(e))
    case Duplicate => Outcome(s, Ok(()))
    case Apply =>
      if s.tasks[t].holder.Some? then
        Outcome(Bump(s.(tasks := s.tasks[t := s.tasks[t].(state := CancelRequested)],
                        cancelRequested := s.cancelRequested + {t})), Ok(()))
      else Outcome(Bump(Settle(CancelMid(s, t), order)), Ok(()))
  }

  // ---------------------------------------------------------------- lease expiry

  function Expired(s: State, now: int): set<NodeId>
  {
    set n | n in s.workers && !s.workers[n].state.Dead? && s.workers[n].leaseDeadline <= now
  }

  function HeldBy(s: State, nodes: set<NodeId>): set<TaskId>
  {
    set t | t in s.tasks && s.tasks[t].holder.Some? && s.tasks[t].holder.value.node in nodes
  }

  const LEASE_EXPIRED: string := "worker lease expired"

  /** A held task when its worker's lease runs out. */
  function EvictedTask(task: Task, now: int): Task
  {
    if task.state.CancelRequested? then task.(state := TaskState.Cancelled, holder := None)
    else if task.attempt < task.maxAttempts then RetriedTask(task, now)
    else task.(state := TaskState.Failed(LEASE_EXPIRED), holder := None)
  }

  predicate RetriedOnEviction(task: Task)
  {
    !task.state.CancelRequested? && task.attempt < task.maxAttempts
  }

  function Retried(s: State, held: set<TaskId>): set<TaskId>
  {
    set t | t in held && t in s.tasks && RetriedOnEviction(s.tasks[t])
  }

  /** The output of an evicted task that will not run again. */
  function EvictedOutputs(s: State, held: set<TaskId>, cancelled: bool): set<ObjectId>
  {
    set t | t in held && t in s.tasks && !RetriedOnEviction(s.tasks[t])
      && s.tasks[t].state.CancelRequested? == cancelled
      :: s.tasks[t].output
  }

  /** An available object when its owner is gone: inline bytes survive, the rest is lost. */
  function OrphanedObject(o: ObjectRecord, nodes: set<NodeId>): ObjectRecord
  {
    if o.state.Available? && o.owner.Some? && o.owner.value in nodes then
      if o.bytes.Some? then o.(owner := None, location := Some(COORDINATOR))
      else o.(owner := None, location := None, state := Lost)
    else o
  }

  function EvictedObject(o: ObjectRecord, nodes: set<NodeId>, cancelled: bool, failed: bool): ObjectRecord
  {
    if cancelled then o.(state := ProducerCancelled)
    else if failed then o.(state := ProducerFailed)
    else OrphanedObject(o, nodes)
  }

  function EvictedTasks(tasks: map<TaskId, Task>, held: set<TaskId>, now: int): map<TaskId, Task>
  {
    map t | t in tasks :: if t in held then EvictedTask(tasks[t], now) else tasks[t]
  }

  function EvictedObjects(objects: map<ObjectId, ObjectRecord>, nodes: set<NodeId>, cancelled: set<ObjectId>,
                          failed: set<ObjectId>): map<ObjectId, ObjectRecord>
  {
    map o | o in objects :: EvictedObject(objects[o], nodes, o in cancelled, o in failed)
  }

  /** Evicts the tasks `held` and the workers `nodes`; `order` lists the retried tasks as queued. */
  function Evict(s: State, nodes: set<NodeId>, held: set<TaskId>, now: int, order: seq<TaskId>): State
  {
    s.(workers := s.workers - nodes,
       pendingDeletes := s.pendingDeletes - nodes,
       tasks := EvictedTasks(s.tasks, held, now),
       objects := EvictedObjects(s.objects, nodes, EvictedOutputs(s, held, true), EvictedOutputs(s, held, false)),
       cancelRequested := s.cancelRequested - held,
       waiting := s.waiting - Retried(s, held),
       runnable := s.runnable + order)
  }

  function EvictAll(s: State, now: int, order: seq<TaskId>): State
  {
    Evict(s, Expired(s, now), HeldBy(s, Expired(s, now)), now, order)
  }

  ghost function ExpireWorkers(s: State, now: int, retried: seq<TaskId>, order: seq<TaskId>): State
  {
    if Expired(s, now) == {} then s else Bump(Settle(EvictAll(s, now, retried), order))
  }

  // ---------------------------------------------------------------- reclaim

  function StampedTask(task: Task, now: int): Task
  {
    if task.state.Terminal() && task.terminalSince == 0 then task.(terminalSince := now) else task
  }

  function Stamp(s: State, now: int): State
  {
    s.(tasks := map t | t in s.tasks :: StampedTask(s.tasks[t], now))
  }

  /** A finished task whose retention has run out and whose output no live task needs. */
  predicate DueForReclaim(s: State, now: int, t: TaskId)
  {
    && t in s.tasks
    && s.tasks[t].state.Terminal()
    && SatSub(now, s.tasks[t].terminalSince) >= TERMINAL_TASK_TTL_MS
    && !InUse(s, s.tasks[t].output)
  }

  function DueTasks(s: State, now: int): set<TaskId>
  {
    set t | t in s.tasks && DueForReclaim(s, now, t)
  }

  function DueOutputs(s: State, now: int): set<ObjectId>
  {
    OutputsOf(s.tasks, DueTasks(s, now))
  }

  /** Releases the listed objects one after the other; answers how many releases succeeded. */
  function ReleaseAll(s: State, order: seq<ObjectId>): (State, nat)
  {
    if order == [] then (s, 0) else
      var (before, count) := ReleaseAll(s, order[..|order| - 1]);
      var last := ReleaseObject(before, order[|order| - 1]);
      (last.state, if last.reply.Ok? then count + 1 else count)
  }

  function Reap(s: State, now: int, order: seq<ObjectId>): (State, nat)
  {
    ReleaseAll(Stamp(s, now), order)
  }

  // ---------------------------------------------------------------- polling

  predicate HeldByIdentity(task: Task, i: WorkerIdentity)
  {
    task.holder.Some? && task.holder.value.node == i.node
    && task.holder.value.workerEpoch == i.workerEpoch && task.holder.value.session == i.session
  }

  /** Tasks the worker holds and has been asked to cancel. */
  function CancellationsFor(s: State, i: WorkerIdentity): set<TaskId>
  {
    set t | t in s.cancelRequested && t in s.tasks && HeldByIdentity(s.tasks[t], i)
  }

  /** Tasks handed to the worker that it has not reported as started. */
  function UnstartedFor(s: State, i: WorkerIdentity): set<TaskId>
  {
    set t | t in s.tasks && s.tasks[t].state.Assigned? && HeldByIdentity(s.tasks[t], i)
  }

  function TakeDeletes(s: State, node: NodeId): (State, seq<ObjectId>)
  {
    (s.(pendingDeletes := s.pendingDeletes - {node}),
     if node in s.pendingDeletes then s.pendingDeletes[node] else [])
  }

  function PopDelete(s: State, node: NodeId): State
  {
    var (rest, deletes) := TakeDeletes(s, node);
    if |deletes| > 1 then rest.(pendingDeletes := rest.pendingDeletes[node := deletes[1..]]) else rest
  }

  datatype PollReply =
    | DeleteObject(oid: ObjectId)
    | CancelTask(fence: TaskFence)
    | Assign(assignment: Option<TaskAssignment>)
    | PollError(error: Error)

  function FenceOf(s: State, t: TaskId): TaskFence
    requires t in s.tasks && s.tasks[t].holder.Some?
  {
    TaskFence(t, s.tasks[t].attempt, s.tasks[t].holder.value.lease)
  }

  /** A poll with nothing to delete: cancellations first, then redelivery, then new work. */
  function WorkState(s: State, i: WorkerIdentity, now: int, lease: LeaseId): State
  {
    if !IdentityOk(s, i) || CancellationsFor(s, i) != {} || UnstartedFor(s, i) != {} then s
    else AssignNext(s, i.node, now, lease).state
  }

  /** What such a poll may answer; where several tasks qualify the hash table decides. */
  predicate WorkAnswers(s: State, i: WorkerIdentity, now: int, lease: LeaseId, reply: PollReply)
  {
    if !IdentityOk(s, i) then reply == PollError(StaleFence)
    else if CancellationsFor(s, i) != {} then
      exists c :: c in CancellationsFor(s, i) && reply == CancelTask(FenceOf(s, c))
    else if UnstartedFor(s, i) != {} then
      exists c :: c in UnstartedFor(s, i)
        && reply == Assign(Some(AssignmentOf(c, s.tasks[c], s.tasks[c].holder.value.lease)))
    else
      match AssignNext(s, i.node, now, lease).reply
      case Ok(a) => reply == Assign(a)
      case Err(e) => reply == PollError(e)
  }

  /** The state a poll leaves: pending deletes come before anything else. */
  function PollState(s: State, i: WorkerIdentity, now: int, lease: LeaseId): State
  {
    if TakeDeletes(s, i.node).1 != [] then PopDelete(s, i.node)
    else WorkState(TakeDeletes(s, i.node).0, i, now, lease)
  }

  predicate PollAnswers(s: State, i: WorkerIdentity, now: int, lease: LeaseId, reply: PollReply)
  {
    var deletes := TakeDeletes(s, i.node).1;
    if deletes != [] then reply == DeleteObject(deletes[0])
    else WorkAnswers(TakeDeletes(s, i.node).0, i, now, lease, reply)
  }
}
