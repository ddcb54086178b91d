/** Whole-run safety: fences never come back, tasks make bounded progress, retries keep their distance,
    and an object's contents never change. */
module Histories {
  import opened Types
  import opened Model
  import opened Invariants
  import opened Steps
  import opened Reclaim
  import opened Runs
  import opened Evolution

  // ---------------------------------------------------------------- what a run looks like from outside

  ghost predicate Sound(s: State)
  {
    LineageMatches(s) && AttemptsMatch(s)
  }

  ghost predicate SoundAt(states: seq<State>, k: nat)
    requires k < |states|
  {
    Sound(states[k])
  }

  ghost predicate EvolvesAt(states: seq<State>, ticks: seq<Tick>, k: nat)
    requires k + 1 < |states| && k < |ticks|
  {
    Evolves(states[k], states[k + 1], ticks[k])
  }

  /** A sequence of sound states, each evolving from the one before under the given ticks. */
  ghost predicate IsHistory(states: seq<State>, ticks: seq<Tick>)
  {
    && |states| == |ticks| + 1
    && states[0].born == map[]
    && (forall k :: 0 <= k < |states| ==> SoundAt(states, k))
    && (forall k :: 0 <= k < |ticks| ==> EvolvesAt(states, ticks, k))
  }

  function Ticks(actions: seq<Action>): (r: seq<Tick>)
    ensures |r| == |actions| && forall k :: 0 <= k < |r| ==> r[k] == TickOf(actions[k])
  {
    seq(|actions|, k requires 0 <= k < |actions| => TickOf(actions[k]))
  }

  lemma RunEvolves(h: Bytes -> Digest, states: seq<State>, actions: seq<Action>, k: nat)
    requires IsRun(h, states, actions) && k < |actions|
    ensures Evolves(states[k], states[k + 1], TickOf(actions[k]))
  {
    RunInv(h, states, actions, k);
    assert StepAt(h, states, actions, k);
    NextEvolves(states[k], h, actions[k], states[k + 1]);
  }

  /** Every run is such a history. */
  lemma RunIsHistory(h: Bytes -> Digest, states: seq<State>, actions: seq<Action>)
    requires IsRun(h, states, actions)
    ensures IsHistory(states, Ticks(actions))
  {
    forall k | 0 <= k < |states| ensures SoundAt(states, k) {
      RunInv(h, states, actions, k);
    }
    forall k | 0 <= k < |actions| ensures EvolvesAt(states, Ticks(actions), k) {
      RunEvolves(h, states, actions, k);
    }
  }

  // ---------------------------------------------------------------- fencing

  /** The fence belongs to the booking in force. */
  predicate Current(s: State, f: TaskFence)
  {
    && f.task in s.tasks
    && s.tasks[f.task].holder.Some? && s.tasks[f.task].holder.value.lease == f.lease
    && s.tasks[f.task].attempt == f.attempt
  }

  /** The fence belongs to a booking that is over. */
  predicate Superseded(s: State, f: TaskFence)
  {
    && f.task in s.born
    && (f.task in s.tasks ==>
          var task := s.tasks[f.task];
          task.attempt > f.attempt || (task.attempt == f.attempt && task.holder.None?))
  }

  lemma SupersededStays(s: State, s': State, k: Tick, f: TaskFence)
    requires Evolves(s, s', k) && Superseded(s, f)
    ensures Superseded(s', f)
  {
    if f.task in s.tasks && f.task in s'.tasks {
      assert Moves(s.tasks[f.task], s'.tasks[f.task], k);
    }
  }

  lemma CurrentOrSuperseded(s: State, s': State, k: Tick, f: TaskFence)
    requires LineageMatches(s) && Evolves(s, s', k) && Current(s, f)
    ensures Current(s', f) || Superseded(s', f)
  {
    if f.task in s'.tasks {
      assert Moves(s.tasks[f.task], s'.tasks[f.task], k);
    }
  }

  lemma {:induction false} SupersededForever(states: seq<State>, ticks: seq<Tick>, j: nat, k: nat, f: TaskFence)
    requires IsHistory(states, ticks) && j <= k < |states| && Superseded(states[j], f)
    ensures Superseded(states[k], f)
    decreases k - j
  {
    if j < k {
      SupersededForever(states, ticks, j, k - 1, f);
      assert EvolvesAt(states, ticks, k - 1);
      SupersededStays(states[k - 1], states[k], ticks[k - 1], f);
    }
  }

  lemma {:induction false} LostMeansSuperseded(states: seq<State>, ticks: seq<Tick>, i: nat, j: nat, f: TaskFence)
    requires IsHistory(states, ticks) && i <= j < |states|
    requires Current(states[i], f) && !Current(states[j], f)
    ensures Superseded(states[j], f)
    decreases j - i
  {
    assert EvolvesAt(states, ticks, j - 1) && SoundAt(states, j - 1);
    if Current(states[j - 1], f) {
      CurrentOrSuperseded(states[j - 1], states[j], ticks[j - 1], f);
    } else {
      LostMeansSuperseded(states, ticks, i, j - 1, f);
      SupersededStays(states[j - 1], states[j], ticks[j - 1], f);
    }
  }

  /** Once a fence has stopped being current it never passes a fence check again, whoever presents it. */
  lemma FenceNeverReturns(h: Bytes -> Digest, states: seq<State>, actions: seq<Action>,
                          i: nat, j: nat, k: nat, f: TaskFence, who: WorkerIdentity)
    requires IsRun(h, states, actions) && i <= j <= k < |states|
    requires Current(states[i], f) && !Current(states[j], f)
    ensures !Current(states[k], f) && !FenceOk(states[k], who, f)
  {
    RunIsHistory(h, states, actions);
    LostMeansSuperseded(states, Ticks(actions), i, j, f);
    SupersededForever(states, Ticks(actions), j, k, f);
  }

  function ReportFence(a: Action): TaskFence
    requires FromHolder(a)
  {
    match a
    case DoStarted(_, f) => f
    case DoComplete(_, report, _) => report.fence
    case DoFail(_, f, _, _, _, _) => f
    case DoAckCancel(_, f, _) => f
  }

  /** A report whose fence check would not pass changes nothing, even where it is answered with success. */
  lemma StaleReportChangesNothing(s: State, h: Bytes -> Digest, a: Action)
    requires FromHolder(a) && !FenceOk(s, a.i, ReportFence(a))
    ensures Next(s, h, a) == s
  {
    match a
    case DoStarted(i, f) => {}
    case DoComplete(i, report, order) => {
      assert !CompleteVerdict(s, h, i, report).Apply?;
    }
    case DoFail(i, f, message, kind, now, order) => {
      assert !FailVerdict(s, i, f).Apply?;
    }
    case DoAckCancel(i, f, order) => {
      assert !AckVerdict(s, i, f).Apply?;
    }
  }

  /** So once a fence has been superseded, a report that carries it changes nothing for the rest of the run, not
      even where it is answered with success. */
  lemma SupersededReportsDoNothing(h: Bytes -> Digest, states: seq<State>, actions: seq<Action>, i: nat, j: nat, k: nat,
                                   a: Action)
    requires IsRun(h, states, actions) && i <= j <= k < |states| && FromHolder(a)
    requires Current(states[i], ReportFence(a)) && !Current(states[j], ReportFence(a))
    ensures Next(states[k], h, a) == states[k]
  {
    FenceNeverReturns(h, states, actions, i, j, k, ReportFence(a), a.i);
    StaleReportChangesNothing(states[k], h, a);
  }

  // ---------------------------------------------------------------- finished tasks

  /** The task was submitted and is finished or reclaimed. */
  predicate Over(s: State, t: TaskId)
  {
    t in s.born && (t in s.tasks ==> s.tasks[t].state.Terminal())
  }

  lemma OverStays(s: State, s': State, k: Tick, t: TaskId)
    requires Evolves(s, s', k) && Over(s, t)
    ensures Over(s', t)
    ensures t in s'.tasks ==> t in s.tasks && s'.tasks[t].state == s.tasks[t].state
  {
    if t in s.tasks && t in s'.tasks {
      assert Moves(s.tasks[t], s'.tasks[t], k);
    }
  }

  lemma {:induction false} OverForever(states: seq<State>, ticks: seq<Tick>, j: nat, k: nat, t: TaskId)
    requires IsHistory(states, ticks) && j <= k < |states| && Over(states[j], t)
    ensures Over(states[k], t)
    ensures t in states[k].tasks ==> t in states[j].tasks && states[k].tasks[t].state == states[j].tasks[t].state
    decreases k - j
  {
    if j < k {
      OverForever(states, ticks, j, k - 1, t);
      assert EvolvesAt(states, ticks, k - 1);
      OverStays(states[k - 1], states[k], ticks[k - 1], t);
    }
  }

  /** A finished task never changes state again, and once it has been removed its id is never in use again. */
  lemma TerminalIsFinal(h: Bytes -> Digest, states: seq<State>, actions: seq<Action>, j: nat, k: nat, t: TaskId)
    requires IsRun(h, states, actions) && j <= k < |states|
    requires t in states[j].born && (t in states[j].tasks ==> states[j].tasks[t].state.Terminal())
    ensures t in states[k].tasks ==> t in states[j].tasks && states[k].tasks[t].state == states[j].tasks[t].state
  {
    RunIsHistory(h, states, actions);
    assert SoundAt(states, j);
    OverForever(states, Ticks(actions), j, k, t);
  }

  /** The action is a completion report that takes effect on task `t`. */
  predicate CompletesTask(s: State, h: Bytes -> Digest, a: Action, t: TaskId)
  {
    a.DoComplete? && a.report.fence.task == t && CompleteVerdict(s, h, a.i, a.report).Apply?
  }

  /** Reconciliation touches waiting tasks only. */
  lemma SettleLeaves(mid: State, order: seq<TaskId>, t: TaskId)
    requires t in mid.tasks && t !in mid.waiting
    ensures t in Settle(mid, order).tasks && Settle(mid, order).tasks[t] == mid.tasks[t]
    ensures Settle(mid, order).born == mid.born
  {
  }

  lemma CompleteEnds(s: State, h: Bytes -> Digest, i: WorkerIdentity, r: TaskCompletion, order: seq<TaskId>, s': State)
    requires Inv(s) && CompleteVerdict(s, h, i, r).Apply? && s' == Complete(s, h, i, r, order).state
    ensures r.fence.task in s'.tasks && s'.tasks[r.fence.task].state.Succeeded? && s'.born == s.born
  {
    hide Conserved, LineageMatches, QueueMatches, ObjectsMatch, OutputsMatch, HoldersMatch, Settle;
    var mid := CompleteMid(s, i, r);
    CompleteMidKeeps(s, h, i, r);
    SettleLeaves(mid, order, r.fence.task);
  }

  lemma CompletionEnds(s: State, h: Bytes -> Digest, a: Action, t: TaskId, s': State)
    requires Inv(s) && CompletesTask(s, h, a, t) && s' == Next(s, h, a)
    ensures Over(s', t) && t in s'.tasks && s'.tasks[t].state.Succeeded?
  {
    hide Conserved, QueueMatches, ObjectsMatch, OutputsMatch, HoldersMatch;
    CompleteEnds(s, h, a.i, a.report, a.order, s');
  }

  lemma CompletedRunEnds(h: Bytes -> Digest, states: seq<State>, actions: seq<Action>, i: nat, t: TaskId)
    requires IsRun(h, states, actions) && i < |actions|
    requires CompletesTask(states[i], h, actions[i], t)
    ensures Over(states[i + 1], t)
  {
    RunInv(h, states, actions, i);
    assert StepAt(h, states, actions, i);
    CompletionEnds(states[i], h, actions[i], t, states[i + 1]);
  }

  /** At most one completion of a task ever takes effect. */
  lemma CompletedOnce(h: Bytes -> Digest, states: seq<State>, actions: seq<Action>, i: nat, j: nat, t: TaskId)
    requires IsRun(h, states, actions) && i < j < |actions|
    requires CompletesTask(states[i], h, actions[i], t)
    ensures !CompletesTask(states[j], h, actions[j], t)
  {
    CompletedRunEnds(h, states, actions, i, t);
    RunIsHistory(h, states, actions);
    OverForever(states, Ticks(actions), i + 1, j, t);
  }

  // ---------------------------------------------------------------- bounded progress

  /** Work a task may still go through: attempts left, then how far the current one is. */
  function Remaining(task: Task): int
  {
    var left := 4 * (task.maxAttempts - task.attempt);
    match task.state
    case Waiting => left + 1
    case Runnable => left
    case Assigned => left + 3
    case Running => left + 2
    case CancelRequested => left + 1
    case _ => 0
  }

  /** Every change of state uses up some of it. */
  lemma EdgeConsumes(a: Task, b: Task, k: Tick)
    requires AttemptsOk(a) && AttemptsOk(b) && Edge(a, b, k)
    ensures 0 <= Remaining(b) && a.maxAttempts == b.maxAttempts
    ensures if a.state == b.state then Remaining(b) == Remaining(a) else Remaining(b) < Remaining(a)
    ensures b.attempt == if a.state.Runnable? && b.state.Assigned? then a.attempt + 1 else a.attempt
  {
  }

  /** The task is there before and after step `k` and changes state in it. */
  predicate ChangesState(states: seq<State>, k: nat, t: TaskId)
    requires k + 1 < |states|
  {
    t in states[k].tasks && t in states[k + 1].tasks && states[k].tasks[t].state != states[k + 1].tasks[t].state
  }

  /** The task is handed to a worker in step `k`. */
  predicate IsAssigned(states: seq<State>, k: nat, t: TaskId)
    requires k + 1 < |states|
  {
    && t in states[k].tasks && states[k].tasks[t].state.Runnable?
    && t in states[k + 1].tasks && states[k + 1].tasks[t].state.Assigned?
  }

  /** The task is taken from its worker in step `k` and queued again. */
  predicate IsRetried(states: seq<State>, k: nat, t: TaskId)
    requires k + 1 < |states|
  {
    && t in states[k].tasks && states[k].tasks[t].state.InFlight()
    && t in states[k + 1].tasks && states[k + 1].tasks[t].state.Runnable?
  }

  function StateChanges(states: seq<State>, k: nat, t: TaskId): nat
    requires k < |states|
  {
    if k == 0 then 0 else StateChanges(states, k - 1, t) + if ChangesState(states, k - 1, t) then 1 else 0
  }

  function Assignments(states: seq<State>, k: nat, t: TaskId): nat
    requires k < |states|
  {
    if k == 0 then 0 else Assignments(states, k - 1, t) + if IsAssigned(states, k - 1, t) then 1 else 0
  }

  lemma {:induction false} NothingBeforeBirth(states: seq<State>, ticks: seq<Tick>, k: nat, t: TaskId)
    requires IsHistory(states, ticks) && k < |states| && t !in states[k].born
    ensures StateChanges(states, k, t) == 0 && Assignments(states, k, t) == 0
    decreases k
  {
    if k > 0 {
      assert EvolvesAt(states, ticks, k - 1);
      assert SoundAt(states, k - 1);
      NothingBeforeBirth(states, ticks, k - 1, t);
    }
  }

  lemma TaskMoves(states: seq<State>, ticks: seq<Tick>, k: nat, t: TaskId)
    requires IsHistory(states, ticks) && k < |ticks| && t in states[k].tasks && t in states[k + 1].tasks
    ensures Moves(states[k].tasks[t], states[k + 1].tasks[t], ticks[k])
    ensures AttemptsOk(states[k].tasks[t]) && AttemptsOk(states[k + 1].tasks[t])
  {
    assert EvolvesAt(states, ticks, k);
    assert SoundAt(states, k) && SoundAt(states, k + 1);
  }

  lemma TaskAppears(states: seq<State>, ticks: seq<Tick>, k: nat, t: TaskId)
    requires IsHistory(states, ticks) && k < |ticks| && t !in states[k].tasks && t in states[k + 1].tasks
    ensures t !in states[k].born && Entered(states[k + 1].tasks[t]) && AttemptsOk(states[k + 1].tasks[t])
  {
    assert EvolvesAt(states, ticks, k);
    assert SoundAt(states, k + 1);
  }

  lemma NoTasksAtFirst(states: seq<State>, ticks: seq<Tick>)
    requires IsHistory(states, ticks)
    ensures forall t :: t !in states[0].tasks
  {
    assert SoundAt(states, 0);
  }

  lemma {:induction false} BudgetHolds(states: seq<State>, ticks: seq<Tick>, k: nat, t: TaskId)
    requires IsHistory(states, ticks) && k < |states| && t in states[k].tasks
    ensures StateChanges(states, k, t) + Remaining(states[k].tasks[t]) <= 4 * states[k].tasks[t].maxAttempts + 1
    ensures Assignments(states, k, t) == states[k].tasks[t].attempt
    decreases k
  {
    NoTasksAtFirst(states, ticks);
    if t in states[k - 1].tasks {
      BudgetHolds(states, ticks, k - 1, t);
      TaskMoves(states, ticks, k - 1, t);
      var a, b := states[k - 1].tasks[t], states[k].tasks[t];
      if a != b {
        EdgeConsumes(a, b, ticks[k - 1]);
      }
    } else {
      TaskAppears(states, ticks, k - 1, t);
      NothingBeforeBirth(states, ticks, k - 1, t);
    }
  }

  /** In any run a task changes state at most `4 * maxAttempts + 1` times and is handed out at most
      `maxAttempts` times. */
  lemma BoundedProgress(h: Bytes -> Digest, states: seq<State>, actions: seq<Action>, k: nat, t: TaskId)
    requires IsRun(h, states, actions) && k < |states| && t in states[k].tasks
    ensures StateChanges(states, k, t) <= 4 * states[k].tasks[t].maxAttempts + 1
    ensures Assignments(states, k, t) == states[k].tasks[t].attempt <= states[k].tasks[t].maxAttempts
  {
    RunIsHistory(h, states, actions);
    assert SoundAt(states, k);
    BudgetHolds(states, Ticks(actions), k, t);
    assert Remaining(states[k].tasks[t]) >= 0;
  }

  // ---------------------------------------------------------------- retry spacing

  lemma {:induction false} Pow2Grows(n: nat, m: nat)
    requires n <= m
    ensures Pow2(n) <= Pow2(m)
    decreases m - n
  {
    if n < m {
      Pow2Grows(n, m - 1);
    }
  }

  /** The clamped shift computes the capped exponential for every attempt number. */
  lemma BackoffIsCappedExponential(attempt: nat)
    requires attempt >= 1
    ensures RetryBackoff(attempt) == Min(100 * Pow2(attempt - 1), 30_000)
    ensures 100 * Pow2(Min(attempt - 1, 20)) <= U64_MAX
  {
    assert Pow2(9) == 512 && Pow2(20) == 1048576 by {
      assert Pow2(4) == 16;
      assert Pow2(8) == 256;
      assert Pow2(12) == 4096;
      assert Pow2(16) == 65536;
    }
    if attempt - 1 <= 20 {
      Pow2Grows(attempt - 1, 20);
    } else {
      Pow2Grows(20, attempt - 1);
    }
  }

  /** Until attempt `n + 1` begins, a task whose attempt `n` was retried keeps its retry deadline. */
  lemma {:induction false} DeadlineKept(states: seq<State>, ticks: seq<Tick>, i: nat, j: nat, t: TaskId)
    requires IsHistory(states, ticks) && i < j < |states|
    requires t in states[i].tasks && t in states[i + 1].tasks
    requires RetriesAt(states[i].tasks[t], states[i + 1].tasks[t], ticks[i])
    requires t in states[j].tasks
    ensures states[j].tasks[t].attempt >= states[i].tasks[t].attempt
    ensures states[j].tasks[t].attempt == states[i].tasks[t].attempt ==>
      states[j].tasks[t].holder.None? && states[j].tasks[t].notBefore == RetryAt(states[i].tasks[t], ticks[i].now)
    decreases j - i
  {
    if i + 1 < j {
      BornForever(states, ticks, i, j - 1, t);
      assert EvolvesAt(states, ticks, j - 1);
      DeadlineKept(states, ticks, i, j - 1, t);
      assert Moves(states[j - 1].tasks[t], states[j].tasks[t], ticks[j - 1]);
    }
  }

  lemma {:induction false} BornForever(states: seq<State>, ticks: seq<Tick>, i: nat, j: nat, t: TaskId)
    requires IsHistory(states, ticks) && i <= j < |states| && t in states[i].tasks
    ensures t in states[j].born
    decreases j - i
  {
    assert SoundAt(states, i);
    if i < j {
      BornForever(states, ticks, i, j - 1, t);
      assert EvolvesAt(states, ticks, j - 1);
    }
  }

  lemma RetriedMeans(states: seq<State>, ticks: seq<Tick>, k: nat, t: TaskId)
    requires IsHistory(states, ticks) && k < |ticks| && IsRetried(states, k, t)
    ensures RetriesAt(states[k].tasks[t], states[k + 1].tasks[t], ticks[k]) && states[k].tasks[t].attempt >= 1
  {
    TaskMoves(states, ticks, k, t);
  }

  lemma AssignedMeans(states: seq<State>, ticks: seq<Tick>, k: nat, t: TaskId)
    requires IsHistory(states, ticks) && k < |ticks| && IsAssigned(states, k, t)
    ensures states[k + 1].tasks[t].attempt == states[k].tasks[t].attempt + 1
    ensures states[k].tasks[t].notBefore <= ticks[k].now
  {
    TaskMoves(states, ticks, k, t);
  }

  /** If attempt `n` of a task ends at time `T` with the task queued again, by failure report or by lease expiry,
      attempt `n + 1` is never handed out at a time before `T + min(100 * 2^(n-1), 30000)`, saturating. */
  lemma RetrySpacing(h: Bytes -> Digest, states: seq<State>, actions: seq<Action>, i: nat, j: nat, t: TaskId)
    requires IsRun(h, states, actions) && i < j < |actions|
    requires IsRetried(states, i, t) && IsAssigned(states, j, t)
    requires states[j + 1].tasks[t].attempt == states[i].tasks[t].attempt + 1
    ensures states[i].tasks[t].attempt >= 1
    ensures var backoff := Min(100 * Pow2(states[i].tasks[t].attempt - 1), 30_000);
      TickOf(actions[j]).now >= SatAdd(TickOf(actions[i]).now, backoff)
  {
    hide IsRun, IsHistory, RetryBackoff;
    RunIsHistory(h, states, actions);
    RetriedMeans(states, Ticks(actions), i, t);
    AssignedMeans(states, Ticks(actions), j, t);
    DeadlineKept(states, Ticks(actions), i, j, t);
    BackoffIsCappedExponential(states[i].tasks[t].attempt);
  }

  // ---------------------------------------------------------------- objects

  lemma {:induction false} ContentsKept(states: seq<State>, ticks: seq<Tick>, i: nat, j: nat, o: ObjectId)
    requires IsHistory(states, ticks) && i <= j < |states|
    requires forall k :: i <= k <= j ==> o in states[k].objects
    requires !states[i].objects[o].state.Reserved?
    ensures !states[j].objects[o].state.Reserved?
    ensures SameContents(states[i].objects[o], states[j].objects[o])
    decreases j - i
  {
    if i < j {
      ContentsKept(states, ticks, i, j - 1, o);
      assert EvolvesAt(states, ticks, j - 1);
    }
  }

  /** From the moment an object is available until it is released, its codec, size, checksum and
      bytes never change. */
  lemma AvailableIsImmutable(h: Bytes -> Digest, states: seq<State>, actions: seq<Action>, i: nat, j: nat, o: ObjectId)
    requires IsRun(h, states, actions) && i <= j < |states|
    requires forall k :: i <= k <= j ==> o in states[k].objects
    requires states[i].objects[o].state.Available?
    ensures SameContents(states[i].objects[o], states[j].objects[o])
  {
    RunIsHistory(h, states, actions);
    ContentsKept(states, Ticks(actions), i, j, o);
  }

  /** No transition removes an object that an unfinished task produces or names. */
  lemma NeededObjectsStay(s: State, h: Bytes -> Digest, a: Action, s': State, t: TaskId, o: ObjectId)
    requires Inv(s) && Legal(s, h, a) && s' == Next(s, h, a)
    requires t in s.tasks && !s.tasks[t].state.Terminal() && (o == s.tasks[t].output || o in Deps(s.tasks[t]))
    ensures o in s.objects && o in s'.objects
  {
    NextEvolves(s, h, a, s');
    assert o in s.objects;
    assert !Releasable(s, o);
  }

  // ---------------------------------------------------------------- retention

  /** Step `j` is a run of the reaper that found task `t` finished. */
  predicate SeenFinished(states: seq<State>, ticks: seq<Tick>, j: nat, t: TaskId)
    requires j < |states| && j < |ticks|
  {
    ticks[j].stamps && t in states[j].tasks && states[j].tasks[t].state.Terminal()
  }

  /** A retention stamp is the clock of an earlier run of the reaper that found the task finished. */
  lemma {:induction false} StampHasSource(states: seq<State>, ticks: seq<Tick>, k: nat, t: TaskId) returns (j: nat)
    requires IsHistory(states, ticks) && k < |states|
    requires t in states[k].tasks && states[k].tasks[t].terminalSince != 0
    ensures j < k && SeenFinished(states, ticks, j, t) && ticks[j].now == states[k].tasks[t].terminalSince
    decreases k
  {
    assert SoundAt(states, 0) && SoundAt(states, k);
    if k > 0 {
      assert EvolvesAt(states, ticks, k - 1) && SoundAt(states, k - 1);
      if t in states[k - 1].tasks && states[k - 1].tasks[t].terminalSince == 0 {
        assert Stamps(states[k - 1].tasks[t], states[k].tasks[t], ticks[k - 1]);
        j := k - 1;
      } else {
        assert Moves(states[k - 1].tasks[t], states[k].tasks[t], ticks[k - 1]);
        j := StampHasSource(states, ticks, k - 1, t);
      }
    }
  }

  /** A stamp, once set, stays. */
  lemma {:induction false} StampStays(states: seq<State>, ticks: seq<Tick>, j: nat, k: nat, t: TaskId)
    requires IsHistory(states, ticks) && j <= k < |states|
    requires t in states[j].tasks && states[j].tasks[t].terminalSince != 0 && t in states[k].tasks
    ensures states[k].tasks[t].terminalSince == states[j].tasks[t].terminalSince
    decreases k
  {
    if j < k {
      assert EvolvesAt(states, ticks, k - 1) && SoundAt(states, j);
      BornForever(states, ticks, j, k - 1, t);
      StampStays(states, ticks, j, k - 1, t);
      assert Moves(states[k - 1].tasks[t], states[k].tasks[t], ticks[k - 1]);
    }
  }

  /** What a run of the reaper removes is due by its stamp, and what it leaves it has stamped. */
  lemma ReapStep(h: Bytes -> Digest, states: seq<State>, actions: seq<Action>, k: nat, t: TaskId)
    requires IsRun(h, states, actions) && k < |actions| && actions[k].DoReap? && t in states[k].tasks
    ensures var stamped := StampedTask(states[k].tasks[t], actions[k].now);
      && (t in states[k + 1].tasks ==> states[k + 1].tasks[t] == stamped)
      && (t !in states[k + 1].tasks <==>
            && stamped.state.Terminal()
            && SatSub(actions[k].now, stamped.terminalSince) >= 600_000
            && !InUse(states[k], stamped.output))
  {
    RunInv(h, states, actions, k);
    assert StepAt(h, states, actions, k);
    hide Conserved, QueueMatches, LineageMatches;
    ReapExact(states[k], actions[k].now, actions[k].due);
    StampInUse(states[k], actions[k].now, states[k].tasks[t].output);
  }

  /** A task that the reaper removes at time `T` had been found finished by a run of the reaper at least ten
      minutes before `T`. */
  lemma ReapedAfterRetention(h: Bytes -> Digest, states: seq<State>, actions: seq<Action>, k: nat, t: TaskId)
    returns (j: nat)
    requires IsRun(h, states, actions) && k < |actions| && actions[k].DoReap?
    requires t in states[k].tasks && t !in states[k + 1].tasks
    ensures j < k && actions[j].DoReap? && actions[j].now + 600_000 <= actions[k].now
    ensures t in states[j].tasks && states[j].tasks[t].state.Terminal()
  {
    ReapStep(h, states, actions, k, t);
    RunIsHistory(h, states, actions);
    j := StampHasSource(states, Ticks(actions), k, t);
  }

  ghost predicate ReaperClockNeverRunsBack(actions: seq<Action>)
  {
    forall i, j :: 0 <= i <= j < |actions| && actions[i].DoReap? && actions[j].DoReap? ==>
      actions[i].now <= actions[j].now
  }

  lemma StampedByThen(h: Bytes -> Digest, states: seq<State>, actions: seq<Action>, j: nat, t: TaskId)
    requires IsRun(h, states, actions) && j < |actions| && ReaperClockNeverRunsBack(actions)
    requires actions[j].DoReap? && 0 < actions[j].now
    requires t in states[j].tasks && states[j].tasks[t].state.Terminal() && t in states[j + 1].tasks
    ensures states[j + 1].tasks[t].terminalSince != 0 && states[j + 1].tasks[t].terminalSince <= actions[j].now
  {
    ReapStep(h, states, actions, j, t);
    if states[j].tasks[t].terminalSince != 0 {
      RunIsHistory(h, states, actions);
      var i := StampHasSource(states, Ticks(actions), j, t);
      assert actions[i].DoReap?;
    }
  }

  /** And with a clock that never runs backwards, a task found finished at time `T` is gone after any run of the
      reaper at least ten minutes later, unless an unfinished task still uses its output. */
  lemma ReclaimedByThen(h: Bytes -> Digest, states: seq<State>, actions: seq<Action>, j: nat, k: nat, t: TaskId)
    requires IsRun(h, states, actions) && j < k < |actions| && ReaperClockNeverRunsBack(actions)
    requires actions[j].DoReap? && actions[k].DoReap? && 0 < actions[j].now
    requires actions[j].now + 600_000 <= actions[k].now
    requires t in states[j].tasks && states[j].tasks[t].state.Terminal()
    requires t in states[k].tasks && !InUse(states[k], states[k].tasks[t].output)
    ensures t !in states[k + 1].tasks
  {
    RunIsHistory(h, states, actions);
    assert SoundAt(states, j);
    OverForever(states, Ticks(actions), j, j + 1, t);
    OverForever(states, Ticks(actions), j + 1, k, t);
    StampedByThen(h, states, actions, j, t);
    StampStays(states, Ticks(actions), j + 1, k, t);
    ReapStep(h, states, actions, k, t);
  }
}
