/** The scheduler's bounded scan of a queue with stale entries agrees with a scan of the whole task table. */
module Scheduling {
  import opened Types
  import opened Resources
  import opened Model
  import opened Invariants
  import opened Steps

  // ---------------------------------------------------------------- reference definition

  /** The runnable tasks of `q`, in order, that the worker can (or cannot) serve now. */
  function Select(s: State, w: Worker, now: int, q: seq<TaskId>, servable: bool): (r: seq<TaskId>)
    ensures forall t :: t in r <==> t in q && IsRunnable(s, t) && Servable(s, w, now, t) == servable
  {
    if q == [] then [] else
      var last := q[|q| - 1];
      var init := Select(s, w, now, q[..|q| - 1], servable);
      assert q == q[..|q| - 1] + [last];
      if IsRunnable(s, last) && Servable(s, w, now, last) == servable then init + [last] else init
  }

  /** The tasks the worker could be given now, in queue order. */
  function Candidates(s: State, w: Worker, now: int): seq<TaskId>
  {
    Select(s, w, now, s.runnable, true)
  }

  /** Position of the first candidate with a locally owned input, or the number of candidates. */
  function FirstLocal(s: State, node: NodeId, c: seq<TaskId>): (k: nat)
    ensures k <= |c|
    ensures k < |c| ==> Local(s, node, c[k])
    ensures forall i :: 0 <= i < k ==> !Local(s, node, c[i])
  {
    if c == [] then 0
    else if Local(s, node, c[0]) then 0
    else
      var rest := FirstLocal(s, node, c[1..]);
      assert forall i :: 1 <= i < |c| ==> c[i] == c[1..][i - 1];
      rest + 1
  }

  /** The first local candidate if fewer than 16 others precede it, else the first candidate. */
  function Pick(s: State, node: NodeId, c: seq<TaskId>): Option<TaskId>
  {
    var k := FirstLocal(s, node, c);
    if k < |c| && k < 16 then Some(c[k])
    else if c != [] then Some(c[0])
    else None
  }

  // ---------------------------------------------------------------- selection facts

  lemma SelectedFrom(s: State, w: Worker, now: int, q: seq<TaskId>, servable: bool, i: nat)
    requires i < |Select(s, w, now, q, servable)|
    ensures var t := Select(s, w, now, q, servable)[i];
      t in q && IsRunnable(s, t) && Servable(s, w, now, t) == servable
  {
    var t := Select(s, w, now, q, servable)[i];
    assert t in Select(s, w, now, q, servable);
  }

  lemma {:induction false} SelectConcat(s: State, w: Worker, now: int, a: seq<TaskId>, b: seq<TaskId>, servable: bool)
    ensures Select(s, w, now, a + b, servable) == Select(s, w, now, a, servable) + Select(s, w, now, b, servable)
    decreases |b|
  {
    if b == [] {
      assert a + b == a;
    } else {
      var init := b[..|b| - 1];
      SelectConcat(s, w, now, a, init, servable);
      var last := b[|b| - 1];
      assert (a + b)[..|a + b| - 1] == a + init && (a + b)[|a + b| - 1] == last;
      var before, after := Select(s, w, now, a, servable), Select(s, w, now, init, servable);
      assert before + (after + [last]) == before + after + [last];
    }
  }

  lemma {:induction false} SelectNoDuplicates(s: State, w: Worker, now: int, q: seq<TaskId>, servable: bool)
    requires NoDuplicates(q)
    ensures NoDuplicates(Select(s, w, now, q, servable))
    decreases |q|
  {
    if q != [] {
      var init := q[..|q| - 1];
      var last := q[|q| - 1];
      SelectNoDuplicates(s, w, now, init, servable);
      assert last !in init;
      NoDuplicatesConcat(Select(s, w, now, init, servable), [last]);
    }
  }

  // ---------------------------------------------------------------- the scan

  function PickedSeq(scan: Scan): seq<TaskId>
  {
    if scan.picked.Some? then [scan.picked.value] else []
  }

  /** What the scan knows after `scan.seen` entries. */
  ghost predicate ScanKnows(s: State, node: NodeId, w: Worker, now: int, scan: Scan)
  {
    && scan.seen <= |s.runnable|
    && scan.passed + PickedSeq(scan) == Select(s, w, now, s.runnable[..scan.seen], true)
    && scan.requeue == Select(s, w, now, s.runnable[..scan.seen], false)
    && (forall i :: 0 <= i < |scan.passed| ==> !Local(s, node, scan.passed[i]))
    && (scan.picked.Some? ==> Local(s, node, scan.picked.value) && |scan.passed| < LOCALITY_LOOKAHEAD)
    && |scan.passed| <= LOCALITY_LOOKAHEAD
  }

  lemma ScanEntryKnows(s: State, node: NodeId, w: Worker, now: int, scan: Scan)
    requires ScanKnows(s, node, w, now, scan)
    requires scan.picked.None? && |scan.passed| < LOCALITY_LOOKAHEAD && scan.seen < |s.runnable|
    ensures ScanKnows(s, node, w, now, ScanEntry(s, node, w, now, scan))
  {
    var prefix := s.runnable[..scan.seen + 1];
    assert prefix[..|prefix| - 1] == s.runnable[..scan.seen];
    assert prefix[|prefix| - 1] == s.runnable[scan.seen];
  }

  lemma {:induction false} ScanQueueKnows(s: State, node: NodeId, w: Worker, now: int, scan: Scan)
    requires ScanKnows(s, node, w, now, scan)
    ensures var r := ScanQueue(s, node, w, now, scan);
      && ScanKnows(s, node, w, now, r)
      && (r.picked.Some? || |r.passed| == LOCALITY_LOOKAHEAD || r.seen == |s.runnable|)
    decreases |s.runnable| - scan.seen
  {
    if scan.picked.None? && |scan.passed| < LOCALITY_LOOKAHEAD && scan.seen < |s.runnable| {
      ScanEntryKnows(s, node, w, now, scan);
      ScanQueueKnows(s, node, w, now, ScanEntry(s, node, w, now, scan));
    }
  }

  lemma FullScanKnows(s: State, node: NodeId, w: Worker, now: int)
    ensures var r := FullScan(s, node, w, now);
      && ScanKnows(s, node, w, now, r)
      && (r.picked.Some? || |r.passed| == LOCALITY_LOOKAHEAD || r.seen == |s.runnable|)
  {
    assert s.runnable[..0] == [];
    ScanQueueKnows(s, node, w, now, Scan(0, [], [], None));
  }

  /** The bounded scan picks what the reference picks from the whole queue. */
  lemma ScanPicks(s: State, node: NodeId, w: Worker, now: int)
    ensures Chosen(FullScan(s, node, w, now)) == Pick(s, node, Candidates(s, w, now))
  {
    var r := FullScan(s, node, w, now);
    FullScanKnows(s, node, w, now);
    var c := Candidates(s, w, now);
    var rest := Select(s, w, now, s.runnable[r.seen..], true);
    assert s.runnable == s.runnable[..r.seen] + s.runnable[r.seen..];
    SelectConcat(s, w, now, s.runnable[..r.seen], s.runnable[r.seen..], true);
    assert c == r.passed + PickedSeq(r) + rest;
    assert forall i :: 0 <= i < |r.passed| ==> c[i] == r.passed[i];
    if r.picked.Some? {
      assert c[|r.passed|] == r.picked.value;
      assert FirstLocal(s, node, c) == |r.passed|;
    } else {
      assert FirstLocal(s, node, c) >= |r.passed|;
      if r.seen == |s.runnable| {
        assert s.runnable[r.seen..] == [];
        assert c == r.passed;
      }
    }
  }

  /** Some task anywhere in the table could be given to the worker exactly when the queue holds a candidate. */
  lemma CandidatesCoverTable(s: State, w: Worker, now: int)
    requires QueueMatches(s)
    ensures Candidates(s, w, now) == [] <==> forall t :: t in s.tasks ==> !Servable(s, w, now, t)
  {
    var c := Candidates(s, w, now);
    if c != [] {
      assert c[0] in c;
      assert Servable(s, w, now, c[0]);
    }
    forall t | t in s.tasks && Servable(s, w, now, t) ensures c != [] {
      assert t in c;
    }
  }

  // ---------------------------------------------------------------- the queue afterwards

  /** `q` with every occurrence of `t` left out. */
  function Without(q: seq<TaskId>, t: Option<TaskId>): (r: seq<TaskId>)
    ensures forall x :: x in r <==> x in q && t != Some(x)
  {
    if q == [] then []
    else if t == Some(q[0]) then Without(q[1..], t)
    else [q[0]] + Without(q[1..], t)
  }

  lemma {:induction false} WithoutAbsent(q: seq<TaskId>, t: Option<TaskId>)
    requires t.Some? ==> t.value !in q
    ensures Without(q, t) == q
    decreases |q|
  {
    if q != [] {
      WithoutAbsent(q[1..], t);
    }
  }

  lemma {:induction false} WithoutLast(q: seq<TaskId>, t: TaskId)
    requires t !in q
    ensures Without(q + [t], Some(t)) == q
    decreases |q|
  {
    if q != [] {
      assert (q + [t])[1..] == q[1..] + [t];
      WithoutLast(q[1..], t);
    }
  }

  /** The queue a scheduling step leaves: the candidates it saw but did not choose, in their order,
      then everything it did not look at, then the runnable tasks this worker cannot serve now. */
  lemma QueueAfterIs(s: State, node: NodeId, w: Worker, now: int)
    requires QueueMatches(s)
    ensures var r := FullScan(s, node, w, now);
      && r.seen <= |s.runnable|
      && QueueAfter(s, r) ==
           Without(Select(s, w, now, s.runnable[..r.seen], true), Chosen(r))
           + s.runnable[r.seen..]
           + Select(s, w, now, s.runnable[..r.seen], false)
  {
    var r := FullScan(s, node, w, now);
    FullScanKnows(s, node, w, now);
    var kept := Select(s, w, now, s.runnable[..r.seen], true);
    SelectNoDuplicates(s, w, now, s.runnable[..r.seen], true);
    if r.picked.Some? {
      assert kept == r.passed + [r.picked.value];
      assert kept[|r.passed|] == r.picked.value;
      assert forall i :: 0 <= i < |r.passed| ==> kept[i] == r.passed[i];
      WithoutLast(r.passed, r.picked.value);
    } else if r.passed != [] {
      assert kept == r.passed;
      assert r.passed[0] !in r.passed[1..];
      WithoutAbsent(r.passed[1..], Some(r.passed[0]));
    } else {
      assert kept == [];
    }
  }

  /** The chosen task was among the entries looked at, and is runnable, due and fits the worker. */
  lemma ChosenWasSeen(s: State, node: NodeId, w: Worker, now: int)
    requires Chosen(FullScan(s, node, w, now)).Some?
    ensures var r := FullScan(s, node, w, now);
      r.seen <= |s.runnable| && Chosen(r).value in s.runnable[..r.seen] && Servable(s, w, now, Chosen(r).value)
  {
    var r := FullScan(s, node, w, now);
    FullScanKnows(s, node, w, now);
    var kept := Select(s, w, now, s.runnable[..r.seen], true);
    assert Chosen(r).value == (r.passed + PickedSeq(r))[if r.picked.Some? then |r.passed| else 0];
    assert Chosen(r).value in kept;
  }

  lemma QueueAfterMembers(s: State, node: NodeId, w: Worker, now: int, t: TaskId)
    requires QueueMatches(s)
    ensures var r := FullScan(s, node, w, now);
      r.seen <= |s.runnable| &&
      (t in QueueAfter(s, r) ==> t in s.runnable && Chosen(r) != Some(t)) &&
      (IsRunnable(s, t) && Chosen(r) != Some(t) ==> t in QueueAfter(s, r))
  {
    var r := FullScan(s, node, w, now);
    QueueAfterIs(s, node, w, now);
    assert s.runnable == s.runnable[..r.seen] + s.runnable[r.seen..];
    if Chosen(r) == Some(t) {
      ChosenWasSeen(s, node, w, now);
      assert t !in s.runnable[r.seen..];
    }
  }

  /** Moving distinct entries from the start of a queue to its front or its back duplicates nothing. */
  lemma RequeueNoDuplicates<T>(q: seq<T>, k: nat, front: seq<T>, back: seq<T>)
    requires k <= |q| && NoDuplicates(q) && NoDuplicates(front) && NoDuplicates(back)
    requires forall i :: 0 <= i < |front| ==> front[i] in q[..k] && front[i] !in back
    requires forall i :: 0 <= i < |back| ==> back[i] in q[..k]
    ensures NoDuplicates(front + q[k..] + back)
  {
    forall x | x in q[..k] ensures x !in q[k..] {
      var i :| 0 <= i < k && q[..k][i] == x;
      assert forall j :: 0 <= j < |q[k..]| ==> q[k..][j] == q[k + j];
    }
    NoDuplicatesConcat(front, q[k..]);
    forall x | x in front + q[k..] ensures x !in back {
      assert x in front || x in q[k..];
    }
    NoDuplicatesConcat(front + q[k..], back);
  }

  lemma QueueAfterNoDuplicates(s: State, node: NodeId, w: Worker, now: int)
    requires QueueMatches(s)
    ensures var r := FullScan(s, node, w, now);
      r.seen <= |s.runnable| && NoDuplicates(QueueAfter(s, r))
  {
    var r := FullScan(s, node, w, now);
    FullScanKnows(s, node, w, now);
    var prefix := s.runnable[..r.seen];
    SelectNoDuplicates(s, w, now, prefix, true);
    SelectNoDuplicates(s, w, now, prefix, false);
    var all := Select(s, w, now, prefix, true);
    assert forall i :: 0 <= i < |r.passed| ==> all[i] == r.passed[i];
    var front := if r.picked.Some? || r.passed == [] then r.passed else r.passed[1..];
    assert NoDuplicates(r.passed) by {
      assert forall i, j :: 0 <= i < j < |r.passed| ==> all[i] != all[j];
    }
    assert NoDuplicates(front);
    var skipped := Select(s, w, now, prefix, false);
    assert r.requeue == skipped;
    forall i | 0 <= i < |front| ensures front[i] in prefix && front[i] !in skipped {
      var x := front[i];
      assert x in r.passed && x in all;
      assert x in prefix && Servable(s, w, now, x);
    }
    forall i | 0 <= i < |skipped| ensures skipped[i] in prefix {
      SelectedFrom(s, w, now, prefix, false, i);
    }
    RequeueNoDuplicates(s.runnable, r.seen, front, r.requeue);
  }

  // ---------------------------------------------------------------- assignment keeps the invariant

  /** Shared shape of both outcomes: only the queue, the worker and the chosen task change. */
  lemma AssignQueue(s: State, s': State, node: NodeId, now: int)
    requires QueueMatches(s) && node in s.workers
    requires var r := FullScan(s, node, s.workers[node], now);
      && r.seen <= |s.runnable|
      && s'.runnable == QueueAfter(s, r)
      && s'.born == s.born && s'.tasks.Keys == s.tasks.Keys
      && (forall t :: t in s.tasks && Chosen(r) != Some(t) ==> s'.tasks[t] == s.tasks[t])
      && (Chosen(r).Some? && Chosen(r).value in s.tasks ==> !s'.tasks[Chosen(r).value].state.Runnable?)
    ensures QueueMatches(s')
  {
    var w := s.workers[node];
    var r := FullScan(s, node, w, now);
    QueueAfterNoDuplicates(s, node, w, now);
    forall t | t in s'.runnable
      ensures t in s'.born
      ensures t in s'.tasks ==> s'.tasks[t].state.Runnable? || s'.tasks[t].state.Terminal()
    {
      QueueAfterMembers(s, node, w, now, t);
    }
    forall t | IsRunnable(s', t) ensures t in s'.runnable {
      QueueAfterMembers(s, node, w, now, t);
      assert IsRunnable(s, t);
    }
  }

  lemma BookBalances(s: State, node: NodeId, t: TaskId, lease: LeaseId)
    requires Conserved(s) && node in s.workers && t in s.tasks && s.tasks[t].holder.None?
    requires CanFit(s.workers[node].available, s.tasks[t].resources)
    ensures var s' := Book(s, node, t, lease); Balanced(s'.tasks, s'.workers[node], node)
  {
    hide Balanced;
    var s' := Book(s, node, t, lease);
    var w := s.workers[node];
    forall name { MinusGet(w.available, s.tasks[t].resources, name); }
    JoinBalances(s.tasks, t, s'.tasks[t], w, s'.workers[node], node);
  }

  lemma BookConserves(s: State, node: NodeId, t: TaskId, lease: LeaseId, s': State)
    requires Conserved(s) && node in s.workers && t in s.tasks && s.tasks[t].holder.None?
    requires CanFit(s.workers[node].available, s.tasks[t].resources) && s' == Book(s, node, t, lease)
    ensures Conserved(s')
  {
    hide Balanced;
    forall n | n in s'.workers ensures Balanced(s'.tasks, s'.workers[n], n) {
      if n == node {
        BookBalances(s, node, t, lease);
      } else {
        BalancedElsewhere(s.tasks, t, s'.tasks[t], s.workers[n], n);
      }
    }
  }

  lemma BookKeepsBookings(s: State, node: NodeId, t: TaskId, lease: LeaseId, s': State)
    requires HoldersMatch(s) && WorkersMatch(s) && Conserved(s) && AttemptsMatch(s)
    requires node in s.workers && IsRunnable(s, t) && ChangesOne(s, s', t)
    requires CanFit(s.workers[node].available, s.tasks[t].resources)
    requires s' == Book(s, node, t, lease).(runnable := s'.runnable)
    ensures HoldersMatch(s') && WorkersMatch(s') && Conserved(s') && AttemptsMatch(s')
  {
    hide Conserved;
    OneHolders(s, s', t);
    BookConserves(s, node, t, lease, Book(s, node, t, lease));
    ConservedWithQueue(Book(s, node, t, lease), s');
  }

  /** The queue is no part of conservation. */
  lemma ConservedWithQueue(s: State, s': State)
    requires Conserved(s) && s'.tasks == s.tasks && s'.workers == s.workers
    ensures Conserved(s')
  {
    hide Balanced;
  }

  lemma BookKeepsTables(s: State, node: NodeId, t: TaskId, lease: LeaseId, s': State)
    requires Inv(s) && node in s.workers && IsRunnable(s, t)
    requires CanFit(s.workers[node].available, s.tasks[t].resources)
    requires s' == Book(s, node, t, lease).(runnable := s'.runnable)
    ensures ChangesOne(s, s', t)
    ensures OutputsMatch(s') && ObjectsMatch(s') && LineageMatches(s') && Bounded(s') && SetsMatch(s') && Settled(s')
  {
    hide Conserved, QueueMatches;
    assert ChangesOne(s, s', t);
    assert s'.waiting == s.waiting - {t} && s'.cancelRequested == s.cancelRequested - {t};
    OneTables(s, s', t);
    OneLineage(s, s', t);
    OneSets(s, s', t);
    SettledSame(s, s');
  }

  lemma BookKeeps(s: State, node: NodeId, now: int, lease: LeaseId, t: TaskId, s': State)
    requires Inv(s) && node in s.workers
    requires Chosen(FullScan(s, node, s.workers[node], now)) == Some(t)
    requires IsRunnable(s, t) && CanFit(s.workers[node].available, s.tasks[t].resources)
    requires FullScan(s, node, s.workers[node], now).seen <= |s.runnable|
    requires s' == Book(s, node, t, lease).(runnable := QueueAfter(s, FullScan(s, node, s.workers[node], now)))
    ensures Inv(s')
  {
    hide Conserved, FullScan, Chosen;
    BookKeepsTables(s, node, t, lease, s');
    BookKeepsBookings(s, node, t, lease, s');
    AssignQueue(s, s', node, now);
  }

  lemma IdleKeeps(s: State, node: NodeId, now: int)
    requires Inv(s) && node in s.workers
    requires Chosen(FullScan(s, node, s.workers[node], now)).None?
    requires FullScan(s, node, s.workers[node], now).seen <= |s.runnable|
    ensures Inv(s.(runnable := QueueAfter(s, FullScan(s, node, s.workers[node], now))))
  {
    var s' := s.(runnable := QueueAfter(s, FullScan(s, node, s.workers[node], now)));
    AssignQueue(s, s', node, now);
    SettledSame(s, s');
    assert forall t, u :: Feeds(s', u, t) ==> Feeds(s, u, t);
    assert Conserved(s') by {
      forall n | n in s'.workers ensures Balanced(s'.tasks, s'.workers[n], n) {
        assert Balanced(s.tasks, s.workers[n], n);
      }
    }
  }

  /** The two ways a scheduling step can end for a live worker with a free slot. */
  lemma AssignNextState(s: State, node: NodeId, now: int, lease: LeaseId)
    requires node in s.workers && s.workers[node].state.Alive? && s.workers[node].freeSlots != 0
    ensures var w := s.workers[node];
      var scan := FullScan(s, node, w, now);
      && scan.seen <= |s.runnable|
      && match Chosen(scan)
         case None => AssignNext(s, node, now, lease) == Outcome(s.(runnable := QueueAfter(s, scan)), Ok(None))
         case Some(t) =>
           && Servable(s, w, now, t)
           && var booked := Book(s, node, t, lease).(runnable := QueueAfter(s, scan));
              AssignNext(s, node, now, lease) == Outcome(booked, Ok(Some(AssignmentOf(t, booked.tasks[t], lease))))
  {
    var w := s.workers[node];
    FullScanKnows(s, node, w, now);
    if Chosen(FullScan(s, node, w, now)).Some? {
      ChosenWasSeen(s, node, w, now);
    }
  }

  lemma AssignNextKeeps(s: State, node: NodeId, now: int, lease: LeaseId, s': State)
    requires s' == AssignNext(s, node, now, lease).state
    ensures Inv(s) ==> Inv(s')
  {
    if Inv(s) {
      if node in s.workers && s.workers[node].state.Alive? && s.workers[node].freeSlots != 0 {
        AssignNextState(s, node, now, lease);
        var chosen := Chosen(FullScan(s, node, s.workers[node], now));
        if chosen.Some? {
          BookKeeps(s, node, now, lease, chosen.value, s');
        } else {
          IdleKeeps(s, node, now);
        }
      }
    }
  }

  // ---------------------------------------------------------------- the choice, told from the queue

  /** The task is runnable and due, the worker offers its operation, and its demand fits what is free. */
  predicate MayTake(s: State, w: Worker, now: int, t: TaskId)
  {
    && t in s.tasks && s.tasks[t].state == Runnable && s.tasks[t].notBefore <= now
    && s.tasks[t].operation in w.operations
    && forall name :: name in s.tasks[t].resources ==> s.tasks[t].resources[name] <= Get(w.available, name)
  }

  /** The worker owns the object behind one of the task's arguments. */
  predicate OwnsInput(s: State, node: NodeId, t: TaskId)
  {
    && t in s.tasks
    && exists k :: 0 <= k < |s.tasks[t].args| && s.tasks[t].args[k].ObjectArg?
         && s.tasks[t].args[k].id in s.objects && s.objects[s.tasks[t].args[k].id].owner == Some(node)
  }

  /** How many tasks the worker could take stand before position `j` of the queue. */
  function Ahead(s: State, w: Worker, now: int, j: nat): nat
    requires j <= |s.runnable|
  {
    if j == 0 then 0 else Ahead(s, w, now, j - 1) + if MayTake(s, w, now, s.runnable[j - 1]) then 1 else 0
  }

  /** Position `j` is the first the worker could take and owns an input of, with fewer than 16 others before it; or,
      where there is none such, simply the first it could take. */
  ghost predicate RightChoice(s: State, node: NodeId, w: Worker, now: int, j: nat)
    requires j < |s.runnable|
  {
    var q := s.runnable;
    && MayTake(s, w, now, q[j])
    && (|| (&& OwnsInput(s, node, q[j]) && Ahead(s, w, now, j) < 16
            && forall i :: 0 <= i < j && MayTake(s, w, now, q[i]) ==> !OwnsInput(s, node, q[i]))
        || (&& Ahead(s, w, now, j) == 0
            && forall i :: 0 <= i < |q| && MayTake(s, w, now, q[i]) && OwnsInput(s, node, q[i]) ==>
                 Ahead(s, w, now, i) >= 16))
  }

  lemma ServableMeans(s: State, node: NodeId, w: Worker, now: int, t: TaskId)
    ensures Servable(s, w, now, t) <==> MayTake(s, w, now, t)
    ensures Local(s, node, t) <==> OwnsInput(s, node, t)
  {
    if OwnsInput(s, node, t) {
      var k :| 0 <= k < |s.tasks[t].args| && s.tasks[t].args[k].ObjectArg?
        && s.tasks[t].args[k].id in s.objects && s.objects[s.tasks[t].args[k].id].owner == Some(node);
      assert s.tasks[t].args[k] in s.tasks[t].args;
      assert s.tasks[t].args[k].id in Deps(s.tasks[t]);
    }
  }

  lemma {:induction false} AheadIsSelected(s: State, node: NodeId, w: Worker, now: int, j: nat)
    requires j <= |s.runnable|
    ensures |Select(s, w, now, s.runnable[..j], true)| == Ahead(s, w, now, j)
    decreases j
  {
    if j > 0 {
      AheadIsSelected(s, node, w, now, j - 1);
      ServableMeans(s, node, w, now, s.runnable[j - 1]);
      assert s.runnable[..j][..j - 1] == s.runnable[..j - 1];
    }
  }

  /** A task the worker could take is the candidate numbered by those before it. */
  lemma CandidateAt(s: State, node: NodeId, w: Worker, now: int, j: nat)
    requires j < |s.runnable| && MayTake(s, w, now, s.runnable[j])
    ensures var c := Candidates(s, w, now);
      Ahead(s, w, now, j) < |c| && c[Ahead(s, w, now, j)] == s.runnable[j]
  {
    var q := s.runnable;
    AheadIsSelected(s, node, w, now, j);
    ServableMeans(s, node, w, now, q[j]);
    SelectMore(s, w, now, q, j);
    SelectConcat(s, w, now, q[..j + 1], q[j + 1..], true);
    assert q == q[..j + 1] + q[j + 1..];
    hide Select, Ahead, MayTake, Servable;
  }

  lemma SelectMore(s: State, w: Worker, now: int, q: seq<TaskId>, j: nat)
    requires j < |q| && Servable(s, w, now, q[j])
    ensures Select(s, w, now, q[..j + 1], true) == Select(s, w, now, q[..j], true) + [q[j]]
  {
    assert q[..j + 1][..j] == q[..j];
  }

  lemma PickIsRight(s: State, node: NodeId, w: Worker, now: int, t: TaskId) returns (j: nat)
    requires NoDuplicates(s.runnable) && Pick(s, node, Candidates(s, w, now)) == Some(t)
    ensures j < |s.runnable| && s.runnable[j] == t && RightChoice(s, node, w, now, j)
  {
    hide Servable, Local, MayTake, OwnsInput, Ahead;
    var c := Candidates(s, w, now);
    SelectNoDuplicates(s, w, now, s.runnable, true);
    var k := FirstLocal(s, node, c);
    assert t in c;
    j :| 0 <= j < |s.runnable| && s.runnable[j] == t;
    ServableMeans(s, node, w, now, t);
    CandidateAt(s, node, w, now, j);
    forall i | 0 <= i < |s.runnable| && MayTake(s, w, now, s.runnable[i])
      ensures Ahead(s, w, now, i) < |c| && c[Ahead(s, w, now, i)] == s.runnable[i]
      ensures OwnsInput(s, node, s.runnable[i]) ==> k <= Ahead(s, w, now, i)
      ensures i < j ==> Ahead(s, w, now, i) <= Ahead(s, w, now, j)
    {
      CandidateAt(s, node, w, now, i);
      ServableMeans(s, node, w, now, s.runnable[i]);
      if i < j {
        AheadGrows(s, w, now, i, j);
      }
    }
  }

  lemma {:induction false} AheadGrows(s: State, w: Worker, now: int, i: nat, j: nat)
    requires i <= j <= |s.runnable|
    ensures Ahead(s, w, now, i) <= Ahead(s, w, now, j)
    decreases j
  {
    if i < j {
      AheadGrows(s, w, now, i, j - 1);
    }
  }

  // ---------------------------------------------------------------- the main result

  /** The assignment carries the task's own job. */
  predicate CarriesJob(a: TaskAssignment, task: Task)
  {
    a.operation == task.operation && a.args == task.args && a.output == task.output && a.resources == task.resources
  }

  /** The scan agrees with the queue as a whole, and the queue with the table. */
  lemma AssignChooses(s: State, node: NodeId, now: int, lease: LeaseId)
    requires Inv(s) && node in s.workers && s.workers[node].state.Alive? && s.workers[node].freeSlots != 0
    ensures var w := s.workers[node];
      var out := AssignNext(s, node, now, lease);
      && out.reply.Ok?
      && (out.reply.value.None? <==> forall t :: t in s.tasks ==> !MayTake(s, w, now, t))
      && (out.reply.value.Some? ==>
            exists j :: 0 <= j < |s.runnable| && s.runnable[j] == out.reply.value.value.fence.task
              && RightChoice(s, node, w, now, j))
  {
    hide Conserved, LineageMatches, ObjectsMatch, OutputsMatch, HoldersMatch, RightChoice, MayTake, FullScan;
    var w := s.workers[node];
    AssignNextState(s, node, now, lease);
    ScanPicks(s, node, w, now);
    CandidatesCoverTable(s, w, now);
    hide Servable;
    forall t ensures Servable(s, w, now, t) <==> MayTake(s, w, now, t) {
      ServableMeans(s, node, w, now, t);
    }
    if Chosen(FullScan(s, node, w, now)).Some? {
      var j := PickIsRight(s, node, w, now, Chosen(FullScan(s, node, w, now)).value);
    }
  }

  /** What is handed out is the task's own job, and it is booked for the worker and nothing else. */
  lemma AssignBooks(s: State, node: NodeId, now: int, lease: LeaseId)
    requires Inv(s) && node in s.workers && s.workers[node].state.Alive? && s.workers[node].freeSlots != 0
    ensures var w := s.workers[node];
      var out := AssignNext(s, node, now, lease);
      && (out.reply.Ok? && out.reply.value.None? ==> out.state == s.(runnable := out.state.runnable))
      && (out.reply.Ok? && out.reply.value.Some? ==>
            var a := out.reply.value.value;
            var t := a.fence.task;
            && t in s.tasks && t in out.state.tasks && CarriesJob(a, s.tasks[t])
            && a.fence == TaskFence(t, s.tasks[t].attempt + 1, lease)
            && s.tasks[t].attempt + 1 <= s.tasks[t].maxAttempts
            && out.state.tasks == s.tasks[t := s.tasks[t].(
                 state := Assigned, attempt := s.tasks[t].attempt + 1,
                 holder := Some(Assignment(node, w.identity.workerEpoch, w.identity.session, lease)))]
            && out.state.objects == s.objects && out.state.workers.Keys == s.workers.Keys
            && (forall n :: n in s.workers && n != node ==> out.state.workers[n] == s.workers[n])
            && out.state.workers[node].freeSlots == w.freeSlots - 1
            && forall name :: Get(out.state.workers[node].available, name)
                              == Get(w.available, name) - Get(s.tasks[t].resources, name))
  {
    hide Conserved, LineageMatches, ObjectsMatch, OutputsMatch, HoldersMatch, QueueMatches, FullScan, Minus, Get;
    var w := s.workers[node];
    AssignNextState(s, node, now, lease);
    if Chosen(FullScan(s, node, w, now)).Some? {
      var t := Chosen(FullScan(s, node, w, now)).value;
      forall name ensures Get(Minus(w.available, s.tasks[t].resources), name)
                          == Get(w.available, name) - Get(s.tasks[t].resources, name) {
        MinusGet(w.available, s.tasks[t].resources, name);
      }
    }
  }

  /** For a live worker with a free slot, scheduling never fails; it finds nothing exactly when no task
      anywhere in the table is runnable, due and servable; and otherwise it hands out the right choice of the queue,
      under the next attempt number and the drawn lease, with the task's own job, and books it for the worker. */
  lemma AssignAgreesWithTable(s: State, node: NodeId, now: int, lease: LeaseId)
    requires Inv(s) && node in s.workers && s.workers[node].state.Alive? && s.workers[node].freeSlots != 0
    ensures var w := s.workers[node];
      var out := AssignNext(s, node, now, lease);
      && out.reply.Ok?
      && (out.reply.value.None? <==> forall t :: t in s.tasks ==> !MayTake(s, w, now, t))
      && (out.reply.value.None? ==> out.state == s.(runnable := out.state.runnable))
      && (out.reply.value.Some? ==>
            var a := out.reply.value.value;
            var t := a.fence.task;
            && (exists j :: 0 <= j < |s.runnable| && s.runnable[j] == t && RightChoice(s, node, w, now, j))
            && t in s.tasks && t in out.state.tasks && CarriesJob(a, s.tasks[t])
            && a.fence == TaskFence(t, s.tasks[t].attempt + 1, lease)
            && s.tasks[t].attempt + 1 <= s.tasks[t].maxAttempts
            && out.state.tasks == s.tasks[t := s.tasks[t].(
                 state := Assigned, attempt := s.tasks[t].attempt + 1,
                 holder := Some(Assignment(node, w.identity.workerEpoch, w.identity.session, lease)))]
            && out.state.objects == s.objects && out.state.workers.Keys == s.workers.Keys
            && (forall n :: n in s.workers && n != node ==> out.state.workers[n] == s.workers[n])
            && out.state.workers[node].freeSlots == w.freeSlots - 1
            && forall name :: Get(out.state.workers[node].available, name)
                              == Get(w.available, name) - Get(s.tasks[t].resources, name))
  {
    hide Inv, AssignNext, RightChoice, MayTake, CarriesJob;
    AssignChooses(s, node, now, lease);
    AssignBooks(s, node, now, lease);
  }
}
