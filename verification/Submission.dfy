/** Submission, told from the call and the tables alone: when a task is accepted, and exactly what is filed for it. */
module Submission {
  import opened Types
  import opened Resources
  import opened Model

  /** The operation can take this argument, given what is stored. */
  predicate Usable(s: State, d: OperationDescriptor, arg: TaskArg)
  {
    match arg
    case Inline(codec, bytes) => codec == d.inputCodec && |bytes| <= d.maxInlineArgBytes
    case ObjectArg(id) =>
      && id in s.objects
      && (s.objects[id].codec == None || s.objects[id].codec == Some(d.inputCodec))
      && (s.objects[id].state == Reserved || s.objects[id].state == Available)
  }

  /** Some live worker offers the operation and is large enough when idle. */
  predicate SomeoneCould(s: State, op: OperationKey, resources: ResourceSet)
  {
    exists n :: n in s.workers && s.workers[n].state == Alive && op in s.workers[n].operations
      && forall name :: name in resources ==> resources[name] <= Get(s.workers[n].total, name)
  }

  predicate Acceptable(s: State, op: OperationKey, args: seq<TaskArg>, resources: ResourceSet, maxAttempts: int)
  {
    && maxAttempts != 0 && |s.tasks| < 16_384 && |s.objects| < 65_536
    && op in s.operations && SomeoneCould(s, op, resources)
    && forall k :: 0 <= k < |args| ==> Usable(s, s.operations[op], args[k])
  }

  /** Some input is still to be produced. */
  predicate MustWait(s: State, args: seq<TaskArg>)
  {
    exists k :: 0 <= k < |args| && args[k].ObjectArg? && args[k].id in s.objects
      && s.objects[args[k].id].state == Reserved
  }

  lemma {:induction false} InlineMeans(s: State, d: OperationDescriptor, args: seq<TaskArg>)
    ensures InlineError(d, args).None? <==>
      forall k :: 0 <= k < |args| && args[k].Inline? ==> Usable(s, d, args[k])
    decreases |args|
  {
    if args != [] {
      var init := args[..|args| - 1];
      InlineMeans(s, d, init);
      assert forall k :: 0 <= k < |init| ==> args[k] == init[k];
      assert InlineError(d, args).None? ==> Usable(s, d, args[|args| - 1]) || args[|args| - 1].ObjectArg?;
    }
  }

  lemma {:induction false} ScanMeans(s: State, d: OperationDescriptor, args: seq<TaskArg>)
    ensures ScanArgs(s, d, args).Ok? <==>
      forall k :: 0 <= k < |args| && args[k].ObjectArg? ==> Usable(s, d, args[k])
    ensures ScanArgs(s, d, args).Ok? ==> (ScanArgs(s, d, args).value <==> MustWait(s, args))
    decreases |args|
  {
    if args != [] {
      var init, last := args[..|args| - 1], args[|args| - 1];
      ScanMeans(s, d, init);
      assert forall k :: 0 <= k < |init| ==> args[k] == init[k];
      assert MustWait(s, args) <==> MustWait(s, init) || MustWait(s, [last]) by {
        assert [last][0] == args[|args| - 1];
      }
    }
  }

  /** A submission is accepted exactly when its operation, arguments and demand are; a refusal changes nothing. */
  lemma SubmitAcceptedIff(s: State, op: OperationKey, args: seq<TaskArg>, resources: ResourceSet, maxAttempts: int,
                          id: TaskId, output: ObjectId)
    ensures var out := Submit(s, op, args, resources, maxAttempts, id, output);
      && (out.reply.Ok? <==> Acceptable(s, op, args, resources, maxAttempts))
      && (out.reply.Err? ==> out.state == s)
  {
    hide InlineError, ScanArgs;
    if op in s.operations {
      InlineMeans(s, s.operations[op], args);
      ScanMeans(s, s.operations[op], args);
    }
    assert SomeWorkerFits(s, op, resources) <==> SomeoneCould(s, op, resources);
  }

  /** The task as it is filed: the job of the call, no attempt yet, and nobody holding it. */
  predicate FiledAs(task: Task, op: OperationKey, args: seq<TaskArg>, output: ObjectId, resources: ResourceSet,
                    maxAttempts: int)
  {
    && task.operation == op && task.args == args && task.output == output
    && task.resources == resources && task.maxAttempts == maxAttempts
    && task.attempt == 0 && task.holder == None && task.notBefore == 0 && task.terminalSince == 0
  }

  /** An accepted task is filed with exactly the job of the call and its output is reserved under the operation's
      output codec. It waits exactly when an input is still to be produced and otherwise joins the end of the queue.
      Nothing else changes. */
  lemma SubmitFiles(s: State, op: OperationKey, args: seq<TaskArg>, resources: ResourceSet, maxAttempts: int,
                    id: TaskId, output: ObjectId)
    requires Acceptable(s, op, args, resources, maxAttempts)
    ensures var out := Submit(s, op, args, resources, maxAttempts, id, output);
      var s' := out.state;
      && out.reply == Ok((id, output))
      && id in s'.tasks && FiledAs(s'.tasks[id], op, args, output, resources, maxAttempts)
      && s'.tasks[id].state == (if MustWait(s, args) then Waiting else Runnable)
      && s'.objects == s.objects[output := ObjectRecord(Reserved, Some(s.operations[op].outputCodec), None, None, None,
                                                        None, None)]
      && s'.tasks == s.tasks[id := s'.tasks[id]]
      && s'.waiting == s.waiting + (if MustWait(s, args) then {id} else {})
      && s'.runnable == s.runnable + (if MustWait(s, args) then [] else [id])
      && s'.workers == s.workers && s'.operations == s.operations && s'.epoch == s.epoch
      && s'.pendingDeletes == s.pendingDeletes && s'.cancelRequested == s.cancelRequested
  {
    hide InlineError, ScanArgs, SomeWorkerFits;
    SubmitAcceptedIff(s, op, args, resources, maxAttempts, id, output);
    ScanMeans(s, s.operations[op], args);
  }

  /** A refusal names a true reason. */
  lemma SubmitErrorsAreTrue(s: State, op: OperationKey, args: seq<TaskArg>, resources: ResourceSet, maxAttempts: int,
                            id: TaskId, output: ObjectId)
    requires Submit(s, op, args, resources, maxAttempts, id, output).reply.Err?
    ensures match Submit(s, op, args, resources, maxAttempts, id, output).reply.error
      case IllegalTransition(_) => maxAttempts == 0
      case CapacityExceeded(_) => |s.tasks| >= 16_384 || |s.objects| >= 65_536
      case OperationUnavailable(key) => key == op && op !in s.operations
      case InvalidResource(_) => !SomeoneCould(s, op, resources)
      case ObjectNotFound(o) => ObjectArg(o) in args && o !in s.objects
      case DependencyFailed(o) =>
        ObjectArg(o) in args && o in s.objects
        && s.objects[o].state != Reserved && s.objects[o].state != Available
      case Protocol(_) => op in s.operations && exists k :: 0 <= k < |args| && !Usable(s, s.operations[op], args[k])
      case _ => false
  {
    SubmitAcceptedIff(s, op, args, resources, maxAttempts, id, output);
    hide ScanArgs, InlineError;
    assert SomeWorkerFits(s, op, resources) <==> SomeoneCould(s, op, resources);
    if op in s.operations {
      InlineMeans(s, s.operations[op], args);
      ScanMeans(s, s.operations[op], args);
      InlineErrorIs(s.operations[op], args);
      if ScanArgs(s, s.operations[op], args).Err? {
        ScanErrorIs(s, s.operations[op], args);
      }
    }
  }

  lemma {:induction false} InlineErrorIs(d: OperationDescriptor, args: seq<TaskArg>)
    ensures InlineError(d, args).Some? ==> InlineError(d, args).value.Protocol?
    decreases |args|
  {
    if args != [] {
      InlineErrorIs(d, args[..|args| - 1]);
    }
  }

  lemma {:induction false} ScanErrorIs(s: State, d: OperationDescriptor, args: seq<TaskArg>)
    requires ScanArgs(s, d, args).Err?
    ensures match ScanArgs(s, d, args).error
      case ObjectNotFound(o) => ObjectArg(o) in args && o !in s.objects
      case DependencyFailed(o) =>
        ObjectArg(o) in args && o in s.objects
        && s.objects[o].state != Reserved && s.objects[o].state != Available
      case Protocol(_) => true
      case _ => false
    decreases |args|
  {
    var init, last := args[..|args| - 1], args[|args| - 1];
    assert args == init + [last];
    if ScanArgs(s, d, init).Err? {
      ScanErrorIs(s, d, init);
    } else {
      assert last in args && last.ObjectArg? && last == ObjectArg(last.id);
    }
  }
}
