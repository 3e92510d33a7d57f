/** The executor protocol shared by every task-group executor (AbstractTaskGroupExecutor):
    invoker confinement, submission in order, awaiting in order, cancel-all on failure and
    the suspended flag. The pure functions first say what one batch call does; the class
    then implements it step by step and is proved against them. */
module TaskGroup {
  import opened Failures
  import opened Concurrent

  const NON_INVOKER_MESSAGE: string := "Cannot run operation on non-invoker thread"
  const SHUT_DOWN_SERVICE_MESSAGE: string := "Cannot instantiate executor with shut down service"

  /** The task collection of one call, in iteration order; `None` is a null element. */
  type Batch<T> = seq<Option<Task<T>>>

  /** One interaction of a batch with the pool, tagged with the value of `isSuspended`
      at that moment (what a thread polling `isSuspended()` would read). */
  datatype Action = Submission | Awaiting
  datatype Step = Step(action: Action, taskId: nat, suspended: bool)

  // ---------------------------------------------------------------------------------------
  // What a batch does
  // ---------------------------------------------------------------------------------------

  /** The tasks before the first null element. */
  function Present<T>(ts: Batch<T>): (p: seq<Task<T>>)
    ensures |p| <= |ts|
    ensures forall i :: 0 <= i < |p| ==> ts[i] == Some(p[i])
    ensures |p| < |ts| ==> ts[|p|].None?
  {
    if ts == [] || ts[0].None? then [] else [ts[0].value] + Present(ts[1..])
  }

  /** The three properties of `Present` pin it down. */
  lemma PresentUnique<T>(ts: Batch<T>, p: seq<Task<T>>)
    requires |p| <= |ts|
    requires forall i :: 0 <= i < |p| ==> ts[i] == Some(p[i])
    requires |p| < |ts| ==> ts[|p|].None?
    ensures Present(ts) == p
  {
    var q := Present(ts);
    assert forall i :: 0 <= i < |p| ==> Some(q[i]) == ts[i] == Some(p[i]);
  }

  /** The tasks the pool accepts: a shut-down pool accepts none; otherwise every task up to
      the first null element, whose `requireNonNull` throws before `submit` is reached. */
  function Submitted<T>(shutdown: bool, ts: Batch<T>): seq<Task<T>>
  {
    if shutdown then [] else Present(ts)
  }

  /** The throwable, if any, that ends the submission loop. */
  function SubmissionFailure<T>(shutdown: bool, ts: Batch<T>): Option<Exception>
  {
    var k := |Submitted(shutdown, ts)|;
    if k < |ts| then Some(if ts[k].None? then NullPointer("task") else RejectedExecution) else None
  }

  /** The position of the first task whose handle does not yield a value, or |ts|. */
  function FirstFailure<T>(ts: seq<Task<T>>): (j: nat)
    ensures j <= |ts|
    ensures forall i :: 0 <= i < j ==> ts[i].outcome.Returns?
    ensures j < |ts| ==> !ts[j].outcome.Returns?
  {
    if ts == [] || !ts[0].outcome.Returns? then 0 else 1 + FirstFailure(ts[1..])
  }

  function Values<T>(ts: seq<Task<T>>): (vs: seq<T>)
    requires forall i :: 0 <= i < |ts| ==> ts[i].outcome.Returns?
  {
    seq(|ts|, i requires 0 <= i < |ts| => ts[i].outcome.value)
  }

  /** Awaiting the handles strictly in submission order: the first failing `get` decides. */
  function AwaitInOrder<T>(ts: seq<Task<T>>): Result<seq<T>>
  {
    var j := FirstFailure(ts);
    if j < |ts| then Failure(Await(ts[j].outcome).error) else Success(Values(ts))
  }

  /** How many `get` calls awaiting in order makes: up to and including the first failing one. */
  function AwaitedCount<T>(ts: seq<Task<T>>): (n: nat)
    ensures n <= |ts|
  {
    var j := FirstFailure(ts);
    if j < |ts| then j + 1 else j
  }

  /** The outcome of `computeAll(tasks)` called by the invoker (`isInvoker`) or not, on a pool
      that is shut down or not. The null check on the collection comes before the invoker check. */
  function BatchResult<T>(isInvoker: bool, shutdown: bool, tasks: Option<Batch<T>>): Result<seq<T>>
  {
    if tasks.None? then Failure(NullPointer("tasks"))
    else if !isInvoker then Failure(IllegalState(NON_INVOKER_MESSAGE))
    else match SubmissionFailure(shutdown, tasks.value)
      case Some(e) => Failure(e)
      case None => AwaitInOrder(Submitted(shutdown, tasks.value))
  }

  /** `invokeAll` reports the same outcome with the values thrown away. */
  function Discard<T>(r: Result<seq<T>>): (d: Result<()>)
    ensures d.Success? <==> r.Success?
    ensures r.Failure? ==> d == Failure(r.error)
  {
    match r
    case Success(_) => Success(())
    case Failure(e) => Failure(e)
  }

  function Steps<T>(action: Action, ts: seq<Task<T>>): (s: seq<Step>)
    ensures |s| == |ts|
    ensures forall i :: 0 <= i < |ts| ==> s[i] == Step(action, ts[i].id, true)
  {
    if ts == [] then [] else Steps(action, ts[..|ts| - 1]) + [Step(action, ts[|ts| - 1].id, true)]
  }

  /** The pool interactions of a batch called by the invoker: every accepted submission in
      order, then (if submission completed) the `get` calls in the same order, all while
      suspended. */
  function BatchSteps<T>(shutdown: bool, ts: Batch<T>): seq<Step>
  {
    var s := Submitted(shutdown, ts);
    Steps(Submission, s) + if SubmissionFailure(shutdown, ts).None? then Steps(Awaiting, s[..AwaitedCount(s)]) else []
  }

  /** The pool records of the handles of `ts`, in order, with the given cancellation state. */
  function Records<T>(ts: seq<Task<T>>, cancelled: bool): (hs: seq<HandleState>)
    ensures |hs| == |ts| && forall i :: 0 <= i < |ts| ==> hs[i] == HandleState(ts[i].id, cancelled)
  {
    seq(|ts|, i requires 0 <= i < |ts| => HandleState(ts[i].id, cancelled))
  }

  function TasksOf<T>(futures: seq<Future<T>>): (ts: seq<Task<T>>)
    ensures |ts| == |futures| && forall m :: 0 <= m < |futures| ==> ts[m] == futures[m].task
  {
    seq(|futures|, m requires 0 <= m < |futures| => futures[m].task)
  }

  lemma RecordsSnoc<T>(ts: seq<Task<T>>, t: Task<T>, cancelled: bool)
    ensures Records(ts + [t], cancelled) == Records(ts, cancelled) + [HandleState(t.id, cancelled)]
  {
    assert forall i :: 0 <= i < |ts| ==> (ts + [t])[i] == ts[i];
  }

  lemma TasksOfSnoc<T>(futures: seq<Future<T>>, f: Future<T>)
    ensures TasksOf(futures + [f]) == TasksOf(futures) + [f.task]
  {
    assert forall i :: 0 <= i < |futures| ==> (futures + [f])[i] == futures[i];
  }

  lemma StepsSnoc<T>(action: Action, ts: seq<Task<T>>, t: Task<T>)
    ensures Steps(action, ts + [t]) == Steps(action, ts) + [Step(action, t.id, true)]
  {
    assert (ts + [t])[..|ts|] == ts;
  }

  /** What the submission loop has done so far, starting from pool records `base` and history
      `start`: the handles in `futures` sit at consecutive positions after `base`, their records
      follow `base` uncancelled, and each submission is on the history, in order. */
  ghost predicate Accepted<T>(pool: Pool, base: seq<HandleState>, start: seq<Step>,
                              futures: seq<Future<T>>, handles: seq<HandleState>, history: seq<Step>)
  {
    && (forall m :: 0 <= m < |futures| ==> futures[m].pool == pool && futures[m].index == |base| + m)
    && handles == base + Records(TasksOf(futures), false)
    && history == start + Steps(Submission, TasksOf(futures))
  }

  lemma AcceptedSnoc<T>(pool: Pool, base: seq<HandleState>, start: seq<Step>,
                        futures: seq<Future<T>>, handles: seq<HandleState>, history: seq<Step>, f: Future<T>)
    requires Accepted(pool, base, start, futures, handles, history)
    requires f.pool == pool && f.index == |handles|
    ensures Accepted(pool, base, start, futures + [f], handles + [HandleState(f.task.id, false)],
                     history + [Step(Submission, f.task.id, true)])
  {
    TasksOfSnoc(futures, f);
    RecordsSnoc(TasksOf(futures), f.task, false);
    StepsSnoc(Submission, TasksOf(futures), f.task);
    assert forall m :: 0 <= m < |futures| ==> (futures + [f])[m] == futures[m];
  }

  function IndicesOf<T>(futures: seq<Future<T>>): set<nat>
  {
    set m | 0 <= m < |futures| :: futures[m].index
  }

  /** Cancelling the handles at positions |base|.. of the records leaves the same tasks in the
      same places, all now cancelled. */
  lemma CancelledRecords<T>(base: seq<HandleState>, futures: seq<Future<T>>,
                            submitted: seq<HandleState>, after: seq<HandleState>)
    requires forall m :: 0 <= m < |futures| ==> futures[m].index == |base| + m
    requires submitted == base + Records(TasksOf(futures), false)
    requires |after| == |submitted|
    requires forall m :: 0 <= m < |futures| ==> after[futures[m].index].cancelled
    requires forall i :: 0 <= i < |after| ==> after[i].taskId == submitted[i].taskId
    requires forall i :: 0 <= i < |after| && i !in IndicesOf(futures) ==> after[i] == submitted[i]
    ensures after == base + Records(TasksOf(futures), true)
  {
    var expected := base + Records(TasksOf(futures), true);
    forall i | 0 <= i < |after|
      ensures after[i] == expected[i]
    {
      if i >= |base| {
        assert futures[i - |base|].index == i;
      } else {
        assert i !in IndicesOf(futures);
      }
    }
  }

  /** Submitting in order and then, if every submission went through, awaiting in order is
      what `BatchResult` and `BatchSteps` describe. */
  lemma SubmitThenAwait<T>(shutdown: bool, ts: Batch<T>, accepted: seq<Task<T>>, failure: Option<Exception>,
                           r: Result<seq<T>>, start: seq<Step>, submitted: seq<Step>, finish: seq<Step>)
    requires failure == SubmissionFailure(shutdown, ts) && accepted == Submitted(shutdown, ts)
    requires submitted == start + Steps(Submission, accepted)
    requires failure.Some? ==> r == Failure(failure.value) && finish == submitted
    requires failure.None? ==>
      r == AwaitInOrder(accepted) && finish == submitted + Steps(Awaiting, accepted[..AwaitedCount(accepted)])
    ensures r == BatchResult(true, shutdown, Some(ts))
    ensures finish == start + BatchSteps(shutdown, ts)
  {
  }

  // ---------------------------------------------------------------------------------------
  // Properties of a batch
  // ---------------------------------------------------------------------------------------

  /** A batch succeeds exactly when the invoker calls it with a non-null collection of
      non-null tasks that all return a value, and the pool is running (or the batch is empty). */
  lemma SucceedsIff<T>(isInvoker: bool, shutdown: bool, tasks: Option<Batch<T>>)
    ensures BatchResult(isInvoker, shutdown, tasks).Success? <==>
      && isInvoker && tasks.Some?
      && (shutdown ==> tasks.value == [])
      && forall i :: 0 <= i < |tasks.value| ==> tasks.value[i].Some? && tasks.value[i].value.outcome.Returns?
  {
    if tasks.Some? && isInvoker {
      var ts := tasks.value;
      if !shutdown && forall i :: 0 <= i < |ts| ==> ts[i].Some? {
        var p := Present(ts);
        if FirstFailure(p) < |p| {
          assert ts[FirstFailure(p)] == Some(p[FirstFailure(p)]);
        }
      }
    }
  }

  /** On success the result has one element per task and the i-th element is the value of
      the i-th task, whatever order the tasks finished in. */
  lemma ResultsInSubmissionOrder<T>(shutdown: bool, tasks: Option<Batch<T>>)
    requires BatchResult(true, shutdown, tasks).Success?
    ensures tasks.Some?
    ensures var vs := BatchResult(true, shutdown, tasks).value;
      && |vs| == |tasks.value|
      && forall i :: 0 <= i < |vs| ==> tasks.value[i] == Some(Task(tasks.value[i].value.id, Returns(vs[i])))
  {
    var ts := tasks.value;
    var p := Submitted(shutdown, ts);
    assert |p| == |ts|;
  }

  /** A batch reports success only after every task was submitted and then awaited, in order:
      the steps are exactly one submission and one `get` per task. */
  lemma SuccessAwaitsEveryTask<T>(shutdown: bool, ts: Batch<T>)
    requires BatchResult(true, shutdown, Some(ts)).Success?
    ensures var s := BatchSteps(shutdown, ts);
      && |s| == 2 * |ts|
      && forall i :: 0 <= i < |ts| ==>
           && s[i] == Step(Submission, ts[i].value.id, true)
           && s[|ts| + i] == Step(Awaiting, ts[i].value.id, true)
  {
    var sub := Submitted(shutdown, ts);
    assert |sub| == |ts|;
    assert AwaitedCount(sub) == |sub|;
    assert sub[..AwaitedCount(sub)] == sub;
    StepsInSubmissionOrder(shutdown, ts);
  }

  /** When every task is non-null and the pool runs, the failure raised is the one of the
      first failing task in submission order, even if a later task failed earlier in time. */
  lemma FailureOfFirstFailingTask<T>(ts: Batch<T>, j: nat)
    requires forall i :: 0 <= i < |ts| ==> ts[i].Some?
    requires j < |ts| && !ts[j].value.outcome.Returns?
    requires forall i :: 0 <= i < j ==> ts[i].value.outcome.Returns?
    ensures BatchResult(true, false, Some(ts)) == Failure(Await(ts[j].value.outcome).error)
    ensures |BatchSteps(false, ts)| == |ts| + j + 1
  {
    var p := Present(ts);
    assert ts[j] == Some(p[j]);
    assert forall i :: 0 <= i < j ==> ts[i] == Some(p[i]);
    assert FirstFailure(p) == j;
  }

  /** A null element is found mid-loop: the tasks before it were already submitted, none
      after it, and the batch fails with a NullPointerException before any `get`. */
  lemma NullElementFailsAfterEarlierSubmissions<T>(ts: Batch<T>, k: nat)
    requires k < |ts| && ts[k].None?
    requires forall i :: 0 <= i < k ==> ts[i].Some?
    ensures BatchResult(true, false, Some(ts)) == Failure(NullPointer("task"))
    ensures |Submitted(false, ts)| == k
    ensures forall i :: 0 <= i < k ==> Some(Submitted(false, ts)[i]) == ts[i]
    ensures BatchSteps(false, ts) == Steps(Submission, Submitted(false, ts))
  {
  }

  /** After shutdown, a batch whose first element is a task is rejected without any task
      reaching the pool. */
  lemma ShutdownRejects<T>(ts: Batch<T>)
    requires |ts| > 0 && ts[0].Some?
    ensures BatchResult(true, true, Some(ts)) == Failure(RejectedExecution)
    ensures Submitted(true, ts) == [] && BatchSteps(true, ts) == []
  {
  }

  /** A call from another thread is refused before anything is submitted, but a null
      collection is reported first, whoever calls. */
  lemma NonInvokerRefused<T>(shutdown: bool, tasks: Option<Batch<T>>)
    ensures tasks.None? ==> BatchResult(false, shutdown, tasks) == Failure(NullPointer("tasks"))
    ensures tasks.Some? ==> BatchResult(false, shutdown, tasks) == Failure(IllegalState(NON_INVOKER_MESSAGE))
  {
  }

  /** Every step of a batch happens while the executor is suspended, and the handles are
      awaited in exactly the order they were submitted, after all submissions. */
  lemma {:induction false} StepsInSubmissionOrder<T>(shutdown: bool, ts: Batch<T>)
    ensures var s := BatchSteps(shutdown, ts); var sub := Submitted(shutdown, ts);
      && (forall i :: 0 <= i < |s| ==> s[i].suspended)
      && (forall i :: 0 <= i < |sub| ==> s[i] == Step(Submission, sub[i].id, true))
      && (forall i :: |sub| <= i < |s| ==> s[i] == Step(Awaiting, sub[i - |sub|].id, true))
  {
    var sub := Submitted(shutdown, ts);
    var s := BatchSteps(shutdown, ts);
    var head := Steps(Submission, sub);
    var tail := if SubmissionFailure(shutdown, ts).None? then Steps(Awaiting, sub[..AwaitedCount(sub)]) else [];
    assert s == head + tail;
    forall i | 0 <= i < |s|
      ensures s[i].suspended
      ensures i < |sub| ==> s[i] == Step(Submission, sub[i].id, true)
      ensures |sub| <= i ==> s[i] == Step(Awaiting, sub[i - |sub|].id, true)
    {
      if i < |sub| {
        assert s[i] == head[i];
      } else {
        assert s[i] == tail[i - |sub|];
      }
    }
  }

  // ---------------------------------------------------------------------------------------
  // The executor
  // ---------------------------------------------------------------------------------------

  /** `cancelAll`: requests cancellation of every handle gathered so far. The records live in
      the pool all the handles come from, which is therefore passed along. */
  method CancelAll<T>(pool: Pool, futures: seq<Future<T>>)
    requires forall m :: 0 <= m < |futures| ==> futures[m].pool == pool && futures[m].index < |pool.handles|
    modifies pool
    ensures pool.isShutdown == old(pool.isShutdown) && |pool.handles| == old(|pool.handles|)
    ensures forall m :: 0 <= m < |futures| ==> pool.handles[futures[m].index].cancelled
    ensures forall i :: 0 <= i < |pool.handles| ==> pool.handles[i].taskId == old(pool.handles[i].taskId)
    ensures forall i :: 0 <= i < |pool.handles| && i !in IndicesOf(futures) ==> pool.handles[i] == old(pool.handles[i])
  {
    for k := 0 to |futures|
      invariant pool.isShutdown == old(pool.isShutdown) && |pool.handles| == old(|pool.handles|)
      invariant forall m :: 0 <= m < k ==> pool.handles[futures[m].index].cancelled
      invariant forall i :: 0 <= i < |pool.handles| ==> pool.handles[i].taskId == old(pool.handles[i].taskId)
      invariant forall i :: 0 <= i < |pool.handles| && i !in IndicesOf(futures[..k]) ==> pool.handles[i] == old(pool.handles[i])
    {
      assert IndicesOf(futures[..k + 1]) == IndicesOf(futures[..k]) + {futures[k].index} by {
        assert forall m :: 0 <= m < k ==> futures[..k + 1][m] == futures[..k][m];
      }
      futures[k].Cancel();
    }
    assert futures[..|futures|] == futures;
  }

  class Executor {
    const invoker: Thread
    const service: Pool
    var isSuspended: bool
    ghost var history: seq<Step>

    constructor (invoker: Thread, service: Pool)
      ensures this.invoker == invoker && this.service == service
      ensures !isSuspended && history == []
    {
      this.invoker, this.service := invoker, service;
      isSuspended := false;
      history := [];
    }

    /** The protected constructor of AbstractTaskGroupExecutor, with its checks in the order the
        constructor performs them: null service, shut-down service, null invoker. */
    static method Create(invoker: Thread?, service: Pool?) returns (r: Result<Executor>)
      ensures r.Success? <==> service != null && !service.isShutdown && invoker != null
      ensures service == null ==> r == Failure(NullPointer("service"))
      ensures service != null && service.isShutdown ==> r == Failure(IllegalArgument(SHUT_DOWN_SERVICE_MESSAGE))
      ensures service != null && !service.isShutdown && invoker == null ==> r == Failure(NullPointer("invoker"))
      ensures r.Success? ==>
        && fresh(r.value) && r.value.invoker == invoker && r.value.service == service
        && !r.value.isSuspended && r.value.history == []
    {
      if service == null {
        r := Failure(NullPointer("service"));
      } else if service.isShutdown {
        r := Failure(IllegalArgument(SHUT_DOWN_SERVICE_MESSAGE));
      } else if invoker == null {
        r := Failure(NullPointer("invoker"));
      } else {
        var e := new Executor(invoker, service);
        r := Success(e);
      }
    }

    function IsShutdown(): bool
      reads service
    {
      service.isShutdown
    }

    function IsSuspended(): bool
      reads this
    {
      isSuspended
    }

    function GetInvoker(): Thread
    {
      invoker
    }

    /** `ensureInvoker()` on thread `current`: only the invoker passes. */
    function EnsureInvoker(current: Thread): (r: Result<()>)
      ensures r.Success? <==> current == invoker
      ensures r.Failure? ==> r.error == IllegalState(NON_INVOKER_MESSAGE)
    {
      if current != invoker then Failure(IllegalState(NON_INVOKER_MESSAGE)) else Success(())
    }

    /** Forwards the one-way shutdown to the pool, for the invoker only. */
    method Shutdown(current: Thread) returns (r: Result<()>)
      modifies service
      ensures service.handles == old(service.handles)
      ensures current != invoker ==>
        r == Failure(IllegalState(NON_INVOKER_MESSAGE)) && service.isShutdown == old(service.isShutdown)
      ensures current == invoker ==> r == Success(()) && service.isShutdown
    {
      var check := EnsureInvoker(current);
      if check.Failure? {
        r := Failure(check.error);
        return;
      }
      service.Shutdown();
      r := Success(());
    }

    /** The submission loop of a batch. */
    method SubmitAll<T>(ts: Batch<T>) returns (futures: seq<Future<T>>, failure: Option<Exception>)
      requires isSuspended
      modifies this`history, service
      ensures service.isShutdown == old(service.isShutdown)
      ensures failure == SubmissionFailure(old(service.isShutdown), ts)
      ensures TasksOf(futures) == Submitted(old(service.isShutdown), ts)
      ensures forall m :: 0 <= m < |futures| ==>
        futures[m].pool == service && futures[m].index == |old(service.handles)| + m
      ensures service.handles == old(service.handles) + Records(TasksOf(futures), false)
      ensures history == old(history) + Steps(Submission, TasksOf(futures))
    {
      ghost var shutdown, base, start := service.isShutdown, service.handles, history;
      futures := [];
      var i := 0;
      while i < |ts|
        invariant 0 <= i <= |ts| && |futures| == i
        invariant service.isShutdown == shutdown
        invariant shutdown ==> i == 0
        invariant forall m :: 0 <= m < i ==> ts[m] == Some(futures[m].task)
        invariant Accepted(service, base, start, futures, service.handles, history)
      {
        if ts[i].None? {
          failure := Some(NullPointer("task"));
          if !shutdown {
            PresentUnique(ts, TasksOf(futures));
          }
          return;
        }
        var task := ts[i].value;
        ghost var handlesBefore := service.handles;
        var s := service.Submit(task);
        if s.Failure? {
          failure := Some(s.error);
          return;
        }
        AcceptedSnoc(service, base, start, futures, handlesBefore, history, s.value);
        futures := futures + [s.value];
        history := history + [Step(Submission, task.id, isSuspended)];
        i := i + 1;
      }
      failure := None;
      if !shutdown {
        PresentUnique(ts, TasksOf(futures));
      }
    }

    /** The await loop of a batch: `get` on each handle in submission order. */
    method AwaitAll<T>(futures: seq<Future<T>>) returns (r: Result<seq<T>>)
      requires isSuspended
      modifies this`history
      ensures r == AwaitInOrder(TasksOf(futures))
      ensures history == old(history) + Steps(Awaiting, TasksOf(futures)[..AwaitedCount(TasksOf(futures))])
    {
      ghost var ts := TasksOf(futures);
      var results: seq<T> := [];
      var failure: Option<Exception> := None;
      var j := 0;
      while j < |futures| && failure.None?
        invariant 0 <= j <= |futures|
        invariant failure.None? ==>
          |results| == j && forall m :: 0 <= m < j ==> ts[m].outcome == Returns(results[m])
        invariant failure.Some? ==>
          && 0 < j && FirstFailure(ts) == j - 1
          && failure.value == Await(ts[j - 1].outcome).error
        invariant history == old(history) + Steps(Awaiting, ts[..j])
      {
        var v := futures[j].Get();
        assert ts[..j + 1][..j] == ts[..j];
        history := history + [Step(Awaiting, futures[j].task.id, isSuspended)];
        if v.Failure? {
          failure := Some(v.error);
        } else {
          results := results + [v.value];
        }
        j := j + 1;
      }
      if failure.Some? {
        r := Failure(failure.value);
      } else {
        assert FirstFailure(ts) == |ts|;
        assert results == Values(ts);
        r := Success(results);
      }
    }

    /** `computeAll(tasks)` called on thread `current`. */
    method ComputeAll<T>(current: Thread, tasks: Option<Batch<T>>) returns (r: Result<seq<T>>)
      modifies this, service
      ensures r == BatchResult(current == invoker, old(service.isShutdown), tasks)
      ensures service.isShutdown == old(service.isShutdown)
      ensures tasks.None? || current != invoker ==>
        && isSuspended == old(isSuspended) && history == old(history)
        && service.handles == old(service.handles)
      ensures tasks.Some? && current == invoker ==>
        && !isSuspended
        && history == old(history) + BatchSteps(old(service.isShutdown), tasks.value)
        && service.handles == old(service.handles) + Records(Submitted(old(service.isShutdown), tasks.value), r.Failure?)
    {
      if tasks.None? {
        r := Failure(NullPointer("tasks"));
        return;
      }
      var check := EnsureInvoker(current);
      if check.Failure? {
        r := Failure(check.error);
        return;
      }
      isSuspended := true;
      r := RunBatch(tasks.value);
      isSuspended := false;
    }

    /** The `try` block of a batch: submit every task, then await every handle. */
    method TryBatch<T>(ts: Batch<T>) returns (futures: seq<Future<T>>, r: Result<seq<T>>)
      requires isSuspended
      modifies this`history, service
      ensures r == BatchResult(true, old(service.isShutdown), Some(ts))
      ensures service.isShutdown == old(service.isShutdown)
      ensures history == old(history) + BatchSteps(old(service.isShutdown), ts)
      ensures TasksOf(futures) == Submitted(old(service.isShutdown), ts)
      ensures forall m :: 0 <= m < |futures| ==>
        futures[m].pool == service && futures[m].index == |old(service.handles)| + m
      ensures service.handles == old(service.handles) + Records(TasksOf(futures), false)
    {
      ghost var shutdown, start := service.isShutdown, history;
      var failure;
      futures, failure := SubmitAll(ts);
      ghost var afterSubmit := history;
      if failure.Some? {
        r := Failure(failure.value);
      } else {
        r := AwaitAll(futures);
      }
      SubmitThenAwait(shutdown, ts, TasksOf(futures), failure, r, start, afterSubmit, history);
    }

    /** The `try` block of a batch and its `catch`: on any failure every handle gathered so
        far is cancelled before the failure is rethrown. */
    method RunBatch<T>(ts: Batch<T>) returns (r: Result<seq<T>>)
      requires isSuspended
      modifies this`history, service
      ensures r == BatchResult(true, old(service.isShutdown), Some(ts))
      ensures service.isShutdown == old(service.isShutdown)
      ensures history == old(history) + BatchSteps(old(service.isShutdown), ts)
      ensures service.handles == old(service.handles) + Records(Submitted(old(service.isShutdown), ts), r.Failure?)
    {
      ghost var before := service.handles;
      var futures;
      futures, r := TryBatch(ts);
      if r.Failure? {
        ghost var submitted := service.handles;
        CancelAll(service, futures);
        CancelledRecords(before, futures, submitted, service.handles);
      }
    }

    /** `invokeAll(tasks)`: the same algorithm over tasks without a result. */
    method InvokeAll(current: Thread, tasks: Option<Batch<()>>) returns (r: Result<()>)
      modifies this, service
      ensures r == Discard(BatchResult(current == invoker, old(service.isShutdown), tasks))
      ensures service.isShutdown == old(service.isShutdown)
      ensures tasks.None? || current != invoker ==>
        && isSuspended == old(isSuspended) && history == old(history)
        && service.handles == old(service.handles)
      ensures tasks.Some? && current == invoker ==>
        && !isSuspended
        && history == old(history) + BatchSteps(old(service.isShutdown), tasks.value)
        && service.handles == old(service.handles) + Records(Submitted(old(service.isShutdown), tasks.value), r.Failure?)
    {
      var results := ComputeAll(current, tasks);
      r := Discard(results);
    }
  }
}
