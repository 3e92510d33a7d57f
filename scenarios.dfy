/** Client code reproducing the repository's own usage scenarios (its JUnit tests) against the
    model; each `assert` is a fact the verifier establishes from the contracts alone. */
module Scenarios {
  import opened Failures
  import opened JavaInt
  import opened ExecutorOptions
  import opened Concurrent
  import opened TaskGroup
  import opened WorkerFactory
  import opened StealingExecutor

  /** testState: a fresh executor is not shut down, reports its invoker, and the invoker is
      thread-safe; the invoker may shut it down. */
  method FreshExecutorState() {
    var invoker := new Thread.Plain("main", 5);
    var r, workers := NewInstanceDefault(invoker, 8);
    var e := r.value;
    assert IsThreadSafe(e, invoker);
    assert !e.IsShutdown() && !e.IsSuspended();
    assert e.GetInvoker() == invoker;
    var s := e.Shutdown(invoker);
    assert s == Success(()) && e.IsShutdown();
  }

  /** testComputeAll: three tasks finishing in any order give their values in submission order;
      afterwards the executor is no longer suspended and nothing was cancelled. */
  method ComputeAllKeepsSubmissionOrder() {
    var invoker := new Thread.Plain("main", 5);
    var r, workers := NewInstanceDefault(invoker, 8);
    var e := r.value;
    var tasks: Batch<int> := [Some(Task(0, Returns(10))), Some(Task(1, Returns(20))), Some(Task(2, Returns(30)))];
    SucceedsIff(true, false, Some(tasks));
    ResultsInSubmissionOrder(false, Some(tasks));
    var results := e.ComputeAll(invoker, Some(tasks));
    assert results.Success? && |results.value| == 3;
    assert tasks[0] == Some(Task(0, Returns(results.value[0])));
    assert results.value[0] == 10 && results.value[1] == 20 && results.value[2] == 30;
    assert !e.IsSuspended();
    assert e.service.handles == Records(Submitted(false, tasks), false);
    assert !e.service.handles[2].cancelled;
  }

  /** Every step of a batch happens while the executor is suspended, and the batch ends with
      the executor no longer suspended. */
  method BatchRunsSuspended() {
    var invoker := new Thread.Plain("main", 5);
    var r, workers := NewInstanceDefault(invoker, 8);
    var e := r.value;
    var tasks: Batch<int> := [Some(Task(0, Returns(1))), Some(Task(1, Returns(2)))];
    var results := e.ComputeAll(invoker, Some(tasks));
    StepsInSubmissionOrder(false, tasks);
    assert forall i :: 0 <= i < |e.history| ==> e.history[i].suspended;
    assert !e.IsSuspended();
  }

  /** A worker of the executor's own pool, created by its factory, is not thread-safe while no
      batch runs, and carries the configured name and priority (testOptions). */
  method WorkersFollowOptions() {
    var options := NewOptions(2, Some("foo"), Some(3)).value;
    var invoker := new Thread.Plain("main", 5);
    var r, workers := NewInstance(invoker, Some(options));
    var e := r.value;
    var worker := workers.NewThread(e.service, 5);
    assert worker.name[..3] == "foo";
    assert worker.priority == 3;
    assert worker != invoker;
    WorkersSafeWhileSuspended(e, worker);
    assert !IsThreadSafe(e, worker);
    NumberedFromOne("foo", 0);
    assert worker.name == "foo #" + DecimalString(1);
  }

  /** testExternalSubmissionFails: a batch from another thread is refused and nothing is
      submitted. */
  method ExternalSubmissionFails() {
    var invoker := new Thread.Plain("main", 5);
    var external := new Thread.Plain("external", 5);
    var r, workers := NewInstanceDefault(invoker, 8);
    var e := r.value;
    var tasks: Batch<()> := [Some(Task(0, Throws("fail"))), Some(Task(1, Throws("fail")))];
    var result := e.InvokeAll(external, Some(tasks));
    assert result == Failure(IllegalState(NON_INVOKER_MESSAGE));
    assert e.service.handles == [] && e.history == [];
  }

  /** testExternalShutdownFails: only the invoker may shut the executor down. */
  method ExternalShutdownFails() {
    var invoker := new Thread.Plain("main", 5);
    var external := new Thread.Plain("external", 5);
    var r, workers := NewInstanceDefault(invoker, 8);
    var e := r.value;
    var s := e.Shutdown(external);
    assert s == Failure(IllegalState(NON_INVOKER_MESSAGE));
    assert !e.IsShutdown();
    s := e.Shutdown(invoker);
    assert e.IsShutdown();
  }

  /** testShutdown: after shutdown a batch is rejected and no task reaches the pool. */
  method ShutdownRejectsBatch() {
    var invoker := new Thread.Plain("main", 5);
    var r, workers := NewInstanceDefault(invoker, 8);
    var e := r.value;
    var s := e.Shutdown(invoker);
    assert e.IsShutdown();
    var tasks: Batch<()> := [Some(Task(0, Throws("fail")))];
    ShutdownRejects(tasks);
    var result := e.InvokeAll(invoker, Some(tasks));
    assert result == Failure(RejectedExecution);
    assert e.service.handles == [] && e.history == [];
  }

  /** A failing task fails the batch with its exception, and every handle is then cancelled. */
  method FailureCancelsEveryHandle() {
    var invoker := new Thread.Plain("main", 5);
    var r, workers := NewInstanceDefault(invoker, 8);
    var e := r.value;
    var tasks: Batch<int> := [Some(Task(0, Returns(1))), Some(Task(1, Throws("boom"))), Some(Task(2, Returns(3)))];
    FailureOfFirstFailingTask(tasks, 1);
    var result := e.ComputeAll(invoker, Some(tasks));
    assert result == Failure(Execution("boom"));
    assert |e.service.handles| == 3;
    assert e.service.handles[0].cancelled && e.service.handles[2].cancelled;
  }

  /** testGetters: the getters return what the three-argument constructor was given. */
  method OptionGetters() {
    var r := NewOptions(2, Some("abc"), Some(3));
    assert r.Success?;
    var options := r.value;
    assert options.parallelism == 2;
    assert options.workerNameTemplate == "abc";
    assert options.threadPriority == Some(3);
  }
}
