/** The work-stealing task-group executor (TaskGroupStealingExecutor): a task-group executor over
    a fresh pool whose workers come from the task-group thread factory, with the thread-safety
    test that recognises those workers. */
module StealingExecutor {
  import opened Failures
  import opened JavaInt
  import opened ExecutorOptions
  import opened Concurrent
  import opened TaskGroup
  import opened WorkerFactory

  /** `isThreadSafe()` as the code computes it, for the calling thread `current`: the invoker, at
      any time, or a task-group worker of this executor's own pool while a batch runs. */
  function IsThreadSafe(e: Executor, current: Thread): (safe: bool)
    reads e
    ensures current == e.invoker ==> safe
    ensures current != e.invoker && !current.isStealingWorker ==> !safe
    ensures current != e.invoker && current.pool != e.service ==> !safe
    ensures current != e.invoker && !e.isSuspended ==> !safe
  {
    current == e.invoker || (current.isStealingWorker && current.pool == e.service && e.isSuspended)
  }

  /** What the interface documents: the invoker while no tasks are running, or a worker thread
      while it executes a submitted task. */
  ghost predicate DocumentedThreadSafe(e: Executor, current: Thread)
    reads e
  {
    || (current == e.invoker && !e.isSuspended)
    || (current.isStealingWorker && current.pool == e.service && e.isSuspended)
  }

  /** The code says yes whenever the documentation does; it says yes where the documentation
      says no exactly for the invoker while the executor is suspended (unless the invoker is
      itself a worker of the pool). */
  lemma ThreadSafeWidensDocumented(e: Executor, current: Thread)
    ensures DocumentedThreadSafe(e, current) ==> IsThreadSafe(e, current)
    ensures IsThreadSafe(e, current) && !DocumentedThreadSafe(e, current) <==>
      && current == e.invoker && e.isSuspended
      && !(current.isStealingWorker && current.pool == e.service)
  {
  }

  /** A worker the factory of an executor's pool creates is thread-safe exactly while the
      executor is suspended (unless it is the invoker itself). */
  lemma WorkersSafeWhileSuspended(e: Executor, worker: Thread)
    requires worker.isStealingWorker && worker.pool == e.service && worker != e.invoker
    ensures IsThreadSafe(e, worker) <==> e.isSuspended
  {
  }

  /** `newInstance(invokerThread, options)`: both arguments are checked for null, in that order;
      then a fresh pool with the options' parallelism is created, with a worker factory built
      from the same options, and handed to the executor constructor. The factory is returned
      alongside, as the pool keeps it. */
  method NewInstance(invokerThread: Thread?, options: Option<ValidOptions>)
      returns (r: Result<Executor>, workers: WorkerThreadFactory?)
    ensures r.Success? <==> invokerThread != null && options.Some?
    ensures invokerThread == null ==> r == Failure(NullPointer("invokerThread"))
    ensures invokerThread != null && options.None? ==> r == Failure(NullPointer("options"))
    ensures r.Success? ==>
      && fresh(r.value) && fresh(r.value.service)
      && r.value.invoker == invokerThread
      && r.value.service.parallelism == options.value.parallelism && r.value.service.parallelism >= 1
      && !r.value.service.isShutdown && r.value.service.handles == []
      && !r.value.isSuspended && r.value.history == []
    ensures r.Success? ==>
      && workers != null && fresh(workers)
      && workers.options == options.value && workers.Valid() && workers.calls == 0
  {
    workers := null;
    if invokerThread == null {
      r := Failure(NullPointer("invokerThread"));
      return;
    }
    if options.None? {
      r := Failure(NullPointer("options"));
      return;
    }
    var factory := WorkerThreadFactory.Create(options);
    workers := factory.value;
    var pool := new Pool(options.value.parallelism);
    r := Executor.Create(invokerThread, pool);
  }

  /** `newInstance(invokerThread)`: the default options, whose parallelism is the number of
      available processors (`processors`, at least 1). */
  method NewInstanceDefault(invokerThread: Thread?, processors: int32)
      returns (r: Result<Executor>, workers: WorkerThreadFactory?)
    requires processors >= 1
    ensures r.Success? <==> invokerThread != null
    ensures invokerThread == null ==> r == Failure(NullPointer("invokerThread"))
    ensures r.Success? ==>
      && fresh(r.value) && fresh(r.value.service)
      && r.value.invoker == invokerThread
      && r.value.service.parallelism == processors && r.value.service.parallelism >= 1
      && !r.value.service.isShutdown && r.value.service.handles == []
      && !r.value.isSuspended && r.value.history == []
    ensures r.Success? ==>
      && workers != null && fresh(workers)
      && workers.options == DefaultOptions(processors) && workers.Valid() && workers.calls == 0
  {
    r, workers := NewInstance(invokerThread, Some(DefaultOptions(processors)));
  }
}
