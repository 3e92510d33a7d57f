/** The java.util.concurrent collaborators of the executor, reduced to what the core observes:
    thread identities, a pool with a one-way shutdown flag that hands out handles, and
    handles whose outcome is fixed in advance and that record a cancellation request. */
module Concurrent {
  import opened Failures
  import opened JavaInt

  /** How waiting on a task's handle ends: the task's value, the throwable the task raised,
      or the invoking thread being interrupted while it waits. */
  datatype Outcome<T> = Returns(value: T) | Throws(cause: string) | InterruptedWhileWaiting

  /** A non-null task of a batch: an identity and its predetermined outcome. */
  datatype Task<T> = Task(id: nat, outcome: Outcome<T>)

  /** `Future.get` on a handle whose task ends with `o`. */
  function Await<T>(o: Outcome<T>): (r: Result<T>)
    ensures r.Success? <==> o.Returns?
    ensures o.Returns? ==> r == Success(o.value)
    ensures o.Throws? ==> r == Failure(Execution(o.cause))
    ensures o.InterruptedWhileWaiting? ==> r == Failure(Interrupted)
  {
    match o
    case Returns(v) => Success(v)
    case Throws(c) => Failure(Execution(c))
    case InterruptedWhileWaiting => Failure(Interrupted)
  }

  /** A thread. Identity is object identity, as with `==` on java.lang.Thread.
      `isStealingWorker` is `instanceof TaskGroupStealingWorkerThread`; `pool` is the
      pool a worker belongs to (`getPool()`), null for other threads. */
  class Thread {
    const isStealingWorker: bool
    const pool: Pool?
    var name: string
    var priority: int32

    /** A thread that is no worker of a task-group pool. */
    constructor Plain(name: string, priority: int32)
      ensures !isStealingWorker && pool == null
      ensures this.name == name && this.priority == priority
    {
      isStealingWorker, pool := false, null;
      this.name, this.priority := name, priority;
    }

    /** `new TaskGroupStealingWorkerThread(pool)`: the worker records its pool; it starts
        with the priority it inherits and no name of its own yet. */
    constructor StealingWorker(pool: Pool, inheritedPriority: int32)
      ensures isStealingWorker && this.pool == pool
      ensures name == "" && priority == inheritedPriority
    {
      isStealingWorker, this.pool := true, pool;
      name, priority := "", inheritedPriority;
    }

    method SetName(newName: string)
      modifies this
      ensures name == newName && priority == old(priority)
    {
      name := newName;
    }

    method SetPriority(newPriority: int32)
      modifies this
      ensures priority == newPriority && name == old(name)
    {
      priority := newPriority;
    }
  }

  /** The pool's record of one accepted task: which task, and whether cancellation was requested. */
  datatype HandleState = HandleState(taskId: nat, cancelled: bool)

  /** The `Future<T>` a submission returns: the task and the position of its record in the pool. */
  class Future<T> {
    const task: Task<T>
    const pool: Pool
    const index: nat

    constructor (task: Task<T>, pool: Pool, index: nat)
      ensures this.task == task && this.pool == pool && this.index == index
    {
      this.task, this.pool, this.index := task, pool, index;
    }

    /** Blocks until the task is done; here the outcome is known in advance. */
    method Get() returns (r: Result<T>)
      ensures r == Await(task.outcome)
    {
      r := Await(task.outcome);
    }

    /** `cancel(true)`: only the request is modelled, not what a running task does with it. */
    method Cancel()
      requires index < |pool.handles|
      modifies pool
      ensures pool.isShutdown == old(pool.isShutdown)
      ensures pool.handles == old(pool.handles)[index := old(pool.handles)[index].(cancelled := true)]
    {
      pool.MarkCancelled(index);
    }
  }

  /** The worker pool (the executor's `service`). */
  class Pool {
    const parallelism: int32
    var isShutdown: bool
    var handles: seq<HandleState>

    constructor (parallelism: int32)
      ensures this.parallelism == parallelism && !isShutdown && handles == []
    {
      this.parallelism := parallelism;
      isShutdown, handles := false, [];
    }

    /** Stops accepting work; calling it again changes nothing. */
    method Shutdown()
      modifies this
      ensures isShutdown && handles == old(handles)
    {
      isShutdown := true;
    }

    /** `submit(task)`: a shut-down pool throws RejectedExecutionException and records
        nothing; otherwise the task gets a fresh handle whose record is appended, uncancelled. */
    method Submit<T>(task: Task<T>) returns (r: Result<Future<T>>)
      modifies this
      ensures isShutdown == old(isShutdown)
      ensures old(isShutdown) ==> r == Failure(RejectedExecution) && handles == old(handles)
      ensures !old(isShutdown) ==>
        && r.Success? && fresh(r.value)
        && r.value.task == task && r.value.pool == this && r.value.index == |old(handles)|
        && handles == old(handles) + [HandleState(task.id, false)]
    {
      if isShutdown {
        r := Failure(RejectedExecution);
      } else {
        var f := new Future(task, this, |handles|);
        handles := handles + [HandleState(task.id, false)];
        r := Success(f);
      }
    }

    /** Records a cancellation request on the handle at position `i`. */
    method MarkCancelled(i: nat)
      requires i < |handles|
      modifies this
      ensures isShutdown == old(isShutdown)
      ensures handles == old(handles)[i := old(handles)[i].(cancelled := true)]
    {
      handles := handles[i := handles[i].(cancelled := true)];
    }
  }
}
