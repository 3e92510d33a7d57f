# TaskGroup executor protocol, modelled in Dafny

TaskGroup (`me.hugmanrique.taskgroup`) runs a batch of tasks on a worker pool while one
*invoker* thread blocks until all of them complete. This project models the sequential logic
of that protocol and proves its properties:

- invoker confinement (`ensureInvoker`);
- the submission loop and the in-order await loop of `computeAll` / `invokeAll`;
- cancel-all-on-failure and the `isSuspended` flag;
- the one-way `shutdown`;
- the work-stealing executor's `isThreadSafe` predicate and its `newInstance` factories;
- the worker thread factory's 32-bit counter and its `template #n` names;
- the validated options bundle with its four chained constructors.

Modules, one per concern:

- `Failures`: `Option`, `Result`, and the Java exceptions the core throws. Java `null` is `None` or a `?` reference type.
- `JavaInt`: 32-bit `int`, `AtomicInteger.getAndIncrement` wrap-around, and `Integer.toString` with the injectivity of its decimal output.
- `ExecutorOptions`: `TaskGroupExecutorOptions`.
- `Concurrent`: the `java.util.concurrent` collaborators, reduced to what the core observes:
  - a `Thread` identity with its name, priority and owning pool;
  - a `Pool` with a one-way shutdown flag and one `HandleState` record (task id and a cancellation bit) per accepted task;
  - a `Future` that knows its task's predetermined `Outcome` and the position of its record.
- `TaskGroup`: `AbstractTaskGroupExecutor`.
  - Pure functions (`BatchResult`, `BatchSteps`, `Submitted`, `Records`) say what one batch call does.
  - The `Executor` class does it step by step: a submission loop, an await loop and a cancellation loop. Each method is proved against those functions.
  - The ghost `history` records every submission and every `get`, each with the value of `isSuspended` at that moment.
- `WorkerFactory`: `TaskGroupStealingWorkerThreadFactory`.
- `StealingExecutor`: `TaskGroupStealingExecutor`.
- `Scenarios`: the repository's JUnit scenarios replayed against the contracts.

The interface documentation and the code disagree on `isThreadSafe`:

- The documentation (`TaskGroupExecutor.java:73-84`) calls the invoker thread-safe only while no batch runs.
- The code (`TaskGroupStealingExecutor.java:55-62`) answers true for the invoker at any time.

The model follows the code. `ThreadSafeWidensDocumented` proves that the two disagree exactly for the invoker while the executor is suspended, when the invoker is not itself a worker of the executor's pool.

## Model

| member | source | states |
|---|---|---|
| TaskGroup.Executor.Create | src/main/java/me/hugmanrique/taskgroup/AbstractTaskGroupExecutor.java:33-42 | construction succeeds iff the service is non-null and not shut down and the invoker is non-null; the checks come in the order the constructor makes them (NPE "service", IllegalArgumentException with the source's message, NPE "invoker"); a new executor is not suspended and has an empty history |
| TaskGroup.Executor.constructor | src/main/java/me/hugmanrique/taskgroup/AbstractTaskGroupExecutor.java:40-41 | stores invoker and service; starts not suspended |
| TaskGroup.Executor.EnsureInvoker | src/main/java/me/hugmanrique/taskgroup/AbstractTaskGroupExecutor.java:44-50 | passes iff the calling thread is the invoker, otherwise IllegalStateException with the source's message |
| TaskGroup.Executor.Shutdown | src/main/java/me/hugmanrique/taskgroup/AbstractTaskGroupExecutor.java:52-56 | a non-invoker gets IllegalStateException and the pool is untouched; the invoker leaves the pool shut down whatever its previous state (idempotent) and its records unchanged |
| TaskGroup.CancelAll | src/main/java/me/hugmanrique/taskgroup/AbstractTaskGroupExecutor.java:22-26 | after the loop every given handle is marked cancelled, no other record changes, task ids and shutdown flag are preserved |
| TaskGroup.Executor.SubmitAll | src/main/java/me/hugmanrique/taskgroup/AbstractTaskGroupExecutor.java:84-90 | the loop submits exactly `Submitted(shutdown, ts)` (the tasks before the first null) and stops with `SubmissionFailure` (NPE "task" at a null element, RejectedExecution on a shut-down pool); each handle's record is appended uncancelled at consecutive positions and each submission is on the history while suspended |
| TaskGroup.Executor.AwaitAll | src/main/java/me/hugmanrique/taskgroup/AbstractTaskGroupExecutor.java:104-108 | awaiting in order yields `AwaitInOrder`: the values in submission order, or the failure of the first handle in submission order that fails; exactly the `get` calls up to that one are on the history |
| TaskGroup.Executor.TryBatch | src/main/java/me/hugmanrique/taskgroup/AbstractTaskGroupExecutor.java:81-111 | the `try` block yields `BatchResult` and the steps `BatchSteps` for the invoker; no `get` happens unless every submission went through |
| TaskGroup.Executor.RunBatch | src/main/java/me/hugmanrique/taskgroup/AbstractTaskGroupExecutor.java:81-121 | as `TryBatch`, and the pool's records gain one record per submitted task, all of them cancelled exactly when the batch fails |
| TaskGroup.Executor.ComputeAll | src/main/java/me/hugmanrique/taskgroup/AbstractTaskGroupExecutor.java:74-122 | result is `BatchResult`; a null collection or a non-invoker caller changes neither the suspended flag, the history nor the pool; otherwise the call ends not suspended, with the batch's steps on the history and every submitted handle cancelled iff the call failed |
| TaskGroup.Executor.InvokeAll | src/main/java/me/hugmanrique/taskgroup/AbstractTaskGroupExecutor.java:124-159 | the same guarantees as `ComputeAll` with the values discarded |
| TaskGroup.Present | src/main/java/me/hugmanrique/taskgroup/AbstractTaskGroupExecutor.java:85-87 | the longest null-free prefix of the batch: every element before it is that task, and the element after it (if any) is null |
| TaskGroup.PresentUnique | src/main/java/me/hugmanrique/taskgroup/AbstractTaskGroupExecutor.java:85-87 | those three properties determine the submitted prefix uniquely |
| TaskGroup.FirstFailure | src/main/java/me/hugmanrique/taskgroup/AbstractTaskGroupExecutor.java:104-108 | the first position whose `get` does not yield a value: all earlier ones do |
| TaskGroup.AwaitedCount | src/main/java/me/hugmanrique/taskgroup/AbstractTaskGroupExecutor.java:104-108 | no more `get` calls than handles |
| TaskGroup.Steps | src/main/java/me/hugmanrique/taskgroup/AbstractTaskGroupExecutor.java:85-108 | one step per task, in the tasks' order, each taken while suspended |
| TaskGroup.Discard | src/main/java/me/hugmanrique/taskgroup/AbstractTaskGroupExecutor.java:144-155 | `invokeAll` succeeds iff `computeAll` would, and fails with the same throwable |
| TaskGroup.SucceedsIff | src/main/java/me/hugmanrique/taskgroup/AbstractTaskGroupExecutor.java:74-122 | a batch succeeds iff the invoker calls it with a non-null collection of non-null tasks that all return a value, on a running pool (or with an empty batch) |
| TaskGroup.ResultsInSubmissionOrder | src/main/java/me/hugmanrique/taskgroup/AbstractTaskGroupExecutor.java:85-111 | on success the result list has the batch's length and its i-th element is the value of the i-th task, whatever the completion order |
| TaskGroup.SuccessAwaitsEveryTask | src/main/java/me/hugmanrique/taskgroup/AbstractTaskGroupExecutor.java:135-148 | success is reported only after each task was submitted and then awaited, in submission order |
| TaskGroup.FailureOfFirstFailingTask | src/main/java/me/hugmanrique/taskgroup/AbstractTaskGroupExecutor.java:104-118 | when every task is non-null and the pool runs, the batch rethrows the failure of the first failing task in submission order, after all submissions and exactly `j + 1` `get` calls |
| TaskGroup.NullElementFailsAfterEarlierSubmissions | src/main/java/me/hugmanrique/taskgroup/AbstractTaskGroupExecutor.java:85-90 | a null element at position k fails the batch with NPE "task" after the k earlier tasks were submitted and before any `get` |
| TaskGroup.ShutdownRejects | src/main/java/me/hugmanrique/taskgroup/AbstractTaskGroupExecutor.java:86-87 | on a shut-down pool a non-empty batch whose first element is a task fails with RejectedExecution and no task reaches the pool |
| TaskGroup.NonInvokerRefused | src/main/java/me/hugmanrique/taskgroup/AbstractTaskGroupExecutor.java:76-78 | the null-collection check comes first, whoever calls; a non-null batch from another thread gets IllegalStateException |
| TaskGroup.StepsInSubmissionOrder | src/main/java/me/hugmanrique/taskgroup/AbstractTaskGroupExecutor.java:81-121 | every step of a batch happens while suspended; submissions come first in task order, then the `get` calls in the same order |
| TaskGroup.SubmitThenAwait | src/main/java/me/hugmanrique/taskgroup/AbstractTaskGroupExecutor.java:81-111 | submitting in order and then awaiting in order, when no submission failed, produces `BatchResult` and `BatchSteps` |
| TaskGroup.CancelledRecords | src/main/java/me/hugmanrique/taskgroup/AbstractTaskGroupExecutor.java:112-113 | cancelling every handle of the batch turns the batch's records into the same records, all cancelled |
| Concurrent.Await | src/main/java/me/hugmanrique/taskgroup/AbstractTaskGroupExecutor.java:105 | `get` yields the task's value iff the task returned one; a thrown cause becomes ExecutionException, interruption InterruptedException |
| Concurrent.Future.Get | src/main/java/me/hugmanrique/taskgroup/AbstractTaskGroupExecutor.java:105 | the handle reports its task's outcome |
| Concurrent.Future.Cancel | src/main/java/me/hugmanrique/taskgroup/AbstractTaskGroupExecutor.java:24 | only this handle's record gets its cancellation bit set |
| Concurrent.Pool.Submit | src/main/java/me/hugmanrique/taskgroup/AbstractTaskGroupExecutor.java:86-87 | a shut-down pool rejects and records nothing; otherwise a fresh handle for the task, its record appended uncancelled |
| Concurrent.Pool.Shutdown | src/main/java/me/hugmanrique/taskgroup/AbstractTaskGroupExecutor.java:55 | the pool is shut down afterwards, records unchanged |
| Concurrent.Thread.StealingWorker | src/main/java/me/hugmanrique/taskgroup/workstealing/TaskGroupStealingWorkerThreadFactory.java:26 | a new worker records the pool it belongs to |
| StealingExecutor.IsThreadSafe | src/main/java/me/hugmanrique/taskgroup/workstealing/TaskGroupStealingExecutor.java:55-62 | the invoker is always safe; another thread never is unless it is a task-group worker, of this executor's pool, while the executor is suspended |
| StealingExecutor.ThreadSafeWidensDocumented | src/main/java/me/hugmanrique/taskgroup/TaskGroupExecutor.java:73-84 | the code accepts every thread the documentation accepts, and accepts more exactly for the invoker while suspended, unless the invoker is itself a worker of the executor's pool |
| StealingExecutor.WorkersSafeWhileSuspended | src/main/java/me/hugmanrique/taskgroup/workstealing/TaskGroupStealingExecutor.java:59-61 | a worker of the executor's own pool is thread-safe iff the executor is suspended |
| StealingExecutor.NewInstance | src/main/java/me/hugmanrique/taskgroup/workstealing/TaskGroupStealingExecutor.java:37-48 | null invoker, then null options, give NPE with the source's names; otherwise a fresh running pool with the options' parallelism, which is at least 1, a factory built from the options, and an executor over that pool that never hits the shut-down rejection |
| StealingExecutor.NewInstanceDefault | src/main/java/me/hugmanrique/taskgroup/workstealing/TaskGroupStealingExecutor.java:24-26 | the one-argument overload is the two-argument one with the default options |
| WorkerFactory.WorkerName | src/main/java/me/hugmanrique/taskgroup/workstealing/TaskGroupStealingWorkerThreadFactory.java:21 | every worker name starts with the template followed by " #" |
| WorkerFactory.CounterStep | src/main/java/me/hugmanrique/taskgroup/workstealing/TaskGroupStealingWorkerThreadFactory.java:21 | each `getAndIncrement` advances the counter from its value after k calls to its value after k + 1 calls |
| WorkerFactory.NumberedFromOne | src/main/java/me/hugmanrique/taskgroup/workstealing/TaskGroupStealingWorkerThreadFactory.java:14-22 | the counter starts at 1: call k (from 0) names its thread "template #(k+1)" until the counter overflows |
| WorkerFactory.CounterOverflows | src/main/java/me/hugmanrique/taskgroup/workstealing/TaskGroupStealingWorkerThreadFactory.java:14 | after MAX_VALUE the `AtomicInteger` wraps to MIN_VALUE |
| WorkerFactory.WorkerNameInjective | src/main/java/me/hugmanrique/taskgroup/workstealing/TaskGroupStealingWorkerThreadFactory.java:21 | names from one template are equal only for equal counter values |
| WorkerFactory.NamesDistinct | src/main/java/me/hugmanrique/taskgroup/workstealing/TaskGroupStealingWorkerThreadFactory.java:20-22 | names handed out fewer than 2^32 calls apart are pairwise distinct |
| WorkerFactory.WorkerThreadFactory.constructor | src/main/java/me/hugmanrique/taskgroup/workstealing/TaskGroupStealingWorkerThreadFactory.java:14-18 | the counter starts at 1 |
| WorkerFactory.WorkerThreadFactory.Create | src/main/java/me/hugmanrique/taskgroup/workstealing/TaskGroupStealingWorkerThreadFactory.java:16-18 | null options give NPE "options"; otherwise a fresh factory with the counter at 1 |
| WorkerFactory.WorkerThreadFactory.GetWorkerThreadName | src/main/java/me/hugmanrique/taskgroup/workstealing/TaskGroupStealingWorkerThreadFactory.java:20-22 | the name uses the counter before the increment; the counter advances by exactly one (with wrap-around) |
| WorkerFactory.WorkerThreadFactory.NewThread | src/main/java/me/hugmanrique/taskgroup/workstealing/TaskGroupStealingWorkerThreadFactory.java:24-37 | a fresh worker of the given pool, named by the counter; its priority is the configured one iff one is configured, otherwise the inherited one; the counter advances by one |
| JavaInt.Increment | src/main/java/me/hugmanrique/taskgroup/workstealing/TaskGroupStealingWorkerThreadFactory.java:21 | `getAndIncrement`'s update is +1 modulo 2^32 in two's complement |
| JavaInt.WrapInjective | src/main/java/me/hugmanrique/taskgroup/workstealing/TaskGroupStealingWorkerThreadFactory.java:14 | counter values fewer than 2^32 increments apart differ |
| JavaInt.DecimalString | src/main/java/me/hugmanrique/taskgroup/workstealing/TaskGroupStealingWorkerThreadFactory.java:21 | `Integer.toString` starts with '-' exactly for negative numbers |
| JavaInt.DecimalStringInjective | src/main/java/me/hugmanrique/taskgroup/workstealing/TaskGroupStealingWorkerThreadFactory.java:21 | distinct integers print differently |
| ExecutorOptions.NewOptions | src/main/java/me/hugmanrique/taskgroup/TaskGroupExecutorOptions.java:64-72 | succeeds iff parallelism >= 1 and the template is non-null (parallelism checked first, IllegalArgumentException with the source's message, then NPE "workerNameTemplate"); a null priority is accepted; the fields are the arguments, and the result belongs to `ValidOptions`, the only options the factory and `NewInstance` accept |
| ExecutorOptions.OptionsWithTemplate | src/main/java/me/hugmanrique/taskgroup/TaskGroupExecutorOptions.java:50-52 | same validation; the priority is null |
| ExecutorOptions.OptionsWithParallelism | src/main/java/me/hugmanrique/taskgroup/TaskGroupExecutorOptions.java:38-40 | succeeds iff parallelism >= 1, with the template "TaskGroupWorker" and no priority |
| ExecutorOptions.DefaultOptions | src/main/java/me/hugmanrique/taskgroup/TaskGroupExecutorOptions.java:27-29 | parallelism is the processor count, template "TaskGroupWorker", no priority |
| ExecutorOptions.GettersReturnArguments | src/main/java/me/hugmanrique/taskgroup/TaskGroupExecutorOptions.java:79-103 | a corollary of `NewOptions`, stated as an equation: the getters return exactly what the three-argument constructor was given |

## Left out

- Real threads, scheduling, work stealing and blocking in `Future.get` are not modelled. Each task's outcome is fixed in advance (`Outcome`), and `get` returns it at once.
- Interruption is only one kind of outcome of `get` (InterruptedWhileWaiting). It is not an event arriving from outside.
- `volatile` visibility and the happens-before guarantees (`TaskGroupExecutor.java:28-32`) are memory-model claims with no sequential counterpart.
- A pool shut down by another party in the middle of a batch is not modelled. The pool's state is fixed for the duration of one call.
- `cancel(true)` only records the request on the handle's record. Its best-effort effect on a running task is not modelled.
- StealingExecutor.NewInstance: succeeds for any valid options, including a parallelism above 0x7fff. In Java, `new ForkJoinPool` throws IllegalArgumentException above that cap. The check belongs to the JDK and is not modelled.
- The pool starts its workers through the factory `newInstance` gives it, and that link is not modelled. `NewInstance` returns the factory, and `NewThread` is called directly.
- `Thread.setName` and `setPriority` are recorded fields. The platform's 1..10 check on priorities is not modelled: a configured priority outside that range would throw in Java.
- The inherited priority of a new worker and `Runtime.availableProcessors()` are inputs (`inheritedPriority`, `processors`).
- WorkerFactory.NamesDistinct: holds for names fewer than 2^32 calls apart only. The 32-bit counter repeats after that.
- TaskGroup.Executor.IsShutdown, IsSuspended and GetInvoker are plain reads of the state and carry no contract of their own. The scenarios use them.
- TaskGroup.Executor.InvokeAll: runs the same batch algorithm as ComputeAll over tasks with a unit result, as the two Java methods do.
- TaskGroup.CancelAll: takes the pool as a parameter, because each handle's cancellation bit lives in the pool's records.
- `TaskGroupStealingWorkerThread.java` is not part of this model. Its worker is `Concurrent.Thread.StealingWorker`, which records its pool.
- `Test.java`, an unfinished sketch that never calls the executor, and the tests' timing (`Thread.sleep`, `CountDownLatch`) are not modelled.
