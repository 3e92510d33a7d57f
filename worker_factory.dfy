/** The thread factory of the work-stealing pool (TaskGroupStealingWorkerThreadFactory): it names
    each worker after the options' template and a running counter, and applies the options'
    priority when there is one. */
module WorkerFactory {
  import opened Failures
  import opened JavaInt
  import opened ExecutorOptions
  import opened Concurrent

  /** `template + " #" + n`, with `n` printed as Java prints an `int`. */
  function WorkerName(template: string, count: int32): (name: string)
    ensures |name| > |template| + 2
    ensures name[..|template|] == template && name[|template|..|template| + 2] == " #"
  {
    template + " #" + DecimalString(count as int)
  }

  /** The counter value after `calls` names have been handed out: it starts at 1 and
      advances by one in 32-bit arithmetic. */
  function CounterAt(calls: nat): int32
  {
    Wrap(calls + 1)
  }

  /** One `getAndIncrement` moves the counter from its value after `k` calls to its value
      after `k + 1` calls. */
  lemma CounterStep(k: nat)
    ensures Increment(CounterAt(k)) == CounterAt(k + 1)
  {
    WrapSucc(k + 1);
  }

  /** Until the counter overflows, the thread created by call number `k` (counting from 0) is
      numbered `k + 1`. */
  lemma NumberedFromOne(template: string, k: nat)
    requires k < MAX_INT
    ensures CounterAt(k) as int == k + 1
    ensures WorkerName(template, CounterAt(k)) == template + " #" + DecimalString(k + 1)
  {
  }

  /** The counter goes from MAX_VALUE to MIN_VALUE: the thread created after 2^31 - 1 others
      is numbered with a negative number. */
  lemma CounterOverflows()
    ensures CounterAt(MAX_INT - 1) as int == MAX_INT
    ensures CounterAt(MAX_INT) as int == MIN_INT
  {
  }

  /** Two names built from the same template are equal only if the counters are. */
  lemma WorkerNameInjective(template: string, a: int32, b: int32)
    requires WorkerName(template, a) == WorkerName(template, b)
    ensures a == b
  {
    var n := WorkerName(template, a);
    assert n[|template| + 2..] == DecimalString(a as int);
    assert n[|template| + 2..] == DecimalString(b as int);
    DecimalStringInjective(a as int, b as int);
  }

  /** Names handed out fewer than 2^32 calls apart differ. */
  lemma NamesDistinct(template: string, i: nat, j: nat)
    requires i < j < i + TWO_32
    ensures WorkerName(template, CounterAt(i)) != WorkerName(template, CounterAt(j))
  {
    if WorkerName(template, CounterAt(i)) == WorkerName(template, CounterAt(j)) {
      WorkerNameInjective(template, CounterAt(i), CounterAt(j));
      WrapInjective(i + 1, j + 1);
    }
  }

  class WorkerThreadFactory {
    const options: ValidOptions
    var threadCount: int32
    /** How many names have been handed out. */
    ghost var calls: nat

    /** The counter has advanced once per name handed out. */
    ghost predicate Valid()
      reads this
    {
      threadCount == CounterAt(calls)
    }

    constructor (options: ValidOptions)
      ensures this.options == options && threadCount == 1 && calls == 0
      ensures Valid()
    {
      this.options := options;
      threadCount := 1;
      calls := 0;
    }

    /** The constructor with its `requireNonNull(options, "options")`. */
    static method Create(options: Option<ValidOptions>) returns (r: Result<WorkerThreadFactory>)
      ensures options.None? <==> r.Failure?
      ensures options.None? ==> r == Failure(NullPointer("options"))
      ensures options.Some? ==>
        && fresh(r.value) && r.value.options == options.value
        && r.value.threadCount == 1 && r.value.calls == 0 && r.value.Valid()
    {
      if options.None? {
        r := Failure(NullPointer("options"));
      } else {
        var f := new WorkerThreadFactory(options.value);
        r := Success(f);
      }
    }

    /** `getWorkerThreadName`: the name uses the counter value before the increment, so
        call number `calls` (counting from 0) hands out the name of `CounterAt(calls)`. */
    method GetWorkerThreadName() returns (name: string)
      requires Valid()
      modifies this
      ensures Valid() && calls == old(calls) + 1
      ensures name == WorkerName(options.workerNameTemplate, CounterAt(old(calls)))
      ensures threadCount == Increment(old(threadCount))
    {
      name := WorkerName(options.workerNameTemplate, threadCount);
      CounterStep(calls);
      threadCount := Increment(threadCount);
      calls := calls + 1;
    }

    /** `newThread(pool)`: a fresh worker of `pool`, named by the counter; the options'
        priority replaces the one the worker inherits from its creator only when it is set. */
    method NewThread(pool: Pool, inheritedPriority: int32) returns (t: Thread)
      requires Valid()
      modifies this
      ensures Valid() && calls == old(calls) + 1
      ensures fresh(t) && t.isStealingWorker && t.pool == pool
      ensures t.name == WorkerName(options.workerNameTemplate, CounterAt(old(calls)))
      ensures t.priority == if options.threadPriority.Some? then options.threadPriority.value else inheritedPriority
      ensures threadCount == Increment(old(threadCount))
    {
      t := new Thread.StealingWorker(pool, inheritedPriority);
      var name := GetWorkerThreadName();
      t.SetName(name);
      if options.threadPriority.Some? {
        t.SetPriority(options.threadPriority.value);
      }
    }
  }
}
