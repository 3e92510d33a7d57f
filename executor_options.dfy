/** The immutable options bundle of a task-group executor (TaskGroupExecutorOptions). */
module ExecutorOptions {
  import opened Failures
  import opened JavaInt

  const DEFAULT_WORKER_THREAD_NAME: string := "TaskGroupWorker"
  const PARALLELISM_MESSAGE: string := "Parallelism cannot be less than 1"

  /** The three final fields; the destructors are the getters. */
  datatype Options = Options(parallelism: int32, workerNameTemplate: string, threadPriority: Option<int32>)
  {
    /** What every constructed options object satisfies. */
    predicate Valid() { parallelism >= 1 }
  }

  /** Options as the constructors can build them: a parallelism below 1 is refused, so no
      executor is ever handed such options. */
  type ValidOptions = o: Options | o.Valid() witness Options(1, DEFAULT_WORKER_THREAD_NAME, None)

  /** The three-argument constructor: the one that validates. A `None` template is a null one;
      a `None` priority means "platform default". Parallelism is checked before the template. */
  function NewOptions(parallelism: int32, workerNameTemplate: Option<string>, threadPriority: Option<int32>): (r: Result<ValidOptions>)
    ensures r.Success? <==> parallelism >= 1 && workerNameTemplate.Some?
    ensures parallelism < 1 ==> r == Failure(IllegalArgument(PARALLELISM_MESSAGE))
    ensures parallelism >= 1 && workerNameTemplate.None? ==> r == Failure(NullPointer("workerNameTemplate"))
    ensures r.Success? ==> r.value.Valid()
    ensures r.Success? ==>
      && r.value.parallelism == parallelism
      && Some(r.value.workerNameTemplate) == workerNameTemplate
      && r.value.threadPriority == threadPriority
  {
    if parallelism < 1 then Failure(IllegalArgument(PARALLELISM_MESSAGE))
    else if workerNameTemplate.None? then Failure(NullPointer("workerNameTemplate"))
    else Success(Options(parallelism, workerNameTemplate.value, threadPriority))
  }

  /** The two-argument constructor: no explicit priority. */
  function OptionsWithTemplate(parallelism: int32, workerNameTemplate: Option<string>): (r: Result<ValidOptions>)
    ensures r.Success? <==> parallelism >= 1 && workerNameTemplate.Some?
    ensures parallelism < 1 ==> r == Failure(IllegalArgument(PARALLELISM_MESSAGE))
    ensures parallelism >= 1 && workerNameTemplate.None? ==> r == Failure(NullPointer("workerNameTemplate"))
    ensures r.Success? ==>
      && r.value.parallelism == parallelism
      && Some(r.value.workerNameTemplate) == workerNameTemplate
      && r.value.threadPriority.None?
  {
    NewOptions(parallelism, workerNameTemplate, None)
  }

  /** The one-argument constructor: the default template and no explicit priority. */
  function OptionsWithParallelism(parallelism: int32): (r: Result<ValidOptions>)
    ensures r.Success? <==> parallelism >= 1
    ensures parallelism < 1 ==> r == Failure(IllegalArgument(PARALLELISM_MESSAGE))
    ensures r.Success? ==>
      r.value == Options(parallelism, DEFAULT_WORKER_THREAD_NAME, None) && r.value.Valid()
  {
    OptionsWithTemplate(parallelism, Some(DEFAULT_WORKER_THREAD_NAME))
  }

  /** The no-argument constructor; `processors` stands for Runtime.availableProcessors(),
      which the platform guarantees to be at least 1. */
  function DefaultOptions(processors: int32): (o: ValidOptions)
    requires processors >= 1
    ensures o.Valid()
    ensures o == Options(processors, DEFAULT_WORKER_THREAD_NAME, None)
  {
    OptionsWithParallelism(processors).value
  }

  /** Whatever a successful constructor call is given, the getters hand back. */
  lemma GettersReturnArguments(parallelism: int32, workerNameTemplate: string, threadPriority: Option<int32>)
    requires parallelism >= 1
    ensures NewOptions(parallelism, Some(workerNameTemplate), threadPriority)
            == Success(Options(parallelism, workerNameTemplate, threadPriority))
  {
  }
}
