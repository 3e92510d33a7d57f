/** Null references, results and the Java exceptions the task-group executor raises. */
module Failures {

  /** `None` stands for a Java `null` where the source accepts a nullable reference. */
  datatype Option<+T> = None | Some(value: T)

  /** A Java call that either returns a value or throws. */
  datatype Result<+T> = Success(value: T) | Failure(error: Exception)

  /** The throwables the core raises or propagates. */
  datatype Exception =
    | NullPointer(name: string)        // Objects.requireNonNull(x, name)
    | IllegalState(message: string)    // IllegalStateException
    | IllegalArgument(message: string) // IllegalArgumentException
    | RejectedExecution                // RejectedExecutionException from a pool that refuses work
    | Execution(cause: string)         // ExecutionException wrapping what a task threw
    | Interrupted                      // InterruptedException while waiting on a handle
}
