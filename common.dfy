/** Shared vocabulary: optional values, .NET exceptions as values, results,
    pub/sub messages and the ordinal substring test used on channel names. */
module Common {

  datatype Option<+T> = None | Some(value: T)

  /** The .NET exception types the core throws, catches or forwards. */
  datatype ExceptionKind =
    | General            // System.Exception
    | Argument           // ArgumentException
    | ArgumentNull       // ArgumentNullException
    | NullReference      // NullReferenceException
    | NotImplemented     // NotImplementedException
    | TaskCanceled       // TaskCanceledException
    | OperationCanceled  // any other OperationCanceledException (ThrowIfCancellationRequested)
    | ObjectDisposed     // ObjectDisposedException
    | InvalidOperation   // InvalidOperationException
    | Overflow           // OverflowException (negative array size)
    | Aggregate          // AggregateException (Task.Result on a cancelled task)
    | Generation         // KeySmith.GenerationException
    | Distributed        // KeySmith.DistributedException
    | RedisServer        // an error reply from a Lua script
    | RedisConnection    // the store could not be reached
    | Foreign            // anything a caller-supplied callback or generator throws

  /** An exception value: its type, its Message and its InnerException. */
  datatype Exception = Exception(kind: ExceptionKind, message: string, inner: Option<Exception>)

  function Throw(kind: ExceptionKind, message: string): Exception {
    Exception(kind, message, None)
  }

  /** What a client sees when the store cannot be reached. */
  const Unreachable: Exception := Throw(RedisConnection, "No connection is available to service this operation")

  /** What awaiting a cancelled task throws. */
  const TaskCanceledError: Exception := Throw(TaskCanceled, "A task was canceled.")

  /** An `OperationCanceledException`, of which `TaskCanceledException` is
      one kind: what ends an async method's task as cancelled. */
  predicate IsCancellation(e: Exception) {
    e.kind == TaskCanceled || e.kind == OperationCanceled
  }

  datatype Result<+T> = Ok(value: T) | Err(error: Exception)

  /** Outcome of an operation that returns nothing but may throw. */
  datatype Outcome = Pass | Fail(error: Exception)

  /** A message published on a pub/sub channel. */
  datatype Message = Message(channel: string, payload: string)

  /** Durations are TimeSpan values counted in whole milliseconds; a
      fractional millisecond is not represented. */
  type Duration = int

  /** `sub` occurs in `s` starting at index `i`. */
  predicate OccursAt(s: string, sub: string, i: nat) {
    i + |sub| <= |s| && s[i..i + |sub|] == sub
  }

  /** Ordinal `string.Contains`. */
  predicate Contains(s: string, sub: string) {
    exists i: nat | i <= |s| :: OccursAt(s, sub, i)
  }

  lemma ContainsAt(s: string, sub: string, i: nat)
    requires OccursAt(s, sub, i)
    ensures Contains(s, sub)
  {
  }
}
