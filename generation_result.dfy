/** What the older lock service stores for a generated value
    (KeySmith/KeySmith/Internals/GenerationResult.cs): the value, or the
    type name and message of the exception the generator threw, and the
    reading of that record back into a value or a `DistributedException`. */
module GenerationResults {
  import opened Common

  /** `GenerationResult<T>`: `ExceptionType` and `Message` are nullable
      strings; `Result` is `default(T)` when the generator failed. */
  datatype GenerationResult<T> = GenerationResult(result: T, exceptionType: Option<string>, message: Option<string>)

  /** A null string interpolates as the empty string. */
  function Text(s: Option<string>): string {
    if s.Some? then s.value else ""
  }

  /** `string.IsNullOrEmpty`. */
  predicate IsNullOrEmpty(s: Option<string>) {
    s.None? || s.value == ""
  }

  /** `new DistributedException(exceptionType, message)`
      (KeySmith/KeySmith/DistributedException.cs:7-9). */
  function DistributedError(exceptionType: Option<string>, message: Option<string>): (e: Exception)
    ensures e.kind == Distributed && e.inner.None?
    // the type name sits between fixed words, and the original message is the whole tail
    ensures var head := "An distant error of type '" + Text(exceptionType) + "' has been raised during generation: ";
            |head| <= |e.message| && e.message[..|head|] == head && e.message[|head|..] == Text(message)
  {
    Throw(Distributed, "An distant error of type '" + Text(exceptionType) + "' has been raised during generation: "
                       + Text(message))
  }

  /** `GetResult` (lines 10-18): only the message decides. */
  function GetResult<T>(g: GenerationResult<T>): Result<T> {
    if !IsNullOrEmpty(g.message) then Err(DistributedError(g.exceptionType, g.message))
    else Ok(g.result)
  }

  /** `e.InnerException ?? e`. */
  function Origin(e: Exception): (o: Exception)
    ensures e.inner.None? ==> o == e
  {
    if e.inner.Some? then e.inner.value else e
  }

  /** `GenerateResult` (KeySmith/KeySmith/RedisLockService.cs:162-172): a
      value is kept as `Result`; an exception leaves `Result` at
      `default(T)` (`zero`) and records the full type name of the origin,
      which reflection supplies (`originType`), and its message. */
  function Capture<T>(generated: Result<T>, originType: string, zero: T): (g: GenerationResult<T>)
    ensures generated.Ok? ==> g.exceptionType.None? && g.message.None?
    ensures generated.Err? ==> g.exceptionType == Some(originType) && g.message == Some(Origin(generated.error).message)
  {
    match generated
    case Ok(v) => GenerationResult(v, None, None)
    case Err(e) => GenerationResult(zero, Some(originType), Some(Origin(e).message))
  }

  /** The reading the record evidently intends: a recorded exception type
      marks a failure whatever its message. */
  function GetResultChecked<T>(g: GenerationResult<T>): Result<T> {
    if g.exceptionType.Some? || !IsNullOrEmpty(g.message) then Err(DistributedError(g.exceptionType, g.message))
    else Ok(g.result)
  }

  // ---------------------------------------------------------------------
  // Properties

  /** `GetResult` throws exactly when the message is neither null nor
      empty, and then throws the distributed error built from the type
      name and the message; otherwise it returns `Result`. */
  lemma GetResultThrowsIffMessage<T>(g: GenerationResult<T>)
    ensures GetResult(g).Err? <==> g.message.Some? && g.message.value != ""
    ensures GetResult(g).Err? ==> GetResult(g).error.kind == Distributed
                                  && GetResult(g).error == DistributedError(g.exceptionType, g.message)
    ensures GetResult(g).Ok? ==> GetResult(g).value == g.result
  {
  }

  /** The exception type on its own never makes `GetResult` throw. */
  lemma ExceptionTypeAloneNeverThrows<T>(g: GenerationResult<T>, exceptionType: Option<string>)
    requires IsNullOrEmpty(g.message)
    ensures GetResult(g.(exceptionType := exceptionType)) == Ok(g.result)
  {
  }

  /** A successful generation reads back as the generated value. */
  lemma SuccessReadsBack<T>(v: T, originType: string, zero: T)
    ensures GetResult(Capture(Ok(v), originType, zero)) == Ok(v)
    ensures GetResultChecked(Capture(Ok(v), originType, zero)) == Ok(v)
  {
  }

  /** As written, a generator that throws an exception with an empty
      message is read back as a success carrying `default(T)`. */
  lemma EmptyMessageFailureReadsAsSuccess(zero: int)
    ensures var e := Throw(InvalidOperation, "");
            var g := Capture(Err(e), "System.InvalidOperationException", zero);
            && g.exceptionType == Some("System.InvalidOperationException")
            && GetResult(g) == Ok(zero)
  {
  }

  /** With the checked reading, every capture reads back as what the
      generator did: its value, or a distributed error naming the origin's
      type and message. */
  lemma CheckedCaptureRoundTrip<T>(generated: Result<T>, originType: string, zero: T)
    ensures var r := GetResultChecked(Capture(generated, originType, zero));
            && (generated.Ok? ==> r == Ok(generated.value))
            && (generated.Err? ==>
                  r == Err(DistributedError(Some(originType), Some(Origin(generated.error).message))))
            && (r.Ok? <==> generated.Ok?)
  {
  }

  /** The two readings differ only on a record with a type name and no
      message. */
  lemma CheckedDiffersOnlyWithoutMessage<T>(g: GenerationResult<T>)
    ensures GetResultChecked(g) != GetResult(g) <==> g.exceptionType.Some? && IsNullOrEmpty(g.message)
  {
  }
}
