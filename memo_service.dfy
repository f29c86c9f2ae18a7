/** Memoisation on top of the lock (KeySmith/MemoLockService.cs): read the
    cache, else take the lock, read again, run the generator once and cache
    and announce its outcome; waiters learn the outcome from the cache or
    from the announcement.

    The lock itself enters as an input, `LockEntry`: whether `LockAsync` ran
    the callback (and whether the token handed to it was already cancelled)
    or threw. The generator enters as its outcome, `Generated`. */
module MemoServices {
  import opened Common
  import opened Keys
  import opened MemoKeys
  import opened Parameters
  import opened MemoStores

  const GenerationPrefix: string := "An error has been raised during generation by another process: "

  /** `new GenerationException(v)`: a null value interpolates as nothing. */
  function GenerationError(v: RedisValue): Exception {
    Throw(Generation, GenerationPrefix + (if v.Null? then "" else v.text))
  }

  /** The outcome of one generator call. */
  datatype Generated = Produced(value: RedisValue) | Failed(error: Exception)

  /** How the lock service ended: it ran the callback, handing it a token
      that may already be cancelled, or it threw. */
  datatype LockEntry = Entered(tokenCanceled: bool) | Refused(error: Exception)

  /** When the caller's token is found cancelled: before anything (line
      62), after the first cache read (line 73), or at neither check. */
  datatype CancelPoint = NotCancelled | AtStart | AfterRead

  /** The steps of a memo call besides the store calls. */
  datatype MemoStep =
    | SubscribeSent(channel: Channel)
    | LockRequested(key: Key)
    | GeneratorInvoked
    | UnsubscribeSent(channel: Channel)

  // ---------------------------------------------------------------------
  // Pure decisions

  /** `TryGetCachedValue` on the two values read (lines 49-57): a value, a
      generation error, or nothing cached. */
  function Cached(value: RedisValue, error: RedisValue): Result<Option<RedisValue>> {
    if value.Value? then Ok(Some(value))
    else if error.Value? then Err(GenerationError(error))
    else Ok(None)
  }

  /** `TryGetCachedValue` against a store state, the read failing when the
      store cannot be reached. */
  function CacheRead(s: MemoSlice, reachable: bool, key: MemoKey): Result<Option<RedisValue>> {
    if reachable then Cached(Read(s, key.ValueKey()), Read(s, key.ErrorKey())) else Err(Unreachable)
  }

  /** The catch block (lines 91-99): after a cancellation, a cached value is
      returned, a cached error or failed read is thrown, and otherwise the
      cancellation is rethrown. */
  function Recovered(read: Result<Option<RedisValue>>, canceled: Exception): Result<RedisValue> {
    match read
    case Err(e) => Err(e)
    case Ok(Some(v)) => Ok(v)
    case Ok(None) => Err(canceled)
  }

  /** What `LockedCallback` publishes after the generator ran (lines 112,
      118). */
  function Publication(key: MemoKey, g: Generated): MemoSetValueParameters {
    match g
    case Produced(v) => FromValue(key, v)
    case Failed(e) => FromException(key, e)
  }

  /** What `LockedCallback` returns or rethrows after the generator ran. */
  function Returned(g: Generated): Result<RedisValue> {
    match g
    case Produced(v) => Ok(v)
    case Failed(e) => Err(e)
  }

  /** The handler's classification of a notification (lines 125-132). */
  function Classify(channel: string, v: RedisValue): Result<RedisValue> {
    if IsErrorNotification(channel) then Err(GenerationError(v)) else Ok(v)
  }

  /** The result of the work once the lock service has answered (lines
      78-99), `w` being the store as the callback finds it. */
  function LockedResult(w: MemoSlice, reachable: bool, key: MemoKey, generator: Generated, entry: LockEntry)
    : Result<RedisValue>
  {
    var read := CacheRead(w, reachable, key);
    var generates := entry == Entered(false) && read == Ok(None);
    var outcome := match entry
                   case Refused(e) => Err(e)
                   case Entered(tokenCanceled) =>
                     if read != Ok(None) then Recovered(read, TaskCanceledError)
                     else if tokenCanceled then Err(TaskCanceledError)
                     else Returned(generator);
    var after := if generates && reachable then SetAndPublish(w, Publication(key, generator)) else w;
    if outcome.Err? && outcome.error.kind == TaskCanceled then Recovered(CacheRead(after, reachable, key), outcome.error)
    else outcome
  }

  /** The result of `MemoLockWithoutSubscriptionAsync` (lines 60-100) from
      the store it starts on and the publications of other clients while it
      waits for the lock. */
  function WorkResult(s: MemoSlice, reachable: bool, key: MemoKey, generator: Generated, cancel: CancelPoint,
                      entry: LockEntry, meanwhile: seq<MemoSetValueParameters>): Result<RedisValue>
  {
    var read := CacheRead(s, reachable, key);
    if cancel == AtStart then Err(TaskCanceledError)
    else if read != Ok(None) then Recovered(read, TaskCanceledError)
    else if cancel == AfterRead then Err(TaskCanceledError)
    else if key.GetLockKey().Err? then Err(key.GetLockKey().error)
    else LockedResult(PublishAll(s, meanwhile), reachable, key, generator, entry)
  }

  // ---------------------------------------------------------------------
  // The notification handler

  /** `TrySetException`/`TrySetResult`: only the first notification resolves
      the task. */
  function Signal(task: Option<Result<RedisValue>>, m: Message): Option<Result<RedisValue>> {
    if task.None? then Some(Classify(m.channel, Value(m.payload))) else task
  }

  function Signals(task: Option<Result<RedisValue>>, ms: seq<Message>): Option<Result<RedisValue>>
    decreases |ms|
  {
    if ms == [] then task else Signals(Signal(task, ms[0]), ms[1..])
  }

  /** The task completion source and the linked cancellation source a
      `MemoLockAsync` call hands to its handler (lines 23-26). */
  class MemoSignal {
    var task: Option<Result<RedisValue>>
    var sourceCanceled: bool
    var sourceDisposed: bool

    constructor (parentCanceled: bool)
      ensures task.None? && sourceCanceled == parentCanceled && !sourceDisposed
    {
      task := None;
      sourceCanceled := parentCanceled;
      sourceDisposed := false;
    }

    /** `GetHandler`'s delegate (lines 123-142): resolve the task once, then
        cancel the source, a disposed source being ignored. */
    method Handle(m: Message)
      modifies this
      ensures task == Signal(old(task), m)
      ensures sourceCanceled == (old(sourceCanceled) || !sourceDisposed)
      ensures sourceDisposed == old(sourceDisposed)
    {
      if IsErrorNotification(m.channel) {
        if task.None? {
          task := Some(Err(GenerationError(Value(m.payload))));
        }
      } else {
        if task.None? {
          task := Some(Ok(Value(m.payload)));
        }
      }
      if !sourceDisposed {
        sourceCanceled := true;
      }
    }

    /** The end of the `using` block. */
    method Dispose()
      modifies this
      ensures task == old(task) && sourceCanceled == old(sourceCanceled) && sourceDisposed
    {
      sourceDisposed := true;
    }
  }

  // ---------------------------------------------------------------------
  // The sequences

  /** `TryGetCachedValue` (lines 46-58). */
  method TryGetCachedValue(store: MemoStore, key: MemoKey) returns (r: Result<Option<RedisValue>>)
    modifies store
    ensures store.Slice() == old(store.Slice()) && store.reachable == old(store.reachable)
    ensures store.calls == old(store.calls) + [GetValuesCall(key.ValueKey(), key.ErrorKey())]
    ensures r == CacheRead(store.Slice(), store.reachable, key)
  {
    var values := store.GetValues(key.ValueKey(), key.ErrorKey());
    if values.Err? {
      return Err(values.error);
    }
    var (value, error) := values.value;
    if value != Null {
      return Ok(Some(value));
    }
    if error != Null {
      return Err(GenerationError(error));
    }
    return Ok(None);
  }

  /** `LockedCallback` (lines 102-121): with a live token, run the generator
      and publish its outcome, success or failure, before returning it. */
  method LockedCallback(store: MemoStore, key: MemoKey, generator: Generated, tokenCanceled: bool)
    returns (r: Result<RedisValue>)
    modifies store
    ensures store.reachable == old(store.reachable)
    ensures tokenCanceled ==> r == Err(TaskCanceledError) && store.calls == old(store.calls)
                              && store.Slice() == old(store.Slice())
    ensures !tokenCanceled ==> && r == Returned(generator)
                               && store.calls == old(store.calls) + [PublishCall(Publication(key, generator))]
                               && store.Slice() == (if store.reachable
                                                    then SetAndPublish(old(store.Slice()), Publication(key, generator))
                                                    else old(store.Slice()))
  {
    if tokenCanceled {
      return Err(TaskCanceledError);
    }
    match generator {
      case Produced(v) =>
        store.Publish(FromValue(key, v));
        r := Ok(v);
      case Failed(e) =>
        store.Publish(FromException(key, e));
        r := Err(e);
    }
  }

  /** The callback handed to the lock service (lines 80-89): read the cache
      again in case the announcement was missed, and generate only if both
      keys are still absent. */
  method InsideLock(store: MemoStore, key: MemoKey, generator: Generated, tokenCanceled: bool)
    returns (r: Result<RedisValue>, invoked: bool)
    modifies store
    ensures store.reachable == old(store.reachable)
    ensures var read := CacheRead(old(store.Slice()), store.reachable, key);
            && (invoked <==> read == Ok(None) && !tokenCanceled)
            && (read != Ok(None) ==> r == Recovered(read, TaskCanceledError))
            && (read == Ok(None) && tokenCanceled ==> r == Err(TaskCanceledError))
            && (invoked ==> r == Returned(generator))
    ensures var first := [GetValuesCall(key.ValueKey(), key.ErrorKey())];
            if invoked then store.calls == old(store.calls) + first + [PublishCall(Publication(key, generator))]
            else store.calls == old(store.calls) + first
    ensures store.Slice() == if invoked && store.reachable
                             then SetAndPublish(old(store.Slice()), Publication(key, generator))
                             else old(store.Slice())
  {
    var read := TryGetCachedValue(store, key);
    invoked := false;
    match read {
      case Err(e) => return Err(e), false;
      case Ok(Some(v)) => return Ok(v), false;
      case Ok(None) =>
    }
    r := LockedCallback(store, key, generator, tokenCanceled);
    invoked := !tokenCanceled;
  }

  /** The catch block (lines 91-99). */
  method Fallback(store: MemoStore, key: MemoKey, canceled: Exception) returns (r: Result<RedisValue>)
    modifies store
    ensures store.Slice() == old(store.Slice()) && store.reachable == old(store.reachable)
    ensures store.calls == old(store.calls) + [GetValuesCall(key.ValueKey(), key.ErrorKey())]
    ensures r == Recovered(CacheRead(store.Slice(), store.reachable, key), canceled)
  {
    var read := TryGetCachedValue(store, key);
    match read {
      case Err(e) => r := Err(e);
      case Ok(Some(v)) => r := Ok(v);
      case Ok(None) => r := Err(canceled);
    }
  }

  /** The lock service's answer and what follows it (lines 78-99), on the
      store as the callback finds it. */
  method Answered(store: MemoStore, key: MemoKey, generator: Generated, entry: LockEntry)
    returns (r: Result<RedisValue>, invoked: bool)
    modifies store
    ensures store.reachable == old(store.reachable)
    ensures var w := old(store.Slice());
            var read := CacheRead(w, store.reachable, key);
            && (invoked <==> entry == Entered(false) && read == Ok(None))
            && (!invoked ==> store.Slice() == w)
            && (invoked ==> var p := Publication(key, generator);
                            && store.Slice() == (if store.reachable then SetAndPublish(w, p) else w)
                            && PublishCall(p) in store.calls)
    ensures old(store.calls) <= store.calls
    ensures !invoked ==> forall c :: c in store.calls[|old(store.calls)|..] ==> !c.PublishCall?
    ensures r == LockedResult(old(store.Slice()), store.reachable, key, generator, entry)
  {
    var outcome: Result<RedisValue>;
    invoked := false;
    match entry {
      case Refused(e) =>
        outcome := Err(e);
      case Entered(tokenCanceled) =>
        outcome, invoked := InsideLock(store, key, generator, tokenCanceled);
    }
    ghost var c1 := store.calls;
    if outcome.Err? && outcome.error.kind == TaskCanceled {
      r := Fallback(store, key, outcome.error);
    } else {
      r := outcome;
    }
    if invoked {
      assert store.calls[|c1| - 1] == PublishCall(Publication(key, generator));
    }
  }

  /** From the lock request on (lines 78-99), once the store has seen the
      publications `meanwhile` of other clients while this one waited. */
  method Locked(store: MemoStore, key: MemoKey, generator: Generated, entry: LockEntry,
                meanwhile: seq<MemoSetValueParameters>) returns (r: Result<RedisValue>, invoked: bool)
    modifies store
    ensures store.reachable == old(store.reachable)
    ensures var w := PublishAll(old(store.Slice()), meanwhile);
            var read := CacheRead(w, store.reachable, key);
            && (invoked <==> entry == Entered(false) && read == Ok(None))
            && (entry.Refused? ==> && store.Slice() == w
                                   && r == if entry.error.kind == TaskCanceled then Recovered(read, entry.error)
                                           else Err(entry.error))
            && (entry.Entered? && read != Ok(None) ==> r == Recovered(read, TaskCanceledError) && store.Slice() == w)
            && (entry == Entered(true) && read == Ok(None) ==> r == Err(TaskCanceledError) && store.Slice() == w)
            && (invoked ==> var p := Publication(key, generator);
                            && store.Slice() == (if store.reachable then SetAndPublish(w, p) else w)
                            && PublishCall(p) in store.calls
                            && r == match generator
                                    case Produced(v) => Ok(v)
                                    case Failed(e) => if e.kind == TaskCanceled
                                                      then Recovered(CacheRead(store.Slice(), store.reachable, key), e)
                                                      else Err(e))
    ensures old(store.calls) <= store.calls
    ensures !invoked ==> forall c :: c in store.calls[|old(store.calls)|..] ==> !c.PublishCall?
    ensures r == LockedResult(PublishAll(old(store.Slice()), meanwhile), store.reachable, key, generator, entry)
  {
    store.RunAll(meanwhile);
    r, invoked := Answered(store, key, generator, entry);
  }

  /** `MemoLockWithoutSubscriptionAsync` (lines 60-100). */
  method MemoLockWithoutSubscription(store: MemoStore, key: MemoKey, generator: Generated, cancel: CancelPoint,
                                     entry: LockEntry, meanwhile: seq<MemoSetValueParameters>)
    returns (r: Result<RedisValue>, trace: seq<MemoStep>)
    modifies store
    ensures store.reachable == old(store.reachable)
    ensures cancel == AtStart ==> && r == Err(TaskCanceledError) && trace == []
                                  && store.calls == old(store.calls) && store.Slice() == old(store.Slice())
    ensures var read := CacheRead(old(store.Slice()), store.reachable, key);
            cancel != AtStart ==>
              && |store.calls| > |old(store.calls)|
              && store.calls[|old(store.calls)|] == GetValuesCall(key.ValueKey(), key.ErrorKey())
              && (read != Ok(None) ==> && r == Recovered(read, TaskCanceledError) && trace == []
                                       && store.calls == old(store.calls) + [GetValuesCall(key.ValueKey(), key.ErrorKey())]
                                       && store.Slice() == old(store.Slice()))
              && (read == Ok(None) && cancel == AfterRead ==> r == Err(TaskCanceledError) && trace == [])
    ensures var read := CacheRead(old(store.Slice()), store.reachable, key);
            && (trace != [] <==> cancel == NotCancelled && read == Ok(None) && key.GetLockKey().Ok?)
            && (cancel == NotCancelled && read == Ok(None) && key.GetLockKey().Err? ==> r == Err(key.GetLockKey().error))
    ensures trace == [] || trace == [LockRequested(key.GetLockKey().value)]
            || trace == [LockRequested(key.GetLockKey().value), GeneratorInvoked]
    ensures var w := PublishAll(old(store.Slice()), meanwhile);
            var read := CacheRead(w, store.reachable, key);
            trace != [] ==>
              && (GeneratorInvoked in trace <==> entry == Entered(false) && read == Ok(None))
              && (entry.Refused? ==> && store.Slice() == w
                                     && r == if entry.error.kind == TaskCanceled then Recovered(read, entry.error)
                                             else Err(entry.error))
              && (entry.Entered? && read != Ok(None) ==> r == Recovered(read, TaskCanceledError))
              && (entry == Entered(true) && read == Ok(None) ==> r == Err(TaskCanceledError))
    ensures GeneratorInvoked in trace ==>
              var w := PublishAll(old(store.Slice()), meanwhile);
              var p := Publication(key, generator);
              && store.Slice() == (if store.reachable then SetAndPublish(w, p) else w)
              && PublishCall(p) in store.calls
              && match generator
                 case Produced(v) => r == Ok(v)
                 case Failed(e) =>
                   && (e.kind != TaskCanceled ==> r == Err(e))
                   && (e.kind == TaskCanceled ==> r == Recovered(CacheRead(store.Slice(), store.reachable, key), e))
    ensures GeneratorInvoked !in trace ==> forall c :: c in store.calls[|old(store.calls)|..] ==> !c.PublishCall?
    ensures r == WorkResult(old(store.Slice()), store.reachable, key, generator, cancel, entry, meanwhile)
  {
    trace := [];
    if cancel == AtStart {
      return Err(TaskCanceledError), [];
    }
    var read := TryGetCachedValue(store, key);
    match read {
      case Err(e) => return Err(e), [];
      case Ok(Some(v)) => return Ok(v), [];
      case Ok(None) =>
    }
    if cancel == AfterRead {
      return Err(TaskCanceledError), [];
    }
    var lockKey := key.GetLockKey();
    if lockKey.Err? {
      return Err(lockKey.error), [];
    }
    var invoked;
    r, invoked := Locked(store, key, generator, entry, meanwhile);
    trace := [LockRequested(lockKey.value)] + if invoked then [GeneratorInvoked] else [];
  }

  // ---------------------------------------------------------------------
  // The race between the announcement and the work (lines 21-44)

  /** How a task ended. An async method throwing an
      `OperationCanceledException` (a `TaskCanceledException` included) ends
      cancelled, any other exception faulted. The catch of line 91, by
      contrast, takes only `TaskCanceledException`. */
  datatype TaskEnd = RanToCompletion(value: RedisValue) | Faulted(error: Exception) | Canceled(error: Exception)

  function WorkEnd(r: Result<RedisValue>): TaskEnd {
    match r
    case Ok(v) => RanToCompletion(v)
    case Err(e) => if IsCancellation(e) then Canceled(e) else Faulted(e)
  }

  /** The handler's task: `TrySetException` faults it, `TrySetResult`
      completes it. */
  function SignalEnd(r: Result<RedisValue>): TaskEnd {
    match r
    case Ok(v) => RanToCompletion(v)
    case Err(e) => Faulted(e)
  }

  /** Lines 33-37 as written: a faulted task's own exception is rethrown,
      but `Result` on a cancelled task throws an `AggregateException` around
      a fresh `TaskCanceledException`; the exception that cancelled the task
      is not forwarded. */
  function Observed(t: TaskEnd): Result<RedisValue> {
    match t
    case RanToCompletion(v) => Ok(v)
    case Faulted(e) => Err(e)
    case Canceled(_) => Err(CanceledAggregate)
  }

  /** An `AggregateException` holding one inner exception. */
  function Aggregated(e: Exception): Exception {
    Exception(Aggregate, "One or more errors occurred. (" + e.message + ")", Some(e))
  }

  /** What a caller of `MemoLockAsync` sees when its work was cancelled:
      "One or more errors occurred. (A task was canceled.)". */
  const CanceledAggregate: Exception := Aggregated(TaskCanceledError)

  /** Awaiting the first task instead, as the faulted branch evidently
      intends: every end is surfaced as the task itself ended. */
  function Awaited(t: TaskEnd): Result<RedisValue> {
    match t
    case RanToCompletion(v) => Ok(v)
    case Faulted(e) => Err(e)
    case Canceled(e) => Err(e)
  }

  /** Which task `Task.WhenAny` reports first: the announcement handled by
      the handler, or the work. */
  datatype Winner = Announcement(m: Message) | Work

  /** The part shared by both readings of `MemoLockAsync`: subscribe, race,
      unsubscribe; the winner's end is returned. What a losing work goes on
      doing is not modelled. */
  method Race(store: MemoStore, key: MemoKey, generator: Generated, subscribe: Outcome, winner: Winner,
              cancel: CancelPoint, entry: LockEntry, meanwhile: seq<MemoSetValueParameters>)
    returns (first: Result<TaskEnd>, trace: seq<MemoStep>)
    modifies store
    ensures store.reachable == old(store.reachable)
    ensures |trace| >= 2 && trace[0] == SubscribeSent(key.SubscriptionChannel())
    ensures trace[|trace| - 1] == UnsubscribeSent(key.SubscriptionChannel())
    ensures subscribe.Fail? ==> && first == Err(subscribe.error) && |trace| == 2
                                && store.calls == old(store.calls) && store.Slice() == old(store.Slice())
    ensures subscribe.Pass? && winner.Announcement? ==>
              && first == Ok(SignalEnd(Classify(winner.m.channel, Value(winner.m.payload))))
              && |trace| == 2 && store.calls == old(store.calls) && store.Slice() == old(store.Slice())
    ensures subscribe.Pass? && winner.Work? ==>
              first == Ok(WorkEnd(WorkResult(old(store.Slice()), store.reachable, key, generator, cancel, entry, meanwhile)))
  {
    var channel := key.SubscriptionChannel();
    var signal := new MemoSignal(cancel == AtStart);
    if subscribe.Fail? {
      signal.Dispose();
      return Err(subscribe.error), [SubscribeSent(channel), UnsubscribeSent(channel)];
    }
    match winner {
      case Announcement(m) =>
        signal.Handle(m);
        first := Ok(SignalEnd(signal.task.value));
        trace := [SubscribeSent(channel), UnsubscribeSent(channel)];
      case Work =>
        var work, steps := MemoLockWithoutSubscription(store, key, generator, cancel, entry, meanwhile);
        first := Ok(WorkEnd(work));
        trace := [SubscribeSent(channel)] + steps + [UnsubscribeSent(channel)];
    }
    signal.Dispose();
  }

  /** `MemoLockAsync` (lines 21-44) as written. */
  method MemoLockAsync(store: MemoStore, key: MemoKey, generator: Generated, subscribe: Outcome, winner: Winner,
                       cancel: CancelPoint, entry: LockEntry, meanwhile: seq<MemoSetValueParameters>)
    returns (r: Result<RedisValue>, trace: seq<MemoStep>)
    modifies store
    ensures |trace| >= 2 && trace[0] == SubscribeSent(key.SubscriptionChannel())
    ensures trace[|trace| - 1] == UnsubscribeSent(key.SubscriptionChannel())
    ensures subscribe.Fail? ==> r == Err(subscribe.error)
    ensures subscribe.Pass? && winner.Announcement? ==> r == Classify(winner.m.channel, Value(winner.m.payload))
    ensures subscribe.Pass? && winner.Work? ==>
              r == Observed(WorkEnd(WorkResult(old(store.Slice()), old(store.reachable), key, generator, cancel, entry, meanwhile)))
    ensures subscribe.Pass? && winner.Work? && cancel == AtStart ==> r == Err(CanceledAggregate)
  {
    var first;
    first, trace := Race(store, key, generator, subscribe, winner, cancel, entry, meanwhile);
    if first.Err? {
      return Err(first.error), trace;
    }
    r := Observed(first.value);
    if winner.Work? && cancel == AtStart {
      assert first.value == Canceled(TaskCanceledError);
    }
  }

  /** `MemoLockAsync` awaiting the winner: the caller sees exactly the outcome
      of whichever path finished first. */
  method MemoLockAsyncAwaited(store: MemoStore, key: MemoKey, generator: Generated, subscribe: Outcome, winner: Winner,
                              cancel: CancelPoint, entry: LockEntry, meanwhile: seq<MemoSetValueParameters>)
    returns (r: Result<RedisValue>, trace: seq<MemoStep>)
    modifies store
    ensures |trace| >= 2 && trace[0] == SubscribeSent(key.SubscriptionChannel())
    ensures trace[|trace| - 1] == UnsubscribeSent(key.SubscriptionChannel())
    ensures subscribe.Fail? ==> r == Err(subscribe.error)
    ensures subscribe.Pass? && winner.Announcement? ==> r == Classify(winner.m.channel, Value(winner.m.payload))
    ensures subscribe.Pass? && winner.Work? ==>
              r == WorkResult(old(store.Slice()), old(store.reachable), key, generator, cancel, entry, meanwhile)
    ensures subscribe.Pass? && winner.Work? && cancel == AtStart ==> r == Err(TaskCanceledError)
  {
    var first;
    first, trace := Race(store, key, generator, subscribe, winner, cancel, entry, meanwhile);
    if first.Err? {
      return Err(first.error), trace;
    }
    r := Awaited(first.value);
  }

  // ---------------------------------------------------------------------
  // Properties

  /** A published outcome reads back: a success as the stored value, whatever
      error is cached beside it; a failure, where no value is cached, as the
      generation error carrying the stored text. */
  lemma PublishedOutcomeReadsBack(s: MemoSlice, key: MemoKey, g: Generated)
    requires key.valueExpiration > 0
    requires g.Failed? ==> Read(s, key.ValueKey()).Null?
    ensures var t := SetAndPublish(s, Publication(key, g));
            && (g.Produced? ==> CacheRead(t, true, key) == Ok(Some(Value(FromValue(key, g.value).value))))
            && (g.Failed? ==> CacheRead(t, true, key) == Err(GenerationError(Value(ErrorText(g.error)))))
  {
    ValueAndErrorKeysDiffer(key);
    SetAndPublishStores(s, Publication(key, g));
  }

  /** A failure published after a success never hides the cached value. */
  lemma ErrorNeverHidesValue(s: MemoSlice, reachable: bool, key: MemoKey, e: Exception)
    requires Read(s, key.ValueKey()).Value?
    ensures CacheRead(SetAndPublish(s, FromException(key, e)), reachable, key) == CacheRead(s, reachable, key)
    ensures CacheRead(s, reachable, key).Ok? ==> CacheRead(s, reachable, key).value == Some(Read(s, key.ValueKey()))
  {
    ValueAndErrorKeysDiffer(key);
    if key.valueExpiration > 0 {
      SetAndPublishStores(s, FromException(key, e));
    }
  }

  /** A waiter that hears the announcement learns what a waiter reading the
      cache learns: the handler's classification of the published message
      agrees with the cached read, provided the root and the name do not
      contain the error marker. */
  lemma NotificationAgreesWithCache(s: MemoSlice, key: MemoKey, g: Generated)
    requires key.valueExpiration > 0
    requires !Contains(key.root, ErrorMarker) && !Contains(key.lockName, ErrorMarker)
    requires g.Failed? ==> Read(s, key.ValueKey()).Null?
    ensures var t := SetAndPublish(s, Publication(key, g));
            && |t.published| == |s.published| + 1
            && var m := t.published[|s.published|];
               && m.channel == (if g.Produced? then key.ValueChannel().name else key.ErrorChannel().name)
               && Classify(m.channel, Value(m.payload)) == Recovered(CacheRead(t, true, key), TaskCanceledError)
  {
    PublishedOutcomeReadsBack(s, key, g);
    match g {
      case Produced(v) => ValueParametersReadAsValue(key, v);
      case Failed(e) => MemoParametersTargets(key, e, Null);
    }
  }

  /** A null generated value is returned as null to the caller that generated
      it, but cached and announced as the empty string, so every other caller
      gets a non-null empty value. */
  lemma NullValueReadsBackEmpty(s: MemoSlice, key: MemoKey)
    requires key.valueExpiration > 0
    ensures Returned(Produced(Null)) == Ok(Null)
    ensures CacheRead(SetAndPublish(s, Publication(key, Produced(Null))), true, key) == Ok(Some(Value("")))
  {
    PublishedOutcomeReadsBack(s, key, Produced(Null));
  }

  /** The key's constructor rejects only a zero value expiration; with a
      negative one every publication fails inside the script, so nothing is
      cached and no waiter is told. */
  lemma NegativeExpirationLeavesNoTrace(s: MemoSlice, root: string, name: string, valueExpiration: Duration,
                                        lockExpiration: Duration, g: Generated)
    requires valueExpiration < 0 && lockExpiration != 0
    ensures NewMemoKey(root, name, valueExpiration, lockExpiration).Ok?
    ensures SetAndPublish(s, Publication(NewMemoKey(root, name, valueExpiration, lockExpiration).value, g)) == s
  {
  }

  /** A generator giving up with a cancellation has its failure published
      like any other; the catch block then reads that failure back, so its
      own caller gets a generation error, worded as coming from another
      process, instead of the cancellation. */
  lemma CanceledGeneratorSurfacesAsGenerationError(s: MemoSlice, key: MemoKey, e: Exception,
                                                   meanwhile: seq<MemoSetValueParameters>)
    requires e.kind == TaskCanceled && key.valueExpiration > 0 && key.lockExpiration != 0
    requires CacheRead(s, true, key) == Ok(None) && CacheRead(PublishAll(s, meanwhile), true, key) == Ok(None)
    ensures WorkResult(s, true, key, Failed(e), NotCancelled, Entered(false), meanwhile)
            == Err(GenerationError(Value(ErrorText(e))))
  {
    PublishedOutcomeReadsBack(PublishAll(s, meanwhile), key, Failed(e));
  }

  /** Once resolved, a task ignores every later notification. */
  lemma {:induction false} ResolvedSignalStays(task: Option<Result<RedisValue>>, ms: seq<Message>)
    requires task.Some?
    ensures Signals(task, ms) == task
    decreases |ms|
  {
    if ms != [] {
      ResolvedSignalStays(Signal(task, ms[0]), ms[1..]);
    }
  }

  /** The first notification decides the task, classified by its channel. */
  lemma FirstNotificationWins(ms: seq<Message>)
    requires ms != []
    ensures Signals(None, ms) == Some(Classify(ms[0].channel, Value(ms[0].payload)))
  {
    ResolvedSignalStays(Signal(None, ms[0]), ms[1..]);
  }

  /** As written, every end of the work reaches the caller unchanged except a
      cancellation of either kind, which is replaced by one and the same
      `AggregateException` around a fresh `TaskCanceledException`. */
  lemma ObservedWrapsCancellation(r: Result<RedisValue>)
    ensures Observed(WorkEnd(r)) == r <==> !(r.Err? && IsCancellation(r.error))
    ensures r.Err? && IsCancellation(r.error) ==>
              && Observed(WorkEnd(r)) == Err(CanceledAggregate)
              && CanceledAggregate.kind == Aggregate && CanceledAggregate.inner == Some(TaskCanceledError)
              && (r.error != TaskCanceledError ==> Observed(WorkEnd(r)).error.inner != Some(r.error))
  {
  }

  /** A generator that honours its token with `ThrowIfCancellationRequested`
      throws a plain `OperationCanceledException`: the catch of line 91 lets
      it through, the work task ends cancelled, and as written the caller
      gets `CanceledAggregate`, which does not carry it; awaited, it gets it
      bare. */
  lemma GeneratorCancellationIsWrapped(s: MemoSlice, key: MemoKey, e: Exception,
                                       meanwhile: seq<MemoSetValueParameters>)
    requires e.kind == OperationCanceled && key.lockExpiration != 0
    requires CacheRead(s, true, key) == Ok(None) && CacheRead(PublishAll(s, meanwhile), true, key) == Ok(None)
    ensures var work := WorkResult(s, true, key, Failed(e), NotCancelled, Entered(false), meanwhile);
            && work == Err(e)
            && Observed(WorkEnd(work)) == Err(CanceledAggregate) && CanceledAggregate.inner != Some(e)
            && Awaited(WorkEnd(work)) == Err(e)
  {
  }

  /** Awaiting the winner surfaces every end of the work unchanged. */
  lemma AwaitedIsTheWork(r: Result<RedisValue>)
    ensures Awaited(WorkEnd(r)) == r
  {
  }
}
