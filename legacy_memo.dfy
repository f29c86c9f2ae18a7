/** The older memoisation service (KeySmith/KeySmith/MemoLockService.cs). It
    reads only the value key, runs the generator inside the lock without
    reading the cache again, and resolves its task with setters that throw
    on a second notification. `LockedCallback` is the same as the current
    one and is shared with `MemoServices`.

    The older tree's `MemoKey.GetLock` is not part of this model; the lock
    is taken on `GetLockKey`. */
module LegacyMemoServices {
  import opened Common
  import opened Keys
  import opened MemoKeys
  import opened Parameters
  import opened MemoStores
  import opened LockStates
  import opened MemoServices

  /** `GetValueAsync(key.GetValueKey())` against a store state. */
  function ValueRead(s: MemoSlice, reachable: bool, key: MemoKey): Result<RedisValue> {
    if reachable then Ok(Read(s, key.ValueKey())) else Err(Unreachable)
  }

  /** The catch block (lines 66-74): a value read after the cancellation is
      returned, otherwise the cancellation is rethrown. */
  function ValueRecovered(read: Result<RedisValue>, canceled: Exception): Result<RedisValue> {
    match read
    case Err(e) => Err(e)
    case Ok(v) => if v.Value? then Ok(v) else Err(canceled)
  }

  /** The result of `MemoLockWithoutSubscriptionAsync` (lines 44-75). */
  function LegacyWorkResult(s: MemoSlice, reachable: bool, key: MemoKey, generator: Generated, cancel: CancelPoint,
                            entry: LockEntry, meanwhile: seq<MemoSetValueParameters>): Result<RedisValue>
  {
    var read := ValueRead(s, reachable, key);
    if cancel == AtStart then Err(TaskCanceledError)
    else if read.Err? then Err(read.error)
    else if read.value.Value? then Ok(read.value)
    else if cancel == AfterRead then Err(TaskCanceledError)
    else if key.GetLockKey().Err? then Err(key.GetLockKey().error)
    else
      var w := PublishAll(s, meanwhile);
      var outcome := match entry
                     case Refused(e) => Err(e)
                     case Entered(tokenCanceled) => if tokenCanceled then Err(TaskCanceledError) else Returned(generator);
      var after := if entry == Entered(false) && reachable then SetAndPublish(w, Publication(key, generator)) else w;
      if outcome.Err? && outcome.error.kind == TaskCanceled then ValueRecovered(ValueRead(after, reachable, key), outcome.error)
      else outcome
  }

  /** `MemoLockWithoutSubscriptionAsync` (lines 44-75). */
  method LegacyMemoLockWithoutSubscription(store: MemoStore, key: MemoKey, generator: Generated, cancel: CancelPoint,
                                           entry: LockEntry, meanwhile: seq<MemoSetValueParameters>)
    returns (r: Result<RedisValue>, trace: seq<MemoStep>)
    modifies store
    ensures store.reachable == old(store.reachable)
    ensures r == LegacyWorkResult(old(store.Slice()), store.reachable, key, generator, cancel, entry, meanwhile)
    ensures cancel == AtStart ==> trace == [] && store.calls == old(store.calls) && store.Slice() == old(store.Slice())
    ensures cancel != AtStart ==> && |store.calls| > |old(store.calls)|
                                  && store.calls[|old(store.calls)|] == GetValueCall(key.ValueKey())
    ensures var read := ValueRead(old(store.Slice()), store.reachable, key);
            trace != [] <==> cancel == NotCancelled && read == Ok(Null) && key.GetLockKey().Ok?
    ensures trace == [] || trace == [LockRequested(key.GetLockKey().value)]
            || trace == [LockRequested(key.GetLockKey().value), GeneratorInvoked]
    ensures GeneratorInvoked in trace <==> trace != [] && entry == Entered(false)
    ensures GeneratorInvoked in trace ==>
              var w := PublishAll(old(store.Slice()), meanwhile);
              var p := Publication(key, generator);
              && PublishCall(p) in store.calls
              && store.Slice() == (if store.reachable then SetAndPublish(w, p) else w)
  {
    trace := [];
    if cancel == AtStart {
      return Err(TaskCanceledError), [];
    }
    var read := store.GetValue(key.ValueKey());
    if read.Err? {
      return Err(read.error), [];
    }
    if read.value != Null {
      return Ok(read.value), [];
    }
    if cancel == AfterRead {
      return Err(TaskCanceledError), [];
    }
    var lockKey := key.GetLockKey();
    if lockKey.Err? {
      return Err(lockKey.error), [];
    }
    trace := [LockRequested(lockKey.value)];
    store.RunAll(meanwhile);
    var outcome: Result<RedisValue>;
    match entry {
      case Refused(e) =>
        outcome := Err(e);
      case Entered(tokenCanceled) =>
        outcome := LockedCallback(store, key, generator, tokenCanceled);
        if !tokenCanceled {
          trace := trace + [GeneratorInvoked];
          assert store.calls[|store.calls| - 1] == PublishCall(Publication(key, generator));
        }
    }
    if outcome.Err? && outcome.error.kind == TaskCanceled {
      var again := store.GetValue(key.ValueKey());
      match again {
        case Err(e) => r := Err(e);
        case Ok(v) => r := if v != Null then Ok(v) else outcome;
      }
    } else {
      r := outcome;
    }
  }

  const AlreadyCompleted: Exception :=
    Throw(InvalidOperation, "An attempt was made to transition a task to a final state when it had already completed.")

  /** The task and the linked source a legacy `MemoLockAsync` call hands to
      its handler. */
  class LegacyMemoSignal {
    var task: Option<Result<RedisValue>>
    var sourceCanceled: bool
    var sourceDisposed: bool

    constructor (parentCanceled: bool)
      ensures task.None? && sourceCanceled == parentCanceled && !sourceDisposed
    {
      task := None;
      sourceCanceled := parentCanceled;
      sourceDisposed := false;
    }

    /** `GetHandler`'s delegate (lines 98-109): `SetException`/`SetResult`
        throw on a task already resolved, skipping the cancel; `Cancel`
        throws on a disposed source. */
    method Handle(m: Message) returns (r: Outcome)
      modifies this
      ensures old(task).Some? ==> r == Fail(AlreadyCompleted) && task == old(task)
                                  && sourceCanceled == old(sourceCanceled)
      ensures old(task).None? ==> && task == Some(Classify(m.channel, Value(m.payload)))
                                  && (sourceDisposed ==> r == Fail(SourceDisposed) && sourceCanceled == old(sourceCanceled))
                                  && (!sourceDisposed ==> r == Pass && sourceCanceled)
      ensures sourceDisposed == old(sourceDisposed)
    {
      if task.Some? {
        return Fail(AlreadyCompleted);
      }
      if IsErrorNotification(m.channel) {
        task := Some(Err(GenerationError(Value(m.payload))));
      } else {
        task := Some(Ok(Value(m.payload)));
      }
      if sourceDisposed {
        return Fail(SourceDisposed);
      }
      sourceCanceled := true;
      return Pass;
    }

    method Dispose()
      modifies this
      ensures task == old(task) && sourceCanceled == old(sourceCanceled) && sourceDisposed
    {
      sourceDisposed := true;
    }
  }

  // ---------------------------------------------------------------------
  // The two versions compared

  /** With only an error cached, the current service reports the error,
      while the older one, blind to the error key, takes the lock and
      generates again. */
  lemma OnlyLegacyRegeneratesOverCachedError(s: MemoSlice, key: MemoKey, v: RedisValue)
    requires key.lockExpiration != 0
    requires Read(s, key.ValueKey()).Null? && Read(s, key.ErrorKey()).Value?
    ensures WorkResult(s, true, key, Produced(v), NotCancelled, Entered(false), [])
            == Err(GenerationError(Read(s, key.ErrorKey())))
    ensures LegacyWorkResult(s, true, key, Produced(v), NotCancelled, Entered(false), []) == Ok(v)
  {
  }

  /** When another client caches a value while this one waits for the lock,
      the current service returns that value, while the older one generates
      again and returns its own. */
  lemma OnlyCurrentReturnsTheValueCachedMeanwhile(s: MemoSlice, key: MemoKey, cached: RedisValue, v: RedisValue)
    requires key.lockExpiration != 0 && key.valueExpiration > 0
    requires Read(s, key.ValueKey()).Null? && Read(s, key.ErrorKey()).Null?
    ensures var meanwhile := [FromValue(key, cached)];
            && WorkResult(s, true, key, Produced(v), NotCancelled, Entered(false), meanwhile)
               == Ok(Value(FromValue(key, cached).value))
            && LegacyWorkResult(s, true, key, Produced(v), NotCancelled, Entered(false), meanwhile) == Ok(v)
  {
    var meanwhile := [FromValue(key, cached)];
    assert PublishAll(s, meanwhile) == SetAndPublish(s, FromValue(key, cached)) by {
      assert meanwhile[..0] == [];
    }
    PublishedOutcomeReadsBack(s, key, Produced(cached));
  }
}
