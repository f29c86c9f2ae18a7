/** The handle the older lock service returns for a held lock
    (KeySmith/KeySmith/Internals/RedisLock.cs). Disposing it runs the older
    release script once; a release that throws leaves it undisposed. */
module RedisLocks {
  import opened Common
  import opened LegacyKeys
  import opened LegacyScripts

  /** `RedisLockService.DefaultLockTimeout`, ten minutes
      (KeySmith/KeySmith/RedisLockService.cs:26). */
  const DefaultLockTimeout: Duration := 10 * 60 * 1000

  /** `TotalSeconds` of a whole number of seconds. */
  function TotalSeconds(d: Duration): int
    requires d % 1000 == 0
  {
    d / 1000
  }

  /** The store, the result and the flag after one `Dispose`. */
  datatype Disposal = Disposal(after: LegacySlice, outcome: Outcome, disposed: bool)

  /** `Dispose` (lines 21-35) against a store state. */
  function DisposeStep(disposed: bool, s: LegacySlice, reachable: bool, identifier: string, key: DistributedLockKey)
    : Disposal
  {
    if disposed then Disposal(s, Pass, true)
    else if !reachable then Disposal(s, Fail(Unreachable), false)
    else
      var rel := FreeLockAndPopStep(s, key.GetLockKey(), identifier, key.GetLockWaitingListKey(),
                                    TotalSeconds(DefaultLockTimeout), key.GetLockNotifKey());
      Disposal(rel.after, rel.outcome, rel.outcome == Pass)
  }

  class RedisLock {
    const identifier: string
    const key: DistributedLockKey
    var disposedValue: bool

    constructor (identifier: string, key: DistributedLockKey)
      ensures this.identifier == identifier && this.key == key && !disposedValue
    {
      this.identifier := identifier;
      this.key := key;
      disposedValue := false;
    }

    method Dispose(store: LegacyStore) returns (r: Outcome)
      requires store.Valid()
      modifies this, store
      ensures store.Valid() && store.reachable == old(store.reachable)
      ensures old(disposedValue) ==> r == Pass && disposedValue
                                     && store.Slice() == old(store.Slice()) && store.calls == old(store.calls)
      ensures !old(disposedValue) ==> store.calls == old(store.calls) + [FreeCall(identifier)]
      ensures var d := DisposeStep(old(disposedValue), old(store.Slice()), store.reachable, identifier, key);
              store.Slice() == d.after && r == d.outcome && disposedValue == d.disposed
    {
      if disposedValue {
        return Pass;
      }
      r := store.FreeLockAndPop(key.GetLockKey(), identifier, key.GetLockWaitingListKey(),
                                TotalSeconds(DefaultLockTimeout), key.GetLockNotifKey());
      if r.Fail? {
        return;
      }
      disposedValue := true;
    }
  }

  // ---------------------------------------------------------------------
  // Properties

  /** Once a dispose has succeeded, further ones change nothing. */
  lemma DisposeIsIdempotent(s: LegacySlice, reachable: bool, identifier: string, key: DistributedLockKey)
    requires DisposeStep(false, s, reachable, identifier, key).outcome == Pass
    ensures var d := DisposeStep(false, s, reachable, identifier, key);
            && d.disposed
            && DisposeStep(d.disposed, d.after, reachable, identifier, key) == d
  {
  }

  /** A dispose whose release throws leaves the flag down, so the next one
      runs the release again. */
  lemma FailedDisposeRetries(s: LegacySlice, reachable: bool, identifier: string, key: DistributedLockKey)
    requires DisposeStep(false, s, reachable, identifier, key).outcome.Fail?
    ensures var d := DisposeStep(false, s, reachable, identifier, key);
            && !d.disposed && d.after == s
            && DisposeStep(d.disposed, d.after, reachable, identifier, key) == d
  {
  }

  /** The holder's dispose hands the lock to the first waiter, for ten
      minutes, and announces it on the key's notification channel. */
  lemma HolderDisposeHandsOver(s: LegacySlice, identifier: string, key: DistributedLockKey)
    requires LegacyWellFormed(s)
    requires key.GetLockKey() in s.strings && s.strings[key.GetLockKey()] == identifier
    requires key.GetLockWaitingListKey() in s.lists
    ensures var queue := s.lists[key.GetLockWaitingListKey()];
            var d := DisposeStep(false, s, true, identifier, key);
            && d.outcome == Pass && d.disposed
            && d.after.strings[key.GetLockKey()] == queue[0]
            && d.after.ttls[key.GetLockKey()] == 600
            && d.after.published == s.published + [Message(key.GetLockNotifKey(), queue[0])]
  {
    LegacyKeyNamesDistinct(key);
    var names := [key.GetKey(), key.GetLockKey(), key.GetLockNotifKey(), key.GetLockWaitingListKey()];
    assert names[1] != names[3];
    LegacyFifoHandOver(s, key.GetLockKey(), identifier, key.GetLockWaitingListKey(), 600, key.GetLockNotifKey());
  }

  /** The dispose of a handle that does not hold the lock leaves the store
      as it was. */
  lemma NonHolderDisposeChangesNothing(s: LegacySlice, identifier: string, key: DistributedLockKey)
    requires LegacyWellFormed(s) && key.GetLockKey() !in s.lists
    requires key.GetLockKey() !in s.strings || s.strings[key.GetLockKey()] != identifier
    ensures DisposeStep(false, s, true, identifier, key) == Disposal(s, Pass, true)
  {
  }
}
