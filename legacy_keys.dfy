/** The older lock key (KeySmith/KeySmith/DistributedLockKey.cs): a root and a
    name, two durations stored as given, and four derived names. */
module LegacyKeys {
  import opened Common

  /** The constructor (lines 34-40) stores its four arguments and checks
      nothing. */
  datatype DistributedLockKey = DistributedLockKey(
    root: string, lockName: string, maxWaitingTime: Duration, redisKeyExpiration: Duration)
  {
    /** Where a generated value is kept (line 46). */
    function GetKey(): string { root + ":" + lockName }

    function GetLockKey(): string { root + "/lock:" + lockName }

    function GetLockNotifKey(): string { root + "/locknotif:" + lockName }

    function GetLockWaitingListKey(): string { root + "/lockwaiting:" + lockName }
  }

  /** The four names of one key are pairwise distinct: the infixes have
      different lengths. */
  lemma LegacyKeyNamesDistinct(k: DistributedLockKey)
    ensures var names := [k.GetKey(), k.GetLockKey(), k.GetLockNotifKey(), k.GetLockWaitingListKey()];
            forall i, j :: 0 <= i < j < 4 ==> names[i] != names[j]
  {
    var n := |k.root| + |k.lockName|;
    assert |k.GetKey()| == n + 1;
    assert |k.GetLockKey()| == n + 6;
    assert |k.GetLockNotifKey()| == n + 11;
    assert |k.GetLockWaitingListKey()| == n + 13;
  }
}
