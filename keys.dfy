/** The lock resource key (KeySmith/KeySmith/Key.cs): a root namespace, a lock
    name and the expiration of the store keys the lock protocol uses. */
module Keys {
  import opened Common

  /** StackExchange.Redis channel: a name plus literal or glob-pattern mode. */
  datatype ChannelMode = Literal | Pattern
  datatype Channel = Channel(name: string, mode: ChannelMode)

  /** The readonly struct `Key`. Being a struct, `default(Key)` exists with a
      zero expiration; only `NewKey` applies the constructor's guard. */
  datatype Key = Key(root: string, lockName: string, redisKeyExpiration: Duration) {

    /** The string key holding the current owner's identifier. */
    function LockKey(): string { root + "/lock:" + lockName }

    /** The FIFO list of waiting identifiers. */
    function LockQueueKey(): string { root + "/lockwaiting:" + lockName }

    /** The hash whose fields are the identifiers still waiting. */
    function LockQueueSetKey(): string { root + "/lockwaitingset:" + lockName }

    /** The channel on which ownership transfers are announced. */
    function LockChannelKey(): Channel { Channel(root + "/locknotif:" + lockName, Literal) }
  }

  const ExpirationMessage: string := "RedisKeyExpiration must be a positive duration."

  /** The constructor: it rejects exactly the zero duration, so negative
      durations are accepted even though the message speaks of positivity. */
  function NewKey(root: string, lockName: string, redisKeyExpiration: Duration): (r: Result<Key>)
    ensures r.Err? <==> redisKeyExpiration == 0
    ensures r.Err? ==> r.error == Throw(Argument, ExpirationMessage)
    ensures r.Ok? ==> r.value.root == root && r.value.lockName == lockName
                      && r.value.redisKeyExpiration == redisKeyExpiration
  {
    if redisKeyExpiration == 0 then Err(Throw(Argument, ExpirationMessage))
    else Ok(Key(root, lockName, redisKeyExpiration))
  }

  /** Two names built from the same root and name around infixes that differ
      at some position are different strings. */
  lemma InfixesKeepNamesApart(root: string, a: string, b: string, name: string, i: nat)
    requires i < |a| && i < |b| && a[i] != b[i]
    ensures root + a + name != root + b + name
  {
    var x, y := root + a + name, root + b + name;
    assert x[|root| + i] == a[i];
    assert y[|root| + i] == b[i];
  }

  /** The four store names of one key never coincide, so the lock value, the
      waiting list, the waiting set and the channel never overwrite each other. */
  lemma KeyNamesDistinct(k: Key)
    ensures k.LockKey() != k.LockQueueKey()
    ensures k.LockKey() != k.LockQueueSetKey()
    ensures k.LockKey() != k.LockChannelKey().name
    ensures k.LockQueueKey() != k.LockQueueSetKey()
    ensures k.LockQueueKey() != k.LockChannelKey().name
    ensures k.LockQueueSetKey() != k.LockChannelKey().name
  {
    InfixesKeepNamesApart(k.root, "/lock:", "/lockwaiting:", k.lockName, 5);
    InfixesKeepNamesApart(k.root, "/lock:", "/lockwaitingset:", k.lockName, 5);
    InfixesKeepNamesApart(k.root, "/lock:", "/locknotif:", k.lockName, 5);
    InfixesKeepNamesApart(k.root, "/lockwaiting:", "/lockwaitingset:", k.lockName, 12);
    InfixesKeepNamesApart(k.root, "/lockwaiting:", "/locknotif:", k.lockName, 5);
    InfixesKeepNamesApart(k.root, "/lockwaitingset:", "/locknotif:", k.lockName, 5);
  }
}
