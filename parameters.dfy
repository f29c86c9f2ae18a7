/** The parameter records handed to the Lua scripts
    (KeySmith/Internals/Scripts/Parameters/). */
module Parameters {
  import opened Common
  import opened Keys
  import opened MemoKeys

  /** Parameters of the three lock scripts, derived once from a `Key`. */
  datatype LockLuaParameters = LockLuaParameters(
    identifier: string,
    lockKey: string,
    timeout: int,              // milliseconds
    lockWaitingListKey: string,
    lockWaitingSetKey: string,
    lockNotifKey: string)

  function NewLockLuaParameters(identifier: string, key: Key): LockLuaParameters {
    LockLuaParameters(identifier, key.LockKey(), key.redisKeyExpiration, key.LockQueueKey(),
                      key.LockQueueSetKey(), key.LockChannelKey().name)
  }

  /** The scripts receive the caller's identifier unchanged, the key's own
      names and its expiration in milliseconds; the three store keys and the
      channel they touch are four different names. */
  lemma LockParametersAddressTheKey(identifier: string, key: Key)
    ensures var p := NewLockLuaParameters(identifier, key);
            && p.identifier == identifier
            && p.timeout == key.redisKeyExpiration
            && p.lockKey == key.LockKey() && p.lockWaitingListKey == key.LockQueueKey()
            && p.lockWaitingSetKey == key.LockQueueSetKey() && p.lockNotifKey == key.LockChannelKey().name
            && p.lockKey != p.lockWaitingListKey && p.lockKey != p.lockWaitingSetKey
            && p.lockWaitingListKey != p.lockWaitingSetKey
            && p.lockNotifKey != p.lockKey && p.lockNotifKey != p.lockWaitingListKey
            && p.lockNotifKey != p.lockWaitingSetKey
  {
    KeyNamesDistinct(key);
  }

  /** StackExchange.Redis `RedisValue`, reduced to null or a string. */
  datatype RedisValue = Null | Value(text: string)

  /** Parameters of the memo SET-and-PUBLISH script. */
  datatype MemoSetValueParameters = MemoSetValueParameters(
    memoKey: string,
    memoKeyExpiration: int,    // milliseconds
    value: string,
    memoChannelKey: string)

  /** The text stored for a failed generation: the inner exception's message
      when there is one, the exception's own otherwise. */
  function ErrorText(e: Exception): (text: string)
    ensures e.inner.Some? ==> text == e.inner.value.message
    ensures e.inner.None? ==> text == e.message
  {
    match e.inner
    case Some(inner) => inner.message
    case None => e.message
  }

  /** The exception constructor. */
  function FromException(key: MemoKey, e: Exception): MemoSetValueParameters {
    MemoSetValueParameters(key.ErrorKey(), key.valueExpiration, ErrorText(e), key.ErrorChannel().name)
  }

  /** The value constructor: a null value is stored as the empty string. */
  function FromValue(key: MemoKey, v: RedisValue): MemoSetValueParameters {
    MemoSetValueParameters(key.ValueKey(), key.valueExpiration,
                           if v.Null? then "" else v.text, key.ValueChannel().name)
  }

  /** Both constructors use the value expiration; a failure goes to the error
      key and channel, a success to the value key and channel, so the two never
      overwrite each other and a failure's channel is recognised as an error. */
  lemma MemoParametersTargets(key: MemoKey, e: Exception, v: RedisValue)
    ensures var f, s := FromException(key, e), FromValue(key, v);
            && f.memoKey == key.ErrorKey() && f.memoChannelKey == key.ErrorChannel().name
            && s.memoKey == key.ValueKey() && s.memoChannelKey == key.ValueChannel().name
            && f.memoKeyExpiration == key.valueExpiration == s.memoKeyExpiration
            && f.memoKey != s.memoKey && f.memoChannelKey != s.memoChannelKey
            && IsErrorNotification(f.memoChannelKey)
  {
    ValueAndErrorKeysDiffer(key);
    ErrorChannelIsRecognised(key);
  }

  /** A success published with a plain root and name is recognised as a value. */
  lemma ValueParametersReadAsValue(key: MemoKey, v: RedisValue)
    requires !Contains(key.root, ErrorMarker) && !Contains(key.lockName, ErrorMarker)
    ensures !IsErrorNotification(FromValue(key, v).memoChannelKey)
  {
    ValueChannelIsRecognised(key);
  }
}
