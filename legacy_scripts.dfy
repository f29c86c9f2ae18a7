/** The older, unqueued scripts (KeySmith/KeySmith/Internals/ScriptsLibrary.cs):
    a lock value with a TTL in seconds, a plain waiting list without a
    membership set, re-entry guard or TTL, a value-and-announce script and a
    four-key delete.

    `LegacySlice` is the store as a value, strings and lists in separate
    maps (no key holds both); `LegacyStore` runs the scripts command by
    command and is proved to agree with the functions. */
module LegacyScripts {
  import opened Common
  import opened Scripts

  /** String keys, list keys (never empty: Redis deletes an emptied list),
      remaining TTLs in seconds and every message published. */
  datatype LegacySlice = LegacySlice(
    strings: map<string, string>, lists: map<string, seq<string>>,
    ttls: map<string, int>, published: seq<Message>)

  predicate LegacyWellFormed(s: LegacySlice) {
    && (forall k :: k in s.strings ==> k !in s.lists)
    && (forall k :: k in s.lists ==> s.lists[k] != [])
    && (forall k :: k in s.ttls ==> k in s.strings || k in s.lists)
  }

  /** `DEL` on each of the keys. */
  function Delete(s: LegacySlice, keys: set<string>): LegacySlice {
    s.(strings := s.strings - keys, lists := s.lists - keys, ttls := s.ttls - keys)
  }

  /** `DeleteAllKeys` (line 7). */
  function DeleteAllKeys(s: LegacySlice, key1: string, key2: string, key3: string, key4: string): LegacySlice {
    Delete(s, {key1, key2, key3, key4})
  }

  /** `SetAndPublish` (lines 9-12): a plain `SET`, which drops any TTL the
      key had, then `PUBLISH`. */
  function LegacySetAndPublish(s: LegacySlice, key: string, lockNotifKey: string, value: string): LegacySlice {
    LegacySlice(s.strings[key := value], s.lists - {key}, s.ttls - {key},
                s.published + [Message(lockNotifKey, value)])
  }

  /** Redis refuses a string command on a list key and the reverse. */
  const WrongType: Exception := Throw(RedisServer, "WRONGTYPE Operation against a key holding the wrong kind of value")

  datatype LegacyAcquired = LegacyAcquired(after: LegacySlice, reply: int)

  /** `GetLockOrSubscribe` (lines 14-21): `SET key value EX timeout NX`
      returns 1 when the key was free; otherwise the value is pushed on the
      waiting list, whoever holds the lock, and 0 returned. Redis checks the
      expiry before the key, so a non-positive one fails either way. */
  function GetLockOrSubscribeStep(s: LegacySlice, key: string, value: string, timeout: int, listKey: string)
    : Result<LegacyAcquired>
  {
    if timeout <= 0 then Err(InvalidExpire)
    else if key !in s.strings && key !in s.lists then
      Ok(LegacyAcquired(s.(strings := s.strings[key := value], ttls := s.ttls[key := timeout]), 1))
    else if listKey in s.strings then Err(WrongType)
    else
      var queue := if listKey in s.lists then s.lists[listKey] else [];
      Ok(LegacyAcquired(s.(lists := s.lists[listKey := queue + [value]]), 0))
  }

  /** `FreeLockAndPop` (lines 23-32): the holder hands the lock to the head
      of the list, or deletes it when no one waits; anyone else changes
      nothing. A failing `SET` after the `LPOP` keeps the pop. */
  function FreeLockAndPopStep(s: LegacySlice, lockKey: string, identifier: string, listKey: string, timeout: int,
                         lockNotifKey: string): LegacyReleased
  {
    if lockKey in s.lists then LegacyReleased(s, Fail(WrongType))
    else if lockKey !in s.strings || s.strings[lockKey] != identifier then LegacyReleased(s, Pass)
    else if listKey in s.strings then LegacyReleased(s, Fail(WrongType))
    else if listKey !in s.lists || s.lists[listKey] == [] then
      LegacyReleased(Delete(s, {lockKey}), Pass)
    else
      var queue := s.lists[listKey];
      var popped := if |queue| == 1 then Delete(s, {listKey}) else s.(lists := s.lists[listKey := queue[1..]]);
      if timeout <= 0 then LegacyReleased(popped, Fail(InvalidExpire))
      else
        LegacyReleased(popped.(strings := popped.strings[lockKey := queue[0]], ttls := popped.ttls[lockKey := timeout],
                         published := popped.published + [Message(lockNotifKey, queue[0])]), Pass)
  }

  datatype LegacyReleased = LegacyReleased(after: LegacySlice, outcome: Outcome)

  datatype LegacyCall = SubscribeOrLockCall(value: string) | FreeCall(identifier: string)

  class LegacyStore {
    var strings: map<string, string>
    var lists: map<string, seq<string>>
    var ttls: map<string, int>
    var published: seq<Message>
    var reachable: bool
    var calls: seq<LegacyCall>

    function Slice(): LegacySlice
      reads this
    {
      LegacySlice(strings, lists, ttls, published)
    }

    predicate Valid()
      reads this
    {
      LegacyWellFormed(Slice())
    }

    constructor (s: LegacySlice, reachable: bool)
      requires LegacyWellFormed(s)
      ensures Valid() && Slice() == s && this.reachable == reachable && calls == []
    {
      strings, lists, ttls, published := s.strings, s.lists, s.ttls, s.published;
      this.reachable := reachable;
      calls := [];
    }

    method GetLockOrSubscribe(key: string, value: string, timeout: int, listKey: string) returns (r: Result<int>)
      requires Valid()
      modifies this
      ensures Valid() && reachable == old(reachable) && calls == old(calls) + [SubscribeOrLockCall(value)]
      ensures !reachable ==> r == Err(Unreachable) && Slice() == old(Slice())
      ensures reachable ==> match GetLockOrSubscribeStep(old(Slice()), key, value, timeout, listKey)
                            case Ok(a) => r == Ok(a.reply) && Slice() == a.after
                            case Err(e) => r == Err(e) && Slice() == old(Slice())
    {
      calls := calls + [SubscribeOrLockCall(value)];
      if !reachable {
        return Err(Unreachable);
      }
      if timeout <= 0 {
        return Err(InvalidExpire);
      }
      if key !in strings && key !in lists {
        strings := strings[key := value];
        ttls := ttls[key := timeout];
        return Ok(1);
      }
      if listKey in strings {
        return Err(WrongType);
      }
      var queue := if listKey in lists then lists[listKey] else [];
      lists := lists[listKey := queue + [value]];
      return Ok(0);
    }

    method FreeLockAndPop(lockKey: string, identifier: string, listKey: string, timeout: int, lockNotifKey: string)
      returns (r: Outcome)
      requires Valid()
      modifies this
      ensures Valid() && reachable == old(reachable) && calls == old(calls) + [FreeCall(identifier)]
      ensures !reachable ==> r == Fail(Unreachable) && Slice() == old(Slice())
      ensures reachable ==> var rel := FreeLockAndPopStep(old(Slice()), lockKey, identifier, listKey, timeout, lockNotifKey);
                            Slice() == rel.after && r == rel.outcome
    {
      calls := calls + [FreeCall(identifier)];
      if !reachable {
        return Fail(Unreachable);
      }
      if lockKey in lists {
        return Fail(WrongType);
      }
      if lockKey !in strings || strings[lockKey] != identifier {
        return Pass;
      }
      if listKey in strings {
        return Fail(WrongType);
      }
      if listKey !in lists {
        strings, ttls := strings - {lockKey}, ttls - {lockKey};
        lists := lists - {lockKey};
        return Pass;
      }
      var queue := lists[listKey];
      var next := queue[0];
      if |queue| == 1 {
        lists, ttls := lists - {listKey}, ttls - {listKey};
        strings := strings - {listKey};
      } else {
        lists := lists[listKey := queue[1..]];
      }
      if timeout <= 0 {
        return Fail(InvalidExpire);
      }
      strings, ttls := strings[lockKey := next], ttls[lockKey := timeout];
      published := published + [Message(lockNotifKey, next)];
      return Pass;
    }
  }

  // ---------------------------------------------------------------------
  // Properties

  /** A free lock is taken with its TTL and reply 1. */
  lemma LegacyAcquireFreeLock(s: LegacySlice, key: string, value: string, timeout: int, listKey: string)
    requires timeout > 0 && key !in s.strings && key !in s.lists
    ensures var r := GetLockOrSubscribeStep(s, key, value, timeout, listKey);
            && r.Ok? && r.value.reply == 1
            && r.value.after.strings[key] == value && r.value.after.ttls[key] == timeout
            && r.value.after.lists == s.lists && r.value.after.published == s.published
  {
  }

  /** No re-entry: the holder asking again is queued behind itself, at the
      tail of a list that keeps no TTL of its own. */
  lemma LegacyAcquireHasNoReentry(s: LegacySlice, key: string, value: string, timeout: int, listKey: string)
    requires timeout > 0 && key in s.strings && s.strings[key] == value && listKey !in s.strings
    ensures var r := GetLockOrSubscribeStep(s, key, value, timeout, listKey);
            && r.Ok? && r.value.reply == 0
            && r.value.after.strings == s.strings
            && r.value.after.lists[listKey] == (if listKey in s.lists then s.lists[listKey] else []) + [value]
            && r.value.after.ttls == s.ttls
  {
  }

  /** The holder's release hands the lock to the head of the list, announces
      it, and keeps the rest of the list in order. */
  lemma LegacyFifoHandOver(s: LegacySlice, lockKey: string, identifier: string, listKey: string, timeout: int,
                           lockNotifKey: string)
    requires LegacyWellFormed(s) && lockKey != listKey && timeout > 0
    requires lockKey in s.strings && s.strings[lockKey] == identifier && listKey in s.lists
    requires listKey !in s.strings
    ensures var queue := s.lists[listKey];
            var r := FreeLockAndPopStep(s, lockKey, identifier, listKey, timeout, lockNotifKey);
            && r.outcome == Pass
            && r.after.strings[lockKey] == queue[0] && r.after.ttls[lockKey] == timeout
            && r.after.published == s.published + [Message(lockNotifKey, queue[0])]
            && (if |queue| == 1 then listKey !in r.after.lists else r.after.lists[listKey] == queue[1..])
  {
  }

  /** With no one waiting, the holder's release deletes the lock; anyone
      else's release changes nothing. */
  lemma LegacyReleaseByHolderOrNot(s: LegacySlice, lockKey: string, identifier: string, listKey: string, timeout: int,
                                   lockNotifKey: string)
    requires LegacyWellFormed(s) && lockKey !in s.lists && listKey !in s.strings
    ensures var r := FreeLockAndPopStep(s, lockKey, identifier, listKey, timeout, lockNotifKey);
            && (lockKey in s.strings && s.strings[lockKey] == identifier && listKey !in s.lists ==>
                  r == LegacyReleased(Delete(s, {lockKey}), Pass) && lockKey !in r.after.strings)
            && (lockKey !in s.strings || s.strings[lockKey] != identifier ==> r == LegacyReleased(s, Pass))
  {
  }

  /** The value-and-announce script keeps the value without any TTL and
      announces it. */
  lemma LegacySetAndPublishKeepsNoTtl(s: LegacySlice, key: string, lockNotifKey: string, value: string)
    ensures var t := LegacySetAndPublish(s, key, lockNotifKey, value);
            && t.strings[key] == value && key !in t.ttls && key !in t.lists
            && t.published == s.published + [Message(lockNotifKey, value)]
  {
  }

  /** `DeleteAllKeys` removes its four keys and nothing else. */
  lemma DeleteAllKeysRemovesExactlyThem(s: LegacySlice, key1: string, key2: string, key3: string, key4: string)
    ensures var t := DeleteAllKeys(s, key1, key2, key3, key4);
            && (forall k :: k in {key1, key2, key3, key4} ==> k !in t.strings && k !in t.lists && k !in t.ttls)
            && (forall k :: k !in {key1, key2, key3, key4} && k in s.strings ==> k in t.strings && t.strings[k] == s.strings[k])
            && (forall k :: k !in {key1, key2, key3, key4} && k in s.lists ==> k in t.lists && t.lists[k] == s.lists[k])
            && t.published == s.published
  {
  }

  /** One uncontended client that takes the lock and releases it leaves
      neither the lock nor the list behind. */
  lemma LegacyUncontendedRoundTrip(s: LegacySlice, lockKey: string, identifier: string, listKey: string,
                                   timeout: int, lockNotifKey: string)
    requires LegacyWellFormed(s) && lockKey != listKey && timeout > 0
    requires lockKey !in s.strings && lockKey !in s.lists && listKey !in s.lists && listKey !in s.strings
    ensures var a := GetLockOrSubscribeStep(s, lockKey, identifier, timeout, listKey);
            && a.Ok? && a.value.reply == 1
            && var r := FreeLockAndPopStep(a.value.after, lockKey, identifier, listKey, timeout, lockNotifKey);
               && r.outcome == Pass
               && lockKey !in r.after.strings && lockKey !in r.after.ttls && listKey !in r.after.lists
               && r.after.published == s.published
  {
  }
}
