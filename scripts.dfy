/** The store side of the FIFO lock (KeySmith/Internals/Scripts/ScriptLibrary.cs):
    three Lua scripts, each atomic, over the keys of one lock — the lock value,
    the waiting list, the waiting set (a hash whose fields are identifiers) and
    the channel on which ownership is announced.

    `LockSlice` is that part of the store as a value and `Acquire`, `Release`
    and `Situation` say what each script does to it; `LockStore` runs the
    scripts command by command on mutable fields and is proved to agree. */
module Scripts {
  import opened Common
  import opened Parameters

  /** The keys of one lock. Redis deletes a list or hash that becomes empty,
      so an empty `queue` or `waiting` is an absent key. TTLs are remaining
      milliseconds; `None` is a key without expiry (or an absent key). */
  datatype LockSlice = LockSlice(
    lock: Option<string>, lockTtl: Option<int>,
    queue: seq<string>, queueTtl: Option<int>,
    waiting: set<string>, waitingTtl: Option<int>,
    published: seq<Message>)

  /** Only present keys carry a TTL, and a TTL is positive. */
  predicate WellFormed(s: LockSlice) {
    && (s.lock.None? ==> s.lockTtl.None?)
    && (s.queue == [] ==> s.queueTtl.None?)
    && (s.waiting == {} ==> s.waitingTtl.None?)
    && (s.lockTtl.Some? ==> s.lockTtl.value > 0)
    && (s.queueTtl.Some? ==> s.queueTtl.value > 0)
    && (s.waitingTtl.Some? ==> s.waitingTtl.value > 0)
  }

  /** The store with none of the lock's keys. */
  function EmptySlice(published: seq<Message>): LockSlice {
    LockSlice(None, None, [], None, {}, None, published)
  }

  /** Redis refuses `SET … PX t` when t is not positive; inside a script the
      error aborts it, keeping the writes made before. */
  const InvalidExpire: Exception := Throw(RedisServer, "ERR invalid expire time in 'set' command")

  // ---------------------------------------------------------------------
  // Acquire-or-enqueue (lines 12-34)

  datatype Acquired = Acquired(after: LockSlice, granted: bool)

  function Acquire(s: LockSlice, p: LockLuaParameters): Result<Acquired> {
    if s.lock == Some(p.identifier) then Ok(Acquired(s, true))
    else if p.timeout <= 0 then Err(InvalidExpire)
    else if s.lock.None? then
      Ok(Acquired(s.(lock := Some(p.identifier), lockTtl := Some(p.timeout),
                     published := s.published + [Message(p.lockNotifKey, p.identifier)]), true))
    else if s.queue != [] then
      Ok(Acquired(s.(queue := s.queue + [p.identifier], waiting := s.waiting + {p.identifier}), false))
    else
      Ok(Acquired(s.(queue := [p.identifier], queueTtl := Some(p.timeout),
                     waiting := s.waiting + {p.identifier}, waitingTtl := Some(p.timeout)), false))
  }

  // ---------------------------------------------------------------------
  // Release-and-promote (lines 36-56)

  /** The number of list entries before the first identifier still in the
      waiting set: the entries the release loop pops and discards. */
  function FirstLive(queue: seq<string>, waiting: set<string>): (k: nat)
    ensures k <= |queue|
    ensures forall j :: 0 <= j < k ==> queue[j] !in waiting
    ensures k < |queue| ==> queue[k] in waiting
  {
    if queue == [] || queue[0] in waiting then 0
    else 1 + FirstLive(queue[1..], waiting)
  }

  /** `HDEL waiting x`; the hash disappears with its last field. */
  function RemoveWaiting(s: LockSlice, x: string): LockSlice {
    s.(waiting := s.waiting - {x}, waitingTtl := if s.waiting - {x} == {} then None else s.waitingTtl)
  }

  datatype Popped = Popped(next: Option<string>, after: LockSlice)

  /** The release loop: pop list entries, dropping those no longer in the
      waiting set, until one is removed from it. */
  function PopLive(s: LockSlice): Popped {
    var k := FirstLive(s.queue, s.waiting);
    if k == |s.queue| then Popped(None, s.(queue := [], queueTtl := None))
    else
      var rest := s.queue[k + 1..];
      Popped(Some(s.queue[k]),
             RemoveWaiting(s.(queue := rest, queueTtl := if rest == [] then None else s.queueTtl), s.queue[k]))
  }

  datatype Released = Released(after: LockSlice, outcome: Outcome)

  function Release(s: LockSlice, p: LockLuaParameters): Released {
    if s.lock != Some(p.identifier) then
      Released(RemoveWaiting(s, p.identifier), Pass)
    else
      var popped := PopLive(s);
      match popped.next
      case None => Released(EmptySlice(s.published), Pass)
      case Some(next) =>
        var a := popped.after;
        if p.timeout <= 0 then Released(a, Fail(InvalidExpire))
        else
          Released(a.(lock := Some(next), lockTtl := Some(p.timeout),
                      queueTtl := if a.queue == [] then None else Some(p.timeout),
                      waitingTtl := if a.waiting == {} then None else Some(p.timeout),
                      published := s.published + [Message(p.lockNotifKey, next)]), Pass)
  }

  // ---------------------------------------------------------------------
  // Situation query (lines 58-66)

  /** 0: still waiting; 1: holds the lock; 2: unknown to the store. */
  function Situation(s: LockSlice, identifier: string): int {
    if identifier in s.waiting then 0
    else if s.lock == Some(identifier) then 1
    else 2
  }

  // ---------------------------------------------------------------------
  // Expiry

  datatype Entry = LockEntry | QueueEntry | WaitingEntry

  /** One key reaching the end of its TTL; a key without TTL never expires. */
  function Expire(s: LockSlice, e: Entry): LockSlice {
    match e
    case LockEntry => if s.lockTtl.Some? then s.(lock := None, lockTtl := None) else s
    case QueueEntry => if s.queueTtl.Some? then s.(queue := [], queueTtl := None) else s
    case WaitingEntry => if s.waitingTtl.Some? then s.(waiting := {}, waitingTtl := None) else s
  }

  // ---------------------------------------------------------------------
  // The store, command by command

  /** A script invocation as the store receives it. */
  datatype Call = AcquireCall(identifier: string) | ReleaseCall(identifier: string) | SituationCall(identifier: string)

  class LockStore {
    var lock: Option<string>
    var lockTtl: Option<int>
    var queue: seq<string>
    var queueTtl: Option<int>
    var waiting: set<string>
    var waitingTtl: Option<int>
    var published: seq<Message>
    /** Whether the client can reach the store; if not, every call throws. */
    var reachable: bool
    /** Every script invocation sent, in order. */
    var calls: seq<Call>

    function Slice(): LockSlice
      reads this
    {
      LockSlice(lock, lockTtl, queue, queueTtl, waiting, waitingTtl, published)
    }

    predicate Valid()
      reads this
    {
      WellFormed(Slice())
    }

    constructor (s: LockSlice, reachable: bool)
      requires WellFormed(s)
      ensures Valid() && Slice() == s && this.reachable == reachable && calls == []
    {
      lock, lockTtl, queue, queueTtl := s.lock, s.lockTtl, s.queue, s.queueTtl;
      waiting, waitingTtl, published := s.waiting, s.waitingTtl, s.published;
      this.reachable := reachable;
      calls := [];
    }

    /** `LPOP`: the list disappears with its last entry. */
    method LPop() returns (head: Option<string>)
      modifies this
      ensures head == (if old(queue) == [] then None else Some(old(queue)[0]))
      ensures queue == (if old(queue) == [] then [] else old(queue)[1..])
      ensures queueTtl == (if old(queue) != [] && queue == [] then None else old(queueTtl))
      ensures lock == old(lock) && lockTtl == old(lockTtl) && waiting == old(waiting)
      ensures waitingTtl == old(waitingTtl) && published == old(published) && reachable == old(reachable)
      ensures calls == old(calls)
    {
      if queue == [] {
        return None;
      }
      head := Some(queue[0]);
      queue := queue[1..];
      if queue == [] {
        queueTtl := None;
      }
    }

    /** `HDEL waiting field`: reports whether the field was there. */
    method HDel(field: string) returns (removed: bool)
      modifies this
      ensures removed == (field in old(waiting))
      ensures Slice() == RemoveWaiting(old(Slice()), field) && reachable == old(reachable)
      ensures calls == old(calls)
    {
      removed := field in waiting;
      waiting := waiting - {field};
      if waiting == {} {
        waitingTtl := None;
      }
    }

    /** `GetLockOrAddToQueueScript`; the reply 1 or 0 read as a boolean. */
    method GetLockOrAddToQueue(p: LockLuaParameters) returns (r: Result<bool>)
      requires Valid()
      modifies this
      ensures Valid() && reachable == old(reachable) && calls == old(calls) + [AcquireCall(p.identifier)]
      ensures !reachable ==> r == Err(Unreachable) && Slice() == old(Slice())
      ensures reachable ==> match Acquire(old(Slice()), p)
                            case Ok(a) => r == Ok(a.granted) && Slice() == a.after
                            case Err(e) => r == Err(e) && Slice() == old(Slice())
    {
      calls := calls + [AcquireCall(p.identifier)];
      if !reachable {
        return Err(Unreachable);
      }
      if lock == Some(p.identifier) {
        return Ok(true);
      }
      if p.timeout <= 0 {
        return Err(InvalidExpire);
      }
      if lock.None? {
        lock, lockTtl := Some(p.identifier), Some(p.timeout);
        published := published + [Message(p.lockNotifKey, p.identifier)];
        return Ok(true);
      }
      var existed := queue != [];
      queue := queue + [p.identifier];
      waiting := waiting + {p.identifier};
      if !existed {
        queueTtl := Some(p.timeout);
        waitingTtl := Some(p.timeout);
      }
      return Ok(false);
    }

    /** The LPOP/HDEL loop of the release script. */
    method PopUntilLive() returns (next: Option<string>)
      requires Valid()
      modifies this
      ensures Valid() && reachable == old(reachable)
      ensures next == PopLive(old(Slice())).next && Slice() == PopLive(old(Slice())).after
      ensures calls == old(calls)
    {
      ghost var s0 := Slice();
      ghost var k := FirstLive(s0.queue, s0.waiting);
      ghost var popped: nat := 0;
      next := LPop();
      if next.Some? {
        popped := 1;
      }
      while next.Some?
        invariant popped <= |s0.queue| && queue == s0.queue[popped..]
        invariant queueTtl == (if queue == [] then None else s0.queueTtl)
        invariant waiting == s0.waiting && waitingTtl == s0.waitingTtl
        invariant lock == s0.lock && lockTtl == s0.lockTtl && published == s0.published
        invariant reachable == old(reachable) && calls == old(calls)
        invariant next.Some? ==> 1 <= popped && next.value == s0.queue[popped - 1] && popped - 1 <= k
        invariant next.None? ==> popped == |s0.queue| && popped <= k
        decreases |queue| + (if next.Some? then 1 else 0)
      {
        var removed := HDel(next.value);
        if removed {
          assert popped - 1 == k;
          return;
        }
        next := LPop();
        if next.Some? {
          popped := popped + 1;
        }
      }
      assert k == |s0.queue|;
    }

    /** `FreeLockAndPopScript`: the holder hands the lock to the first entry
        still waiting, or deletes every key; anyone else leaves the set. */
    method FreeLockAndPop(p: LockLuaParameters) returns (r: Outcome)
      requires Valid()
      modifies this
      ensures Valid() && reachable == old(reachable) && calls == old(calls) + [ReleaseCall(p.identifier)]
      ensures !reachable ==> r == Fail(Unreachable) && Slice() == old(Slice())
      ensures reachable ==> Slice() == Release(old(Slice()), p).after && r == Release(old(Slice()), p).outcome
    {
      calls := calls + [ReleaseCall(p.identifier)];
      if !reachable {
        return Fail(Unreachable);
      }
      if lock != Some(p.identifier) {
        var _ := HDel(p.identifier);
        return Pass;
      }
      var next := PopUntilLive();
      if next.Some? {
        if p.timeout <= 0 {
          return Fail(InvalidExpire);
        }
        lock, lockTtl := next, Some(p.timeout);
        if waiting != {} {
          waitingTtl := Some(p.timeout);
        }
        if queue != [] {
          queueTtl := Some(p.timeout);
        }
        published := published + [Message(p.lockNotifKey, next.value)];
      } else {
        lock, lockTtl := None, None;
        queue, queueTtl := [], None;
        waiting, waitingTtl := {}, None;
      }
      return Pass;
    }

    /** `GetKeySituationScript`. */
    method GetKeySituation(p: LockLuaParameters) returns (r: Result<int>)
      requires Valid()
      modifies this
      ensures Slice() == old(Slice()) && reachable == old(reachable)
      ensures calls == old(calls) + [SituationCall(p.identifier)]
      ensures !reachable ==> r == Err(Unreachable)
      ensures reachable ==> r == Ok(Situation(Slice(), p.identifier))
    {
      calls := calls + [SituationCall(p.identifier)];
      if !reachable {
        return Err(Unreachable);
      }
      if p.identifier in waiting {
        return Ok(0);
      } else if lock == Some(p.identifier) {
        return Ok(1);
      }
      return Ok(2);
    }

    /** A key of the lock reaching its TTL. */
    method ExpireEntry(e: Entry)
      requires Valid()
      modifies this
      ensures Valid() && Slice() == Expire(old(Slice()), e) && reachable == old(reachable)
      ensures calls == old(calls)
    {
      match e
      case LockEntry =>
        if lockTtl.Some? {
          lock, lockTtl := None, None;
        }
      case QueueEntry =>
        if queueTtl.Some? {
          queue, queueTtl := [], None;
        }
      case WaitingEntry =>
        if waitingTtl.Some? {
          waiting, waitingTtl := {}, None;
        }
    }
  }
}
