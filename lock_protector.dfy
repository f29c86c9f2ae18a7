/** The watchdog of one lock attempt (KeySmith/Internals/Locks/LockProtector.cs).
    Every time the keys' expiration elapses it asks the store where the
    attempt stands and repairs what expiry may have broken: it re-enters a
    queue that vanished, takes a lock it was handed without hearing the
    notification, and ends an attempt whose lock was lost.

    One pass of its loop is `ProtectorStep`, written over the replies of an
    abstract script library so that any reply (a mock's 4, a thrown
    exception) has a meaning; `Iterate` runs that pass against the store
    model and is proved to agree with it. */
module LockProtectors {
  import opened Common
  import opened Parameters
  import opened Scripts
  import opened ScriptProperties
  import opened LockStates

  /** How one pass of the loop ends: it goes round again, it returns, it is
      still inside an infinite delay, or an exception leaves the loop. The
      loop is started by the `async void` method `EnsureNoDeadLock` (lines 17
      and 37), so an escaping exception is rethrown on the thread pool and
      terminates the process. */
  datatype Iteration = Continue | Return | Asleep | Escape(error: Exception)

  /** What the switch on the situation reply decides. */
  datatype Action = KeepWaiting | TakeKey | Reacquire | LoseKey | Stop | Fault(error: Exception)

  const UnexpectedState: Exception := Throw(NotImplemented, "Unexpected Redis state")

  /** The largest delay the timer accepts, in milliseconds. */
  const MaxDelay: int := 4294967294

  /** `Task.Delay` accepts -1 (wait forever) and 0 to `MaxDelay` milliseconds. */
  predicate DelayAccepted(delay: int) {
    -1 <= delay <= MaxDelay
  }

  /** `Task.Delay` refuses any other delay; this model does not reproduce
      .NET's wording. */
  const DelayOutOfRange: Exception := Throw(Argument, "The delay must be -1 (infinite) or between 0 and 4294967294 milliseconds.")

  /** The switch of lines 70-109, on any reply of the situation query (a
      thrown exception reaches the catch of line 111). */
  function Decide(reply: Result<int>, state: State): Action {
    match reply
    case Err(e) => Fault(e)
    case Ok(code) =>
      if code == 0 then KeepWaiting
      else if code == 1 then TakeKey
      else if code == 2 then
        match state
        case WaitingForKey => Reacquire
        case WithKey => LoseKey
        case Done => Stop
      else Fault(UnexpectedState)
  }

  /** One pass: the attempt after it, how it ends, and the script calls it
      sent. */
  datatype Turn = Turn(after: Attempt, result: Iteration, sent: seq<Call>)

  /** One pass of the loop, from the delay to the end of the switch, given
      the replies the library would give to the situation query and to a
      renewed acquire. Reading `Token` on a disposed source throws before the
      delay starts; a cancelled token ends the delay at once. */
  function ProtectorStep(a: Attempt, p: LockLuaParameters, delay: int,
                         situation: Result<int>, acquire: Result<bool>): Turn {
    if a.disposed then Turn(a, Escape(SourceDisposed), [])
    else if !DelayAccepted(delay) then Turn(a, Escape(DelayOutOfRange), [])
    else if a.tokenCanceled then Turn(a, Return, [])
    else if delay == -1 then Turn(a, Asleep, [])
    else if a.state == Done then Turn(a, Return, [])
    else
      var query := [SituationCall(p.identifier)];
      match Decide(situation, a.state)
      case KeepWaiting => Turn(a, Continue, query)
      case TakeKey => Turn(SetWithKeyStep(a).after, Continue, query)
      case Reacquire =>
        (match acquire
         case Err(e) => Turn(SetDoneStep(a, Some(e)).after, Return, query + [AcquireCall(p.identifier)])
         case Ok(granted) =>
           Turn(if granted then SetWithKeyStep(a).after else a, Continue, query + [AcquireCall(p.identifier)]))
      case LoseKey => Turn(SetDoneStep(a, None).after, Return, query)
      case Stop => Turn(a, Return, query)
      case Fault(e) => Turn(SetDoneStep(a, Some(e)).after, Return, query)
  }

  /** What the store model replies to the situation query. */
  function SituationReply(s: LockSlice, reachable: bool, identifier: string): Result<int> {
    if reachable then Ok(Situation(s, identifier)) else Err(Unreachable)
  }

  /** What the store model replies to the acquire script, and its new slice. */
  function AcquireReply(s: LockSlice, reachable: bool, p: LockLuaParameters): Result<bool> {
    if !reachable then Err(Unreachable)
    else match Acquire(s, p)
         case Ok(acq) => Ok(acq.granted)
         case Err(e) => Err(e)
  }

  function AcquireEffect(s: LockSlice, reachable: bool, p: LockLuaParameters): LockSlice {
    if reachable && Acquire(s, p).Ok? then Acquire(s, p).value.after else s
  }

  /** Whether the loop is entered at all: the test-only constructor may skip
      it, and an attempt already done returns at once. */
  function Starts(a: Attempt, startProtection: bool): bool {
    startProtection && a.state != Done
  }

  /** One pass of `EnsureNoDeadLockAsync` against the store. */
  method Iterate(state: LockState, store: LockStore) returns (r: Iteration)
    requires store.Valid()
    modifies state, store
    ensures store.Valid() && store.reachable == old(store.reachable)
    ensures var t := ProtectorStep(old(state.Snapshot()), state.parameters, state.key.redisKeyExpiration,
                                   SituationReply(old(store.Slice()), old(store.reachable), state.parameters.identifier),
                                   AcquireReply(old(store.Slice()), old(store.reachable), state.parameters));
            && state.Snapshot() == t.after && r == t.result
            && store.calls == old(store.calls) + t.sent
            && store.Slice() == (if |t.sent| == 2 then AcquireEffect(old(store.Slice()), old(store.reachable), state.parameters)
                                 else old(store.Slice()))
  {
    var delay := state.key.redisKeyExpiration;
    // await Task.Delay(delay, Token)
    if state.disposed {
      return Escape(SourceDisposed);
    }
    if !DelayAccepted(delay) {
      return Escape(DelayOutOfRange);
    }
    if state.tokenCanceled {
      return Return;
    }
    if delay == -1 {
      return Asleep;
    }
    if state.state == Done {
      return Return;
    }
    var reply := store.GetKeySituation(state.parameters);
    var action := Decide(reply, state.state);
    match action {
      case KeepWaiting =>
        r := Continue;
      case TakeKey =>
        var _ := state.SetWithKey();
        r := Continue;
      case Reacquire =>
        var granted := store.GetLockOrAddToQueue(state.parameters);
        if granted.Err? {
          var _ := state.SetDone(Some(granted.error));
          r := Return;
        } else {
          if granted.value {
            var _ := state.SetWithKey();
          }
          r := Continue;
        }
      case LoseKey =>
        var _ := state.SetDone(None);
        r := Return;
      case Stop =>
        r := Return;
      case Fault(e) =>
        var _ := state.SetDone(Some(e));
        r := Return;
    }
  }

  /** `Dispose`: end the attempt without an exception. */
  method Dispose(state: LockState) returns (r: Outcome)
    modifies state
    ensures state.Snapshot() == SetDoneStep(old(state.Snapshot()), None).after
    ensures r == SetDoneStep(old(state.Snapshot()), None).outcome
  {
    r := state.SetDone(None);
  }

  // ---------------------------------------------------------------------
  // Properties of one pass

  /** A live pass: not disposed, a delay the timer accepts and that ends. */
  predicate Awake(a: Attempt, delay: int) {
    !a.disposed && 0 <= delay <= MaxDelay
  }

  /** Once the attempt is done, or its token cancelled, the pass returns
      without touching the attempt or querying the store. */
  lemma ProtectorStopsQuietly(a: Attempt, p: LockLuaParameters, delay: int, situation: Result<int>, acquire: Result<bool>)
    requires Awake(a, delay) && (a.state == Done || a.tokenCanceled)
    ensures ProtectorStep(a, p, delay, situation, acquire) == Turn(a, Return, [])
  {
  }

  /** A pass after the attempt's source was disposed throws out of the loop
      before anything else happens. */
  lemma DisposedProtectorEscapes(a: Attempt, p: LockLuaParameters, delay: int, situation: Result<int>, acquire: Result<bool>)
    requires a.disposed
    ensures ProtectorStep(a, p, delay, situation, acquire) == Turn(a, Escape(SourceDisposed), [])
  {
  }

  /** A key expiration the timer refuses makes every pass on a live source
      throw out of the loop, whatever the attempt's state, before the store
      is queried. */
  lemma RefusedDelayEscapes(a: Attempt, p: LockLuaParameters, delay: int, situation: Result<int>, acquire: Result<bool>)
    requires !a.disposed && !DelayAccepted(delay)
    ensures ProtectorStep(a, p, delay, situation, acquire) == Turn(a, Escape(DelayOutOfRange), [])
  {
  }

  /** How an awake pass on a running attempt reads each reply. */
  lemma ProtectorReadsTheSituation(a: Attempt, p: LockLuaParameters, delay: int, situation: Result<int>, acquire: Result<bool>)
    requires Consistent(a) && Awake(a, delay) && !a.tokenCanceled && a.state != Done
    ensures var t := ProtectorStep(a, p, delay, situation, acquire);
            && t.sent[..1] == [SituationCall(p.identifier)]
            // 0: keep waiting, nothing changes
            && (situation == Ok(0) ==> t == Turn(a, Continue, [SituationCall(p.identifier)]))
            // 1: the lock is ours; the signal succeeds and the loop goes on
            && (situation == Ok(1) ==> t.result == Continue && t.after.state == WithKey && t.after.task == Some(Succeeded))
            // 2 while waiting: acquire again, and take the key if granted
            && (situation == Ok(2) && a.state == WaitingForKey ==>
                  && t.sent == [SituationCall(p.identifier), AcquireCall(p.identifier)]
                  && (acquire == Ok(true) ==> t.result == Continue && t.after.state == WithKey && t.after.task == Some(Succeeded))
                  && (acquire == Ok(false) ==> t.result == Continue && t.after == a)
                  && (acquire.Err? ==> t.result == Return && t.after.state == Done
                                       && t.after.task == Some(Faulted(acquire.error))))
            // 2 while holding: the lock was lost; the attempt ends, cancelling the token
            && (situation == Ok(2) && a.state == WithKey ==>
                  t.result == Return && t.after.state == Done && t.after.tokenCanceled && t.after.task == a.task)
            // anything else: the signal faults with the exception thrown
            && (situation.Err? ==> t.result == Return && t.after.state == Done
                                   && t.after.task == TrySet(a.task, Faulted(situation.error)))
            && (situation.Ok? && situation.value !in {0, 1, 2} ==>
                  t.result == Return && t.after.state == Done && t.after.task == TrySet(a.task, Faulted(UnexpectedState)))
  {
  }

  /** A pass keeps the attempt consistent and moves it forward only; it
      continues only while the attempt is not done. */
  lemma ProtectorStepIsMonotone(a: Attempt, p: LockLuaParameters, delay: int, situation: Result<int>, acquire: Result<bool>)
    requires Consistent(a)
    ensures var t := ProtectorStep(a, p, delay, situation, acquire);
            && Consistent(t.after) && Rank(a.state) <= Rank(t.after.state)
            && (a.task.Some? ==> t.after.task == a.task)
            && (t.result == Continue ==> t.after.state != Done)
  {
  }

  /** The store model only ever replies 0, 1 or 2, so the "unexpected state"
      branch is reached only through a different library. */
  lemma StoreNeverSurprisesTheProtector(s: LockSlice, identifier: string, state: State)
    ensures Decide(SituationReply(s, true, identifier), state) != Fault(UnexpectedState)
  {
    SituationCodes(s, identifier);
  }

  /** Recovery from expiry: a waiter whose keys have all expired under it
      reads situation 2, acquires again, is granted the lock, and announces
      it. */
  lemma ProtectorRecoversExpiredKeys(s: LockSlice, a: Attempt, p: LockLuaParameters)
    requires WellFormed(s) && s.lockTtl.Some? && s.waitingTtl.Some? && 0 < p.timeout <= MaxDelay
    requires a == Fresh(false)
    ensures var e := Expire(Expire(s, LockEntry), WaitingEntry);
            var t := ProtectorStep(a, p, p.timeout, SituationReply(e, true, p.identifier), AcquireReply(e, true, p));
            && t.result == Continue && t.after.state == WithKey && t.after.task == Some(Succeeded)
            && AcquireEffect(e, true, p).lock == Some(p.identifier)
            && AcquireEffect(e, true, p).published == e.published + [Message(p.lockNotifKey, p.identifier)]
  {
    RecoveryAfterExpiry(s, p);
  }

  /** `Dispose` on a live source always finishes the attempt and cancels its
      token; a still-waiting signal ends cancelled. */
  lemma DisposeEndsTheAttempt(a: Attempt)
    requires !a.disposed
    ensures var b := SetDoneStep(a, None);
            && b.outcome == Pass && b.after.state == Done && b.after.tokenCanceled
            && (a.task.None? ==> b.after.task == Some(Canceled))
  {
  }
}
