/** The lock service (KeySmith/LockService.cs): subscribe to the lock's
    channel, ask for the lock, start the watchdog, wait for the signal, run
    the callback, then always release and always unsubscribe.

    The service runs while notifications arrive, the watchdog wakes up, the
    caller cancels, keys expire and other clients use the same lock. Here
    those happenings are a sequence of `Event`s played, one at a time,
    during the wait; the callback is its outcome. What the service does is
    recorded in `trace`, and the script calls it sends appear in the
    store's call log. */
module LockServices {
  import opened Common
  import opened Keys
  import opened Parameters
  import opened Scripts
  import opened ScriptProperties
  import opened LockStates
  import opened LockProtectors

  /** Something that happens while the service waits for the lock. */
  datatype Event =
    | Notify(payload: string)          // a message on the lock's channel
    | Tick                             // the watchdog's delay elapses
    | CallerCancels                    // the caller's token is cancelled
    | KeyExpires(entry: Entry)         // one of the lock's keys reaches its TTL
    | OtherAcquires(other: string)     // another client's acquire script
    | OtherReleases(other: string)     // another client's release script

  /** What the callback does once invoked. */
  datatype CallbackResult<T> = Returns(value: T) | Throws(error: Exception)

  /** How `LockAsync` ends; `StillWaiting` when the events ran out before the
      signal resolved (the call has not returned); `Crashed` when an
      exception escaped the watchdog's loop, which its `async void` starter
      rethrows on the thread pool, terminating the process. The rethrow is
      queued, so `LockAsync` may go on for a while before the process ends;
      `Crashed` is the interleaving in which the crash comes first. */
  datatype LockOutcome<T> = Returned(value: T) | Threw(error: Exception) | StillWaiting | Crashed(error: Exception)
  {
    /** The call returned or threw to its caller. */
    predicate Finished() {
      Returned? || Threw?
    }
  }

  /** What the service does, in order. */
  datatype Effect =
    | SubscribeSent
    | AcquireSent
    | ProtectorStarted(state: State)
    | WaitEnded(completion: Completion)
    | CallbackInvoked
    | ProtectorDisposed(state: State)
    | ReleaseSent
    | UnsubscribeSent
    | StateDisposed

  const NullCallback: Exception := Throw(ArgumentNull, "Value cannot be null. (Parameter 'callback')")
  const NullDereference: Exception := Throw(NullReference, "Object reference not set to an instance of an object.")

  /** The attempt `b` is `a` moved forward: still consistent, its state never
      moved back and a resolved signal kept. */
  predicate Advances(a: Attempt, b: Attempt) {
    Consistent(b) && Rank(a.state) <= Rank(b.state) && (a.task.Some? ==> b.task == a.task)
  }

  /** The calls in `after` begin with those in `before`. */
  predicate Extends(before: seq<Call>, after: seq<Call>) {
    |before| <= |after| && after[..|before|] == before
  }

  lemma ExtendsTransitive(a: seq<Call>, b: seq<Call>, c: seq<Call>)
    requires Extends(a, b) && Extends(b, c)
    ensures Extends(a, c)
  {
    assert c[..|a|] == c[..|b|][..|a|];
  }

  /** On a store holding none of the lock's keys, acquire is granted, and the
      release after it leaves only the announcement behind. */
  lemma GrantedAtOnce(s: LockSlice, p: LockLuaParameters)
    requires s == EmptySlice(s.published) && p.timeout > 0
    ensures AcquireReply(s, true, p) == Ok(true)
    ensures Release(AcquireEffect(s, true, p), p).after == EmptySlice(s.published + [Message(p.lockNotifKey, p.identifier)])
  {
    UncontendedRoundTrip(s, p);
  }

  /** Where the effects of an inner block sit once an outer block adds its
      own first and last steps. */
  lemma Enclosed(first: Effect, inner: seq<Effect>, last: seq<Effect>)
    requires |inner| >= 2
    ensures var t := [first] + inner + last;
            && t[..2] == [first, inner[0]] && t[2] == inner[1] && (|inner| >= 3 ==> t[3..|t| - |last|] == inner[2..])
            && t[|t| - |last| - 1..] == [inner[|inner| - 1]] + last
  {
    var t := [first] + inner + last;
    assert t[|t| - |last| - 1..] == [inner[|inner| - 1]] + last;
  }

  /** One event during the wait. The watchdog's pass runs only while its loop
      has not returned; `watching'` says whether it still runs. */
  method Happen(state: LockState, store: LockStore, watching: bool, e: Event) returns (watching': bool)
    requires store.Valid() && !state.disposed
    modifies state, store
    ensures store.Valid() && !state.disposed && Extends(old(store.calls), store.calls)
    ensures store.reachable == old(store.reachable)
    ensures e.Notify? ==> state.Snapshot() == HandlerStep(old(state.Snapshot()), state.identifier, e.payload).after
                          && store.Slice() == old(store.Slice()) && watching' == watching
    ensures e.CallerCancels? ==> state.Snapshot() == CancelParentStep(old(state.Snapshot()))
                                 && store.Slice() == old(store.Slice()) && watching' == watching
    ensures e.KeyExpires? ==> store.Slice() == Expire(old(store.Slice()), e.entry)
                              && state.Snapshot() == old(state.Snapshot()) && watching' == watching
    ensures e.Tick? && !watching ==> state.Snapshot() == old(state.Snapshot()) && store.Slice() == old(store.Slice())
                                     && !watching'
    ensures Consistent(old(state.Snapshot())) ==> Advances(old(state.Snapshot()), state.Snapshot())
  {
    ghost var a := state.Snapshot();
    watching' := watching;
    match e
    case Notify(payload) =>
      var _ := state.Handler(payload);
      if Consistent(a) {
        ApplyIsMonotone(a, state.identifier, HandlerOp(payload));
      }
    case Tick =>
      if watching {
        // During the wait the source is not disposed, and a refused delay
        // already ended the process when the watchdog started (`Started`),
        // so the pass does not escape here.
        ghost var s0, reachable0 := store.Slice(), store.reachable;
        var r := Iterate(state, store);
        watching' := r == Continue || r == Asleep;
        if Consistent(a) {
          ProtectorStepIsMonotone(a, state.parameters, state.key.redisKeyExpiration,
                                  SituationReply(s0, reachable0, state.parameters.identifier),
                                  AcquireReply(s0, reachable0, state.parameters));
        }
      }
    case CallerCancels =>
      state.CancelParent();
      if Consistent(a) {
        ApplyIsMonotone(a, state.identifier, CancelParentOp);
      }
    case KeyExpires(entry) =>
      store.ExpireEntry(entry);
    case OtherAcquires(other) =>
      var _ := store.GetLockOrAddToQueue(state.parameters.(identifier := other));
    case OtherReleases(other) =>
      var _ := store.FreeLockAndPop(state.parameters.(identifier := other));
  }

  /** The await on the signal: events happen, one at a time, until the
      signal resolves or the events run out. */
  method AwaitSignal(state: LockState, store: LockStore, watching: bool, events: seq<Event>)
    requires store.Valid() && !state.disposed
    modifies state, store
    ensures store.Valid() && !state.disposed && Extends(old(store.calls), store.calls)
    ensures store.reachable == old(store.reachable)
    ensures old(state.task).Some? ==> state.Snapshot() == old(state.Snapshot())
                                      && store.Slice() == old(store.Slice()) && store.calls == old(store.calls)
    ensures Consistent(old(state.Snapshot())) ==> Advances(old(state.Snapshot()), state.Snapshot())
  {
    if state.task.Some? {
      // the signal already resolved: the await completes at once
      return;
    }
    var i := 0;
    var w := watching;
    while i < |events| && state.task.None?
      invariant 0 <= i <= |events|
      invariant store.Valid() && !state.disposed && Extends(old(store.calls), store.calls)
      invariant store.reachable == old(store.reachable)
      invariant Consistent(old(state.Snapshot())) ==> Advances(old(state.Snapshot()), state.Snapshot())
    {
      w := Happen(state, store, w, events[i]);
      i := i + 1;
    }
  }

  /** How the call ends once the signal has resolved with `c`: the callback
      runs exactly when the signal succeeded, and its result is returned
      unchanged; a cancelled signal surfaces as a cancelled task and a faulted
      one as its exception; the watchdog is then disposed, leaving the attempt
      done, and the release is sent. */
  ghost predicate Concludes<T>(effects: seq<Effect>, c: Completion, callback: CallbackResult<T>, r: LockOutcome<T>) {
    && effects == [WaitEnded(c)] + (if c == Succeeded then [CallbackInvoked] else []) + [ProtectorDisposed(Done), ReleaseSent]
    && (c == Succeeded ==> r == match callback
                                case Returns(v) => Returned(v)
                                case Throws(e) => Threw(e))
    && (c == Canceled ==> r == Threw(TaskCanceledError))
    && (c.Faulted? ==> r == Threw(c.error))
  }

  /** From the end of the wait to the release. The release in the finally
      block is sent fire-and-forget: once the script is loaded, its outcome
      is not observed (a failed load is not modelled). */
  method AfterWait<T>(state: LockState, store: LockStore, callback: CallbackResult<T>) returns (r: LockOutcome<T>, effects: seq<Effect>)
    requires store.Valid() && !state.disposed && state.task.Some?
    modifies state, store
    ensures store.Valid() && !state.disposed && store.reachable == old(store.reachable)
    ensures Concludes(effects, old(state.task).value, callback, r)
    ensures store.calls == old(store.calls) + [ReleaseCall(state.parameters.identifier)]
    ensures store.Slice() == if old(store.reachable) then Release(old(store.Slice()), state.parameters).after
                             else old(store.Slice())
  {
    var completion := state.task.value;
    effects := [WaitEnded(completion)];
    match completion {
      case Succeeded =>
        effects := effects + [CallbackInvoked];
        r := match callback
             case Returns(v) => Returned(v)
             case Throws(e) => Threw(e);
      case Canceled =>
        r := Threw(TaskCanceledError);
      case Faulted(e) =>
        r := Threw(e);
    }
    // leaving the protector's using block
    var _ := Dispose(state);
    effects := effects + [ProtectorDisposed(state.state)];
    var _ := store.FreeLockAndPop(state.parameters);
    effects := effects + [ReleaseSent];
  }

  /** The protector's using block and the release after it: wait, then
      conclude. */
  method Protected<T>(state: LockState, store: LockStore, callback: CallbackResult<T>, events: seq<Event>)
    returns (r: LockOutcome<T>, effects: seq<Effect>, ghost c: Completion)
    requires store.Valid() && !state.disposed
    modifies state, store
    ensures store.Valid() && !state.disposed && store.reachable == old(store.reachable)
    ensures Extends(old(store.calls), store.calls)
    ensures r.StillWaiting? ==> effects == [] && old(state.task).None?
    ensures !r.StillWaiting? ==> Concludes(effects, c, callback, r)
                                 && |effects| >= 3 && effects[|effects| - 1] == ReleaseSent
                                 && |store.calls| > 0 && store.calls[|store.calls| - 1] == ReleaseCall(state.parameters.identifier)
    ensures old(state.task).Some? ==>
              && c == old(state.task).value
              && store.calls == old(store.calls) + [ReleaseCall(state.parameters.identifier)]
              && store.Slice() == if old(store.reachable) then Release(old(store.Slice()), state.parameters).after
                                  else old(store.Slice())
  {
    AwaitSignal(state, store, Starts(state.Snapshot(), true), events);
    if state.task.None? {
      return StillWaiting, [], Succeeded;
    }
    c := state.task.value;
    r, effects := AfterWait(state, store, callback);
  }

  /** The watchdog starts on an attempt that holds the key exactly when
      acquire granted it, then the protected wait runs. Its first
      `Task.Delay` is called as it starts: a key expiration the timer refuses
      escapes the loop at once, and the process ends; the model takes the
      interleaving in which that happens before anything else runs. */
  method Started<T>(state: LockState, store: LockStore, callback: CallbackResult<T>, events: seq<Event>, granted: bool)
    returns (r: LockOutcome<T>, effects: seq<Effect>, ghost c: Completion)
    requires store.Valid() && state.Snapshot() == Fresh(state.Snapshot().tokenCanceled)
    modifies state, store
    ensures store.Valid() && !state.disposed && store.reachable == old(store.reachable)
    ensures Extends(old(store.calls), store.calls)
    ensures |effects| >= 1 && effects[0] == ProtectorStarted(if granted then WithKey else WaitingForKey)
    ensures r.Crashed? <==> !DelayAccepted(state.key.redisKeyExpiration)
    ensures r.Crashed? ==> && r.error == DelayOutOfRange && |effects| == 1
                           && store.calls == old(store.calls) && store.Slice() == old(store.Slice())
    ensures r.StillWaiting? ==> !granted && effects == [ProtectorStarted(WaitingForKey)]
    ensures r.Finished() ==> && Concludes(effects[1..], c, callback, r)
                             && |effects| >= 4 && effects[|effects| - 1] == ReleaseSent
                             && |store.calls| > 0
                             && store.calls[|store.calls| - 1] == ReleaseCall(state.parameters.identifier)
    ensures granted && DelayAccepted(state.key.redisKeyExpiration) ==>
              && c == Succeeded
              && store.calls == old(store.calls) + [ReleaseCall(state.parameters.identifier)]
              && store.Slice() == if old(store.reachable) then Release(old(store.Slice()), state.parameters).after
                                  else old(store.Slice())
  {
    if granted {
      var _ := state.SetWithKey();
    }
    var tail;
    effects := [ProtectorStarted(state.state)];
    if !DelayAccepted(state.key.redisKeyExpiration) {
      return Crashed(DelayOutOfRange), effects, Succeeded;
    }
    r, tail, c := Protected(state, store, callback, events);
    effects := effects + tail;
    assert effects[1..] == tail;
  }

  /** Everything inside the subscription's try block: acquire, then the
      protected wait, or straight to the release if acquire threw. */
  method Subscribed<T>(state: LockState, store: LockStore, callback: CallbackResult<T>, events: seq<Event>)
    returns (r: LockOutcome<T>, effects: seq<Effect>, ghost c: Completion)
    requires store.Valid() && state.Snapshot() == Fresh(state.Snapshot().tokenCanceled)
    modifies state, store
    ensures store.Valid() && !state.disposed
    ensures Extends(old(store.calls) + [AcquireCall(state.parameters.identifier)], store.calls)
    ensures var acquired := AcquireReply(old(store.Slice()), old(store.reachable), state.parameters);
            && |effects| >= 2 && effects[0] == AcquireSent
            && (acquired.Err? ==> r == Threw(acquired.error) && effects == [AcquireSent, ReleaseSent]
                                  && store.calls == old(store.calls) + [AcquireCall(state.parameters.identifier),
                                                                        ReleaseCall(state.parameters.identifier)])
            && (acquired.Ok? ==> effects[1] == ProtectorStarted(if acquired.value then WithKey else WaitingForKey)
                                 && (r.Finished() ==> Concludes(effects[2..], c, callback, r)))
            && (r.StillWaiting? ==> acquired == Ok(false) && effects == [AcquireSent, ProtectorStarted(WaitingForKey)])
            && (r.Crashed? <==> acquired.Ok? && !DelayAccepted(state.key.redisKeyExpiration))
    ensures r.Crashed? ==> && r.error == DelayOutOfRange && |effects| == 2
                           && store.calls == old(store.calls) + [AcquireCall(state.parameters.identifier)]
    ensures r.Finished() ==> store.calls[|store.calls| - 1] == ReleaseCall(state.parameters.identifier)
                             && effects[|effects| - 1] == ReleaseSent
    // granted at once: the callback's result, and its release applied to what acquire left
    ensures AcquireReply(old(store.Slice()), old(store.reachable), state.parameters) == Ok(true)
            && DelayAccepted(state.key.redisKeyExpiration) ==>
              && r == (match callback
                       case Returns(v) => Returned(v)
                       case Throws(e) => Threw(e))
              && store.Slice() == Release(AcquireEffect(old(store.Slice()), true, state.parameters), state.parameters).after
              && store.calls == old(store.calls) + [AcquireCall(state.parameters.identifier),
                                                    ReleaseCall(state.parameters.identifier)]
  {
    ghost var s0 := store.Slice();
    var acquired := store.GetLockOrAddToQueue(state.parameters);
    if acquired.Err? {
      r := Threw(acquired.error);
      var _ := store.FreeLockAndPop(state.parameters);
      return r, [AcquireSent, ReleaseSent], Succeeded;
    }
    ghost var c1 := store.calls;
    var tail;
    r, tail, c := Started(state, store, callback, events, acquired.value);
    effects := [AcquireSent] + tail;
    assert effects[2..] == tail[1..];
    ExtendsTransitive(old(store.calls) + [AcquireCall(state.parameters.identifier)], c1, store.calls);
  }

  /** `Subscribed` followed by the outer finally and the using declaration,
      once the subscription succeeded. */
  method SubscribedThenClosed<T>(state: LockState, store: LockStore, callback: CallbackResult<T>, events: seq<Event>)
    returns (r: LockOutcome<T>, trace: seq<Effect>, ghost c: Completion)
    requires store.Valid() && state.Snapshot() == Fresh(state.Snapshot().tokenCanceled)
    modifies state, store
    ensures store.Valid()
    ensures |trace| >= 3 && trace[..2] == [SubscribeSent, AcquireSent]
    ensures Extends(old(store.calls) + [AcquireCall(state.parameters.identifier)], store.calls)
    ensures var acquired := AcquireReply(old(store.Slice()), old(store.reachable), state.parameters);
            && (acquired.Err? ==> r == Threw(acquired.error)
                                  && trace == [SubscribeSent, AcquireSent, ReleaseSent, UnsubscribeSent, StateDisposed])
            && (acquired.Ok? ==> trace[2] == ProtectorStarted(if acquired.value then WithKey else WaitingForKey))
            && (r.StillWaiting? ==> acquired == Ok(false)
                                    && trace == [SubscribeSent, AcquireSent, ProtectorStarted(WaitingForKey)])
            && (r.Crashed? <==> acquired.Ok? && !DelayAccepted(state.key.redisKeyExpiration))
    ensures r.Crashed? ==> && r.error == DelayOutOfRange && |trace| == 3
                           && store.calls == old(store.calls) + [AcquireCall(state.parameters.identifier)]
    ensures r.Finished() ==>
              && |trace| >= 5 && trace[|trace| - 3..] == [ReleaseSent, UnsubscribeSent, StateDisposed]
              && store.calls[|store.calls| - 1] == ReleaseCall(state.parameters.identifier)
    ensures r.Finished() && trace[2].ProtectorStarted? ==>
              |trace| >= 7 && Concludes(trace[3..|trace| - 2], c, callback, r)
    ensures AcquireReply(old(store.Slice()), old(store.reachable), state.parameters) == Ok(true)
            && DelayAccepted(state.key.redisKeyExpiration) ==>
              && r == (match callback
                       case Returns(v) => Returned(v)
                       case Throws(e) => Threw(e))
              && store.Slice() == Release(AcquireEffect(old(store.Slice()), true, state.parameters), state.parameters).after
              && store.calls == old(store.calls) + [AcquireCall(state.parameters.identifier),
                                                    ReleaseCall(state.parameters.identifier)]
  {
    var effects;
    r, effects, c := Subscribed(state, store, callback, events);
    if !r.Finished() {
      // still waiting, or the process ended: nothing after the wait runs
      Enclosed(SubscribeSent, effects, []);
      return r, [SubscribeSent] + effects, c;
    }
    state.Dispose();
    trace := [SubscribeSent] + effects + [UnsubscribeSent, StateDisposed];
    Enclosed(SubscribeSent, effects, [UnsubscribeSent, StateDisposed]);
    if effects[1].ProtectorStarted? {
      assert |effects| >= 5 && trace[3..|trace| - 2] == effects[2..];
    }
  }

  /** The subscription's using block around `Subscribed`: whatever happens
      inside, the unsubscribe is sent and the attempt disposed. */
  method Subscription<T>(state: LockState, store: LockStore, callback: CallbackResult<T>, subscribe: Outcome,
                         events: seq<Event>)
    returns (r: LockOutcome<T>, trace: seq<Effect>, ghost c: Completion)
    requires store.Valid() && state.Snapshot() == Fresh(state.Snapshot().tokenCanceled)
    modifies state, store
    ensures store.Valid()
    ensures subscribe.Fail? ==>
              && r == Threw(subscribe.error) && trace == [SubscribeSent, UnsubscribeSent, StateDisposed]
              && store.calls == old(store.calls) && store.Slice() == old(store.Slice())
    ensures subscribe.Pass? ==>
              && |trace| >= 3 && trace[..2] == [SubscribeSent, AcquireSent]
              && Extends(old(store.calls) + [AcquireCall(state.parameters.identifier)], store.calls)
    ensures subscribe.Pass? ==>
              var acquired := AcquireReply(old(store.Slice()), old(store.reachable), state.parameters);
              && (acquired.Err? ==> r == Threw(acquired.error)
                                    && trace == [SubscribeSent, AcquireSent, ReleaseSent, UnsubscribeSent, StateDisposed])
              && (acquired.Ok? ==> trace[2] == ProtectorStarted(if acquired.value then WithKey else WaitingForKey))
              && (r.StillWaiting? ==> acquired == Ok(false)
                                      && trace == [SubscribeSent, AcquireSent, ProtectorStarted(WaitingForKey)])
              && (r.Crashed? <==> acquired.Ok? && !DelayAccepted(state.key.redisKeyExpiration))
    ensures r.Crashed? ==> && r.error == DelayOutOfRange && |trace| == 3
                           && store.calls == old(store.calls) + [AcquireCall(state.parameters.identifier)]
    ensures subscribe.Pass? && r.Finished() ==>
              && |trace| >= 5 && trace[|trace| - 3..] == [ReleaseSent, UnsubscribeSent, StateDisposed]
              && store.calls[|store.calls| - 1] == ReleaseCall(state.parameters.identifier)
    ensures subscribe.Pass? && r.Finished() && trace[2].ProtectorStarted? ==>
              |trace| >= 7 && Concludes(trace[3..|trace| - 2], c, callback, r)
    // granted at once: the callback's result, and its release applied to what acquire left
    ensures subscribe.Pass? && AcquireReply(old(store.Slice()), old(store.reachable), state.parameters) == Ok(true)
            && DelayAccepted(state.key.redisKeyExpiration) ==>
              && r == (match callback
                       case Returns(v) => Returned(v)
                       case Throws(e) => Threw(e))
              && store.Slice() == Release(AcquireEffect(old(store.Slice()), true, state.parameters), state.parameters).after
              && store.calls == old(store.calls) + [AcquireCall(state.parameters.identifier),
                                                    ReleaseCall(state.parameters.identifier)]
  {
    if subscribe.Fail? {
      // outer finally, then the using declaration
      state.Dispose();
      return Threw(subscribe.error), [SubscribeSent, UnsubscribeSent, StateDisposed], Succeeded;
    }
    r, trace, c := SubscribedThenClosed(state, store, callback, events);
  }

  /** `LockAsync<T>`. The attempt's identifier is an input: the random
      identifier is drawn by `Identifiers.GetUniqueKey`. */
  method LockAsync<T>(store: LockStore, key: Key, identifier: string, callback: Option<CallbackResult<T>>,
                      callerCanceled: bool, subscribe: Outcome, events: seq<Event>)
    returns (r: LockOutcome<T>, trace: seq<Effect>)
    requires store.Valid()
    modifies store
    ensures store.Valid()
    // a null callback throws before anything is sent
    ensures callback.None? ==> r == Threw(NullCallback) && trace == []
                               && store.calls == old(store.calls) && store.Slice() == old(store.Slice())
    // a failed subscription still unsubscribes, and nothing reaches the store
    ensures callback.Some? && subscribe.Fail? ==>
              && r == Threw(subscribe.error) && trace == [SubscribeSent, UnsubscribeSent, StateDisposed]
              && store.calls == old(store.calls) && store.Slice() == old(store.Slice())
    // after subscribing, acquire is the first call sent
    ensures callback.Some? && subscribe.Pass? ==>
              && |trace| >= 3 && trace[..2] == [SubscribeSent, AcquireSent]
              && Extends(old(store.calls) + [AcquireCall(identifier)], store.calls)
    ensures callback.Some? && subscribe.Pass? ==>
              var acquired := AcquireReply(old(store.Slice()), old(store.reachable), NewLockLuaParameters(identifier, key));
              // a failed acquire skips the watchdog but is still released
              && (acquired.Err? ==> r == Threw(acquired.error)
                                    && trace == [SubscribeSent, AcquireSent, ReleaseSent, UnsubscribeSent, StateDisposed])
              // a granted acquire holds the key before the watchdog starts
              && (acquired.Ok? ==> trace[2] == ProtectorStarted(if acquired.value then WithKey else WaitingForKey))
              && (r.StillWaiting? ==> acquired == Ok(false)
                                      && trace == [SubscribeSent, AcquireSent, ProtectorStarted(WaitingForKey)])
              // a key expiration the timer refuses ends the process once the
              // watchdog starts; when the crash comes first, as here, no
              // callback, release or unsubscribe runs
              && (r.Crashed? <==> acquired.Ok? && !DelayAccepted(key.redisKeyExpiration))
    ensures r.Crashed? ==> && r.error == DelayOutOfRange && |trace| == 3
                           && store.calls == old(store.calls) + [AcquireCall(identifier)]
    // once subscribed, every finished call releases, last, and unsubscribes
    ensures callback.Some? && subscribe.Pass? && r.Finished() ==>
              && |trace| >= 5 && trace[|trace| - 3..] == [ReleaseSent, UnsubscribeSent, StateDisposed]
              && store.calls[|store.calls| - 1] == ReleaseCall(identifier)
    // the watchdog, when started, is disposed, leaving the attempt done, before
    // release; the callback runs at most once, only after a successful wait,
    // and its result is returned unchanged
    ensures callback.Some? && subscribe.Pass? && r.Finished() && trace[2].ProtectorStarted? ==>
              |trace| >= 7 && var tail := trace[3..|trace| - 2]; exists c :: Concludes(tail, c, callback.value, r)
    // uncontended: the lock is granted at once, announced, and its keys are gone afterwards
    ensures callback.Some? && subscribe.Pass?
            && old(store.Slice()) == EmptySlice(old(store.published)) && old(store.reachable)
            && 0 < key.redisKeyExpiration <= MaxDelay ==>
              && r == (match callback.value
                       case Returns(v) => Returned(v)
                       case Throws(e) => Threw(e))
              && store.Slice() == EmptySlice(old(store.published) + [Message(key.LockChannelKey().name, identifier)])
              && store.calls == old(store.calls) + [AcquireCall(identifier), ReleaseCall(identifier)]
  {
    if callback.None? {
      return Threw(NullCallback), [];
    }
    ghost var s0 := store.Slice();
    var state := new LockState(key, identifier, callerCanceled);
    ghost var c;
    r, trace, c := Subscription(state, store, callback.value, subscribe, events);
    if s0 == EmptySlice(s0.published) && key.redisKeyExpiration > 0 {
      GrantedAtOnce(s0, state.parameters);
    }
  }

  /** A callback without a result, as the non-generic overload sees it: it
      completes or throws; `None` is a null delegate. */
  function AsValued(callback: Option<Outcome>): CallbackResult<bool> {
    match callback
    case None => Throws(NullDereference)
    case Some(Pass) => Returns(true)
    case Some(Fail(e)) => Throws(e)
  }

  /** The non-generic `LockAsync` as written: it wraps the callback in a
      lambda that is never null, so a null callback passes the guard, takes
      the lock, and throws `NullReferenceException` only when invoked. */
  method LockAsyncUnchecked(store: LockStore, key: Key, identifier: string, callback: Option<Outcome>,
                            callerCanceled: bool, subscribe: Outcome, events: seq<Event>)
    returns (r: LockOutcome<bool>, trace: seq<Effect>)
    requires store.Valid()
    modifies store
    ensures store.Valid()
    ensures r.Returned? ==> r.value && callback == Some(Pass)
    ensures subscribe.Pass? ==> |trace| >= 2 && trace[..2] == [SubscribeSent, AcquireSent]
                                && Extends(old(store.calls) + [AcquireCall(identifier)], store.calls)
    // uncontended with a null callback: the lock is taken, announced and
    // released before the null reference is found
    ensures callback.None? && subscribe.Pass?
            && old(store.Slice()) == EmptySlice(old(store.published)) && old(store.reachable)
            && 0 < key.redisKeyExpiration <= MaxDelay ==>
              && r == Threw(NullDereference)
              && store.calls == old(store.calls) + [AcquireCall(identifier), ReleaseCall(identifier)]
              && store.Slice() == EmptySlice(old(store.published) + [Message(key.LockChannelKey().name, identifier)])
  {
    r, trace := LockAsync(store, key, identifier, Some(AsValued(callback)), callerCanceled, subscribe, events);
  }

  /** The non-generic `LockAsync` with the generic overload's guard applied to
      the caller's own callback: a null callback throws
      `ArgumentNullException` before anything is sent. */
  method LockAsyncAction(store: LockStore, key: Key, identifier: string, callback: Option<Outcome>,
                         callerCanceled: bool, subscribe: Outcome, events: seq<Event>)
    returns (r: LockOutcome<bool>, trace: seq<Effect>)
    requires store.Valid()
    modifies store
    ensures store.Valid()
    ensures callback.None? ==> r == Threw(NullCallback) && trace == []
                               && store.calls == old(store.calls) && store.Slice() == old(store.Slice())
    ensures r.Returned? ==> r.value && callback == Some(Pass)
    ensures callback.Some? && subscribe.Pass? ==>
              |trace| >= 3 && trace[..2] == [SubscribeSent, AcquireSent]
              && Extends(old(store.calls) + [AcquireCall(identifier)], store.calls)
    ensures callback.Some? && subscribe.Pass? && r.Finished() ==>
              && |trace| >= 5 && trace[|trace| - 3..] == [ReleaseSent, UnsubscribeSent, StateDisposed]
              && store.calls[|store.calls| - 1] == ReleaseCall(identifier)
    ensures callback.Some? && subscribe.Pass?
            && old(store.Slice()) == EmptySlice(old(store.published)) && old(store.reachable)
            && 0 < key.redisKeyExpiration <= MaxDelay ==>
              && r == (if callback.value.Pass? then Returned(true) else Threw(callback.value.error))
              && store.Slice() == EmptySlice(old(store.published) + [Message(key.LockChannelKey().name, identifier)])
  {
    if callback.None? {
      return Threw(NullCallback), [];
    }
    r, trace := LockAsync(store, key, identifier, Some(AsValued(callback)), callerCanceled, subscribe, events);
  }
}
