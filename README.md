# KeySmith, modelled in Dafny

KeySmith is a C# client library that offers a fair, FIFO, distributed lock
and a "compute once" memoisation service, both coordinated through one Redis
server. This project models the library's core with the I/O taken out:

- the three atomic Lua scripts of the lock protocol (acquire-or-enqueue,
  release-and-promote, situation query) over one lock's slice of the store: the
  lock value, the FIFO waiting list, the waiting membership set (a hash) and
  the log of published messages;
- the per-attempt state machine `LockState` (`WaitingForKey` → `WithKey` →
  `Done`) with its single-resolution completion signal and linked
  cancellation source;
- one pass of the watchdog loop of `LockProtector` and its `Dispose`;
- the `LockAsync` sequence of `LockService`: subscribe, acquire, watchdog,
  wait, callback, release, unsubscribe;
- the memoisation service `MemoLockService`: the cache reads, the re-check
  inside the lock, what is published on success or failure, the
  cancellation fallback and the notification handler;
- the key and parameter records (`Key`, `MemoKey`, `LockLuaParameters`,
  `MemoSetValueParameters`) and the identifier alphabet mapping;
- the older snapshot kept in the `KeySmith/KeySmith/` tree: its `LockState`,
  its unqueued scripts, `DistributedLockKey`, `GenerationResult`,
  `RedisLock.Dispose` and its `MemoLockService`.

Each script is a pure function over a `LockSlice` value (`Scripts.Acquire`,
`Scripts.Release`, `Scripts.Situation`). The class `Scripts.LockStore` runs the
same scripts command by command on mutable fields, with the release loop as
a `while` loop, and each method is proved equal to the function. The state
machine is the class `LockStates.LockState`, whose methods are proved equal to
step functions over an `Attempt` value; the properties (monotone states,
first resolution wins, `Done` absorbing) are lemmas over those functions.
The services are methods over the store classes. Things the code cannot see
are inputs: a callback or generator is its outcome, the lock service's answer
to the memo service is a `LockEntry`, and the events that happen while
`LockAsync` waits (notifications, watchdog ticks, caller cancellation, key
expiry, other clients' scripts) are a sequence of `Event`s.

Behaviours of the code that a reader of its interfaces might not expect, and
that the model keeps as written:

- The release script and the memo publish script are sent with
  `CommandFlags.FireAndForget` (KeySmith/Internals/Scripts/ScriptLibrary.cs:90-92,
  KeySmith/Internals/Scripts/MemoScriptLibrary.cs:29-31). Once the script is
  loaded, a release or publish that fails on the server does not reach the
  caller of `LockAsync` or `LockedCallback`; the model assumes every script is
  loaded (see "Left out").
- `LockAsync` (KeySmith/LockService.cs:43-44) runs the callback as soon as the
  wait ends, with no check of the caller's token in between; cancellation
  reaches the callback only through the token it is given, as the interface's
  doc comment says (KeySmith/ILockService.cs:15-16).
- The caller's cancellation while merely enqueued does not resolve the waiting
  task by itself: the linked token only stops the watchdog's delay
  (KeySmith/Internals/Locks/LockProtector.cs:53-59). The interface's doc
  comment (KeySmith/ILockService.cs:17) calls this an early exit that "may"
  happen.
- The watchdog is started by the `async void` `EnsureNoDeadLock`
  (KeySmith/Internals/Locks/LockProtector.cs:17,37). An exception escaping its
  loop, such as the range error of `Task.Delay` for a key expiration the timer
  refuses, is queued to the thread pool and ends the process there; `LockAsync`
  then has the outcome `Crashed`, taken in the interleaving where the crash
  comes first.
- The `Key` and `MemoKey` constructors reject only a zero duration. A negative
  one is accepted, although the message speaks of a positive duration.
  Redis then refuses `SET … PX` with a non-positive expiry, and the model
  turns that into a script error.
- `LockService.LockAsync` calls a two-argument `LockState` constructor that
  the current `LockState.cs` does not have, so the identifier is an input of
  `LockServices.LockAsync`; `Identifiers.GetUniqueKey` is how one is drawn.
- In the current `LockState`, a message carrying the attempt's own
  identifier while it holds the key changes nothing. In the older one it ends
  the attempt. Each file is modelled as written.
- An async method ends its task as cancelled on any
  `OperationCanceledException`, `TaskCanceledException` being one kind; the
  catch of KeySmith/MemoLockService.cs:91 takes only `TaskCanceledException`.

## Model

| member | source | states |
|---|---|---|
| Scripts.FirstLive | KeySmith/Internals/Scripts/ScriptLibrary.cs:38-41 | the number of list entries the release loop discards: every entry before it is absent from the waiting set, and the entry at it (if any) is present |
| Scripts.LockStore.GetLockOrAddToQueue | KeySmith/Internals/Scripts/ScriptLibrary.cs:12-34 | running the acquire script command by command gives exactly the reply and new store of `Acquire`; an unreachable store throws and changes nothing; the call is logged |
| Scripts.LockStore.PopUntilLive | KeySmith/Internals/Scripts/ScriptLibrary.cs:38-41 | the LPOP/HDEL loop stops at the first list entry still in the set, having removed it from the set and dropped every ghost before it; the rest of the list is kept in order |
| Scripts.LockStore.FreeLockAndPop | KeySmith/Internals/Scripts/ScriptLibrary.cs:36-56 | running the release script command by command gives exactly the new store and outcome of `Release`, and keeps the store well formed |
| Scripts.LockStore.GetKeySituation | KeySmith/Internals/Scripts/ScriptLibrary.cs:58-66 | the reply is `Situation` of the store, which is left unchanged |
| ScriptProperties.AcquireOutcome | KeySmith/Internals/Scripts/ScriptLibrary.cs:12-34 | acquire is granted iff the lock is free or already the caller's; a granted caller owns the lock with list and set untouched; a refused one is appended to the list tail and added to the set while the holder keeps the lock; list and set TTLs change only when the list is created |
| ScriptProperties.AcquireIsReentrant | KeySmith/Internals/Scripts/ScriptLibrary.cs:13-15 | a granted acquire repeated is granted again and changes nothing, publishing nothing |
| ScriptProperties.RefusedAcquireRepeatedDuplicates | KeySmith/Internals/Scripts/ScriptLibrary.cs:22-27 | a refused caller asking twice is appended twice to the list and once to the set |
| ScriptProperties.AcquireRejectsNonPositiveTimeout | KeySmith/Internals/Scripts/ScriptLibrary.cs:17 | with a non-positive timeout every acquire except the holder's fails |
| ScriptProperties.SituationAfterAcquire | KeySmith/Internals/Scripts/ScriptLibrary.cs:58-66 | under the protocol invariant, the situation read after acquire is 1 when granted and 0 when queued |
| ScriptProperties.ReleasePromotesFirstLive | KeySmith/Internals/Scripts/ScriptLibrary.cs:37-47 | the holder's release makes the first live list entry the lock value with a fresh TTL, removes it from the set, drops the ghosts before it, keeps the entries after it in order and publishes it |
| ScriptProperties.ReleaseCleansUp | KeySmith/Internals/Scripts/ScriptLibrary.cs:48-51 | with no live waiter, the holder's release deletes the lock, the list and the set |
| ScriptProperties.ReleaseByOtherWithdraws | KeySmith/Internals/Scripts/ScriptLibrary.cs:53-55 | a non-holder's release only removes its identifier from the set, leaving lock, list and messages unchanged, and the store then answers 2 for it |
| ScriptProperties.SituationAfterRelease | KeySmith/Internals/Scripts/ScriptLibrary.cs:36-66 | under the invariant, after releasing, the former holder is unknown to the store (situation 2) |
| ScriptProperties.SituationCodes | KeySmith/Internals/Scripts/ScriptLibrary.cs:58-66 | the reply is 0, 1 or 2; 0 iff in the set (even when also holding), 1 iff not in the set and holding, 2 otherwise |
| ScriptProperties.AcquirePreservesInvariant | KeySmith/Internals/Scripts/ScriptLibrary.cs:12-34 | acquire keeps the protocol invariant: no waiters without a holder, every waiting identifier has a list entry, the holder is not waiting |
| ScriptProperties.ReleasePreservesInvariant | KeySmith/Internals/Scripts/ScriptLibrary.cs:36-56 | release, by the holder or anyone else, keeps the protocol invariant |
| ScriptProperties.LockExpiryStrandsWaiters | KeySmith/Internals/Scripts/ScriptLibrary.cs:17-31 | when the holder's key expires, the invariant breaks: a waiter stays queued (situation 0) with nobody left to promote it |
| ScriptProperties.RecoveryAfterExpiry | KeySmith/Internals/Scripts/ScriptLibrary.cs:17-20 | once the lock and the set have expired, a stranded waiter reads situation 2 and its renewed acquire takes the lock and announces it |
| ScriptProperties.WaitingSetCanLackTtl | KeySmith/Internals/Scripts/ScriptLibrary.cs:22-31 | when ghost entries keep the list alive after the last waiter withdraws, the next refused acquire recreates the set without a TTL, so it never expires |
| ScriptProperties.DrainAnnouncesLiveOrder | KeySmith/Internals/Scripts/ScriptLibrary.cs:36-52 | releasing holder after holder announces the live list entries in list order, each once, and ends with no key left |
| ScriptProperties.EnqueueAppends | KeySmith/Internals/Scripts/ScriptLibrary.cs:22-33 | refused acquires append their identifiers to the list in call order and add them to the set, the holder unchanged |
| ScriptProperties.WithdrawRemoves | KeySmith/Internals/Scripts/ScriptLibrary.cs:53-55 | releases by waiting identifiers remove exactly them from the set and leave the list and the holder alone |
| ScriptProperties.LiveOrderOfDistinct | KeySmith/Internals/Scripts/ScriptLibrary.cs:38-41 | for a list without duplicates, the promotion order is the list minus the withdrawn identifiers |
| ScriptProperties.FifoHandOver | KeySmith/Internals/Scripts/ScriptLibrary.cs:22-51 | distinct callers queue behind a holder and some withdraw; releasing holder after holder then announces exactly the others, in the order they asked, and leaves the store clean |
| ScriptProperties.UncontendedRoundTrip | KeySmith/Internals/Scripts/ScriptLibrary.cs:17-20 | on an empty store, acquire is granted and announced, and the release leaves no key behind |
| LockStates.LockState.constructor | KeySmith/Internals/Locks/LockState.cs:26-36 | a new attempt is `WaitingForKey` with an unresolved task, a token as cancelled as the caller's, and parameters derived from its key and identifier |
| LockStates.LockState.SetWithKey | KeySmith/Internals/Locks/LockState.cs:54-68 | the new attempt and outcome are those of `SetWithKeyStep` |
| LockStates.LockState.SetDone | KeySmith/Internals/Locks/LockState.cs:70-92 | the new attempt and outcome are those of `SetDoneStep` |
| LockStates.LockState.Handler | KeySmith/Internals/Locks/LockState.cs:94-112 | the new attempt and outcome are those of `HandlerStep` |
| LockStates.LockState.CancelParent | KeySmith/Internals/Locks/LockState.cs:33 | the caller's cancellation reaches the linked token unless the source is disposed |
| LockStates.LockState.Dispose | KeySmith/Internals/Locks/LockState.cs:114 | disposing marks the cancellation source disposed and changes nothing else |
| LockStates.FreshIsConsistent | KeySmith/Internals/Locks/LockState.cs:26-36 | a new attempt is consistent and its task unresolved |
| LockStates.ApplyIsMonotone | KeySmith/Internals/Locks/LockState.cs:54-112 | every call keeps the attempt consistent, never moves its state back, never re-resolves the task and never un-cancels the token |
| LockStates.RunIsMonotone | KeySmith/Internals/Locks/LockState.cs:54-112 | over any sequence of calls the state never moves back, `Done` is absorbing and the first resolution of the task is final |
| LockStates.SetWithKeyTransitions | KeySmith/Internals/Locks/LockState.cs:54-68 | from `WaitingForKey` it moves to `WithKey` and resolves the task with success; from `WithKey` it is idempotent; from `Done` it throws and changes nothing |
| LockStates.SetDoneTransitions | KeySmith/Internals/Locks/LockState.cs:70-92 | it ends in `Done` with the token cancelled, resolving an unresolved task as cancelled (no exception) or faulted (exception) and keeping a resolved one; on a disposed source without exception it throws and changes nothing |
| LockStates.HandlerTransitions | KeySmith/Internals/Locks/LockState.cs:94-112 | waiting: moves to `WithKey` iff the payload is its identifier; holding: moves to `Done` iff the payload is another identifier; done: nothing changes |
| LockStates.LosingTheKeyCancelsTheToken | KeySmith/Internals/Locks/LockState.cs:105-110 | another identifier arriving while holding ends the attempt with its token cancelled and its task still succeeded |
| LockStates.OwnIdentifierKeepsTheKey | KeySmith/Internals/Locks/LockState.cs:105-110 | the attempt's own identifier arriving while holding changes nothing |
| LockProtectors.Iterate | KeySmith/Internals/Locks/LockProtector.cs:48-117 | one pass against the store: the new attempt, the loop's fate and the calls sent are those of `ProtectorStep` on the store's replies; the store changes only by a renewed acquire |
| LockProtectors.Dispose | KeySmith/Internals/Locks/LockProtector.cs:120 | disposing the watchdog is `SetDone` without exception |
| LockProtectors.ProtectorStopsQuietly | KeySmith/Internals/Locks/LockProtector.cs:53-64 | once the attempt is done or its token cancelled, a pass returns without querying the store or changing the attempt |
| LockProtectors.RefusedDelayEscapes | KeySmith/Internals/Locks/LockProtector.cs:53 | on a live source, a key expiration outside the timer's range (below -1 ms or above 4294967294 ms) throws out of the loop before anything is sent or changed |
| LockProtectors.DisposedProtectorEscapes | KeySmith/Internals/Locks/LockProtector.cs:53 | a pass on a disposed source throws out of the loop before anything else |
| LockProtectors.ProtectorReadsTheSituation | KeySmith/Internals/Locks/LockProtector.cs:66-116 | reply 0 continues unchanged; 1 takes the key and continues; 2 while waiting re-acquires, taking the key if granted and continuing; 2 while holding ends the attempt and stops; a store exception or any other value faults the task and stops |
| LockProtectors.ProtectorStepIsMonotone | KeySmith/Internals/Locks/LockProtector.cs:48-117 | a pass keeps the attempt consistent and moves it forward only, and the loop continues only while the attempt is not done |
| LockProtectors.StoreNeverSurprisesTheProtector | KeySmith/Internals/Locks/LockProtector.cs:106-108 | against the real scripts the "unexpected state" branch is never taken |
| LockProtectors.ProtectorRecoversExpiredKeys | KeySmith/Internals/Locks/LockProtector.cs:88-94 | a waiter whose keys all expired reads 2, re-acquires, is granted, takes the key and is announced |
| LockProtectors.DisposeEndsTheAttempt | KeySmith/Internals/Locks/LockProtector.cs:120 | disposing on a live source always ends the attempt with its token cancelled; a still-waiting task ends cancelled |
| LockServices.AwaitSignal | KeySmith/LockService.cs:43 | an already resolved task makes the await return at once with nothing sent; otherwise events only extend the call log, and a consistent attempt only moves forward through them: still consistent, never back to an earlier state, a resolved signal kept |
| LockServices.AfterWait | KeySmith/LockService.cs:43-49 | the callback runs exactly when the wait succeeded and its result is returned unchanged; a cancelled wait throws `TaskCanceledException`, a faulted one its exception; the watchdog is disposed (state `Done`) and then release is sent |
| LockServices.Protected | KeySmith/LockService.cs:41-49 | once the wait ends, the call concludes as `AfterWait` says and the last script call is the release |
| LockServices.Started | KeySmith/LockService.cs:35-45 | a granted acquire puts the attempt in `WithKey` before the watchdog starts; a key expiration `Task.Delay` refuses ends the process once the watchdog starts, `Crashed` being the interleaving where the crash comes before anything more is sent; otherwise a granted attempt succeeds its wait, the callback runs and release follows |
| LockServices.Subscribed | KeySmith/LockService.cs:33-50 | acquire is sent first; a failed acquire is still followed by release; the process ends exactly when acquire answered and the timer refuses the key expiration; every finished call ends with release; an acquire granted at once returns the callback's result, the store being the release applied to what acquire left |
| LockServices.Subscription | KeySmith/LockService.cs:28-55 | unsubscribe and disposal follow on every finished path, including a failed subscription, which sends no script; an ended process sends nothing after acquire; an acquire granted at once returns the callback's result |
| LockServices.LockAsync | KeySmith/LockService.cs:21-56 | a null callback throws before any call; a failed subscription still unsubscribes; a key expiration the timer refuses ends the process once the watchdog starts, and in the interleaving `Crashed` fixes, where the crash comes first, no callback, release or unsubscribe runs; release and unsubscribe close every finished call; the callback runs at most once, only after a successful wait, its result returned unchanged; an uncontended call leaves no key |
| LockServices.LockAsyncUnchecked | KeySmith/LockService.cs:18-19 | as written: a null callback passes the guard, the lock is taken, announced and released, and the call throws `NullReferenceException` |
| LockServices.LockAsyncAction | KeySmith/LockService.cs:18-26 | with the guard applied to the caller's callback: a null callback throws `ArgumentNullException` before anything is sent; otherwise as `LockAsync` |
| Identifiers.Encode | KeySmith/Internals/Locks/IdentifierGenerator.cs:24-29 | the identifier has one character per byte, character i being the alphabet symbol at `data[i] % 64` |
| Identifiers.GetUniqueKey | KeySmith/Internals/Locks/IdentifierGenerator.cs:20-30 | the loop builds `Encode` of the first `size` random bytes (empty for size 0); a negative size throws `OverflowException` |
| Identifiers.AlphabetByRanges | KeySmith/Internals/Locks/IdentifierGenerator.cs:9 | the alphabet has 64 symbols: lower-case letters, upper-case letters, digits 1-9 and 0, '-' and '_' |
| Identifiers.AlphabetIsInjective | KeySmith/Internals/Locks/IdentifierGenerator.cs:9 | the 64 symbols are pairwise distinct |
| Identifiers.EncodeKeepsResidues | KeySmith/Internals/Locks/IdentifierGenerator.cs:27 | every output character is in the alphabet and reads back as its byte modulo 64 |
| Identifiers.SameIdentifierIffSameResidues | KeySmith/Internals/Locks/IdentifierGenerator.cs:24-29 | two byte sequences give the same identifier iff they agree modulo 64 everywhere |
| Identifiers.FourBytesPerSymbol | KeySmith/Internals/Locks/IdentifierGenerator.cs:27 | each symbol is selected by exactly four byte values |
| Keys.NewKey | KeySmith/KeySmith/Key.cs:22-33 | the constructor throws `ArgumentException` iff the expiration is exactly zero, and otherwise keeps root, name and expiration |
| Keys.KeyNamesDistinct | KeySmith/KeySmith/Key.cs:35-39 | the lock key, list key, set key and channel of one key are pairwise distinct |
| MemoKeys.NewMemoKey | KeySmith/MemoKey.cs:24-40 | the constructor throws iff the value or the lock expiration is exactly zero, and otherwise keeps its four arguments |
| MemoKeys.MemoKey.GetLockKey | KeySmith/MemoKey.cs:42 | the lock key has the same root and name and the lock expiration, and the `Key` constructor throws iff that expiration is zero |
| MemoKeys.ConstructedMemoKeyHasLockKey | KeySmith/MemoKey.cs:42 | a memo key that passed its constructor always yields its lock key |
| MemoKeys.ValueAndErrorKeysDiffer | KeySmith/MemoKey.cs:44-48 | the value key differs from the error key, and the value channel from the error channel |
| MemoKeys.SubscriptionMatchesBothChannels | KeySmith/MemoKey.cs:47-49 | the pattern `root/memo*notif:name` glob-matches both the value channel and the error channel |
| MemoKeys.ErrorChannelIsRecognised | KeySmith/MemoKey.cs:47 | the error channel contains the marker "/memoerrornotif:" the handler tests for |
| MemoKeys.ValueChannelIsRecognised | KeySmith/MemoKey.cs:48 | the value channel does not contain the marker when neither root nor name does |
| MemoKeys.MarkerInNameMisclassifiesValues | KeySmith/MemoKey.cs:48 | a name containing the marker makes the value channel read as an error channel |
| Parameters.LockParametersAddressTheKey | KeySmith/Internals/Scripts/Parameters/LockLuaParameters.cs:13-21 | the identifier is kept, the lock, list and set keys and the channel are the key's own (four distinct names), and the timeout is the expiration in milliseconds |
| Parameters.ErrorText | KeySmith/Internals/Scripts/Parameters/MemoSetValueParameters.cs:18 | the stored error text is the inner exception's message when there is one, else the exception's own |
| Parameters.MemoParametersTargets | KeySmith/Internals/Scripts/Parameters/MemoSetValueParameters.cs:14-28 | a failure targets the error key and channel, a success the value key and channel, both with the value expiration; the two never coincide and the failure's channel is recognised as an error |
| Parameters.ValueParametersReadAsValue | KeySmith/Internals/Scripts/Parameters/MemoSetValueParameters.cs:27 | a success published with a marker-free root and name is recognised as a value |
| MemoStores.MemoStore.GetValues | KeySmith/Internals/Scripts/MemoScriptLibrary.cs:33-34 | reads the value and error keys (null when absent) without changing the store |
| MemoStores.MemoStore.GetValue | KeySmith/KeySmith/Internals/Scripts/MemoScriptLibrary.cs:48-49 | reads one key (null when absent) without changing the store |
| MemoStores.MemoStore.Publish | KeySmith/Internals/Scripts/MemoScriptLibrary.cs:29-31 | the loaded script is sent fire-and-forget: the store becomes `SetAndPublish` of it when reachable, and no error reaches the caller |
| MemoStores.MemoStore.Run | KeySmith/Internals/Scripts/MemoScriptLibrary.cs:11-14 | running the SET-and-PUBLISH script gives `SetAndPublish` |
| MemoStores.SetAndPublishStores | KeySmith/Internals/Scripts/MemoScriptLibrary.cs:11-14 | the value is stored under its key with the record's TTL, announced on the record's channel, and every other key reads as before |
| MemoStores.PublishAllKeepsOtherKeys | KeySmith/Internals/Scripts/MemoScriptLibrary.cs:11-14 | scripts on other keys never change what a key reads |
| MemoServices.TryGetCachedValue | KeySmith/MemoLockService.cs:46-58 | one read of both keys; a cached value wins over a cached error, a lone error becomes a `GenerationException` carrying its text, neither gives no result |
| MemoServices.LockedCallback | KeySmith/MemoLockService.cs:102-121 | a cancelled token throws before the generator; otherwise the generator's success publishes the value parameters and returns the value, its failure publishes the error parameters and rethrows the original exception |
| MemoServices.InsideLock | KeySmith/MemoLockService.cs:80-89 | the cache is read again inside the lock and the generator runs iff both keys are still absent and the token is live |
| MemoServices.Fallback | KeySmith/MemoLockService.cs:91-99 | after a cancellation the cache is read once more: a value is returned, otherwise the cancellation (or the read's error) is thrown |
| MemoServices.Locked | KeySmith/MemoLockService.cs:78-99 | once in the lock, the generator runs iff the lock was entered with a live token and the cache is still empty; nothing is published otherwise; a cancellation falls back to the cache |
| MemoServices.MemoLockWithoutSubscription | KeySmith/MemoLockService.cs:60-100 | a cancelled token throws before any read; a cached result short-circuits with no lock and no generator; otherwise the lock is requested and the generator runs at most once, with what it published read back |
| MemoServices.MemoSignal.Handle | KeySmith/MemoLockService.cs:123-142 | a message on a channel containing the marker faults the task with a `GenerationException`, any other resolves it with the value; only the first resolution counts; the source is cancelled unless disposed |
| MemoServices.Race | KeySmith/MemoLockService.cs:21-44 | subscribes first and unsubscribes last on every path; the winner's end is the notification's classification or the work's end, which is cancelled on any `OperationCanceledException` and faulted on any other exception |
| MemoServices.MemoLockAsync | KeySmith/MemoLockService.cs:21-44 | as written: a notification's classification or the work's result reaches the caller, except that a work ended by any `OperationCanceledException` surfaces as `AggregateException` "One or more errors occurred. (A task was canceled.)" around a fresh `TaskCanceledException` |
| MemoServices.MemoLockAsyncAwaited | KeySmith/MemoLockService.cs:31-37 | awaiting the winner: the caller sees exactly the winning path's outcome, a cancellation included |
| MemoServices.PublishedOutcomeReadsBack | KeySmith/MemoLockService.cs:48-57 | a published success reads back as the stored value; a published failure, with no value cached, reads back as a `GenerationException` carrying the stored text |
| MemoServices.ErrorNeverHidesValue | KeySmith/MemoLockService.cs:48-52 | publishing a failure after a success never hides the cached value |
| MemoServices.NotificationAgreesWithCache | KeySmith/MemoLockService.cs:123-133 | a waiter hearing the announcement learns what a waiter reading the cache learns, when root and name are marker-free |
| MemoServices.NullValueReadsBackEmpty | KeySmith/Internals/Scripts/Parameters/MemoSetValueParameters.cs:26 | a null generated value is returned as null to its generator's caller but cached and announced as the empty string |
| MemoServices.NegativeExpirationLeavesNoTrace | KeySmith/MemoKey.cs:26-33 | a negative value expiration passes the constructor, and every publication then fails in the script, leaving nothing cached or announced |
| MemoServices.CanceledGeneratorSurfacesAsGenerationError | KeySmith/MemoLockService.cs:91-99 | a generator that gives up with a cancellation has its failure published, and its own caller then reads it back as a `GenerationException` |
| MemoServices.ResolvedSignalStays | KeySmith/MemoLockService.cs:127-131 | once resolved, the task ignores every later notification |
| MemoServices.FirstNotificationWins | KeySmith/MemoLockService.cs:123-133 | the first notification decides the task, classified by its channel |
| MemoServices.ObservedWrapsCancellation | KeySmith/MemoLockService.cs:33-37 | as written, every end of the work reaches the caller unchanged except one by an `OperationCanceledException` of any kind, which is replaced by the same `AggregateException` around a fresh `TaskCanceledException` ("A task was canceled."), so any other cancelling exception is lost |
| MemoServices.GeneratorCancellationIsWrapped | KeySmith/MemoLockService.cs:31-37 | a generator that throws a plain `OperationCanceledException` (not a `TaskCanceledException`) passes the catch of line 91 unhandled and ends the work cancelled; the caller of `MemoLockAsync` gets the `AggregateException` around a fresh `TaskCanceledException`, which does not carry the generator's exception, where awaiting would give that exception unchanged |
| MemoServices.AwaitedIsTheWork | KeySmith/MemoLockService.cs:31-37 | awaiting the winner surfaces every end of the work unchanged |
| LegacyLockStates.GuidIdentifier | KeySmith/KeySmith/Internals/Locks/LockState.cs:25 | the identifier is the first 8 characters of the GUID's text |
| LegacyLockStates.LegacyLockState.constructor | KeySmith/KeySmith/Internals/Locks/LockState.cs:26-36 | a new attempt is waiting with an unresolved task and parameters from its key and identifier |
| LegacyLockStates.LegacyLockState.FromGuid | KeySmith/KeySmith/Internals/Locks/LockState.cs:25 | the public constructor takes the first 8 GUID characters as identifier |
| LegacyLockStates.LegacyLockState.SetWithKey | KeySmith/KeySmith/Internals/Locks/LockState.cs:38-52 | the new attempt and outcome are those of `SetWithKeyStep`, shared with the current version |
| LegacyLockStates.LegacyLockState.SetDone | KeySmith/KeySmith/Internals/Locks/LockState.cs:54-69 | the new attempt and outcome are those of `LegacySetDoneStep` |
| LegacyLockStates.LegacyLockState.Handler | KeySmith/KeySmith/Internals/Locks/LockState.cs:71-86 | the new attempt and outcome are those of `LegacyHandlerStep` |
| LegacyLockStates.LegacyLockState.Dispose | KeySmith/KeySmith/Internals/Locks/LockState.cs:88 | disposing marks the source disposed and changes nothing else |
| LegacyLockStates.LegacyRunIsMonotone | KeySmith/KeySmith/Internals/Locks/LockState.cs:38-86 | over any sequence of calls the older attempt stays consistent, never moves back and keeps the first resolution of its task |
| LegacyLockStates.LegacySetDoneTransitions | KeySmith/KeySmith/Internals/Locks/LockState.cs:54-69 | it ends a live attempt in `Done` with its token cancelled, the first resolution winning; on a disposed source it throws and changes nothing |
| LegacyLockStates.LegacyHandlerEndsOnAnyMessage | KeySmith/KeySmith/Internals/Locks/LockState.cs:82-84 | the older handler ends an attempt holding the key on any message, its own identifier included, where the current one keeps the key |
| LegacyLockStates.WaitingHandlersAgree | KeySmith/KeySmith/Internals/Locks/LockState.cs:75-80 | while waiting, both handlers take the key exactly on the attempt's own identifier |
| LegacyScripts.LegacyStore.GetLockOrSubscribe | KeySmith/KeySmith/Internals/ScriptsLibrary.cs:14-21 | running the script command by command gives exactly the reply and new store of `GetLockOrSubscribeStep` |
| LegacyScripts.LegacyStore.FreeLockAndPop | KeySmith/KeySmith/Internals/ScriptsLibrary.cs:23-32 | running the script command by command gives exactly the new store and outcome of `FreeLockAndPopStep` |
| LegacyScripts.LegacyAcquireFreeLock | KeySmith/KeySmith/Internals/ScriptsLibrary.cs:15-17 | a free lock is taken with its TTL and reply 1, the lists and messages untouched |
| LegacyScripts.LegacyAcquireHasNoReentry | KeySmith/KeySmith/Internals/ScriptsLibrary.cs:19-20 | the holder asking again is pushed onto the list tail, reply 0, lock unchanged and no TTL set |
| LegacyScripts.LegacyFifoHandOver | KeySmith/KeySmith/Internals/ScriptsLibrary.cs:24-28 | the holder's release makes the list head the lock value with the timeout, publishes it and keeps the rest of the list in order |
| LegacyScripts.LegacyReleaseByHolderOrNot | KeySmith/KeySmith/Internals/ScriptsLibrary.cs:24-32 | the holder's release with no list deletes the lock; anyone else's changes nothing |
| LegacyScripts.LegacySetAndPublishKeepsNoTtl | KeySmith/KeySmith/Internals/ScriptsLibrary.cs:9-12 | the value is stored with no TTL and the same value published |
| LegacyScripts.DeleteAllKeysRemovesExactlyThem | KeySmith/KeySmith/Internals/ScriptsLibrary.cs:7 | the four keys are deleted and every other key kept |
| LegacyScripts.LegacyUncontendedRoundTrip | KeySmith/KeySmith/Internals/ScriptsLibrary.cs:14-32 | one uncontended client taking and releasing the lock leaves neither lock nor list behind |
| LegacyKeys.LegacyKeyNamesDistinct | KeySmith/KeySmith/DistributedLockKey.cs:46-64 | the key, lock, notification and waiting names of one key are pairwise distinct |
| GenerationResults.DistributedError | KeySmith/KeySmith/DistributedException.cs:7-9 | the error is a `DistributedException` with no inner exception; its message puts the type name between fixed words and ends with the whole original message |
| GenerationResults.Capture | KeySmith/KeySmith/RedisLockService.cs:162-172 | a success records no type and no message; a failure records the origin's type name and message |
| GenerationResults.GetResultThrowsIffMessage | KeySmith/KeySmith/Internals/GenerationResult.cs:10-18 | `GetResult` throws a `DistributedException` iff the message is neither null nor empty, and otherwise returns `Result` |
| GenerationResults.ExceptionTypeAloneNeverThrows | KeySmith/KeySmith/Internals/GenerationResult.cs:12 | the exception type alone never makes `GetResult` throw |
| GenerationResults.SuccessReadsBack | KeySmith/KeySmith/Internals/GenerationResult.cs:17 | a successful generation reads back as the generated value |
| GenerationResults.EmptyMessageFailureReadsAsSuccess | KeySmith/KeySmith/Internals/GenerationResult.cs:12-17 | as written, a generator throwing an exception with an empty message reads back as a success carrying `default(T)` |
| GenerationResults.CheckedCaptureRoundTrip | KeySmith/KeySmith/Internals/GenerationResult.cs:10-18 | with the checked reading, every capture reads back as what the generator did |
| GenerationResults.CheckedDiffersOnlyWithoutMessage | KeySmith/KeySmith/Internals/GenerationResult.cs:12 | the two readings differ exactly on a record with a type name and no message |
| RedisLocks.RedisLock.constructor | KeySmith/KeySmith/Internals/RedisLock.cs:14-19 | a new handle keeps its identifier and key and is not yet disposed |
| RedisLocks.RedisLock.Dispose | KeySmith/KeySmith/Internals/RedisLock.cs:21-35 | the first dispose sends the older release script with the handle's identifier, the key's names and a 600 s timeout; a disposed handle sends nothing; the flag rises only when the release succeeded |
| RedisLocks.DisposeIsIdempotent | KeySmith/KeySmith/Internals/RedisLock.cs:23-33 | after a successful dispose, later ones change nothing |
| RedisLocks.FailedDisposeRetries | KeySmith/KeySmith/Internals/RedisLock.cs:25-33 | a dispose whose release throws leaves the flag down, so the next one runs the release again |
| RedisLocks.HolderDisposeHandsOver | KeySmith/KeySmith/Internals/RedisLock.cs:25-32 | the holder's dispose hands the lock to the first waiter for 600 s and announces it |
| RedisLocks.NonHolderDisposeChangesNothing | KeySmith/KeySmith/Internals/RedisLock.cs:25-32 | the dispose of a handle not holding the lock leaves the store unchanged |
| LegacyMemoServices.LegacyMemoLockWithoutSubscription | KeySmith/KeySmith/MemoLockService.cs:44-75 | a cancelled token throws before any read; only the value key is read; a cached value returns without locking; inside the lock the generator runs with no re-check and its outcome is published; a cancellation falls back to one more value read |
| LegacyMemoServices.LegacyMemoSignal.Handle | KeySmith/KeySmith/MemoLockService.cs:98-109 | the first notification is classified by its channel and resolves the task; a second one throws `InvalidOperationException` and changes nothing |
| LegacyMemoServices.OnlyLegacyRegeneratesOverCachedError | KeySmith/KeySmith/MemoLockService.cs:51-64 | with only an error cached, the current service reports it while the older one generates again |
| LegacyMemoServices.OnlyCurrentReturnsTheValueCachedMeanwhile | KeySmith/KeySmith/MemoLockService.cs:64 | a value cached by another client during the lock wait is returned by the current service, while the older one generates again |

## Left out

- Real time: `Task.Delay` and every TTL countdown. Expiry is an explicit step (`Scripts.Expire`) that may remove any key carrying a TTL. TTLs are remaining milliseconds, or seconds in the older scripts.
- Thread races: the handler, the watchdog and the caller's cancellation run as atomic steps in one interleaving chosen by the `Event` sequence, and the C# `lock` blocks are not modelled.
- The `Task.WhenAny` race of `MemoLockAsync` is an input (`Winner`). What the losing work goes on doing after the race is not modelled.
- MemoServices.Race: the work starts before the race (KeySmith/MemoLockService.cs:31), so its first cache read (line 48) may already have been sent when the announcement wins; the model's announcement branch sends no store call.
- The watchdog's whole loop: `Iterate` is one pass, and the loop is the `Tick` events of `LockAsync`.
- LockServices.LockAsync: the events can run out before the task resolves; the call is then `StillWaiting` and nothing after the await is stated.
- LockServices.LockAsync: the watchdog's `async void` starter only queues the rethrow of an escaping exception, so after a refused key expiration `LockAsync` keeps running until the process ends. For a granted attempt the wait is already over (KeySmith/LockService.cs:43), and the callback (line 44) and even the release (line 49) may run before the crash. `Crashed` models only the interleaving where the crash comes first.
- The identifier size used by callers and the cryptographic random source: `GetUniqueKey` takes the random bytes as a parameter.
- The legacy `RedisLockService` (subscription registries, pub/sub fan-out and bounded waits) and its legacy memo `MemoLockAsync` race, which is concurrency plumbing.
- The older tree's `MemoKey`, with the `GetLock()` its memo service calls (KeySmith/KeySmith/MemoLockService.cs:64), is not part of this model. The model substitutes the current `MemoKey.GetLockKey`, so a lock-key error there is the current constructor's.
- The older `MemoScriptLibrary` script loading, the `Lazy`/`SemaphoreSlim` plumbing and the subscribe and unsubscribe passthroughs. A subscription is an outcome input; unsubscribe is a step in the trace.
- Dependency injection, configuration, the JSON serialiser, the interfaces, `Subscriber`, `QueuedLock` and the exception classes other than their messages.
- The exact .NET wording of the `Task.Delay` range error.
- The runtime is taken to be .NET 6 or later, whose `Task.Delay(TimeSpan)` accepts up to 4294967294 ms (`LockProtectors.MaxDelay`); on .NET Core 3.1 and .NET 5 the limit is `int.MaxValue` ms, and a key expiration between the two also crashes the watchdog there.
- Script loading in the current libraries: each script is loaded once through a `Lazy<Task<LoadedLuaScript>>` (KeySmith/Internals/Scripts/ScriptLibrary.cs:81-83, KeySmith/Internals/Scripts/MemoScriptLibrary.cs:26). A failed load is cached, and every later call of that script throws, release and publish included, fire-and-forget or not. The model assumes every script is loaded.
- Sub-millisecond durations: the parameters pass `TimeSpan.TotalMilliseconds`, a `double` (KeySmith/Internals/Scripts/Parameters/LockLuaParameters.cs:19, KeySmith/Internals/Scripts/Parameters/MemoSetValueParameters.cs:17,25), so a `TimeSpan` with a fractional millisecond gives a fractional `PX` that Redis refuses. Durations here are whole milliseconds, and that error is not represented.
- A watchdog pass still waiting on `GetKeySituation` when `LockAsync` disposes the attempt, and answered 0 or 1, goes round its loop and reads the token of the disposed source for its next `Task.Delay` (KeySmith/Internals/Locks/LockProtector.cs:53, KeySmith/Internals/Locks/LockState.cs:20,114); the `ObjectDisposedException` then ends the process. The model runs no pass after the wait, so this race is not represented.
- What an unhandled exception on the thread pool does beyond ending the process (the runtime's unhandled-exception policy); `Crashed` stands for it.
- The wait for a GUID in the older `LockState`: the GUID's text is an input.

## Findings

| source | as written | input that shows it | evidently intended | confidence | as-written member | corrected member |
|---|---|---|---|---|---|---|
| KeySmith/LockService.cs:18-19 | the non-generic `LockAsync` wraps the callback in a lambda that is never null, so the null check of lines 23-26 never fires for it | a null callback on an empty store: the lock is taken, announced and released, then `NullReferenceException` is thrown | `ArgumentNullException` before anything is sent, as for the generic overload | high, not executed | LockServices.LockAsyncUnchecked | LockServices.LockAsyncAction |
| KeySmith/MemoLockService.cs:33-37 | when the work task wins and ended cancelled (by any `OperationCanceledException`), `IsFaulted` is false and `first.Result` throws an `AggregateException` around a fresh `TaskCanceledException` ("A task was canceled."), not the exception that cancelled the work | a token already cancelled when `MemoLockAsync` is called, no notification arriving; or a generator calling `ThrowIfCancellationRequested` | the exception that cancelled the work surfaces unchanged, as the faulted branch does for other exceptions | high, not executed | MemoServices.ObservedWrapsCancellation | MemoServices.AwaitedIsTheWork |
| KeySmith/KeySmith/Internals/GenerationResult.cs:12 | only `Message` decides failure, so a failure whose exception message is empty reads as success | a generator throwing `InvalidOperationException("")`: `GetResult` returns `default(T)` | a recorded exception type marks a failure | medium, not executed | GenerationResults.EmptyMessageFailureReadsAsSuccess | GenerationResults.CheckedCaptureRoundTrip |
