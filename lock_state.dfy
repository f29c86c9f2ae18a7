/** One lock attempt (KeySmith/Internals/Locks/LockState.cs): a state that
    only moves forward, a completion signal resolved at most once, and a
    cancellation source linked to the caller's token. */
module LockStates {
  import opened Common
  import opened Keys
  import opened Parameters

  datatype State = WaitingForKey | WithKey | Done

  /** How the waiting task ended. */
  datatype Completion = Succeeded | Canceled | Faulted(error: Exception)

  /** The attempt's mutable part as a value. `task` is the
      TaskCompletionSource's task: `None` while unresolved. */
  datatype Attempt = Attempt(state: State, task: Option<Completion>, tokenCanceled: bool, disposed: bool)

  /** A transition's new attempt and whether the call threw. */
  datatype Step = Step(after: Attempt, outcome: Outcome)

  const InvalidTransition: Exception := Throw(General, "Invalid state transition from 'Done' to 'WithKey'.")
  const SourceDisposed: Exception := Throw(ObjectDisposed, "The CancellationTokenSource has been disposed.")

  /** `TrySetResult`/`TrySetCanceled`/`TrySetException`: only an unresolved
      task is resolved. */
  function TrySet(task: Option<Completion>, c: Completion): Option<Completion> {
    if task.None? then Some(c) else task
  }

  /** The signal is resolved exactly when the attempt has left
      `WaitingForKey`, and with success while it holds the key; a finished
      attempt has cancelled its token unless the source was disposed first. */
  predicate Consistent(a: Attempt) {
    && (a.state == WaitingForKey <==> a.task.None?)
    && (a.state == WithKey ==> a.task == Some(Succeeded))
    && (a.state == Done && !a.disposed ==> a.tokenCanceled)
  }

  function Fresh(parentCanceled: bool): Attempt {
    Attempt(WaitingForKey, None, parentCanceled, false)
  }

  function SetWithKeyStep(a: Attempt): Step {
    match a.state
    case WaitingForKey => Step(a.(state := WithKey, task := TrySet(a.task, Succeeded)), Pass)
    case WithKey => Step(a, Pass)
    case Done => Step(a, Fail(InvalidTransition))
  }

  /** `SetDone(exception)`. Cancelling a disposed source throws and is
      swallowed; reading `Token` for the cancelled task on a disposed source
      throws before the state is written. */
  function SetDoneStep(a: Attempt, exception: Option<Exception>): Step {
    var cancelled := a.(tokenCanceled := a.tokenCanceled || !a.disposed);
    if exception.None? && a.disposed then Step(cancelled, Fail(SourceDisposed))
    else
      var c := if exception.None? then Canceled else Faulted(exception.value);
      Step(cancelled.(state := Done, task := TrySet(a.task, c)), Pass)
  }

  /** The pub/sub handler: the payload is the identifier just given the lock. */
  function HandlerStep(a: Attempt, identifier: string, payload: string): Step {
    match a.state
    case WaitingForKey => if payload == identifier then SetWithKeyStep(a) else Step(a, Pass)
    case WithKey => if payload != identifier then SetDoneStep(a, None) else Step(a, Pass)
    case Done => Step(a, Pass)
  }

  /** The caller's token being cancelled reaches the linked source until the
      source is disposed. */
  function CancelParentStep(a: Attempt): Attempt {
    if a.disposed then a else a.(tokenCanceled := true)
  }

  class LockState {
    var state: State
    const key: Key
    const identifier: string
    var task: Option<Completion>
    var tokenCanceled: bool
    var disposed: bool
    const parameters: LockLuaParameters

    function Snapshot(): Attempt
      reads this
    {
      Attempt(state, task, tokenCanceled, disposed)
    }

    /** The three-argument constructor; the source is linked to the caller's
        token, so it starts cancelled if that token already is. */
    constructor (key: Key, identifier: string, parentCanceled: bool)
      ensures Snapshot() == Fresh(parentCanceled)
      ensures this.key == key && this.identifier == identifier
      ensures parameters == NewLockLuaParameters(identifier, key)
    {
      this.key := key;
      this.identifier := identifier;
      state := WaitingForKey;
      task := None;
      tokenCanceled := parentCanceled;
      disposed := false;
      parameters := NewLockLuaParameters(identifier, key);
    }

    method SetWithKey() returns (r: Outcome)
      modifies this
      ensures Snapshot() == SetWithKeyStep(old(Snapshot())).after
      ensures r == SetWithKeyStep(old(Snapshot())).outcome
    {
      if state == Done {
        return Fail(InvalidTransition);
      }
      if state == WaitingForKey && task.None? {
        task := Some(Succeeded);
      }
      state := WithKey;
      return Pass;
    }

    method SetDone(exception: Option<Exception>) returns (r: Outcome)
      modifies this
      ensures Snapshot() == SetDoneStep(old(Snapshot()), exception).after
      ensures r == SetDoneStep(old(Snapshot()), exception).outcome
    {
      // CancellationTokenSource.Cancel(); ObjectDisposedException swallowed
      if !disposed {
        tokenCanceled := true;
      }
      if exception.None? {
        if disposed {
          return Fail(SourceDisposed);
        }
        if task.None? {
          task := Some(Canceled);
        }
      } else {
        if task.None? {
          task := Some(Faulted(exception.value));
        }
      }
      state := Done;
      return Pass;
    }

    method Handler(payload: string) returns (r: Outcome)
      modifies this
      ensures Snapshot() == HandlerStep(old(Snapshot()), identifier, payload).after
      ensures r == HandlerStep(old(Snapshot()), identifier, payload).outcome
    {
      r := Pass;
      match state
      case WaitingForKey =>
        if payload == identifier {
          r := SetWithKey();
        }
      case WithKey =>
        if payload != identifier {
          r := SetDone(None);
        }
      case Done =>
    }

    method CancelParent()
      modifies this
      ensures Snapshot() == CancelParentStep(old(Snapshot()))
    {
      if !disposed {
        tokenCanceled := true;
      }
    }

    method Dispose()
      modifies this
      ensures Snapshot() == old(Snapshot()).(disposed := true)
    {
      disposed := true;
    }
  }

  // ---------------------------------------------------------------------
  // Properties of the transitions

  /** Every way an attempt is driven: the watchdog's and the service's calls,
      a notification, the caller's token and the final dispose. */
  datatype Op = SetWithKeyOp | SetDoneOp(exception: Option<Exception>) | HandlerOp(payload: string)
              | CancelParentOp | DisposeOp

  function Apply(a: Attempt, identifier: string, op: Op): Attempt {
    match op
    case SetWithKeyOp => SetWithKeyStep(a).after
    case SetDoneOp(e) => SetDoneStep(a, e).after
    case HandlerOp(payload) => HandlerStep(a, identifier, payload).after
    case CancelParentOp => CancelParentStep(a)
    case DisposeOp => a.(disposed := true)
  }

  function Run(a: Attempt, identifier: string, ops: seq<Op>): Attempt
    decreases |ops|
  {
    if ops == [] then a else Run(Apply(a, identifier, ops[0]), identifier, ops[1..])
  }

  function Rank(s: State): int {
    match s
    case WaitingForKey => 0
    case WithKey => 1
    case Done => 2
  }

  /** A new attempt waits with an unresolved signal. */
  lemma FreshIsConsistent(parentCanceled: bool)
    ensures Consistent(Fresh(parentCanceled)) && Fresh(parentCanceled).task.None?
  {
  }

  /** Each transition keeps the attempt consistent, moves the state forward
      only, and never re-resolves the signal. */
  lemma ApplyIsMonotone(a: Attempt, identifier: string, op: Op)
    requires Consistent(a)
    ensures var b := Apply(a, identifier, op);
            && Consistent(b)
            && Rank(a.state) <= Rank(b.state)
            && (a.task.Some? ==> b.task == a.task)
            && (a.tokenCanceled ==> b.tokenCanceled)
  {
  }

  /** Over any sequence of calls: the state never moves back, so `Done` is
      absorbing, and the first resolution of the signal is final. */
  lemma {:induction false} RunIsMonotone(a: Attempt, identifier: string, ops: seq<Op>)
    requires Consistent(a)
    ensures var b := Run(a, identifier, ops);
            && Consistent(b)
            && Rank(a.state) <= Rank(b.state)
            && (a.state == Done ==> b.state == Done)
            && (a.task.Some? ==> b.task == a.task)
    decreases |ops|
  {
    if ops != [] {
      ApplyIsMonotone(a, identifier, ops[0]);
      RunIsMonotone(Apply(a, identifier, ops[0]), identifier, ops[1..]);
    }
  }

  /** `SetWithKey` resolves a waiting attempt's signal with success, is
      idempotent once the key is held, and throws once done. */
  lemma SetWithKeyTransitions(a: Attempt)
    requires Consistent(a)
    ensures var s := SetWithKeyStep(a);
            && (a.state == WaitingForKey ==> s == Step(a.(state := WithKey, task := Some(Succeeded)), Pass))
            && (a.state == WithKey ==> s == Step(a, Pass) && SetWithKeyStep(s.after) == s)
            && (a.state == Done ==> s.outcome.Fail? && s.after == a)
  {
  }

  /** `SetDone` ends in `Done` with a cancelled token and resolves a still
      unresolved signal as cancelled (no exception) or faulted (exception);
      an already resolved signal is kept. On a disposed source without an
      exception it throws instead and leaves the state unchanged. */
  lemma SetDoneTransitions(a: Attempt, exception: Option<Exception>)
    requires Consistent(a)
    ensures var s := SetDoneStep(a, exception);
            && (!a.disposed || exception.Some? ==>
                  && s.outcome == Pass && s.after.state == Done
                  && (!a.disposed ==> s.after.tokenCanceled)
                  && (a.task.None? && exception.None? ==> s.after.task == Some(Canceled))
                  && (a.task.None? && exception.Some? ==> s.after.task == Some(Faulted(exception.value)))
                  && (a.task.Some? ==> s.after.task == a.task))
            && (a.disposed && exception.None? ==> s.outcome == Fail(SourceDisposed) && s.after == a)
  {
  }

  /** The handler: a waiting attempt takes the key exactly on its own
      identifier; an attempt holding the key finishes exactly on another
      identifier; a finished attempt ignores every message. */
  lemma HandlerTransitions(a: Attempt, identifier: string, payload: string)
    requires Consistent(a) && !a.disposed
    ensures var b := HandlerStep(a, identifier, payload).after;
            && (a.state == WaitingForKey ==> (b.state == WithKey <==> payload == identifier)
                                             && (b.state == WaitingForKey <==> payload != identifier))
            && (a.state == WithKey ==> (b.state == Done <==> payload != identifier))
            && (a.state == Done ==> b == a)
  {
  }

  /** Losing the lock while holding it cancels the token and leaves the
      signal succeeded: the running callback learns it through its token. */
  lemma LosingTheKeyCancelsTheToken(a: Attempt, identifier: string, payload: string)
    requires Consistent(a) && !a.disposed && a.state == WithKey && payload != identifier
    ensures var b := HandlerStep(a, identifier, payload).after;
            b.state == Done && b.task == Some(Succeeded) && b.tokenCanceled
  {
  }

  /** The attempt's own identifier arriving while it holds the key changes
      nothing. */
  lemma OwnIdentifierKeepsTheKey(a: Attempt, identifier: string)
    requires a.state == WithKey
    ensures HandlerStep(a, identifier, identifier) == Step(a, Pass)
  {
  }
}
