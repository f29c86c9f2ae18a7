/** The older lock attempt (KeySmith/KeySmith/Internals/Locks/LockState.cs).
    It shares the states, the signal and `SetWithKey` with the current one
    (`LockStates`); it differs in two places: cancelling a disposed source
    is not guarded, and the handler ends an attempt holding the key on any
    message, its own identifier included. */
module LegacyLockStates {
  import opened Common
  import opened Keys
  import opened Parameters
  import opened LockStates

  /** `SetDone(exception)` (lines 54-69): `Cancel` on a disposed source throws
      before anything is written. */
  function LegacySetDoneStep(a: Attempt, exception: Option<Exception>): Step {
    if a.disposed then Step(a, Fail(SourceDisposed))
    else
      var c := if exception.None? then Canceled else Faulted(exception.value);
      Step(a.(tokenCanceled := true, state := Done, task := TrySet(a.task, c)), Pass)
  }

  /** The pub/sub handler (lines 71-86). */
  function LegacyHandlerStep(a: Attempt, identifier: string, payload: string): Step {
    match a.state
    case WaitingForKey => if payload == identifier then SetWithKeyStep(a) else Step(a, Pass)
    case WithKey => LegacySetDoneStep(a, None)
    case Done => Step(a, Pass)
  }

  /** `Guid.NewGuid().ToString().Substring(0, 8)`: the first eight of the 36
      characters of a GUID's text. */
  function GuidIdentifier(guid: string): (id: string)
    requires |guid| == 36
    ensures |id| == 8 && id == guid[..8]
  {
    guid[..8]
  }

  class LegacyLockState {
    var state: State
    const key: Key
    const identifier: string
    var task: Option<Completion>
    var tokenCanceled: bool
    var disposed: bool
    const parameters: LockLuaParameters

    function Snapshot(): Attempt
      reads this
    {
      Attempt(state, task, tokenCanceled, disposed)
    }

    /** The internal three-argument constructor (lines 26-36). */
    constructor (key: Key, identifier: string, parentCanceled: bool)
      ensures Snapshot() == Fresh(parentCanceled)
      ensures this.key == key && this.identifier == identifier
      ensures parameters == NewLockLuaParameters(identifier, key)
    {
      this.key := key;
      this.identifier := identifier;
      state := WaitingForKey;
      task := None;
      tokenCanceled := parentCanceled;
      disposed := false;
      parameters := NewLockLuaParameters(identifier, key);
    }

    /** The public constructor (line 25), given the text of the new GUID. */
    constructor FromGuid(key: Key, guid: string, parentCanceled: bool)
      requires |guid| == 36
      ensures Snapshot() == Fresh(parentCanceled)
      ensures this.key == key && identifier == guid[..8] && |identifier| == 8
      ensures parameters == NewLockLuaParameters(guid[..8], key)
    {
      this.key := key;
      identifier := GuidIdentifier(guid);
      state := WaitingForKey;
      task := None;
      tokenCanceled := parentCanceled;
      disposed := false;
      parameters := NewLockLuaParameters(GuidIdentifier(guid), key);
    }

    /** `SetWithKey` (lines 38-52), the same as the current one. */
    method SetWithKey() returns (r: Outcome)
      modifies this
      ensures Snapshot() == SetWithKeyStep(old(Snapshot())).after
      ensures r == SetWithKeyStep(old(Snapshot())).outcome
    {
      if state == Done {
        return Fail(InvalidTransition);
      }
      if state == WaitingForKey && task.None? {
        task := Some(Succeeded);
      }
      state := WithKey;
      return Pass;
    }

    method SetDone(exception: Option<Exception>) returns (r: Outcome)
      modifies this
      ensures Snapshot() == LegacySetDoneStep(old(Snapshot()), exception).after
      ensures r == LegacySetDoneStep(old(Snapshot()), exception).outcome
    {
      if disposed {
        return Fail(SourceDisposed);
      }
      tokenCanceled := true;
      if task.None? {
        task := Some(if exception.None? then Canceled else Faulted(exception.value));
      }
      state := Done;
      return Pass;
    }

    method Handler(payload: string) returns (r: Outcome)
      modifies this
      ensures Snapshot() == LegacyHandlerStep(old(Snapshot()), identifier, payload).after
      ensures r == LegacyHandlerStep(old(Snapshot()), identifier, payload).outcome
    {
      r := Pass;
      match state {
        case WaitingForKey =>
          if payload == identifier {
            r := SetWithKey();
          }
        case WithKey =>
          r := SetDone(None);
        case Done =>
      }
    }

    /** `Dispose` (line 88) disposes the cancellation source. */
    method Dispose()
      modifies this
      ensures Snapshot() == old(Snapshot()).(disposed := true)
    {
      disposed := true;
    }
  }

  // ---------------------------------------------------------------------
  // Properties

  datatype LegacyOp = LegacySetWithKeyOp | LegacySetDoneOp(exception: Option<Exception>)
                    | LegacyHandlerOp(payload: string) | LegacyDisposeOp

  function LegacyApply(a: Attempt, identifier: string, op: LegacyOp): Attempt {
    match op
    case LegacySetWithKeyOp => SetWithKeyStep(a).after
    case LegacySetDoneOp(e) => LegacySetDoneStep(a, e).after
    case LegacyHandlerOp(payload) => LegacyHandlerStep(a, identifier, payload).after
    case LegacyDisposeOp => a.(disposed := true)
  }

  function LegacyRun(a: Attempt, identifier: string, ops: seq<LegacyOp>): Attempt
    decreases |ops|
  {
    if ops == [] then a else LegacyRun(LegacyApply(a, identifier, ops[0]), identifier, ops[1..])
  }

  /** Over any sequence of calls the older attempt also stays consistent,
      never moves back, and keeps the first resolution of its signal. */
  lemma {:induction false} LegacyRunIsMonotone(a: Attempt, identifier: string, ops: seq<LegacyOp>)
    requires Consistent(a)
    ensures var b := LegacyRun(a, identifier, ops);
            && Consistent(b)
            && Rank(a.state) <= Rank(b.state)
            && (a.state == Done ==> b.state == Done)
            && (a.task.Some? ==> b.task == a.task)
    decreases |ops|
  {
    if ops != [] {
      var b := LegacyApply(a, identifier, ops[0]);
      assert Consistent(b) && Rank(a.state) <= Rank(b.state) && (a.task.Some? ==> b.task == a.task);
      LegacyRunIsMonotone(b, identifier, ops[1..]);
    }
  }

  /** `SetDone` ends a live attempt in `Done` with its token cancelled, the
      first resolution of the signal winning; on a disposed source it throws
      and changes nothing. */
  lemma LegacySetDoneTransitions(a: Attempt, exception: Option<Exception>)
    requires Consistent(a)
    ensures var s := LegacySetDoneStep(a, exception);
            && (!a.disposed ==> && s.outcome == Pass && s.after.state == Done && s.after.tokenCanceled
                                && (a.task.None? && exception.None? ==> s.after.task == Some(Canceled))
                                && (a.task.None? && exception.Some? ==> s.after.task == Some(Faulted(exception.value)))
                                && (a.task.Some? ==> s.after.task == a.task))
            && (a.disposed ==> s == Step(a, Fail(SourceDisposed)))
  {
  }

  /** The older handler ends an attempt holding the key on any message, its
      own identifier included, where the current one keeps the key. */
  lemma LegacyHandlerEndsOnAnyMessage(a: Attempt, identifier: string, payload: string)
    requires Consistent(a) && !a.disposed && a.state == WithKey
    ensures var b := LegacyHandlerStep(a, identifier, payload).after;
            b.state == Done && b.task == Some(Succeeded) && b.tokenCanceled
    ensures payload == identifier ==> HandlerStep(a, identifier, payload).after.state == WithKey
  {
  }

  /** While waiting, both handlers take the key exactly on the attempt's own
      identifier. */
  lemma WaitingHandlersAgree(a: Attempt, identifier: string, payload: string)
    requires a.state == WaitingForKey
    ensures LegacyHandlerStep(a, identifier, payload) == HandlerStep(a, identifier, payload)
    ensures LegacyHandlerStep(a, identifier, payload).after.state == WithKey <==> payload == identifier
  {
  }
}
