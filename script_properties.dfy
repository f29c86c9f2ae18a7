/** What the three lock scripts promise, stated over `LockSlice`: re-entry,
    FIFO hand-over modulo cancellation, cleanup, the situation codes and the
    protocol invariant, and what expiry does to it. */
module ScriptProperties {
  import opened Common
  import opened Parameters
  import opened Scripts

  /** Without expiry: no waiters without a holder, every waiting identifier
      has a list entry, and the holder is not waiting. */
  predicate Invariant(s: LockSlice) {
    && WellFormed(s)
    && (s.lock.None? ==> s.queue == [] && s.waiting == {})
    && (forall x :: x in s.waiting ==> x in s.queue)
    && (s.lock.Some? ==> s.lock.value !in s.waiting)
  }

  // ---------------------------------------------------------------------
  // Acquire

  /** Acquire is granted exactly when the lock is free or already the
      caller's; a granted caller owns the lock, a refused one is appended to
      the list and the set while the holder keeps the lock. The list and set
      TTLs are set only when the list is created. */
  lemma AcquireOutcome(s: LockSlice, p: LockLuaParameters)
    requires p.timeout > 0
    ensures Acquire(s, p).Ok?
    ensures var a := Acquire(s, p).value;
            && (a.granted <==> s.lock.None? || s.lock == Some(p.identifier))
            && (a.granted ==> a.after.lock == Some(p.identifier) && a.after.queue == s.queue
                              && a.after.waiting == s.waiting)
            && (!a.granted ==> a.after.lock == s.lock && a.after.queue == s.queue + [p.identifier]
                               && a.after.waiting == s.waiting + {p.identifier})
            && (a.after.queueTtl != s.queueTtl ==> !a.granted && s.queue == [])
            && (a.after.waitingTtl != s.waitingTtl ==> !a.granted && s.queue == [])
  {
  }

  /** Re-entry: the holder's acquire is granted, changes nothing and
      publishes nothing — so a granted acquire repeated is a no-op. */
  lemma AcquireIsReentrant(s: LockSlice, p: LockLuaParameters)
    requires Acquire(s, p).Ok? && Acquire(s, p).value.granted
    ensures var a := Acquire(s, p).value;
            Acquire(a.after, p) == Ok(Acquired(a.after, true))
  {
  }

  /** A refused caller that asks again is appended a second time: the list
      then holds a duplicate that the release loop will skip. */
  lemma RefusedAcquireRepeatedDuplicates(s: LockSlice, p: LockLuaParameters)
    requires p.timeout > 0 && s.lock.Some? && s.lock != Some(p.identifier)
    ensures var a1 := Acquire(s, p).value;
            var a2 := Acquire(a1.after, p).value;
            !a2.granted && a2.after.queue == s.queue + [p.identifier, p.identifier]
            && a2.after.waiting == s.waiting + {p.identifier}
  {
  }

  /** A non-positive timeout makes every acquire but the holder's fail. */
  lemma AcquireRejectsNonPositiveTimeout(s: LockSlice, p: LockLuaParameters)
    requires p.timeout <= 0
    ensures Acquire(s, p).Err? <==> s.lock != Some(p.identifier)
  {
  }

  /** The situation query reads back what acquire did: 1 once granted, 0
      once queued (given the invariant, a holder is never also waiting). */
  lemma SituationAfterAcquire(s: LockSlice, p: LockLuaParameters)
    requires Invariant(s) && Acquire(s, p).Ok?
    ensures Situation(Acquire(s, p).value.after, p.identifier)
            == (if Acquire(s, p).value.granted then 1 else 0)
  {
  }

  // ---------------------------------------------------------------------
  // Release

  /** The holder's release hands the lock to the first list entry still in
      the waiting set: the entries before it were no longer waiting and are
      dropped, the entries after it keep their order, the new holder leaves
      the set, gets fresh TTLs and is announced. */
  lemma ReleasePromotesFirstLive(s: LockSlice, p: LockLuaParameters)
    requires s.lock == Some(p.identifier) && p.timeout > 0
    requires exists j :: 0 <= j < |s.queue| && s.queue[j] in s.waiting
    ensures var k := FirstLive(s.queue, s.waiting);
            var r := Release(s, p);
            && k < |s.queue|
            && (forall j :: 0 <= j < k ==> s.queue[j] !in s.waiting)
            && r.outcome == Pass
            && r.after.lock == Some(s.queue[k]) && r.after.lockTtl == Some(p.timeout)
            && r.after.queue == s.queue[k + 1..]
            && r.after.waiting == s.waiting - {s.queue[k]}
            && r.after.published == s.published + [Message(p.lockNotifKey, s.queue[k])]
  {
  }

  /** With nobody left waiting, the holder's release deletes the lock, the
      list and the set, whatever they held. */
  lemma ReleaseCleansUp(s: LockSlice, p: LockLuaParameters)
    requires s.lock == Some(p.identifier)
    requires forall j :: 0 <= j < |s.queue| ==> s.queue[j] !in s.waiting
    ensures Release(s, p) == Released(EmptySlice(s.published), Pass)
  {
    assert FirstLive(s.queue, s.waiting) == |s.queue|;
  }

  /** Anyone but the holder only withdraws from the waiting set. */
  lemma ReleaseByOtherWithdraws(s: LockSlice, p: LockLuaParameters)
    requires s.lock != Some(p.identifier)
    ensures var r := Release(s, p);
            && r.outcome == Pass
            && r.after.lock == s.lock && r.after.lockTtl == s.lockTtl
            && r.after.queue == s.queue && r.after.published == s.published
            && r.after.waiting == s.waiting - {p.identifier}
            && Situation(r.after, p.identifier) == 2
  {
  }

  /** After releasing, the former holder is unknown to the store. */
  lemma SituationAfterRelease(s: LockSlice, p: LockLuaParameters)
    requires Invariant(s) && s.lock == Some(p.identifier) && p.timeout > 0
    ensures Situation(Release(s, p).after, p.identifier) == 2
  {
    var k := FirstLive(s.queue, s.waiting);
    if k < |s.queue| {
      assert s.queue[k] != p.identifier;
    }
  }

  /** The situation codes: 0 wins over 1 when an identifier both waits and
      holds, and every reply is 0, 1 or 2. */
  lemma SituationCodes(s: LockSlice, identifier: string)
    ensures Situation(s, identifier) in {0, 1, 2}
    ensures Situation(s, identifier) == 0 <==> identifier in s.waiting
    ensures Situation(s, identifier) == 1 <==> identifier !in s.waiting && s.lock == Some(identifier)
    ensures Situation(s, identifier) == 2 <==> identifier !in s.waiting && s.lock != Some(identifier)
  {
  }

  // ---------------------------------------------------------------------
  // The invariant

  lemma {:induction false} AcquirePreservesInvariant(s: LockSlice, p: LockLuaParameters)
    requires Invariant(s) && Acquire(s, p).Ok?
    ensures Invariant(Acquire(s, p).value.after)
  {
    var a := Acquire(s, p).value;
    forall x | x in a.after.waiting
      ensures x in a.after.queue
    {
      if x != p.identifier {
        assert x in s.queue;
      }
    }
  }

  lemma {:induction false} ReleasePreservesInvariant(s: LockSlice, p: LockLuaParameters)
    requires Invariant(s)
    ensures Invariant(Release(s, p).after)
  {
    if s.lock == Some(p.identifier) {
      var k := FirstLive(s.queue, s.waiting);
      if k < |s.queue| {
        var a := Release(s, p).after;
        forall x | x in a.waiting
          ensures x in a.queue
        {
          var i :| 0 <= i < |s.queue| && s.queue[i] == x;
          assert i > k;
          assert x == s.queue[k + 1..][i - k - 1];
        }
      }
    }
  }

  /** Expiry breaks the invariant: when the holder's key expires, waiters
      stay queued with nobody left to promote them. */
  lemma LockExpiryStrandsWaiters(w: string, h: string, t: int, pub: seq<Message>)
    requires t > 0 && w != h
    ensures var s := LockSlice(Some(h), Some(t), [w], Some(t), {w}, Some(t), pub);
            && Invariant(s)
            && !Invariant(Expire(s, LockEntry))
            && Situation(Expire(s, LockEntry), w) == 0
  {
  }

  /** Recovery: once the waiting set has expired too, a stranded waiter reads
      situation 2 and its renewed acquire is granted. */
  lemma RecoveryAfterExpiry(s: LockSlice, p: LockLuaParameters)
    requires WellFormed(s) && s.lockTtl.Some? && s.waitingTtl.Some? && p.timeout > 0
    ensures var e := Expire(Expire(s, LockEntry), WaitingEntry);
            && Situation(e, p.identifier) == 2
            && Acquire(e, p) == Ok(Acquired(e.(lock := Some(p.identifier), lockTtl := Some(p.timeout),
                                                 published := e.published + [Message(p.lockNotifKey, p.identifier)]), true))
  {
  }

  /** The waiting set can exist without a TTL: after the last waiter
      withdraws while ghost entries keep the list alive, the next refused
      acquire recreates the set with HSET and skips the PEXPIRE calls. */
  lemma WaitingSetCanLackTtl(h: string, w: string, x: string, p: LockLuaParameters)
    requires p.timeout > 0 && h != w && h != x && w != x && p.identifier == x
    ensures var s0 := LockSlice(Some(h), Some(p.timeout), [w], Some(p.timeout), {w}, Some(p.timeout), []);
            var s1 := Release(s0, p.(identifier := w)).after;
            var s2 := Acquire(s1, p).value.after;
            && Invariant(s0) && Invariant(s2)
            && s2.waiting == {x} && s2.waitingTtl.None? && Expire(s2, WaitingEntry) == s2
  {
  }

  // ---------------------------------------------------------------------
  // FIFO hand-over

  /** The order in which the list hands the lock over: each entry still in
      the set, and only its first occurrence. */
  function LiveOrder(queue: seq<string>, waiting: set<string>): seq<string>
    decreases |queue|
  {
    if queue == [] then []
    else if queue[0] in waiting then [queue[0]] + LiveOrder(queue[1..], waiting - {queue[0]})
    else LiveOrder(queue[1..], waiting)
  }

  lemma {:induction false} LiveOrderStartsAtFirstLive(queue: seq<string>, waiting: set<string>)
    ensures var k := FirstLive(queue, waiting);
            LiveOrder(queue, waiting)
            == if k == |queue| then [] else [queue[k]] + LiveOrder(queue[k + 1..], waiting - {queue[k]})
    decreases |queue|
  {
    if queue != [] && queue[0] !in waiting {
      LiveOrderStartsAtFirstLive(queue[1..], waiting);
      var k := FirstLive(queue[1..], waiting);
      if k < |queue[1..]| {
        assert queue[1..][k + 1..] == queue[k + 2..];
      }
    }
  }

  /** Every holder in turn releasing its lock. */
  function Drain(s: LockSlice, p: LockLuaParameters): LockSlice
    requires p.timeout > 0
    decreases |s.queue| + (if s.lock.Some? then 1 else 0)
  {
    if s.lock.None? then s
    else Drain(Release(s, p.(identifier := s.lock.value)).after, p)
  }

  function Announce(channel: string, ids: seq<string>): (m: seq<Message>)
    ensures |m| == |ids| && forall i :: 0 <= i < |ids| ==> m[i] == Message(channel, ids[i])
  {
    if ids == [] then [] else [Message(channel, ids[0])] + Announce(channel, ids[1..])
  }

  /** One hand-over, in terms of the first live entry. */
  lemma HolderReleaseStep(s: LockSlice, p: LockLuaParameters)
    requires s.lock == Some(p.identifier) && p.timeout > 0
    ensures var k := FirstLive(s.queue, s.waiting);
            var a := Release(s, p).after;
            && (k == |s.queue| ==> a == EmptySlice(s.published))
            && (k < |s.queue| ==> a.lock == Some(s.queue[k]) && a.queue == s.queue[k + 1..]
                                  && a.waiting == s.waiting - {s.queue[k]}
                                  && a.published == s.published + [Message(p.lockNotifKey, s.queue[k])])
  {
  }

  lemma AnnounceStep(published: seq<Message>, channel: string, x: string, rest: seq<string>)
    ensures (published + [Message(channel, x)]) + Announce(channel, rest)
            == published + Announce(channel, [x] + rest)
  {
    assert ([x] + rest)[1..] == rest;
  }

  /** Releasing holder after holder announces the waiters in list order,
      skipping those that withdrew, and leaves no key behind. */
  lemma {:induction false} DrainAnnouncesLiveOrder(s: LockSlice, p: LockLuaParameters)
    requires p.timeout > 0 && s.lock.Some?
    ensures Drain(s, p) == EmptySlice(s.published + Announce(p.lockNotifKey, LiveOrder(s.queue, s.waiting)))
    decreases |s.queue|
  {
    var q := p.(identifier := s.lock.value);
    var k := FirstLive(s.queue, s.waiting);
    var a := Release(s, q).after;
    assert Drain(s, p) == Drain(a, p);
    LiveOrderStartsAtFirstLive(s.queue, s.waiting);
    HolderReleaseStep(s, q);
    if k < |s.queue| {
      DrainAnnouncesLiveOrder(a, p);
      AnnounceStep(s.published, p.lockNotifKey, s.queue[k], LiveOrder(a.queue, a.waiting));
    } else {
      assert s.published + [] == s.published;
    }
  }

  /** The entries of `ids` not in `cancelled`, in order. */
  function Without(ids: seq<string>, cancelled: set<string>): seq<string> {
    if ids == [] then []
    else if ids[0] in cancelled then Without(ids[1..], cancelled)
    else [ids[0]] + Without(ids[1..], cancelled)
  }

  predicate Distinct(ids: seq<string>) {
    forall i, j :: 0 <= i < j < |ids| ==> ids[i] != ids[j]
  }

  /** Without duplicates, the live order is the list minus the withdrawn. */
  lemma {:induction false} LiveOrderOfDistinct(ids: seq<string>, cancelled: set<string>)
    requires Distinct(ids)
    ensures LiveOrder(ids, set x | x in ids && x !in cancelled) == Without(ids, cancelled)
    decreases |ids|
  {
    if ids != [] {
      var tail := ids[1..];
      assert Distinct(tail);
      LiveOrderOfDistinct(tail, cancelled);
      var w := set x | x in ids && x !in cancelled;
      var wt := set x | x in tail && x !in cancelled;
      if ids[0] in cancelled {
        assert w == wt;
      } else {
        assert w - {ids[0]} == wt;
      }
    }
  }

  /** Refused acquires by `ids`, in order, while someone else holds the lock. */
  function Enqueue(s: LockSlice, p: LockLuaParameters, ids: seq<string>): LockSlice
    decreases |ids|
  {
    if ids == [] then s
    else match Acquire(s, p.(identifier := ids[0]))
         case Ok(a) => Enqueue(a.after, p, ids[1..])
         case Err(_) => s
  }

  lemma {:induction false} EnqueueAppends(s: LockSlice, p: LockLuaParameters, ids: seq<string>)
    requires p.timeout > 0 && s.lock.Some? && s.lock.value !in ids
    ensures var e := Enqueue(s, p, ids);
            e.lock == s.lock && e.queue == s.queue + ids && e.published == s.published
            && e.waiting == s.waiting + set x | x in ids
    decreases |ids|
  {
    if ids != [] {
      var a := Acquire(s, p.(identifier := ids[0])).value;
      EnqueueAppends(a.after, p, ids[1..]);
      assert s.queue + [ids[0]] + ids[1..] == s.queue + ids;
      assert (set x | x in ids) == {ids[0]} + set x | x in ids[1..];
    }
  }

  /** Releases by waiting identifiers, which withdraw them. */
  function Withdraw(s: LockSlice, p: LockLuaParameters, ids: seq<string>): LockSlice
    decreases |ids|
  {
    if ids == [] then s else Withdraw(Release(s, p.(identifier := ids[0])).after, p, ids[1..])
  }

  lemma {:induction false} WithdrawRemoves(s: LockSlice, p: LockLuaParameters, ids: seq<string>)
    requires s.lock.Some? && s.lock.value !in ids
    ensures var w := Withdraw(s, p, ids);
            w.lock == s.lock && w.queue == s.queue && w.published == s.published
            && w.waiting == s.waiting - set x | x in ids
    decreases |ids|
  {
    if ids != [] {
      WithdrawRemoves(Release(s, p.(identifier := ids[0])).after, p, ids[1..]);
      assert (set x | x in ids) == {ids[0]} + set x | x in ids[1..];
    }
  }

  /** FIFO: distinct callers queue behind a holder, some withdraw; releasing
      holder after holder then announces exactly the others, in the order
      they asked, and leaves the store clean. */
  lemma FifoHandOver(h: string, t: int, pub: seq<Message>, p: LockLuaParameters,
                     ids: seq<string>, cancelled: seq<string>)
    requires p.timeout > 0 && t > 0 && Distinct(ids) && h !in ids && h !in cancelled
    ensures var s0 := LockSlice(Some(h), Some(t), [], None, {}, None, pub);
            var s := Withdraw(Enqueue(s0, p, ids), p, cancelled);
            Drain(s, p) == EmptySlice(pub + Announce(p.lockNotifKey, Without(ids, set c | c in cancelled)))
  {
    var s0 := LockSlice(Some(h), Some(t), [], None, {}, None, pub);
    var e := Enqueue(s0, p, ids);
    EnqueueAppends(s0, p, ids);
    var s := Withdraw(e, p, cancelled);
    WithdrawRemoves(e, p, cancelled);
    var C := set c | c in cancelled;
    var W := set x | x in ids && x !in C;
    assert s.waiting == W by {
      assert e.waiting == set x | x in ids;
    }
    assert s.queue == ids && s.published == pub && s.lock.Some?;
    LiveOrderOfDistinct(ids, C);
    DrainAnnouncesLiveOrder(s, p);
    assert LiveOrder(s.queue, s.waiting) == Without(ids, C);
  }

  /** An uncontended caller acquires, announces itself, and its release
      leaves no key behind. */
  lemma UncontendedRoundTrip(s: LockSlice, p: LockLuaParameters)
    requires s == EmptySlice(s.published) && p.timeout > 0
    ensures Acquire(s, p).Ok? && Acquire(s, p).value.granted
    ensures var a := Acquire(s, p).value.after;
            Release(a, p) == Released(EmptySlice(s.published + [Message(p.lockNotifKey, p.identifier)]), Pass)
  {
  }
}
