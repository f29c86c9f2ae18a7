/** The memoisation key (KeySmith/MemoKey.cs) and the glob matching the store
    applies to pattern subscriptions. */
module MemoKeys {
  import opened Common
  import opened Keys

  /** The readonly struct `MemoKey`; `default(MemoKey)` has zero expirations. */
  datatype MemoKey = MemoKey(root: string, lockName: string, valueExpiration: Duration, lockExpiration: Duration) {

    /** The key of the underlying lock. It goes through `Key`'s constructor,
        which throws for a zero lock expiration. */
    function GetLockKey(): (r: Result<Key>)
      ensures r.Ok? <==> lockExpiration != 0
      ensures r.Ok? ==> r.value == Key(root, lockName, lockExpiration)
    {
      NewKey(root, lockName, lockExpiration)
    }

    /** Where the generated value is cached. */
    function ValueKey(): string { root + "/" + lockName }

    /** Where the message of a failed generation is cached. */
    function ErrorKey(): string { root + "/error:" + lockName }

    function ErrorChannel(): Channel { Channel(root + "/memoerrornotif:" + lockName, Literal) }
    function ValueChannel(): Channel { Channel(root + "/memovaluenotif:" + lockName, Literal) }

    /** One pattern subscription for both notification channels. */
    function SubscriptionChannel(): Channel { Channel(root + "/memo*notif:" + lockName, Pattern) }
  }

  const MemoExpirationMessage: string := "LockExpiration must be a positive duration."

  /** The constructor: each guard rejects exactly a zero duration (both report
      the lock-expiration message, the value guard included). */
  function NewMemoKey(root: string, lockName: string, valueExpiration: Duration, lockExpiration: Duration): (r: Result<MemoKey>)
    ensures r.Err? <==> valueExpiration == 0 || lockExpiration == 0
    ensures r.Err? ==> r.error == Throw(Argument, MemoExpirationMessage)
    ensures r.Ok? ==> r.value == MemoKey(root, lockName, valueExpiration, lockExpiration)
  {
    if valueExpiration == 0 then Err(Throw(Argument, MemoExpirationMessage))
    else if lockExpiration == 0 then Err(Throw(Argument, MemoExpirationMessage))
    else Ok(MemoKey(root, lockName, valueExpiration, lockExpiration))
  }

  /** A key that passed the constructor always yields its lock key: the same
      root and name, guarded by the lock expiration. */
  lemma ConstructedMemoKeyHasLockKey(root: string, lockName: string, valueExpiration: Duration, lockExpiration: Duration)
    requires NewMemoKey(root, lockName, valueExpiration, lockExpiration).Ok?
    ensures var m := NewMemoKey(root, lockName, valueExpiration, lockExpiration).value;
            && m.GetLockKey() == Ok(Key(root, lockName, lockExpiration))
            && m.GetLockKey() == NewKey(root, lockName, lockExpiration)
  {
  }

  /** The cached value and the cached error never share a key. */
  lemma ValueAndErrorKeysDiffer(m: MemoKey)
    ensures m.ValueKey() != m.ErrorKey()
    ensures m.ValueChannel().name != m.ErrorChannel().name
  {
    assert |m.ErrorKey()| == |m.ValueKey()| + 6;
    InfixesKeepNamesApart(m.root, "/memovaluenotif:", "/memoerrornotif:", m.lockName, 5);
  }

  /** Redis glob matching for patterns built from `*` (any run of characters),
      `?` (any one character) and literal characters. */
  predicate GlobMatch(p: string, s: string)
    decreases |p| + |s|
  {
    if p == [] then s == []
    else if p[0] == '*' then GlobMatch(p[1..], s) || (s != [] && GlobMatch(p, s[1..]))
    else s != [] && (p[0] == '?' || p[0] == s[0]) && GlobMatch(p[1..], s[1..])
  }

  /** No character class and no escape: the glob above is then Redis's. */
  predicate GlobPlain(s: string) {
    forall i :: 0 <= i < |s| ==> s[i] != '[' && s[i] != '\\'
  }

  /** A common prefix matches itself, whatever it contains. */
  lemma {:induction false} GlobCommonPrefix(a: string, p: string, s: string)
    requires GlobMatch(p, s)
    ensures GlobMatch(a + p, a + s)
    decreases |a|
  {
    if a != [] {
      GlobCommonPrefix(a[1..], p, s);
      assert (a + p)[1..] == a[1..] + p;
      assert (a + s)[1..] == a[1..] + s;
      if a[0] == '*' {
        // the star consumes the text's own '*' and nothing else
        assert GlobMatch((a + p)[1..], (a + s)[1..]);
        assert GlobMatch(a + p, (a + s)[1..]);
      }
    } else {
      assert a + p == p && a + s == s;
    }
  }

  /** A star absorbs any run of characters. */
  lemma {:induction false} GlobStarAbsorbs(x: string, p: string, s: string)
    requires GlobMatch(p, s)
    ensures GlobMatch("*" + p, x + s)
    decreases |x|
  {
    if x != [] {
      GlobStarAbsorbs(x[1..], p, s);
      assert (x + s)[1..] == x[1..] + s;
    } else {
      assert ("*" + p)[1..] == p;
      assert x + s == s;
    }
  }

  lemma {:induction false} GlobMatchesItself(s: string)
    ensures GlobMatch(s, s)
  {
    GlobCommonPrefix(s, [], []);
    assert s + [] == s;
  }

  /** The pattern subscription receives both the value and the error
      notifications of its key. */
  lemma SubscriptionMatchesBothChannels(m: MemoKey)
    requires GlobPlain(m.root) && GlobPlain(m.lockName)
    ensures m.SubscriptionChannel().mode == Pattern
    ensures GlobMatch(m.SubscriptionChannel().name, m.ValueChannel().name)
    ensures GlobMatch(m.SubscriptionChannel().name, m.ErrorChannel().name)
  {
    var head := m.root + "/memo";
    var tail := "notif:" + m.lockName;
    StarMatchesWord(head, "value", tail);
    StarMatchesWord(head, "error", tail);
    assert m.SubscriptionChannel().name == head + ("*" + tail);
    assert m.ValueChannel().name == head + ("value" + tail);
    assert m.ErrorChannel().name == head + ("error" + tail);
  }

  /** A star between a prefix and a suffix stands for any word there. */
  lemma StarMatchesWord(head: string, word: string, tail: string)
    ensures GlobMatch(head + ("*" + tail), head + (word + tail))
  {
    GlobMatchesItself(tail);
    GlobStarAbsorbs(word, tail, tail);
    GlobCommonPrefix(head, "*" + tail, word + tail);
  }

  /** The substring by which a notification is recognised as an error. */
  const ErrorMarker: string := "/memoerrornotif:"

  /** How a received notification is classified: by an ordinal substring test
      on the channel it arrived on. */
  predicate IsErrorNotification(channel: string) {
    Contains(channel, ErrorMarker)
  }

  /** Every error notification is recognised as one. */
  lemma ErrorChannelIsRecognised(m: MemoKey)
    ensures IsErrorNotification(m.ErrorChannel().name)
  {
    var e := m.ErrorChannel().name;
    assert e[|m.root|..|m.root| + |ErrorMarker|] == ErrorMarker;
    ContainsAt(e, ErrorMarker, |m.root|);
  }

  /** A value notification is recognised as a value, provided neither the root
      nor the lock name contains the marker themselves. */
  lemma ValueChannelIsRecognised(m: MemoKey)
    requires !Contains(m.root, ErrorMarker) && !Contains(m.lockName, ErrorMarker)
    ensures !IsErrorNotification(m.ValueChannel().name)
  {
    var infix := "/memovaluenotif:";
    var v := m.ValueChannel().name;
    var r := |m.root|;
    assert v == m.root + infix + m.lockName;
    forall i: nat | i <= |v|
      ensures !OccursAt(v, ErrorMarker, i)
    {
      if i + 16 <= |v| {
        if i + 16 <= r {
          assert v[i..i + 16] == m.root[i..i + 16];
          assert !OccursAt(m.root, ErrorMarker, i);
        } else if i >= r + 16 {
          var j := i - r - 16;
          assert v[i..i + 16] == m.lockName[j..j + 16];
          assert !OccursAt(m.lockName, ErrorMarker, j);
        } else if i == r {
          // the two infixes part at their sixth character
          assert v[i + 5] == infix[5] != ErrorMarker[5];
        } else if i > r {
          // the marker starts with '/', which the infix holds only in front
          assert v[i] == infix[i - r] != ErrorMarker[0];
        } else {
          // straddling the end of the root, the marker would meet the infix's
          // leading '/' at a position other than its first
          assert v[r] == infix[0] != ErrorMarker[r - i];
        }
      }
    }
  }

  /** The marker inside a lock name makes the value notification of that key
      read as an error notification. */
  lemma MarkerInNameMisclassifiesValues(m: MemoKey)
    requires Contains(m.lockName, ErrorMarker)
    ensures IsErrorNotification(m.ValueChannel().name)
  {
    var j: nat :| j <= |m.lockName| && OccursAt(m.lockName, ErrorMarker, j);
    var v := m.ValueChannel().name;
    var i := |m.root| + 16 + j;
    assert v == m.root + "/memovaluenotif:" + m.lockName;
    assert v[i..i + 16] == m.lockName[j..j + 16];
    ContainsAt(v, ErrorMarker, i);
  }
}
