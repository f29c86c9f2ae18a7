/** The memo side of the store (KeySmith/Internals/Scripts/MemoScriptLibrary.cs):
    string keys with their remaining TTL, the publish log, and the two-line
    script that caches the outcome of a generation and announces it.

    `MemoSlice` is that part of the store as a value and `SetAndPublish` what
    the script does to it; `MemoStore` is the client's view, which logs every
    call it sends. */
module MemoStores {
  import opened Common
  import opened Parameters

  /** String keys, their TTL in milliseconds (keys set without expiry have
      none) and every message published. */
  datatype MemoSlice = MemoSlice(strings: map<string, string>, ttls: map<string, int>, published: seq<Message>)

  /** `GET k`: an absent key reads as null. */
  function Read(s: MemoSlice, k: string): RedisValue {
    if k in s.strings then Value(s.strings[k]) else Null
  }

  /** `SET key value PX expiration` then `PUBLISH channel value` (lines
      11-14). Redis refuses a non-positive expiration; the error aborts the
      script before anything is written or published. */
  function SetAndPublish(s: MemoSlice, p: MemoSetValueParameters): MemoSlice {
    if p.memoKeyExpiration <= 0 then s
    else MemoSlice(s.strings[p.memoKey := p.value], s.ttls[p.memoKey := p.memoKeyExpiration],
                   s.published + [Message(p.memoChannelKey, p.value)])
  }

  /** The script run once per parameter record, in order. */
  function PublishAll(s: MemoSlice, ps: seq<MemoSetValueParameters>): MemoSlice
    decreases |ps|
  {
    if ps == [] then s else SetAndPublish(PublishAll(s, ps[..|ps| - 1]), ps[|ps| - 1])
  }

  /** What the client sends to the store. */
  datatype MemoCall =
    | GetValuesCall(valueKey: string, errorKey: string)
    | GetValueCall(key: string)
    | PublishCall(parameters: MemoSetValueParameters)

  class MemoStore {
    var strings: map<string, string>
    var ttls: map<string, int>
    var published: seq<Message>
    /** Whether the client can reach the store; if not, every read throws. */
    var reachable: bool
    /** Every call this client sent, in order. */
    var calls: seq<MemoCall>

    function Slice(): MemoSlice
      reads this
    {
      MemoSlice(strings, ttls, published)
    }

    constructor (s: MemoSlice, reachable: bool)
      ensures Slice() == s && this.reachable == reachable && calls == []
    {
      strings, ttls, published := s.strings, s.ttls, s.published;
      this.reachable := reachable;
      calls := [];
    }

    /** `StringGetAsync(new[] { valueKey, errorKey })` (lines 33-34). */
    method GetValues(valueKey: string, errorKey: string) returns (r: Result<(RedisValue, RedisValue)>)
      modifies this
      ensures Slice() == old(Slice()) && reachable == old(reachable)
      ensures calls == old(calls) + [GetValuesCall(valueKey, errorKey)]
      ensures r == if reachable then Ok((Read(Slice(), valueKey), Read(Slice(), errorKey))) else Err(Unreachable)
    {
      calls := calls + [GetValuesCall(valueKey, errorKey)];
      if !reachable {
        return Err(Unreachable);
      }
      var value := if valueKey in strings then Value(strings[valueKey]) else Null;
      var error := if errorKey in strings then Value(strings[errorKey]) else Null;
      return Ok((value, error));
    }

    /** `StringGetAsync(key)`, the single read of the older library
        (KeySmith/KeySmith/Internals/Scripts/MemoScriptLibrary.cs:48-49). */
    method GetValue(key: string) returns (r: Result<RedisValue>)
      modifies this
      ensures Slice() == old(Slice()) && reachable == old(reachable)
      ensures calls == old(calls) + [GetValueCall(key)]
      ensures r == if reachable then Ok(Read(Slice(), key)) else Err(Unreachable)
    {
      calls := calls + [GetValueCall(key)];
      if !reachable {
        return Err(Unreachable);
      }
      return Ok(if key in strings then Value(strings[key]) else Null);
    }

    /** `PublishAsync` (lines 29-31): the script is sent fire-and-forget, so
        once it is loaded neither a connection error nor a script error
        reaches the caller (a failed load is not modelled). */
    method Publish(p: MemoSetValueParameters)
      modifies this
      ensures reachable == old(reachable) && calls == old(calls) + [PublishCall(p)]
      ensures Slice() == if reachable then SetAndPublish(old(Slice()), p) else old(Slice())
    {
      calls := calls + [PublishCall(p)];
      if reachable {
        Run(p);
      }
    }

    /** The script itself, as the store runs it for any client. */
    method Run(p: MemoSetValueParameters)
      modifies this
      ensures Slice() == SetAndPublish(old(Slice()), p)
      ensures reachable == old(reachable) && calls == old(calls)
    {
      if p.memoKeyExpiration <= 0 {
        return;
      }
      strings := strings[p.memoKey := p.value];
      ttls := ttls[p.memoKey := p.memoKeyExpiration];
      published := published + [Message(p.memoChannelKey, p.value)];
    }

    /** Other clients running the script, one after the other. */
    method RunAll(ps: seq<MemoSetValueParameters>)
      modifies this
      ensures Slice() == PublishAll(old(Slice()), ps)
      ensures reachable == old(reachable) && calls == old(calls)
    {
      var i := 0;
      while i < |ps|
        invariant 0 <= i <= |ps|
        invariant Slice() == PublishAll(old(Slice()), ps[..i])
        invariant reachable == old(reachable) && calls == old(calls)
      {
        assert ps[..i + 1][..i] == ps[..i];
        Run(ps[i]);
        i := i + 1;
      }
      assert ps[..i] == ps;
    }
  }

  /** A successful script leaves the value under its key with the record's
      TTL, announces the same value on the record's channel, and leaves
      every other key as it was. */
  lemma SetAndPublishStores(s: MemoSlice, p: MemoSetValueParameters)
    requires p.memoKeyExpiration > 0
    ensures var t := SetAndPublish(s, p);
            && Read(t, p.memoKey) == Value(p.value)
            && t.ttls[p.memoKey] == p.memoKeyExpiration
            && t.published == s.published + [Message(p.memoChannelKey, p.value)]
            && (forall k :: k != p.memoKey ==> Read(t, k) == Read(s, k))
  {
  }

  /** Script runs touching other keys do not change what a key reads. */
  lemma {:induction false} PublishAllKeepsOtherKeys(s: MemoSlice, ps: seq<MemoSetValueParameters>, k: string)
    requires forall i :: 0 <= i < |ps| ==> ps[i].memoKey != k
    ensures Read(PublishAll(s, ps), k) == Read(s, k)
    decreases |ps|
  {
    if ps != [] {
      PublishAllKeepsOtherKeys(s, ps[..|ps| - 1], k);
    }
  }
}
