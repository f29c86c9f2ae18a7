/** Lock-attempt identifiers (KeySmith/Internals/Locks/IdentifierGenerator.cs):
    each random byte picks one character of a 64-symbol alphabet. */
module Identifiers {
  import opened Common

  type byte = b: int | 0 <= b < 256

  /** The identifier alphabet, in the source's order (written in eighths):
      the lower-case letters, the upper-case letters, the digits 1 to 9 and 0,
      then '-' and '_'. */
  const Alphabet: string := "abcdefgh" + "ijklmnop" + "qrstuvwx" + "yzABCDEF"
                          + "GHIJKLMN" + "OPQRSTUV" + "WXYZ1234" + "567890-_"

  /** The message .NET gives the OverflowException of a negative array size. */
  const OverflowMessage: string := "Arithmetic operation resulted in an overflow."

  /** The identifier a sequence of random bytes stands for. */
  function Encode(data: seq<byte>): (s: string)
    ensures |s| == |data|
    ensures forall i :: 0 <= i < |data| ==> s[i] == Alphabet[data[i] % 64]
  {
    if data == [] then [] else Encode(data[..|data| - 1]) + [Alphabet[data[|data| - 1] % 64]]
  }

  /** `GetUniqueKey(size)`: the random source is the parameter `random`, of
      which the generator consumes the first `size` bytes. A negative size
      fails when the byte array is allocated. */
  method GetUniqueKey(size: int, random: seq<byte>) returns (r: Result<string>)
    requires size >= 0 ==> size <= |random|
    ensures size < 0 ==> r == Err(Throw(Overflow, OverflowMessage))
    ensures size >= 0 ==> r == Ok(Encode(random[..size]))
  {
    if size < 0 {
      return Err(Throw(Overflow, OverflowMessage));
    }
    var data := new byte[size];
    // the random number generator fills the array
    forall i | 0 <= i < size {
      data[i] := random[i];
    }
    var result := "";
    var n := 0;
    while n < data.Length
      invariant 0 <= n <= data.Length
      invariant result == Encode(data[..n])
    {
      assert data[..n + 1][..n] == data[..n];
      result := result + [Alphabet[data[n] % 64]];
      n := n + 1;
    }
    assert data[..n] == data[..] == random[..size];
    return Ok(result);
  }

  /** The symbol at position `k`, by character ranges. */
  function SymbolAt(k: int): char
    requires 0 <= k < 64
  {
    if k < 26 then ('a' as int + k) as char
    else if k < 52 then ('A' as int + (k - 26)) as char
    else if k < 61 then ('1' as int + (k - 52)) as char
    else if k == 61 then '0'
    else if k == 62 then '-'
    else '_'
  }

  /** The position of a character in the alphabet, or -1. */
  function SymbolIndex(c: char): int {
    if 'a' <= c <= 'z' then c as int - 'a' as int
    else if 'A' <= c <= 'Z' then 26 + (c as int - 'A' as int)
    else if '1' <= c <= '9' then 52 + (c as int - '1' as int)
    else if c == '0' then 61
    else if c == '-' then 62
    else if c == '_' then 63
    else -1
  }

  /** The alphabet follows the character ranges, eight symbols at a time. */
  lemma AlphabetByRanges()
    ensures |Alphabet| == 64
    ensures forall k :: 0 <= k < 64 ==> Alphabet[k] == SymbolAt(k)
  {
    var ranges := seq(64, k requires 0 <= k < 64 => SymbolAt(k));
    assert ranges[..8] == "abcdefgh";
    assert ranges[8..16] == "ijklmnop";
    assert ranges[16..24] == "qrstuvwx";
    assert ranges[24..32] == "yzABCDEF";
    assert ranges[32..40] == "GHIJKLMN";
    assert ranges[40..48] == "OPQRSTUV";
    assert ranges[48..56] == "WXYZ1234";
    assert ranges[56..64] == "567890-_";
    assert ranges == ranges[..8] + ranges[8..16] + ranges[16..24] + ranges[24..32]
                   + ranges[32..40] + ranges[40..48] + ranges[48..56] + ranges[56..64];
  }

  /** Reading a symbol back gives its position, so the 64 symbols are
      pairwise distinct. */
  lemma AlphabetIsInjective()
    ensures |Alphabet| == 64
    ensures forall k :: 0 <= k < 64 ==> SymbolIndex(Alphabet[k]) == k
    ensures forall j, k :: 0 <= j < k < 64 ==> Alphabet[j] != Alphabet[k]
  {
    AlphabetByRanges();
  }

  /** The residues modulo 64 of a byte sequence. */
  function Residues(data: seq<byte>): (r: seq<int>)
    ensures |r| == |data| && forall i :: 0 <= i < |data| ==> r[i] == data[i] % 64
  {
    seq(|data|, i requires 0 <= i < |data| => data[i] % 64)
  }

  /** Decoding an identifier character by character recovers each byte modulo
      64: an identifier determines, and is determined by, those residues. */
  lemma EncodeKeepsResidues(data: seq<byte>)
    ensures forall i :: 0 <= i < |data| ==> SymbolIndex(Encode(data)[i]) == Residues(data)[i]
    ensures forall i :: 0 <= i < |data| ==> Encode(data)[i] in Alphabet
  {
    AlphabetIsInjective();
    var s, r := Encode(data), Residues(data);
    forall i | 0 <= i < |data|
      ensures SymbolIndex(s[i]) == r[i] && s[i] in Alphabet
    {
      var k := data[i] % 64;
      assert s[i] == Alphabet[k];
    }
  }

  /** Two byte sequences give the same identifier exactly when they agree
      modulo 64 everywhere. */
  lemma SameIdentifierIffSameResidues(a: seq<byte>, b: seq<byte>)
    ensures Encode(a) == Encode(b) <==> Residues(a) == Residues(b)
  {
    AlphabetIsInjective();
    if Encode(a) == Encode(b) {
      assert forall i :: 0 <= i < |a| ==> SymbolIndex(Encode(a)[i]) == a[i] % 64;
      assert forall i :: 0 <= i < |b| ==> SymbolIndex(Encode(b)[i]) == b[i] % 64;
    }
  }

  /** The byte values that select symbol `k`. */
  function Preimage(k: int): set<byte> {
    set b: byte | b % 64 == k
  }

  /** Each of the 64 symbols is selected by exactly four byte values. */
  lemma FourBytesPerSymbol(k: int)
    requires 0 <= k < 64
    ensures Preimage(k) == {k, k + 64, k + 128, k + 192}
    ensures |Preimage(k)| == 4
  {
    forall b: byte | b % 64 == k
      ensures b in {k, k + 64, k + 128, k + 192}
    {
      assert b == k + 64 * (b / 64);
    }
    assert Preimage(k) == {k, k + 64, k + 128, k + 192};
  }
}
