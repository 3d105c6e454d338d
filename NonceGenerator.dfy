/**
  `randomNonceString`: draw `length` secure random bytes and map each one to
  a character of a fixed 64-character set by `byte % 64`.
  The secure random source (`SecRandomCopyBytes`) is an input.
 */
module NonceGenerator {
  import opened SignInTypes

  /** The default `length` argument. */
  const DefaultNonceLength: int := 32

  /** `errSecSuccess`. */
  const ErrSecSuccess: int := 0

  /**
    Character `i` of the character set: the digits, the upper-case letters
    A to V and X to Z ('W' is missing in the source), the lower-case letters,
    then '-', '.', '_'.
   */
  function CharAt(i: int): (c: char)
    requires 0 <= i < 64
  {
    if i < 10 then ('0' as int + i) as char
    else if i < 32 then ('A' as int + i - 10) as char
    else if i < 35 then ('X' as int + i - 32) as char
    else if i < 61 then ('a' as int + i - 35) as char
    else if i == 61 then '-'
    else if i == 62 then '.'
    else '_'
  }

  /** The first `n` characters of the set. */
  function Chars(n: int): (s: seq<char>)
    requires 0 <= n <= 64
    ensures |s| == n
  {
    if n == 0 then [] else Chars(n - 1) + [CharAt(n - 1)]
  }

  lemma {:induction false} CharsAt(n: int)
    requires 0 <= n <= 64
    ensures forall i :: 0 <= i < n ==> Chars(n)[i] == CharAt(i)
  {
    if n > 0 {
      CharsAt(n - 1);
    }
  }

  /** The 64-character set of `randomNonceString`. */
  const Charset: seq<char> := Chars(64)

  lemma DigitsRun() ensures Charset[0..10] == "0123456789" { CharsAt(64); }
  lemma UpperRunToV() ensures Charset[10..32] == "ABCDEFGHIJKLMNOPQRSTUV" { CharsAt(64); }
  lemma UpperRunFromX() ensures Charset[32..35] == "XYZ" { CharsAt(64); }
  lemma LowerRunToM() ensures Charset[35..48] == "abcdefghijklm" { CharsAt(64); }
  lemma LowerRunFromN() ensures Charset[48..61] == "nopqrstuvwxyz" { CharsAt(64); }
  lemma MarksRun() ensures Charset[61..64] == "-._" { CharsAt(64); }

  /** `Charset` is the source's literal, character for character ('W' is not there). */
  lemma CharsetSpelledOut()
    ensures Charset == "0123456789" + "ABCDEFGHIJKLMNOPQRSTUV" + "XYZ" + "abcdefghijklm" + "nopqrstuvwxyz" + "-._"
  {
    DigitsRun();
    UpperRunToV();
    UpperRunFromX();
    LowerRunToM();
    LowerRunFromN();
    MarksRun();
    SliceSplit(Charset, 0, 10, 32);
    SliceSplit(Charset, 0, 32, 35);
    SliceSplit(Charset, 0, 35, 48);
    SliceSplit(Charset, 0, 48, 61);
    SliceSplit(Charset, 0, 61, 64);
    assert Charset == Charset[0..64];
  }

  lemma SliceSplit(s: seq<char>, i: int, j: int, k: int)
    requires 0 <= i <= j <= k <= |s|
    ensures s[i..k] == s[i..j] + s[j..k]
  {
  }

  /** Where `c` stands in `Charset`, or -1 when it is not there. */
  function Position(c: char): int
  {
    if '0' <= c <= '9' then c as int - '0' as int
    else if 'A' <= c <= 'V' then c as int - 'A' as int + 10
    else if 'X' <= c <= 'Z' then c as int - 'X' as int + 32
    else if 'a' <= c <= 'z' then c as int - 'a' as int + 35
    else if c == '-' then 61
    else if c == '.' then 62
    else if c == '_' then 63
    else -1
  }

  /** `Position` inverts indexing into `Charset`: the set has 64 characters. */
  lemma CharsetIndexed()
    ensures |Charset| == 64
    ensures forall i :: 0 <= i < |Charset| ==> Position(Charset[i]) == i
  {
    CharsAt(64);
  }

  /** The 64 characters are pairwise distinct. */
  lemma CharsetDistinct()
    ensures forall i, j :: 0 <= i < j < |Charset| ==> Charset[i] != Charset[j]
  {
    CharsetIndexed();
  }

  /** A character is in the set exactly when `Position` finds it, and then it is found at that index. */
  lemma PositionFinds(c: char)
    ensures c in Charset <==> 0 <= Position(c) < 64
    ensures 0 <= Position(c) < 64 ==> Charset[Position(c)] == c
  {
    CharsetIndexed();
    if c in Charset {
      var i :| 0 <= i < |Charset| && Charset[i] == c;
    }
    if 0 <= Position(c) < 64 {
      CharsAt(64);
      assert Charset[Position(c)] == CharAt(Position(c)) == c;
    }
  }

  /** The characters are ASCII: each is encoded by UTF-8 as the single byte `c as int`. */
  lemma CharsetAscii()
    ensures forall i :: 0 <= i < |Charset| ==> Charset[i] as int < 0x80
  {
    CharsetIndexed();
  }

  /**
    The `map` at the heart of `randomNonceString`: byte i picks `Charset[bytes[i] % 64]`,
    so the nonce is drawn from the set and determines every byte modulo 64.
   */
  function NonceOf(bytes: seq<uint8>): (r: string)
    ensures |r| == |bytes|
    ensures forall i :: 0 <= i < |r| ==> r[i] in Charset && Position(r[i]) == bytes[i] % 64
  {
    CharsetIndexed();
    seq(|bytes|, i requires 0 <= i < |bytes| => Charset[bytes[i] % |Charset|])
  }

  /** The byte values that the `map` sends to character `c`. */
  function PreImage(c: char): set<int>
  {
    set b | 0 <= b < 0x100 && Charset[b % 64] == c
  }

  /**
    256 is a multiple of 64 and the set has no repeats, so every character of
    the set is produced by exactly the four bytes k, k+64, k+128, k+192:
    the wrap-around mapping is onto and unbiased.
   */
  lemma Unbiased(k: int)
    requires 0 <= k < 64
    ensures PreImage(Charset[k]) == {k, k + 64, k + 128, k + 192}
    ensures |PreImage(Charset[k])| == 4
  {
    CharsetIndexed();
    var p := PreImage(Charset[k]);
    forall b | 0 <= b < 0x100 ensures b in p <==> b % 64 == k {
      assert Position(Charset[b % 64]) == b % 64;
    }
    forall b | 0 <= b < 0x100 ensures b % 64 == k <==> b == k || b == k + 64 || b == k + 128 || b == k + 192 {
      ResidueClass(b, k);
    }
    assert p == {k, k + 64, k + 128, k + 192};
    assert |{k, k + 64}| == 2;
    assert |{k, k + 64} + {k + 128}| == 3;
    assert {k, k + 64, k + 128, k + 192} == {k, k + 64} + {k + 128} + {k + 192};
  }

  /** Below 256, the bytes congruent to k modulo 64 are k, k+64, k+128 and k+192. */
  lemma ResidueClass(b: int, k: int)
    requires 0 <= b < 0x100 && 0 <= k < 64
    ensures b % 64 == k <==> b == k || b == k + 64 || b == k + 128 || b == k + 192
  {
    var q := b / 64;
    assert b == 64 * q + b % 64;
    assert 0 <= q < 4;
  }

  /** What `SecRandomCopyBytes` reports: its `OSStatus`, and the bytes it writes into the buffer. */
  datatype SecRandomCopy = SecRandomCopy(status: int, bytes: seq<uint8>)

  /** A nonce, or the `fatalError` that ends the process when the random source fails. */
  datatype NonceOutcome = Generated(nonce: string) | FatalError(status: int)

  /**
    `randomNonceString(length:)`: fill a zeroed buffer of `length` bytes from the
    random source, abort on a failure status, otherwise map the buffer to characters.
   */
  method RandomNonceString(length: int, rng: SecRandomCopy) returns (r: NonceOutcome)
    requires length > 0
    requires |rng.bytes| >= length
    ensures r.FatalError? <==> rng.status != ErrSecSuccess
    ensures r.FatalError? ==> r.status == rng.status
    ensures r.Generated? ==> r.nonce == NonceOf(rng.bytes[..length])
    ensures r.Generated? ==> |r.nonce| == length && forall i :: 0 <= i < length ==> r.nonce[i] in Charset
  {
    var randomBytes := new uint8[length](_ => 0);
    var i := 0;
    while i < length
      invariant 0 <= i <= length
      invariant randomBytes[..i] == rng.bytes[..i]
    {
      randomBytes[i] := rng.bytes[i];
      i := i + 1;
    }
    if rng.status != ErrSecSuccess {
      return FatalError(rng.status);
    }
    assert randomBytes[..] == rng.bytes[..length];
    r := Generated(NonceOf(randomBytes[..]));
  }
}
