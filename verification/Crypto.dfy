/** SHA-256, title-casing and time rendering as unknown functions, and hex encoding. */
module Crypto {
  type Digest = d: seq<int> | |d| == 32 && forall i :: 0 <= i < |d| ==> 0 <= d[i] < 256
    witness seq(32, i => 0)

  /**
    The library functions the edge calls and this project leaves unknown: a theorem
    that takes a Primitives value holds for every choice of the three.
   */
  datatype Primitives = Primitives(
    sha256: string -> Digest,
    title: string -> string,
    timeString: int -> string)

  function HexDigit(n: int): char
    requires 0 <= n < 16
  {
    if n < 10 then ('0' as int + n) as char else ('a' as int + n - 10) as char
  }

  function Hex(bytes: seq<int>): (r: string)
    requires forall i :: 0 <= i < |bytes| ==> 0 <= bytes[i] < 256
    ensures |r| == 2 * |bytes|
  {
    if bytes == [] then ""
    else [HexDigit(bytes[0] / 16), HexDigit(bytes[0] % 16)] + Hex(bytes[1..])
  }

  /** Each byte is written as its two hexadecimal digits, the high one first, in lower case. */
  lemma {:induction false} HexMeaning(bytes: seq<int>, i: nat)
    requires forall k :: 0 <= k < |bytes| ==> 0 <= bytes[k] < 256
    requires i < |bytes|
    ensures Hex(bytes)[2 * i] == "0123456789abcdef"[bytes[i] / 16]
    ensures Hex(bytes)[2 * i + 1] == "0123456789abcdef"[bytes[i] % 16]
  {
    if i > 0 {
      HexMeaning(bytes[1..], i - 1);
      assert Hex(bytes)[2..] == Hex(bytes[1..]);
    }
  }

  /** The text is the given bytes in lower-case hexadecimal. */
  predicate Spells(text: string, bytes: seq<int>) {
    && |text| == 2 * |bytes|
    && forall i :: 0 <= i < |bytes| ==>
         && 0 <= bytes[i] < 256
         && text[2 * i] == "0123456789abcdef"[bytes[i] / 16] && text[2 * i + 1] == "0123456789abcdef"[bytes[i] % 16]
  }

  lemma HexSpells(bytes: seq<int>)
    requires forall k :: 0 <= k < |bytes| ==> 0 <= bytes[k] < 256
    ensures Spells(Hex(bytes), bytes)
  {
    forall i | 0 <= i < |bytes|
      ensures Hex(bytes)[2 * i] == "0123456789abcdef"[bytes[i] / 16]
      ensures Hex(bytes)[2 * i + 1] == "0123456789abcdef"[bytes[i] % 16]
    {
      HexMeaning(bytes, i);
    }
  }

  lemma HexPairInjective(x: int, y: int)
    requires 0 <= x < 256 && 0 <= y < 256
    requires HexDigit(x / 16) == HexDigit(y / 16) && HexDigit(x % 16) == HexDigit(y % 16)
    ensures x == y
  {
    assert x / 16 == y / 16 && x % 16 == y % 16;
  }

  lemma {:induction false} HexInjective(a: seq<int>, b: seq<int>)
    requires forall i :: 0 <= i < |a| ==> 0 <= a[i] < 256
    requires forall i :: 0 <= i < |b| ==> 0 <= b[i] < 256
    ensures Hex(a) == Hex(b) <==> a == b
  {
    if a != [] && b != [] {
      HexInjective(a[1..], b[1..]);
      if Hex(a) == Hex(b) {
        assert Hex(a)[2..] == Hex(a[1..]) && Hex(b)[2..] == Hex(b[1..]);
        assert Hex(a)[0] == Hex(b)[0] && Hex(a)[1] == Hex(b)[1];
        HexPairInjective(a[0], b[0]);
        assert a == [a[0]] + a[1..] && b == [b[0]] + b[1..];
      }
    }
  }

  lemma {:induction false} HexPrefix(bytes: seq<int>, n: nat)
    requires forall i :: 0 <= i < |bytes| ==> 0 <= bytes[i] < 256
    requires n <= |bytes|
    ensures Hex(bytes)[..2 * n] == Hex(bytes[..n])
  {
    if n > 0 {
      HexPrefix(bytes[1..], n - 1);
      assert bytes[..n][1..] == bytes[1..][..n - 1];
      assert Hex(bytes)[..2 * n] == Hex(bytes)[..2] + Hex(bytes[1..])[..2 * (n - 1)];
    }
  }
}
