/** Bytes, machine words and the big-endian fields of the wire format. */
module Bytes {
  type byte = x: int | 0 <= x < 0x100
  type u16 = x: int | 0 <= x < 0x1_0000
  type u32 = x: int | 0 <= x < 0x1_0000_0000
  type u64 = x: int | 0 <= x < 0x1_0000_0000_0000_0000

  const MAX_U32: u32 := 0xFFFF_FFFF
  const MAX_U64: u64 := 0xFFFF_FFFF_FFFF_FFFF

  datatype Option<+T> = None | Some(value: T)

  /** Go's conversion to uint32: reduction modulo 2^32. */
  function Wrap32(x: int): u32 {
    x % 0x1_0000_0000
  }

  lemma WrapAdd(x: int, y: int)
    ensures Wrap32(Wrap32(x) + y) == Wrap32(x + y)
  {
  }

  function Min(a: int, b: int): int {
    if a <= b then a else b
  }

  function BE32(x: u32): (b: seq<byte>)
    ensures |b| == 4
  {
    [x / 0x100_0000, x / 0x1_0000 % 0x100, x / 0x100 % 0x100, x % 0x100]
  }

  function FromBE32(b: seq<byte>): u32
    requires |b| == 4
  {
    var b0: int, b1: int, b2: int, b3: int := b[0], b[1], b[2], b[3];
    b0 * 0x100_0000 + b1 * 0x1_0000 + b2 * 0x100 + b3
  }

  function BE16(x: u16): (b: seq<byte>)
    ensures |b| == 2
  {
    [x / 0x100, x % 0x100]
  }

  function FromBE16(b: seq<byte>): u16
    requires |b| == 2
  {
    var b0: int, b1: int := b[0], b[1];
    b0 * 0x100 + b1
  }

  lemma BE32Inverse(x: u32)
    ensures FromBE32(BE32(x)) == x
  {
    var q := x / 0x100;
    var p := q / 0x100;
    assert x == q * 0x100 + x % 0x100;
    assert q == p * 0x100 + q % 0x100;
    assert x / 0x1_0000 == p;
    assert p == p / 0x100 * 0x100 + p % 0x100;
    assert x / 0x100_0000 == p / 0x100;
  }

  lemma FromBE32Inverse(b: seq<byte>)
    requires |b| == 4
    ensures BE32(FromBE32(b)) == b
  {
    var x: int := FromBE32(b);
    var b0: int, b1: int, b2: int := b[0], b[1], b[2];
    assert x / 0x100_0000 == b0;
    assert x / 0x1_0000 == b0 * 0x100 + b1;
    assert x / 0x100 == b0 * 0x1_0000 + b1 * 0x100 + b2;
  }

  lemma BE16Inverse(x: u16)
    ensures FromBE16(BE16(x)) == x
  {
  }

  lemma FromBE16Inverse(b: seq<byte>)
    requires |b| == 2
    ensures BE16(FromBE16(b)) == b
  {
  }

  /** Concatenation of a list of byte strings, the meaning of every queue of chunks or blocks. */
  function Concat(parts: seq<seq<byte>>): seq<byte> {
    if parts == [] then [] else parts[0] + Concat(parts[1..])
  }

  lemma {:induction false} ConcatAppend(a: seq<seq<byte>>, b: seq<seq<byte>>)
    ensures Concat(a + b) == Concat(a) + Concat(b)
  {
    if a == [] {
      assert a + b == b;
    } else {
      assert (a + b)[1..] == a[1..] + b;
      ConcatAppend(a[1..], b);
    }
  }

  lemma ConcatCons(first: seq<byte>, rest: seq<seq<byte>>)
    ensures Concat([first] + rest) == first + Concat(rest)
  {
    assert ([first] + rest)[1..] == rest;
  }

  lemma ConcatSnoc(a: seq<seq<byte>>, last: seq<byte>)
    ensures Concat(a + [last]) == Concat(a) + last
  {
    ConcatAppend(a, [last]);
    assert Concat([last]) == last;
  }

  lemma SplitSuffix<T>(b: seq<T>, i: nat, j: nat)
    requires i <= j <= |b|
    ensures b[i..] == b[i..j] + b[j..]
  {
  }

  lemma SliceAgree<T>(a: seq<T>, b: seq<T>, i: nat, j: nat)
    requires a <= b || b <= a
    requires i <= j <= |a| && j <= |b|
    ensures a[i..j] == b[i..j]
  {
  }

  lemma PrefixOfAgreeing<T>(h: seq<T>, a: seq<T>, b: seq<T>)
    requires h <= a && (a <= b || b <= a) && |h| <= |b|
    ensures h <= b
  {
  }

  lemma SplitSixteen<T>(b: seq<T>)
    requires |b| >= 16
    ensures b[..16] == b[..4] + b[4..8] + b[8..12] + b[12..14] + [b[14], b[15]]
  {
  }

  lemma SplitHead<T>(b: seq<T>, n: nat)
    requires 16 + n <= |b|
    ensures b[..16 + n] == [b[0], b[1], b[2], b[3]] + b[4..8] + b[8..12] + b[12..16] + b[16..16 + n]
  {
  }

  lemma SliceOfSuffix<T>(b: seq<T>, i: nat, n: nat)
    requires i + n <= |b|
    ensures b[i..i + n] == b[i..][..n]
    ensures b[i + n..] == b[i..][n..]
  {
  }

  lemma Glue<T>(b: seq<T>, i: nat, j: nat, k: nat)
    requires i <= j <= k <= |b|
    ensures b[i..k] == b[i..j] + b[j..k]
  {
  }

  lemma Assoc<T>(a: seq<T>, b: seq<T>, c: seq<T>)
    ensures (a + b) + c == a + (b + c)
  {
  }

  lemma Uncons<T>(b: seq<T>, n: nat)
    requires 0 < n <= |b|
    ensures b[..n] == [b[0]] + b[1..][..n - 1]
    ensures b[n..] == b[1..][n - 1..]
  {
  }

  lemma FiveParts<T>(m: seq<T>, a: seq<T>, b: seq<T>, c: seq<T>, z: seq<T>)
    requires |m| == 4 && |a| == 4 && |b| == 4 && |c| == 2 && |z| == 2
    ensures var h := m + a + b + c + z;
            h[..4] == m && h[4..8] == a && h[8..12] == b && h[12..14] == c && h[14] == z[0] && h[15] == z[1]
  {
  }

  /** Prefix lists concatenate to prefixes. */
  lemma ConcatPrefix(a: seq<seq<byte>>, b: seq<seq<byte>>)
    requires a <= b
    ensures Concat(a) <= Concat(b)
  {
    assert b == a + b[|a|..];
    ConcatAppend(a, b[|a|..]);
  }
}
