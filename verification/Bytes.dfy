/**
 Raw memory of the library: bytes, little-endian integers and 4-byte alignment.
 The library moves integers by copying their memory, and both ends of a channel
 run on one host, so a single byte order serves both.
 */
module Bytes {
  type byte = b: int | 0 <= b < 256

  const TWO_TO_31: int := 0x8000_0000
  const TWO_TO_32: int := 0x1_0000_0000

  function Pow256(width: nat): (p: nat)
    ensures p >= 1
  {
    if width == 0 then 1 else 256 * Pow256(width - 1)
  }

  /** The low `width` bytes of `n` in two's complement, least significant first. */
  function Le(n: int, width: nat): (s: seq<byte>)
    ensures |s| == width
    decreases width
  {
    if width == 0 then [] else [n % 256] + Le(n / 256, width - 1)
  }

  /** The memory `s` read as an unsigned integer. */
  function Unsigned(s: seq<byte>): (n: nat)
    ensures n < Pow256(|s|)
  {
    if s == [] then 0 else s[0] + 256 * Unsigned(s[1..])
  }

  /** The memory `s` read as a two's complement integer. */
  function Signed(s: seq<byte>): int {
    var n := Unsigned(s);
    if 2 * n < Pow256(|s|) then n else n - Pow256(|s|)
  }

  lemma {:induction false} LeUnsigned(n: int, width: nat)
    requires n + Pow256(width) >= 0 && n < Pow256(width)
    ensures Unsigned(Le(n, width)) == if n >= 0 then n else n + Pow256(width)
    decreases width
  {
    if width > 0 {
      LeUnsigned(n / 256, width - 1);
      assert Le(n, width)[1..] == Le(n / 256, width - 1);
    }
  }

  lemma LeSigned(n: int, width: nat)
    requires 2 * n + Pow256(width) >= 0 && 2 * n < Pow256(width)
    ensures Signed(Le(n, width)) == n
  {
    LeUnsigned(n, width);
  }

  lemma {:induction false} UnsignedLe(s: seq<byte>)
    ensures Le(Unsigned(s), |s|) == s
  {
    if s != [] {
      UnsignedLe(s[1..]);
      var n := Unsigned(s[1..]);
      assert Unsigned(s) == s[0] + 256 * n;
      assert (s[0] + 256 * n) % 256 == s[0] && (s[0] + 256 * n) / 256 == n;
      assert s == [s[0]] + s[1..];
    }
  }

  lemma Pow256Values()
    ensures Pow256(1) == 0x100
    ensures Pow256(2) == 0x1_0000
    ensures Pow256(4) == TWO_TO_32
    ensures Pow256(8) == TWO_TO_32 * TWO_TO_32
  {
    assert Pow256(2) == 256 * Pow256(1);
    assert Pow256(3) == 256 * Pow256(2);
    assert Pow256(4) == 256 * Pow256(3);
    assert Pow256(5) == 256 * Pow256(4);
    assert Pow256(6) == 256 * Pow256(5);
    assert Pow256(7) == 256 * Pow256(6);
  }

  function Zeros(n: nat): (s: seq<byte>)
    ensures |s| == n
    ensures forall i :: 0 <= i < n ==> s[i] == 0
  {
    seq(n, _ => 0)
  }

  /** `i` rounded up to a multiple of `alignment`, as alignInt computes it. */
  function Align(i: nat, alignment: nat): nat
    requires alignment > 0
  {
    i + (alignment - i % alignment) % alignment
  }

  /** Alignment to the word size used throughout the pickle. */
  function Align4(i: nat): (r: nat)
    ensures i <= r < i + 4 && r % 4 == 0
  {
    Align(i, 4)
  }

  /** Bit `i` of `n`. */
  predicate Bit(n: nat, i: nat)
    decreases i
  {
    if i == 0 then n % 2 == 1 else Bit(n / 2, i - 1)
  }

  /** `n` with bit `i` set. */
  function SetBit(n: nat, i: nat): nat
    decreases i
  {
    if i == 0 then n - n % 2 + 1 else 2 * SetBit(n / 2, i - 1) + n % 2
  }

  lemma {:induction false} SetBitBits(n: nat, i: nat, j: nat)
    ensures Bit(SetBit(n, i), j) == (i == j || Bit(n, j))
    decreases i
  {
    if i > 0 && j > 0 {
      SetBitBits(n / 2, i - 1, j - 1);
    }
  }

  /** `n` with bit `i` cleared. */
  function ClearBit(n: nat, i: nat): (r: nat)
    ensures r <= n
    decreases i
  {
    if i == 0 then n - n % 2 else 2 * ClearBit(n / 2, i - 1) + n % 2
  }

  lemma {:induction false} ClearBitBits(n: nat, i: nat, j: nat)
    ensures Bit(ClearBit(n, i), j) == (i != j && Bit(n, j))
    decreases i
  {
    if i > 0 && j > 0 {
      ClearBitBits(n / 2, i - 1, j - 1);
    }
  }

  function Pow2(w: nat): (p: nat)
    ensures p >= 1
  {
    if w == 0 then 1 else 2 * Pow2(w - 1)
  }

  lemma {:induction false} SetBitFits(n: nat, i: nat, w: nat)
    requires i < w && n < Pow2(w)
    ensures SetBit(n, i) < Pow2(w)
    decreases i
  {
    var half, p := n / 2, Pow2(w - 1);
    assert n == 2 * half + n % 2 && half < p;
    if i > 0 {
      SetBitFits(half, i - 1, w - 1);
    }
  }
}
