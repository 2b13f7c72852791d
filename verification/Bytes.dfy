/** Byte strings and the little-endian fields laid out in them. */
module Bytes {
  type Byte = x: int | 0 <= x < 256
  type U16 = x: int | 0 <= x < 0x1_0000
  type U32 = x: int | 0 <= x < 0x1_0000_0000
  type U64 = x: int | 0 <= x < 0x1_0000_0000_0000_0000

  /** Any 32-bit checksum of a byte string; the log and the image are verified for every choice of it. */
  type Checksum = seq<Byte> -> U32

  function Pow256(n: nat): (r: nat)
    ensures 0 < r
  {
    if n == 0 then 1 else 256 * Pow256(n - 1)
  }

  /** The `width` low-order bytes of `v`, least significant first. */
  function Le(width: nat, v: nat): (s: seq<Byte>)
    ensures |s| == width
  {
    if width == 0 then [] else [v % 256] + Le(width - 1, v / 256)
  }

  function FromLe(s: seq<Byte>): nat {
    if s == [] then 0 else s[0] + 256 * FromLe(s[1..])
  }

  lemma {:induction false} LeRoundTrip(width: nat, v: nat)
    requires v < Pow256(width)
    ensures FromLe(Le(width, v)) == v
  {
    if width > 0 {
      LeRoundTrip(width - 1, v / 256);
    }
  }

  lemma {:induction false} FromLeBound(s: seq<Byte>)
    ensures FromLe(s) < Pow256(|s|)
  {
    if s != [] {
      FromLeBound(s[1..]);
    }
  }

  lemma {:induction false} FromLeRoundTrip(s: seq<Byte>)
    ensures Le(|s|, FromLe(s)) == s
  {
    if s != [] {
      FromLeRoundTrip(s[1..]);
      assert FromLe(s) % 256 == s[0] && FromLe(s) / 256 == FromLe(s[1..]);
    }
  }

  lemma Widths()
    ensures Pow256(2) == 0x1_0000
    ensures Pow256(4) == 0x1_0000_0000
    ensures Pow256(8) == 0x1_0000_0000_0000_0000
  {
    assert Pow256(1) == 256;
    assert Pow256(3) == 0x100_0000;
    assert Pow256(5) == 0x100_0000_0000;
    assert Pow256(6) == 0x1_0000_0000_0000;
    assert Pow256(7) == 0x100_0000_0000_0000;
  }

  predicate AllZero(s: seq<Byte>) {
    forall i :: 0 <= i < |s| ==> s[i] == 0
  }

  function Zeros(n: nat): (s: seq<Byte>)
    ensures |s| == n && AllZero(s)
  {
    seq(n, _ => 0)
  }

  lemma {:induction false} FromLeZero(s: seq<Byte>)
    ensures FromLe(s) == 0 <==> AllZero(s)
  {
    if s != [] {
      FromLeZero(s[1..]);
      assert s == [s[0]] + s[1..];
    }
  }

  /** The byte string `m` holds `b` at offset `off`. */
  ghost predicate Holds(m: seq<Byte>, off: nat, b: seq<Byte>) {
    off + |b| <= |m| && m[off..off + |b|] == b
  }

  lemma SliceSlice(m: seq<Byte>, a: nat, b: nat, i: nat, j: nat)
    requires a <= b <= |m| && i <= j <= b - a
    ensures m[a..b][i..j] == m[a + i..a + j]
  {
    var w := m[a..b];
    assert forall k :: 0 <= k < j - i ==> w[i..j][k] == w[i + k] == m[a + i..a + j][k];
    assert w[i..j] == m[a + i..a + j];
  }

  lemma SliceJoin(m: seq<Byte>, a: nat, b: nat, c: nat)
    requires a <= b <= c <= |m|
    ensures m[a..b] + m[b..c] == m[a..c]
  {
  }

  lemma HoldsSlice(m: seq<Byte>, off: nat, b: seq<Byte>, i: nat, j: nat)
    requires Holds(m, off, b) && i <= j <= |b|
    ensures m[off + i..off + j] == b[i..j]
    ensures Holds(m, off + i, b[i..j])
  {
    SliceSlice(m, off, off + |b|, i, j);
  }

  lemma HoldsSplit(m: seq<Byte>, off: nat, a: seq<Byte>, b: seq<Byte>)
    requires Holds(m, off, a + b)
    ensures Holds(m, off, a) && Holds(m, off + |a|, b)
  {
    HoldsSlice(m, off, a + b, 0, |a|);
    HoldsSlice(m, off, a + b, |a|, |a + b|);
    assert (a + b)[..|a|] == a && (a + b)[|a|..] == b;
  }

  /** `src` copied over `dst` from `at` on. */
  function Splice(dst: seq<Byte>, at: nat, src: seq<Byte>): (r: seq<Byte>)
    requires at + |src| <= |dst|
    ensures |r| == |dst|
    ensures forall i :: 0 <= i < |dst| ==> r[i] == if at <= i < at + |src| then src[i - at] else dst[i]
  {
    dst[..at] + src + dst[at + |src|..]
  }

  lemma SpliceKeeps(dst: seq<Byte>, at: nat, src: seq<Byte>, a: nat, b: nat)
    requires at + |src| <= |dst| && a <= b <= |dst| && (b <= at || at + |src| <= a)
    ensures Splice(dst, at, src)[a..b] == dst[a..b]
  {
    var r := Splice(dst, at, src);
    assert forall i :: a <= i < b ==> r[i] == dst[i];
  }

  lemma SplicePlaces(dst: seq<Byte>, at: nat, src: seq<Byte>)
    requires at + |src| <= |dst|
    ensures Holds(Splice(dst, at, src), at, src)
  {
  }

  lemma SpliceAfter(row: seq<Byte>, at: nat, a: seq<Byte>, b: seq<Byte>)
    requires at + |a| + |b| <= |row|
    ensures Splice(Splice(row, at, a), at + |a|, b) == Splice(row, at, a + b)
  {
    var x, y := Splice(Splice(row, at, a), at + |a|, b), Splice(row, at, a + b);
    assert forall i :: 0 <= i < |row| ==> x[i] == y[i];
  }

  lemma SpliceInside(row: seq<Byte>, at: nat, a: seq<Byte>, k: nat, b: seq<Byte>)
    requires at + |a| <= |row| && k + |b| <= |a|
    ensures Splice(Splice(row, at, a), at + k, b) == Splice(row, at, a[..k] + b + a[k + |b|..])
  {
    var x, y := Splice(Splice(row, at, a), at + k, b), Splice(row, at, a[..k] + b + a[k + |b|..]);
    assert forall i :: 0 <= i < |row| ==> x[i] == y[i];
  }
}
