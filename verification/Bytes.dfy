/** Bytes, little-endian integers, exclusive or, and positioned writes. */
module Bytes {

  type Byte = b: int | 0 <= b < 256

  function Pow256(k: nat): (p: nat)
    ensures p > 0
  {
    if k == 0 then 1 else 256 * Pow256(k - 1)
  }

  /** The k low bytes of n, least significant first. */
  function ToBytes(n: nat, k: nat): (bs: seq<Byte>)
    ensures |bs| == k
  {
    if k == 0 then [] else [n % 256] + ToBytes(n / 256, k - 1)
  }

  function FromBytes(bs: seq<Byte>): nat {
    if bs == [] then 0 else bs[0] + 256 * FromBytes(bs[1..])
  }

  /** An int in the file, least significant byte first. */
  lemma FourBytes(bs: seq<Byte>)
    requires |bs| == 4
    ensures var b: seq<int> := seq(4, i requires 0 <= i < 4 => bs[i]);
            FromBytes(bs) == b[0] + 0x100 * b[1] + 0x1_0000 * b[2] + 0x100_0000 * b[3]
  {
    var c := bs[1..];
    var d := c[1..];
    var e := d[1..];
    assert c[0] == bs[1] && d[0] == bs[2] && e[0] == bs[3] && e[1..] == [];
    assert FromBytes(e) == e[0] + 256 * FromBytes(e[1..]);
    assert FromBytes(d) == d[0] + 256 * FromBytes(e);
    assert FromBytes(c) == c[0] + 256 * FromBytes(d);
  }

  lemma {:induction false} FromBytesBound(bs: seq<Byte>)
    ensures FromBytes(bs) < Pow256(|bs|)
  {
    if bs != [] {
      FromBytesBound(bs[1..]);
    }
  }

  lemma {:induction false} FromToBytes(n: nat, k: nat)
    requires n < Pow256(k)
    ensures FromBytes(ToBytes(n, k)) == n
  {
    if k > 0 {
      FromToBytes(n / 256, k - 1);
      assert ToBytes(n, k)[1..] == ToBytes(n / 256, k - 1);
    }
  }

  /** Different byte strings of one length are different numbers. */
  lemma {:induction false} FromBytesInjective(a: seq<Byte>, b: seq<Byte>)
    requires |a| == |b| && FromBytes(a) == FromBytes(b)
    ensures a == b
  {
    if a != [] {
      FromBytesInjective(a[1..], b[1..]);
      assert a == [a[0]] + a[1..] && b == [b[0]] + b[1..];
    }
  }

  /** The two's complement reading of an n < 2^(8k). */
  function Signed(n: nat, k: nat): int {
    if 2 * n < Pow256(k) then n else n - Pow256(k)
  }

  predicate FitsSigned(v: int, k: nat) { 0 <= 2 * v + Pow256(k) && 2 * v < Pow256(k) }

  function Unsigned(v: int, k: nat): (n: nat)
    requires FitsSigned(v, k)
    ensures n < Pow256(k) && Signed(n, k) == v
  {
    if v < 0 then v + Pow256(k) else v
  }

  // ----- exclusive or -----

  function Xor(a: nat, b: nat): nat
    decreases a + b
  {
    if a == 0 && b == 0 then 0 else (a + b) % 2 + 2 * Xor(a / 2, b / 2)
  }

  lemma XorParts(a: nat, b: nat)
    ensures Xor(a, b) / 2 == Xor(a / 2, b / 2) && Xor(a, b) % 2 == (a + b) % 2
  {
  }

  lemma ParityCancels(x: nat, a: nat, b: nat)
    requires x % 2 == (a + b) % 2
    ensures (x + b) % 2 == a % 2
  {
  }

  lemma {:induction false} XorCancels(a: nat, b: nat)
    ensures Xor(Xor(a, b), b) == a
    decreases a + b
  {
    if a != 0 || b != 0 {
      XorCancels(a / 2, b / 2);
      var x := Xor(a, b);
      XorParts(a, b);
      ParityCancels(x, a, b);
      XorParts(x, b);
      var y := Xor(x, b);
      assert y / 2 == a / 2 && y % 2 == a % 2;
      assert y == 2 * (y / 2) + y % 2 && a == 2 * (a / 2) + a % 2;
    }
  }

  lemma {:induction false} XorCommutes(a: nat, b: nat)
    ensures Xor(a, b) == Xor(b, a)
    decreases a + b
  {
    if a != 0 || b != 0 {
      XorCommutes(a / 2, b / 2);
    }
  }

  function Pow2(k: nat): (p: nat)
    ensures p > 0
  {
    if k == 0 then 1 else 2 * Pow2(k - 1)
  }

  lemma {:induction false} Pow2Add(a: nat, b: nat)
    ensures Pow2(a + b) == Pow2(a) * Pow2(b)
  {
    if a > 0 {
      Pow2Add(a - 1, b);
    }
  }

  lemma {:induction false} XorBound(a: nat, b: nat, k: nat)
    requires a < Pow2(k) && b < Pow2(k)
    ensures Xor(a, b) < Pow2(k)
  {
    if k > 0 && (a != 0 || b != 0) {
      XorBound(a / 2, b / 2, k - 1);
    }
  }

  // ----- positioned writes -----

  /** `pwrite`: bytes past the old end are zero-filled. */
  function WriteAt(f: seq<Byte>, off: nat, data: seq<Byte>): (g: seq<Byte>)
    ensures |g| == (if off + |data| > |f| then off + |data| else |f|)
    ensures g[off..off + |data|] == data
    ensures forall i :: 0 <= i < |f| && !(off <= i < off + |data|) ==> g[i] == f[i]
  {
    var padded := if |f| < off then f + seq(off - |f|, i => 0) else f;
    padded[..off] + data + (if off + |data| < |f| then padded[off + |data|..] else [])
  }
}
