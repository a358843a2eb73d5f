/** Byte strings and the big-endian numbers they spell. */
module Bytes {

  type Byte = b: int | 0 <= b < 256

  type Bytes = seq<Byte>

  function Pow256(n: nat): (p: nat)
    ensures p >= 1
  {
    if n == 0 then 1 else 256 * Pow256(n - 1)
  }

  /** The number a byte string spells, most significant byte first. */
  function ToNat(bs: Bytes): nat {
    if bs == [] then 0 else 256 * ToNat(bs[..|bs| - 1]) + bs[|bs| - 1]
  }

  /** The low n bytes of w, most significant first. */
  function BigEndian(w: nat, n: nat): (bs: Bytes)
    ensures |bs| == n
  {
    if n == 0 then [] else BigEndian(w / 256, n - 1) + [w % 256]
  }

  /** The shortest byte string that spells w; empty for zero. */
  function Minimal(w: nat): Bytes {
    if w == 0 then [] else Minimal(w / 256) + [w % 256]
  }

  function Zeros(n: nat): (bs: Bytes)
    ensures |bs| == n && forall i :: 0 <= i < n ==> bs[i] == 0
  {
    seq(n, _ => 0)
  }

  lemma {:induction false} ToNatBigEndian(w: nat, n: nat)
    requires w < Pow256(n)
    ensures ToNat(BigEndian(w, n)) == w
  {
    if n > 0 {
      ToNatBigEndian(w / 256, n - 1);
      assert BigEndian(w, n)[..n - 1] == BigEndian(w / 256, n - 1);
    }
  }

  lemma {:induction false} ToNatBound(bs: Bytes)
    ensures ToNat(bs) < Pow256(|bs|)
  {
    if bs != [] {
      ToNatBound(bs[..|bs| - 1]);
    }
  }

  lemma {:induction false} BigEndianToNat(bs: Bytes)
    ensures BigEndian(ToNat(bs), |bs|) == bs
  {
    if bs != [] {
      BigEndianToNat(bs[..|bs| - 1]);
      assert ToNat(bs) / 256 == ToNat(bs[..|bs| - 1]);
    }
  }

  lemma {:induction false} ToNatAppend(a: Bytes, b: Bytes)
    ensures ToNat(a + b) == ToNat(a) * Pow256(|b|) + ToNat(b)
  {
    if b == [] {
      assert a + b == a;
    } else {
      var init, last := b[..|b| - 1], b[|b| - 1];
      ToNatAppend(a, init);
      assert (a + b)[..|a + b| - 1] == a + init;
      Regroup(ToNat(a), Pow256(|b| - 1), ToNat(init));
    }
  }

  lemma Regroup(x: nat, p: nat, y: nat)
    ensures 256 * (x * p + y) == x * (256 * p) + 256 * y
  {
    assert x * (256 * p) == 256 * (x * p);
  }

  lemma {:induction false} ToNatZeros(n: nat)
    ensures ToNat(Zeros(n)) == 0
  {
    if n > 0 {
      ToNatZeros(n - 1);
      assert Zeros(n)[..n - 1] == Zeros(n - 1);
    }
  }

  /** Leading zeros do not change the number. */
  lemma ToNatPadLeft(n: nat, bs: Bytes)
    ensures ToNat(Zeros(n) + bs) == ToNat(bs)
  {
    ToNatAppend(Zeros(n), bs);
    ToNatZeros(n);
  }

  lemma {:induction false} ToNatMinimal(w: nat)
    ensures ToNat(Minimal(w)) == w
    ensures w > 0 ==> Minimal(w) != [] && Minimal(w)[0] != 0
  {
    if w > 0 {
      ToNatMinimal(w / 256);
      assert Minimal(w)[..|Minimal(w)| - 1] == Minimal(w / 256);
    }
  }

  lemma {:induction false} MinimalLength(w: nat, n: nat)
    requires w < Pow256(n)
    ensures |Minimal(w)| <= n
  {
    if w > 0 {
      MinimalLength(w / 256, n - 1);
    }
  }
}
