/** Unsigned big-endian integers: what big.Int.Bytes and big.Int.SetBytes compute. */
module Bytes {
  type Byte = b: int | 0 <= b < 256

  function Pow256(k: nat): (p: nat)
    ensures p >= 1
  {
    if k == 0 then 1 else 256 * Pow256(k - 1)
  }

  /** big.Int.SetBytes */
  function FromBytes(bs: seq<Byte>): nat {
    if bs == [] then 0 else 256 * FromBytes(bs[..|bs| - 1]) + bs[|bs| - 1]
  }

  /** big.Int.Bytes: no leading zero byte, and nothing at all for zero. */
  function ToBytes(n: nat): seq<Byte> {
    if n == 0 then [] else ToBytes(n / 256) + [n % 256]
  }

  function Zeros(k: nat): (z: seq<Byte>)
    ensures |z| == k
  {
    seq(k, _ => 0)
  }

  /** `n` can be written in `width` bytes; LengthOfBytes says which numbers these are. */
  predicate Fits(n: nat, width: nat) {
    |ToBytes(n)| <= width
  }

  /** The big-endian bytes of `n`, padded with zero bytes in front to `width`. */
  function Fixed(n: nat, width: nat): (bs: seq<Byte>)
    requires Fits(n, width)
    ensures |bs| == width
  {
    Zeros(width - |ToBytes(n)|) + ToBytes(n)
  }

  lemma {:induction false} FromToBytes(n: nat)
    ensures FromBytes(ToBytes(n)) == n
  {
    if n > 0 {
      FromToBytes(n / 256);
      assert ToBytes(n)[..|ToBytes(n)| - 1] == ToBytes(n / 256);
    }
  }

  /** `k` bytes are enough exactly for the numbers below 256^k. */
  lemma {:induction false} LengthOfBytes(n: nat, k: nat)
    ensures Fits(n, k) <==> n < Pow256(k)
  {
    if k > 0 && n > 0 {
      LengthOfBytes(n / 256, k - 1);
    }
  }

  lemma {:induction false} NoLeadingZero(n: nat)
    requires n > 0
    ensures ToBytes(n) != [] && ToBytes(n)[0] != 0
  {
    if n >= 256 {
      NoLeadingZero(n / 256);
    } else {
      assert ToBytes(n / 256) == [];
    }
  }

  lemma {:induction false} LeadingZeros(k: nat, bs: seq<Byte>)
    ensures FromBytes(Zeros(k) + bs) == FromBytes(bs)
  {
    if bs != [] {
      assert (Zeros(k) + bs)[..k + |bs| - 1] == Zeros(k) + bs[..|bs| - 1];
      LeadingZeros(k, bs[..|bs| - 1]);
    } else if k > 0 {
      assert (Zeros(k) + bs)[..k - 1] == Zeros(k - 1) + bs;
      LeadingZeros(k - 1, bs);
    } else {
      assert Zeros(k) + bs == bs;
    }
  }

  /** Padding loses nothing: the number is read back from its fixed-width form. */
  lemma FixedRoundTrip(n: nat, width: nat)
    requires Fits(n, width)
    ensures FromBytes(Fixed(n, width)) == n
  {
    LeadingZeros(width - |ToBytes(n)|, ToBytes(n));
    FromToBytes(n);
  }
}
