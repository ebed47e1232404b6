/** Byte strings and big-endian integers. */
module Bytes {
  type Byte = b: int | 0 <= b < 256

  type Bytes = seq<Byte>

  function Pow256(k: nat): (p: nat)
    ensures p >= 1
  {
    if k == 0 then 1 else 256 * Pow256(k - 1)
  }

  /** The low k bytes of n, most significant first; higher bytes are cut off. */
  function BigEndian(n: nat, k: nat): (bs: Bytes)
    ensures |bs| == k
  {
    if k == 0 then [] else BigEndian(n / 256, k - 1) + [n % 256]
  }

  function Number(bs: Bytes): (n: nat)
    ensures n < Pow256(|bs|)
  {
    if bs == [] then 0 else 256 * Number(bs[..|bs| - 1]) + bs[|bs| - 1]
  }

  lemma {:induction false} NumberOfBigEndian(n: nat, k: nat)
    ensures Number(BigEndian(n, k)) == n % Pow256(k)
    decreases k
  {
    if k > 0 {
      var bs := BigEndian(n, k);
      assert bs[..k - 1] == BigEndian(n / 256, k - 1);
      NumberOfBigEndian(n / 256, k - 1);
      SplitDigit(n, Pow256(k - 1));
    }
  }

  lemma SplitDigit(n: nat, p: nat)
    requires p >= 1
    ensures 256 * ((n / 256) % p) + n % 256 == n % (256 * p)
  {
    var m := n / 256;
    var q, r := m / p, m % p;
    assert n == 256 * m + n % 256 && m == p * q + r;
    assert n == (256 * p) * q + (256 * r + n % 256) by {
      assert 256 * (p * q + r) == (256 * p) * q + 256 * r;
    }
    assert 256 * r + n % 256 < 256 * p;
    Remainder(n, 256 * p, q, 256 * r + n % 256);
  }

  lemma AtLeast(d: int, x: int)
    requires d > 0 && x >= 1
    ensures d * x >= d
  {
  }

  lemma Distribute(d: int, a: int, b: int)
    ensures d * a - d * b == d * (a - b)
  {
  }

  lemma Remainder(n: int, d: int, q: int, r: int)
    requires d > 0 && n == d * q + r && 0 <= r < d
    ensures n % d == r
  {
    var k, s := n / d, n % d;
    Distribute(d, k, q);
    Distribute(d, q, k);
    if k > q {
      AtLeast(d, k - q);
    } else if k < q {
      AtLeast(d, q - k);
    }
  }

  lemma {:induction false} BigEndianOfNumber(bs: Bytes)
    ensures BigEndian(Number(bs), |bs|) == bs
  {
    if bs != [] {
      var front := bs[..|bs| - 1];
      BigEndianOfNumber(front);
      var n := Number(bs);
      assert n / 256 == Number(front) && n % 256 == bs[|bs| - 1];
      assert bs == front + [bs[|bs| - 1]];
    }
  }

  lemma Powers()
    ensures Pow256(1) == 0x100 && Pow256(4) == 0x1_0000_0000 && Pow256(8) == 0x1_0000_0000_0000_0000
  {
    assert Pow256(2) == 256 * Pow256(1);
    assert Pow256(3) == 256 * Pow256(2);
    assert Pow256(4) == 256 * Pow256(3);
    assert Pow256(5) == 256 * Pow256(4);
    assert Pow256(6) == 256 * Pow256(5);
    assert Pow256(7) == 256 * Pow256(6);
    assert Pow256(8) == 256 * Pow256(7);
  }

  // ---- the fixed widths on the wire ----

  const U32_LIMIT := 0x1_0000_0000
  const U64_LIMIT := 0x1_0000_0000_0000_0000

  type U32 = n: int | 0 <= n < U32_LIMIT
  type U64 = n: int | 0 <= n < U64_LIMIT

  type Bytes4 = s: Bytes | |s| == 4 witness [0, 0, 0, 0]
  type Bytes16 = s: Bytes | |s| == 16 witness seq(16, _ => 0)
  type Bytes32 = s: Bytes | |s| == 32 witness seq(32, _ => 0)
  type Bytes64 = s: Bytes | |s| == 64 witness seq(64, _ => 0)

  function PutU32(n: U32): (bs: Bytes)
    ensures |bs| == 4 && GetU32(bs) == n
  {
    NumberOfBigEndian(n, 4); Powers();
    BigEndian(n, 4)
  }

  function GetU32(bs: Bytes): (n: U32)
    requires |bs| == 4
  {
    Powers();
    Number(bs)
  }

  function PutU64(n: U64): (bs: Bytes)
    ensures |bs| == 8 && GetU64(bs) == n
  {
    NumberOfBigEndian(n, 8); Powers();
    BigEndian(n, 8)
  }

  function GetU64(bs: Bytes): (n: U64)
    requires |bs| == 8
  {
    Powers();
    Number(bs)
  }

  lemma PutGetU32(bs: Bytes)
    requires |bs| == 4
    ensures PutU32(GetU32(bs)) == bs
  {
    BigEndianOfNumber(bs);
  }

  lemma PutGetU64(bs: Bytes)
    requires |bs| == 8
    ensures PutU64(GetU64(bs)) == bs
  {
    BigEndianOfNumber(bs);
  }
}
