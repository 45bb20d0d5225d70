/** The eight-byte bucket keys: big-endian, so that a cursor visits ids in ascending order. */
module Keys {
  import opened Types

  type Bytes = seq<Byte>

  /** Big-endian encoding of `n` in `k` bytes, dropping what does not fit. */
  ghost function BigEndian(n: nat, k: nat): (bs: Bytes)
    ensures |bs| == k
  {
    if k == 0 then [] else BigEndian(n / 256, k - 1) + [n % 256]
  }

  ghost function Value(bs: Bytes): nat {
    if bs == [] then 0 else Value(bs[..|bs| - 1]) * 256 + bs[|bs| - 1]
  }

  ghost function Pow256(k: nat): nat {
    if k == 0 then 1 else Pow256(k - 1) * 256
  }

  /** Order of byte strings of one length, as the store compares keys. */
  predicate Before(x: Bytes, y: Bytes) {
    if x == [] then y != []
    else if y == [] then false
    else x[0] < y[0] || (x[0] == y[0] && Before(x[1..], y[1..]))
  }

  lemma {:induction false} ValueOfBigEndian(n: nat, k: nat)
    requires n < Pow256(k)
    ensures Value(BigEndian(n, k)) == n
  {
    if k > 0 {
      ValueOfBigEndian(n / 256, k - 1);
      assert BigEndian(n, k)[..k - 1] == BigEndian(n / 256, k - 1);
    }
  }

  lemma {:induction false} BigEndianOfValue(bs: Bytes)
    ensures Value(bs) < Pow256(|bs|) && BigEndian(Value(bs), |bs|) == bs
  {
    if bs != [] {
      BigEndianOfValue(bs[..|bs| - 1]);
      var hi, lo := Value(bs[..|bs| - 1]), bs[|bs| - 1];
      assert (hi * 256 + lo) / 256 == hi && (hi * 256 + lo) % 256 == lo;
      assert bs == bs[..|bs| - 1] + [lo];
    }
  }

  lemma {:induction false} BeforeAppend(x: Bytes, y: Bytes, p: Byte, q: Byte)
    requires |x| == |y|
    ensures Before(x + [p], y + [q]) <==> Before(x, y) || (x == y && p < q)
  {
    if x != [] {
      BeforeAppend(x[1..], y[1..], p, q);
      assert (x + [p])[1..] == x[1..] + [p] && (y + [q])[1..] == y[1..] + [q];
      assert x == [x[0]] + x[1..] && y == [y[0]] + y[1..];
    } else {
      assert (x + [p])[1..] == [] && (y + [q])[1..] == [];
    }
  }

  lemma {:induction false} BigEndianOrder(n: nat, m: nat, k: nat)
    requires n < Pow256(k) && m < Pow256(k)
    ensures Before(BigEndian(n, k), BigEndian(m, k)) <==> n < m
  {
    if k > 0 {
      BigEndianOrder(n / 256, m / 256, k - 1);
      BeforeAppend(BigEndian(n / 256, k - 1), BigEndian(m / 256, k - 1), n % 256, m % 256);
      if n / 256 == m / 256 {
      } else {
        ValueOfBigEndian(n / 256, k - 1);
        ValueOfBigEndian(m / 256, k - 1);
      }
    }
  }

  lemma EightBytes()
    ensures Pow256(8) == TWO64
  {
    assert Pow256(4) == 0x1_0000_0000;
    assert Pow256(6) == Pow256(4) * 256 * 256;
  }

  /** Keys are as many as ids, and the store's order of keys is the order of ids. */
  lemma KeyOrder(n: u64, m: u64)
    ensures Before(BigEndian(n, 8), BigEndian(m, 8)) <==> n < m
    ensures BigEndian(n, 8) == BigEndian(m, 8) <==> n == m
  {
    EightBytes();
    BigEndianOrder(n, m, 8);
    ValueOfBigEndian(n, 8);
    ValueOfBigEndian(m, 8);
  }

  /** Writes the key from its last byte to its first, shifting the number down each time. */
  method Uint64Key(n: u64) returns (b: array<Byte>)
    ensures fresh(b) && b[..] == BigEndian(n, 8)
  {
    b := new Byte[8](_ => 0);
    var rest: u64 := n;
    var i := 8;
    assert b[8..] == [];
    while i > 0
      invariant 0 <= i <= 8 && b.Length == 8
      invariant BigEndian(n, 8) == BigEndian(rest, i) + b[i..]
    {
      i := i - 1;
      b[i] := rest % 256;
      assert BigEndian(rest, i + 1) == BigEndian(rest / 256, i) + [b[i]];
      assert b[i..] == [b[i]] + b[i + 1..];
      rest := rest / 256;
    }
    assert b[0..] == b[..];
  }

  /** Reads a stored number back; a value of another length, or none, reads as zero. */
  method GetUint64(bs: Bytes) returns (n: u64)
    ensures n == if |bs| == 8 then Value(bs) else 0
  {
    n := 0;
    if |bs| != 8 {
      return;
    }
    EightBytes();
    assert bs[..8] == bs;
    for i := 0 to 8
      invariant n == Value(bs[..i])
    {
      BigEndianOfValue(bs[..i + 1]);
      PowGrows(i + 1, 8);
      assert bs[..i + 1][..i] == bs[..i];
      n := Wrap(n * 256) + bs[i];
    }
  }

  lemma {:induction false} PowGrows(i: nat, k: nat)
    requires i <= k
    ensures Pow256(i) <= Pow256(k)
  {
    if i < k {
      PowGrows(i, k - 1);
    }
  }

  /** What `Uint64Key` writes, `GetUint64` reads back, and eight stored bytes are the key of the
      number read from them. */
  lemma StoredNumbersReadBack(n: u64, bs: Bytes)
    requires |bs| == 8
    ensures Value(BigEndian(n, 8)) == n
    ensures Value(bs) < TWO64 && BigEndian(Value(bs), 8) == bs
  {
    EightBytes();
    ValueOfBigEndian(n, 8);
    BigEndianOfValue(bs);
  }
}
