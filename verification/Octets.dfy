/** Numbers written as bytes, the highest byte first. */
module Octets {
  import opened Base

  /** The last `n` bytes of `v`, the highest first. */
  function BigEndian(v: nat, n: nat): (b: Bytes)
    ensures |b| == n
  {
    if n == 0 then [] else BigEndian(v / 256, n - 1) + [v % 256]
  }

  function FromBigEndian(b: Bytes): nat {
    if b == [] then 0 else FromBigEndian(b[..|b| - 1]) * 256 + b[|b| - 1]
  }

  function Zeros(n: nat): (z: Bytes)
    ensures |z| == n
  {
    if n == 0 then [] else [0] + Zeros(n - 1)
  }

  lemma {:induction false} BigEndianRoundTrip(v: nat, n: nat)
    requires v < Pow(256, n)
    ensures FromBigEndian(BigEndian(v, n)) == v
  {
    if n > 0 {
      BigEndianRoundTrip(v / 256, n - 1);
      var b := BigEndian(v, n);
      assert b[..n - 1] == BigEndian(v / 256, n - 1);
    }
  }

  lemma {:induction false} BigEndianInverse(b: Bytes)
    ensures BigEndian(FromBigEndian(b), |b|) == b
  {
    if b != [] {
      BigEndianInverse(b[..|b| - 1]);
    }
  }

  lemma {:induction false} SkipZeros(n: nat, b: Bytes)
    ensures FromBigEndian(Zeros(n) + b) == FromBigEndian(b)
    decreases n + |b|
  {
    var z := Zeros(n) + b;
    if b != [] {
      SkipZeros(n, b[..|b| - 1]);
      assert z[..|z| - 1] == Zeros(n) + b[..|b| - 1];
    } else if n > 0 {
      ZerosEnd(n);
      SkipZeros(n - 1, []);
      assert z[..n - 1] == Zeros(n - 1) + [];
    }
  }

  lemma {:induction false} ZerosEnd(n: nat)
    requires n > 0
    ensures Zeros(n) == Zeros(n - 1) + [0]
  {
    if n > 1 {
      ZerosEnd(n - 1);
    }
  }

  /** The first byte counts for the highest power. */
  lemma {:induction false} HighByte(b: Bytes)
    requires b != []
    ensures FromBigEndian(b) == b[0] * Pow(256, |b| - 1) + FromBigEndian(b[1..])
    ensures FromBigEndian(b[1..]) < Pow(256, |b| - 1)
  {
    if |b| > 1 {
      var c := b[..|b| - 1];
      HighByte(c);
      assert b[1..][..|b| - 2] == c[1..];
      assert c[0] * Pow(256, |b| - 1) == c[0] * Pow(256, |b| - 2) * 256 by {
        MulAssociates(c[0], Pow(256, |b| - 2), 256);
      }
    }
  }

  /** Fewer bytes are a suffix of more bytes. */
  lemma {:induction false} Suffix(v: nat, n: nat, m: nat)
    requires m <= n
    ensures BigEndian(v, n)[n - m..] == BigEndian(v, m)
  {
    if m > 0 {
      Suffix(v / 256, n - 1, m - 1);
      assert BigEndian(v, n)[n - m..] == BigEndian(v / 256, n - 1)[n - m..] + [v % 256];
    }
  }

  lemma {:induction false} FromBigEndianFits(b: Bytes)
    ensures FromBigEndian(b) < Pow(256, |b|)
  {
    if b != [] {
      FromBigEndianFits(b[..|b| - 1]);
    }
  }

  // ---- products and quotients ---------------------------------------------

  lemma QuotientIs(a: nat, d: nat, q: nat, m: nat)
    requires a == q * d + m && m < d
    ensures a / d == q && a % d == m
  {
    assert (q - a / d) * d == a % d - m;
    if q > a / d {
      MulOrder(1, q - a / d, d);
    } else if q < a / d {
      MulOrder(1, a / d - q, d);
    }
  }

  lemma Halve(a: nat, p: nat)
    requires p > 0
    ensures a / (2 * p) == a / 2 / p && a % (2 * p) == 2 * (a / 2 % p) + a % 2
  {
    var q := a / 2 / p;
    assert q * (2 * p) == 2 * (q * p) by {
      MulAssociates(q, 2, p);
      MulAssociates(2, q, p);
    }
    QuotientIs(a, 2 * p, q, 2 * (a / 2 % p) + a % 2);
  }

  lemma LowPart(h: nat, p: nat, rest: nat, limit: nat)
    requires h < limit && rest < p
    ensures h * p + rest < limit * p
  {
    MulOrder(h + 1, limit, p);
  }

  lemma HighPart(h: nat, p: nat, rest: nat, limit: nat)
    requires h * p + rest < limit * p
    ensures h < limit
  {
    if h >= limit {
      MulOrder(limit, h, p);
    }
  }
}
