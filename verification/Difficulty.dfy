/**
 Proof-of-work targets: the 32-bit difficulty number (one byte of exponent, three of mantissa), the
 comparison of a block hash with a target, and the adjustment at the end of every cycle.
 */
module Difficulty {
  import opened Base
  import opened Octets

  const HASH_WIDTH: nat := 32
  const MANTISSA_END: nat := 0x100_0000
  const LOWEST_DIFFICULTY: nat := 4294967294

  // ---- bits ---------------------------------------------------------------

  /** A bit; the node keeps it in a byte, 0 or 1. */
  type Bits = seq<bool>

  function One(b: bool): nat {
    if b then 1 else 0
  }

  /** The number that bits stand for, the highest bit first. */
  function Value(bits: Bits): nat {
    if bits == [] then 0 else 2 * Value(bits[..|bits| - 1]) + One(bits[|bits| - 1])
  }

  function Fill(b: bool, n: nat): (bits: Bits)
    ensures |bits| == n
    ensures forall i :: 0 <= i < n ==> bits[i] == b
  {
    if n == 0 then [] else Fill(b, n - 1) + [b]
  }

  lemma {:induction false} ValueAppend(a: Bits, b: Bits)
    ensures Value(a + b) == Value(a) * Pow(2, |b|) + Value(b)
  {
    if b == [] {
      assert a + b == a;
    } else {
      var c := b[..|b| - 1];
      ValueAppend(a, c);
      assert (a + b)[..|a + b| - 1] == a + c;
      assert Value(a) * Pow(2, |b|) == 2 * (Value(a) * Pow(2, |c|)) by {
        MulAssociates(Value(a), 2, Pow(2, |c|));
        MulAssociates(2, Value(a), Pow(2, |c|));
      }
    }
  }

  lemma {:induction false} ZerosValue(n: nat)
    ensures Value(Fill(false, n)) == 0
  {
    if n > 0 {
      ZerosValue(n - 1);
      assert Fill(false, n)[..n - 1] == Fill(false, n - 1);
    }
  }

  lemma {:induction false} OnesValue(n: nat)
    ensures Value(Fill(true, n)) == Pow(2, n) - 1
  {
    if n > 0 {
      OnesValue(n - 1);
      assert Fill(true, n)[..n - 1] == Fill(true, n - 1);
    }
  }

  lemma {:induction false} ValueFits(bits: Bits)
    ensures Value(bits) < Pow(2, |bits|)
  {
    if bits != [] {
      ValueFits(bits[..|bits| - 1]);
    }
  }

  lemma {:induction false} ValueAtLeast(bits: Bits)
    requires bits != [] && bits[0]
    ensures Pow(2, |bits| - 1) <= Value(bits)
  {
    if |bits| > 1 {
      ValueAtLeast(bits[..|bits| - 1]);
    }
  }

  /** Bit `k` of a number: a shift and a mask. */
  predicate Bit(v: nat, k: nat) {
    PowPositive(2, k);
    v / Pow(2, k) % 2 == 1
  }

  function ByteToBits(b: Byte): (bits: Bits)
    ensures |bits| == 8
  {
    [Bit(b, 7), Bit(b, 6), Bit(b, 5), Bit(b, 4), Bit(b, 3), Bit(b, 2), Bit(b, 1), Bit(b, 0)]
  }

  function BitsToByte(bits: Bits): Byte
    requires |bits| == 8
  {
    1 * One(bits[7]) + 2 * One(bits[6]) + 4 * One(bits[5]) + 8 * One(bits[4])
    + 16 * One(bits[3]) + 32 * One(bits[2]) + 64 * One(bits[1]) + 128 * One(bits[0])
  }

  lemma TwoBits(bits: Bits, n: nat)
    requires n + 2 <= |bits|
    ensures Value(bits[..n + 2]) == 4 * Value(bits[..n]) + 2 * One(bits[n]) + One(bits[n + 1])
  {
    assert bits[..n + 2][..n + 1] == bits[..n + 1] && bits[..n + 1][..n] == bits[..n];
  }

  lemma FourBits(bits: Bits, n: nat)
    requires n + 4 <= |bits|
    ensures Value(bits[..n + 4]) ==
      16 * Value(bits[..n]) + 8 * One(bits[n]) + 4 * One(bits[n + 1]) + 2 * One(bits[n + 2]) + One(bits[n + 3])
  {
    TwoBits(bits, n);
    TwoBits(bits, n + 2);
  }

  lemma BitsToByteIs(bits: Bits)
    requires |bits| == 8
    ensures BitsToByte(bits) == Value(bits)
  {
    FirstBitsOf(bits);
    FourBits(bits, 4);
    WholeByte(bits, Value(bits[..4]), Value(bits[..4 + 4]));
    assert bits[..4 + 4] == bits;
  }

  lemma WholeByte(bits: Bits, high: nat, all: nat)
    requires |bits| == 8
    requires high == 8 * One(bits[0]) + 4 * One(bits[1]) + 2 * One(bits[2]) + One(bits[3])
    requires all == 16 * high + 8 * One(bits[4]) + 4 * One(bits[5]) + 2 * One(bits[6]) + One(bits[7])
    ensures BitsToByte(bits) == all
  {
  }

  lemma FirstBitsOf(bits: Bits)
    requires |bits| >= 4
    ensures Value(bits[..4]) == 8 * One(bits[0]) + 4 * One(bits[1]) + 2 * One(bits[2]) + One(bits[3])
  {
    FourBits(bits, 0);
    assert bits[..0] == [];
  }

  /** The last `n` bits of `v`. */
  function Binary(v: nat, n: nat): (bits: Bits)
    ensures |bits| == n
  {
    if n == 0 then [] else Binary(v / 2, n - 1) + [v % 2 == 1]
  }

  lemma {:induction false} BinaryValue(v: nat, n: nat)
    requires v < Pow(2, n)
    ensures Value(Binary(v, n)) == v
  {
    if n > 0 {
      BinaryValue(v / 2, n - 1);
      assert Binary(v, n)[..n - 1] == Binary(v / 2, n - 1);
    }
  }

  lemma {:induction false} BinaryAt(v: nat, n: nat, i: nat)
    requires i < n
    ensures Binary(v, n)[i] == Bit(v, n - 1 - i)
  {
    if i < n - 1 {
      BinaryAt(v / 2, n - 1, i);
      PowPositive(2, n - 2 - i);
      Halve(v, Pow(2, n - 2 - i));
    }
  }

  lemma ByteToBitsIs(b: Byte)
    ensures ByteToBits(b) == Binary(b, 8) && Value(ByteToBits(b)) == b
  {
    assert Pow(2, 8) == 256;
    BinaryValue(b, 8);
    forall i: nat | i < 8
      ensures ByteToBits(b)[i] == Binary(b, 8)[i]
    {
      BinaryAt(b, 8, i);
    }
  }

  // ---- the difficulty number ----------------------------------------------

  function Exponent(num: nat): nat {
    num / MANTISSA_END
  }

  function Mantissa(num: nat): nat {
    num % MANTISSA_END
  }

  /** The target of a number; below exponent 23 the node's bit buffer is too short. */
  function Target(num: nat): nat
    requires Exponent(num) >= 23
  {
    Mantissa(num) * Pow(2, Exponent(num) - 23)
  }

  /** A number as the encoder makes it of a target of 24 bits or more: its mantissa is full. */
  predicate Canonical(num: nat) {
    23 <= Exponent(num) <= 255 && 0x80_0000 <= Mantissa(num)
  }

  /** The count of binary digits. */
  function Length(x: nat): nat {
    if x == 0 then 0 else Length(x / 2) + 1
  }

  /** The number of a target below 2^256: its length and its first 24 digits, filled up with ones. */
  function Number(x: nat): nat {
    var len := Length(x);
    if len == 0 then 0xFFFF_FFFF
    else
      PowPositive(2, if len >= 24 then len - 24 else 24 - len);
      (len - 1) * MANTISSA_END +
      if len >= 24 then x / Pow(2, len - 24) else x * Pow(2, 24 - len) + Pow(2, 24 - len) - 1
  }

  lemma {:induction false} LengthIs(x: nat, n: nat)
    requires n > 0 && Pow(2, n - 1) <= x < Pow(2, n)
    ensures Length(x) == n
  {
    if n > 1 {
      LengthIs(x / 2, n - 1);
    }
  }

  lemma {:induction false} LengthBounds(x: nat)
    requires x > 0
    ensures Length(x) > 0 && Pow(2, Length(x) - 1) <= x < Pow(2, Length(x))
  {
    if x > 1 {
      LengthBounds(x / 2);
      Doubled(x, Pow(2, Length(x / 2) - 1), Pow(2, Length(x / 2)));
    }
  }

  lemma Doubled(x: nat, lo: nat, hi: nat)
    requires lo <= x / 2 < hi
    ensures 2 * lo <= x < 2 * hi
  {
  }

  lemma {:induction false} PowOrder(m: nat, n: nat)
    requires m <= n
    ensures 0 < Pow(2, m) <= Pow(2, n)
  {
    if m < n {
      PowOrder(m, n - 1);
    } else {
      PowPositive(2, m);
    }
  }

  lemma {:induction false} LengthOrder(x: nat, y: nat)
    requires x <= y
    ensures Length(x) <= Length(y)
  {
    if x > 0 {
      LengthOrder(x / 2, y / 2);
    }
  }

  lemma {:induction false} LengthWithin(x: nat, n: nat)
    requires x < Pow(2, n)
    ensures Length(x) <= n
  {
    if x > 0 && n > 0 {
      LengthWithin(x / 2, n - 1);
    }
  }

  lemma {:induction false} LengthBeyond(x: nat, n: nat)
    requires Pow(2, n) <= x
    ensures n < Length(x)
  {
    if n > 0 {
      LengthBeyond(x / 2, n - 1);
    }
  }

  lemma Powers()
    ensures Pow(2, 23) == 0x80_0000 && Pow(2, 24) == MANTISSA_END
  {
    assert Pow(2, 8) == 256;
    PowAdd(2, 8, 8);
    PowAdd(2, 16, 8);
    assert Pow(2, 24) == 2 * Pow(2, 23);
  }

  lemma FullMantissa(k: nat)
    ensures Pow(2, k) > 0 && Pow(2, k + 24) == MANTISSA_END * Pow(2, k) && Pow(2, k + 23) == 0x80_0000 * Pow(2, k)
  {
    PowPositive(2, k);
    PowAdd(2, 24, k);
    PowAdd(2, 23, k);
    Powers();
  }

  lemma Parts(e: nat, m: nat)
    requires m < MANTISSA_END
    ensures Exponent(e * MANTISSA_END + m) == e && Mantissa(e * MANTISSA_END + m) == m
  {
    QuotientIs(e * MANTISSA_END + m, MANTISSA_END, e, m);
  }

  lemma QuotientBounds(x: nat, d: nat, lo: nat, hi: nat)
    requires d > 0 && lo * d <= x < hi * d
    ensures lo <= x / d < hi && x / d * d <= x < x / d * d + d
  {
    if x / d < lo {
      MulOrder(x / d + 1, lo, d);
    }
    if hi <= x / d {
      MulOrder(hi, x / d, d);
    }
  }

  lemma QuotientOrder(x: nat, y: nat, d: nat)
    requires x <= y && d > 0
    ensures x / d <= y / d
  {
    if y / d < x / d {
      MulOrder(y / d + 1, x / d, d);
    }
  }

  lemma FirstDigits(x: nat, d: nat)
    requires Length(x) >= 24 && d == Pow(2, Length(x) - 24)
    ensures d > 0 && 0x80_0000 <= x / d < MANTISSA_END && x / d * d <= x < x / d * d + d
  {
    LengthBounds(x);
    FullMantissa(Length(x) - 24);
    QuotientBounds(x, d, 0x80_0000, MANTISSA_END);
  }

  /** The number of a target of 24 digits or more is canonical, and its target is rounded down. */
  lemma Top(x: nat, d: nat)
    requires Length(x) >= 24 && d == Pow(2, Length(x) - 24)
    ensures d > 0 && 0x80_0000 <= x / d < MANTISSA_END && x / d * d <= x < x / d * d + d
    ensures Number(x) == (Length(x) - 1) * MANTISSA_END + x / d
    ensures Exponent(Number(x)) == Length(x) - 1 && Mantissa(Number(x)) == x / d
  {
    FirstDigits(x, d);
    Parts(Length(x) - 1, x / d);
  }

  lemma DecodeTop(x: nat, d: nat)
    requires 24 <= Length(x) <= 256 && d == Pow(2, Length(x) - 24)
    ensures Canonical(Number(x)) && Target(Number(x)) <= x < Target(Number(x)) + d
  {
    Top(x, d);
    TargetIs(Number(x), x / d, Length(x) - 24, d);
  }

  lemma TargetIs(num: nat, m: nat, k: nat, p: nat)
    requires Exponent(num) == k + 23 && Mantissa(num) == m && p == Pow(2, k)
    ensures Target(num) == m * p
  {
  }

  /** Decoding an encoded target rounds it down to its first 24 digits. */
  lemma DecodeEncode(x: nat)
    requires Pow(2, 23) <= x < Pow(2, 256)
    ensures Canonical(Number(x)) && Length(x) >= 24
    ensures Target(Number(x)) <= x < Target(Number(x)) + Pow(2, Length(x) - 24)
  {
    DecodeBetween(x, 23, 256);
  }

  lemma DecodeBetween(x: nat, lo: nat, hi: nat)
    requires lo >= 23 && hi <= 256 && Pow(2, lo) <= x < Pow(2, hi)
    ensures Canonical(Number(x)) && Length(x) >= 24
    ensures Target(Number(x)) <= x < Target(Number(x)) + Pow(2, Length(x) - 24)
  {
    LengthBeyond(x, lo);
    LengthWithin(x, hi);
    DecodeTop(x, Pow(2, Length(x) - 24));
  }

  lemma ScaledBounds(m: nat, p: nat)
    requires 0x80_0000 <= m < MANTISSA_END && p > 0
    ensures 0x80_0000 * p <= m * p < MANTISSA_END * p && 0x80_0000 <= m * p && m * p / p == m
  {
    MulOrder(0x80_0000, m, p);
    MulStrictOrder(m, MANTISSA_END, p);
    MulOrder(1, p, 0x80_0000);
    QuotientIs(m * p, p, m, 0);
  }

  lemma TargetLength(num: nat)
    requires Canonical(num)
    ensures Length(Target(num)) == Exponent(num) + 1 && 0x80_0000 <= Target(num) < Pow(2, 256)
    ensures Pow(2, Exponent(num) - 23) > 0 && Target(num) / Pow(2, Exponent(num) - 23) == Mantissa(num)
  {
    var k := Exponent(num) - 23;
    FullMantissa(k);
    ScaledBounds(Mantissa(num), Pow(2, k));
    LengthIs(Target(num), k + 24);
    PowOrder(k + 24, 256);
  }

  /** Canonical numbers lose nothing. */
  lemma EncodeDecode(num: nat)
    requires Canonical(num)
    ensures Number(Target(num)) == num && Pow(2, 23) <= Target(num) < Pow(2, 256)
  {
    TargetLength(num);
    Powers();
    Top(Target(num), Pow(2, Exponent(num) - 23));
  }

  lemma NumberRange(x: nat)
    requires x > 0
    ensures Length(x) > 0 && (Length(x) - 1) * MANTISSA_END <= Number(x) < Length(x) * MANTISSA_END
  {
    LengthBounds(x);
    if Length(x) >= 24 {
      Top(x, Pow(2, Length(x) - 24));
    } else {
      ShortNumber(x);
    }
  }

  lemma Scale(a: nat, b: nat, p: nat)
    requires 0 < a <= b && p > 0
    ensures 0 < a * p <= b * p && a * p == (a - 1) * p + p
  {
    MulPositive(a, p);
    MulOrder(a, b, p);
  }

  lemma ShortNumber(x: nat)
    requires 0 < Length(x) < 24
    ensures Number(x) == (Length(x) - 1) * MANTISSA_END + (x + 1) * Pow(2, 24 - Length(x)) - 1
    ensures 0 < (x + 1) * Pow(2, 24 - Length(x)) <= MANTISSA_END
  {
    LengthBounds(x);
    Powers();
    ShortMantissa(x, Length(x));
  }

  lemma ShortMantissa(x: nat, len: nat)
    requires 0 < len < 24 && x < Pow(2, len) && Pow(2, 24) == MANTISSA_END
    ensures x * Pow(2, 24 - len) + Pow(2, 24 - len) == (x + 1) * Pow(2, 24 - len) &&
      0 < (x + 1) * Pow(2, 24 - len) <= MANTISSA_END
  {
    PowPositive(2, 24 - len);
    Scale(x + 1, Pow(2, len), Pow(2, 24 - len));
    PowAdd(2, len, 24 - len);
  }

  /** A larger target has no smaller number. Zero is the exception: its number is the largest. */
  lemma NumberOrder(x: nat, y: nat)
    requires 0 < x <= y
    ensures Number(x) <= Number(y)
  {
    LengthOrder(x, y);
    NumberRange(x);
    NumberRange(y);
    if Length(x) < Length(y) {
      MulOrder(Length(x), Length(y) - 1, MANTISSA_END);
    } else {
      SameLengthOrder(x, y);
    }
  }

  lemma SameLengthOrder(x: nat, y: nat)
    requires x <= y && 0 < Length(x) == Length(y)
    ensures Number(x) <= Number(y)
  {
    if Length(x) >= 24 {
      LongOrder(x, y, Pow(2, Length(x) - 24));
    } else {
      ShortOrder(x, y, Pow(2, 24 - Length(x)));
    }
  }

  lemma LongOrder(x: nat, y: nat, d: nat)
    requires x <= y && 24 <= Length(x) == Length(y) && d == Pow(2, Length(x) - 24)
    ensures Number(x) <= Number(y)
  {
    Top(x, d);
    Top(y, d);
    QuotientOrder(x, y, d);
  }

  lemma ShortOrder(x: nat, y: nat, p: nat)
    requires x <= y && 0 < Length(x) == Length(y) < 24 && p == Pow(2, 24 - Length(x))
    ensures Number(x) <= Number(y)
  {
    ShortNumber(x);
    ShortNumber(y);
    MulOrder(x + 1, y + 1, p);
  }

  lemma NumberOfZero(x: nat)
    requires x < Pow(2, 256)
    ensures Number(x) <= Number(0)
  {
    LengthWithin(x, 256);
    if x > 0 {
      NumberRange(x);
      MulOrder(Length(x), 256, MANTISSA_END);
    }
  }

  /** Encoding and decoding are adjoint: a canonical number's target fits under `x` exactly when the
      number is not above that of `x`. */
  lemma NumberIsFloor(num: nat, x: nat)
    requires Canonical(num) && Pow(2, 23) <= x < Pow(2, 256)
    ensures Target(num) <= x <==> num <= Number(x)
  {
    EncodeDecode(num);
    DecodeEncode(x);
    EncodeDecode(Number(x));
    PowPositive(2, 23);
    FloorBy(Target(num), Target(Number(x)), x);
  }

  /** `b` is what `x` is rounded down to, and `a` is not rounded. */
  lemma FloorBy(a: nat, b: nat, x: nat)
    requires 0 < a && 0 < b <= x && Number(b) == Number(x) && (Number(a) == Number(b) ==> a == b)
    ensures a <= x <==> Number(a) <= Number(x)
  {
    if a <= x {
      NumberOrder(a, x);
    } else {
      NumberOrder(b, a);
    }
  }

  // ---- hashes and numbers -------------------------------------------------

  /** The bits of a hash. */
  method BytesToBits(bytes: Bytes) returns (res: Bits)
    ensures |res| == 8 * |bytes| && Value(res) == FromBigEndian(bytes)
  {
    res := [];
    for i := 0 to |bytes|
      invariant |res| == 8 * i && Value(res) == FromBigEndian(bytes[..i])
    {
      ByteToBitsIs(bytes[i]);
      ValueAppend(res, ByteToBits(bytes[i]));
      assert bytes[..i + 1][..i] == bytes[..i];
      assert Pow(2, 8) == 256;
      res := res + ByteToBits(bytes[i]);
    }
    assert bytes[..|bytes|] == bytes;
  }

  /** Bytes made of eight bits each stand for the same number as the bits. */
  lemma {:induction false} SameValue(bits: Bits, bytes: Bytes)
    requires |bits| == 8 * |bytes|
    requires forall i :: 0 <= i < |bytes| ==> bytes[i] == BitsToByte(bits[8 * i..8 * i + 8])
    ensures FromBigEndian(bytes) == Value(bits)
  {
    if bytes != [] {
      var n := |bytes| - 1;
      var head, byte := bits[..8 * n], bits[8 * n..];
      forall i | 0 <= i < n
        ensures bytes[..n][i] == BitsToByte(head[8 * i..8 * i + 8])
      {
        Inside(bits, 8 * n, 8 * i);
      }
      SameValue(head, bytes[..n]);
      JoinByte(head, byte);
      assert bits == head + byte;
    }
  }

  lemma Inside(bits: Bits, n: nat, i: nat)
    requires i + 8 <= n <= |bits|
    ensures bits[..n][i..i + 8] == bits[i..i + 8]
  {
  }

  lemma JoinByte(head: Bits, byte: Bits)
    requires |byte| == 8
    ensures Value(head + byte) == Value(head) * 256 + BitsToByte(byte)
  {
    BitsToByteIs(byte);
    ValueAppend(head, byte);
    assert Pow(2, 8) == 256;
  }

  method BitsToBytes(bits: Bits, width: nat) returns (res: Bytes)
    requires |bits| == 8 * width
    ensures |res| == width
    ensures forall i :: 0 <= i < width ==> res[i] == BitsToByte(bits[8 * i..8 * i + 8])
  {
    res := [];
    for i := 0 to width
      invariant |res| == i
      invariant forall k :: 0 <= k < i ==> res[k] == BitsToByte(bits[8 * k..8 * k + 8])
    {
      var x := 8 * i;
      res := res + [BitsToByte(bits[x..x + 8])];
    }
  }

  /** The position of the first one, or the length. */
  method LeftZero(buf: Bits) returns (lzo: nat)
    ensures lzo <= |buf| && (lzo < |buf| ==> buf[lzo])
    ensures buf == Fill(false, lzo) + buf[lzo..]
  {
    lzo := 0;
    while lzo < |buf|
      invariant lzo <= |buf| && forall i :: 0 <= i < lzo ==> !buf[i]
    {
      if buf[lzo] {
        break;
      }
      lzo := lzo + 1;
    }
  }

  lemma NumberBytes(b: Bytes)
    requires |b| == 4
    ensures FromBigEndian(b) == b[0] * MANTISSA_END + FromBigEndian(b[1..]) && FromBigEndian(b[1..]) < MANTISSA_END
  {
    HighByte(b);
    assert Pow(256, 3) == MANTISSA_END;
  }

  lemma AppendByte(bits: Bits, b: Byte)
    ensures Value(bits + ByteToBits(b)) == Value(bits) * 256 + b
  {
    ByteToBitsIs(b);
    BitsToByteIs(ByteToBits(b));
    JoinByte(bits, ByteToBits(b));
  }

  lemma ThreeBytes(b: Bytes)
    requires |b| == 3
    ensures var b0: nat, b1: nat, b2: nat := b[0], b[1], b[2]; FromBigEndian(b) == (b0 * 256 + b1) * 256 + b2
  {
    assert FromBigEndian(b[..1]) == b[0];
    assert FromBigEndian(b[..2]) == FromBigEndian(b[..1]) * 256 + b[1];
    assert b[..2][..1] == b[..1] && b[..1][..0] == [];
  }

  lemma MantissaBits(b: Bytes)
    requires |b| == 3
    ensures Value(ByteToBits(b[0]) + ByteToBits(b[1]) + ByteToBits(b[2])) == FromBigEndian(b)
  {
    ByteToBitsIs(b[0]);
    AppendByte(ByteToBits(b[0]), b[1]);
    AppendByte(ByteToBits(b[0]) + ByteToBits(b[1]), b[2]);
    ThreeBytes(b);
  }

  lemma ZerosBefore(m: nat, bits: Bits)
    ensures Value(Fill(false, m) + bits) == Value(bits)
  {
    ZerosValue(m);
    ValueAppend(Fill(false, m), bits);
  }

  lemma ZerosBehind(bits: Bits, n: nat)
    ensures Value(bits + Fill(false, n)) == Value(bits) * Pow(2, n)
  {
    ZerosValue(n);
    ValueAppend(bits, Fill(false, n));
  }

  lemma OnesBehind(bits: Bits, n: nat)
    ensures Pow(2, n) > 0 && Value(bits + Fill(true, n)) == Value(bits) * Pow(2, n) + Pow(2, n) - 1
  {
    PowPositive(2, n);
    OnesValue(n);
    ValueAppend(bits, Fill(true, n));
  }

  lemma Padded(bits: Bits, m: nat, n: nat)
    ensures Value(Fill(false, m) + bits + Fill(false, n)) == Value(bits) * Pow(2, n)
  {
    ZerosBefore(m, bits);
    ZerosBehind(Fill(false, m) + bits, n);
  }

  /** The three mantissa bytes, `exp - 23` bits from the end. */
  lemma PaddedMantissa(num: nat, b: Bytes, bits: Bits)
    requires num < 0x1_0000_0000 && Exponent(num) >= 23 && b == BigEndian(num, 4)
    requires bits == ByteToBits(b[1]) + ByteToBits(b[2]) + ByteToBits(b[3])
    ensures b[0] == Exponent(num)
    ensures Value(Fill(false, 255 - b[0]) + bits + Fill(false, b[0] - 23)) == Target(num)
  {
    SplitBytes(num, b);
    MantissaBits(b[1..]);
    Padded(bits, 255 - b[0], b[0] - 23);
  }

  lemma SplitBytes(num: nat, b: Bytes)
    requires num < 0x1_0000_0000 && b == BigEndian(num, 4)
    ensures b[0] == Exponent(num) && FromBigEndian(b[1..]) == Mantissa(num)
  {
    BigEndianRoundTrip(num, 4);
    NumberBytes(b);
    Parts(b[0], FromBigEndian(b[1..]));
  }

  /** The hash that is the target of `num`. */
  method U32ToHash(num: nat) returns (hash: Bytes)
    requires num < 0x1_0000_0000 && Exponent(num) >= 23
    ensures |hash| == HASH_WIDTH && FromBigEndian(hash) == Target(num)
  {
    var numbts := BigEndian(num, 4);
    var bits := Fill(false, 255 - numbts[0]);
    var bits2 := ByteToBits(numbts[1]) + ByteToBits(numbts[2]) + ByteToBits(numbts[3]);
    PaddedMantissa(num, numbts, bits2);
    bits := bits + bits2;
    bits := bits + Fill(false, 256 - |bits|);
    hash := BitsToBytes(bits, HASH_WIDTH);
    SameValue(bits, hash);
  }

  lemma FirstBits(rest: Bits)
    requires |rest| >= 24
    ensures Pow(2, |rest| - 24) > 0 && Value(rest[..24]) == Value(rest) / Pow(2, |rest| - 24)
  {
    var head, tail := rest[..24], rest[24..];
    PowPositive(2, |tail|);
    assert rest == head + tail;
    ValueAppend(head, tail);
    ValueFits(tail);
    QuotientIs(Value(rest), Pow(2, |tail|), Value(head), Value(tail));
  }

  /** The digits of a number without leading zeros, filled up with ones. */
  lemma LeadingDigits(rest: Bits, n: nat)
    requires rest != [] && rest[0] && |rest| + n >= 24
    ensures Number(Value(rest)) == (|rest| - 1) * MANTISSA_END + Value((rest + Fill(true, n))[..24])
  {
    ValueFits(rest);
    ValueAtLeast(rest);
    LengthIs(Value(rest), |rest|);
    FilledDigits(rest, n);
  }

  lemma TakeFilled(rest: Bits, n: nat)
    requires |rest| + n >= 24
    ensures (rest + Fill(true, n))[..24] == if |rest| >= 24 then rest[..24] else rest + Fill(true, 24 - |rest|)
  {
  }

  lemma FilledDigits(rest: Bits, n: nat)
    requires rest != [] && |rest| + n >= 24
    ensures Pow(2, if |rest| >= 24 then |rest| - 24 else 24 - |rest|) > 0
    ensures Value((rest + Fill(true, n))[..24]) ==
      if |rest| >= 24 then Value(rest) / Pow(2, |rest| - 24)
      else Value(rest) * Pow(2, 24 - |rest|) + Pow(2, 24 - |rest|) - 1
  {
    TakeFilled(rest, n);
    if |rest| >= 24 {
      FirstBits(rest);
    } else {
      OnesBehind(rest, 24 - |rest|);
    }
  }

  lemma AnyDigits(rest: Bits, lzero: nat, x: nat)
    requires lzero + |rest| == 256 && (rest != [] ==> rest[0]) && Value(rest) == x
    ensures Number(x) == (255 - lzero % 256) * MANTISSA_END + Value((rest + Fill(true, lzero))[..24])
  {
    if rest != [] {
      LeadingDigits(rest, lzero);
      assert lzero % 256 == lzero;
    } else {
      NoDigits(lzero);
      Nothing(rest, Fill(true, lzero));
    }
  }

  lemma Nothing(none: Bits, bits: Bits)
    requires none == []
    ensures none + bits == bits && Value(none) == 0
  {
  }

  lemma NoDigits(n: nat)
    requires n == 256
    ensures Number(0) == (255 - n % 256) * MANTISSA_END + Value(Fill(true, n)[..24])
  {
    OnesValue(24);
    Powers();
    assert Fill(true, n)[..24] == Fill(true, 24);
  }

  lemma FirstThree(bits: Bits, bytes: Bytes)
    requires |bits| == 8 * |bytes| && |bytes| >= 3
    requires forall i :: 0 <= i < |bytes| ==> bytes[i] == BitsToByte(bits[8 * i..8 * i + 8])
    ensures FromBigEndian(bytes[..3]) == Value(bits[..24])
  {
    forall i | 0 <= i < 3
      ensures bytes[..3][i] == BitsToByte(bits[..24][8 * i..8 * i + 8])
    {
      assert bits[..24][8 * i..8 * i + 8] == bits[8 * i..8 * i + 8];
    }
    SameValue(bits[..24], bytes[..3]);
  }

  /** The number of a hash; the length is taken modulo 256, as its byte is. */
  method HashToU32(hash: Bytes) returns (num: nat)
    requires |hash| == HASH_WIDTH
    ensures num == Number(FromBigEndian(hash))
  {
    var bits := BytesToBits(hash);
    var lzero := LeftZero(bits);
    ZerosBefore(lzero, bits[lzero..]);
    AnyDigits(bits[lzero..], lzero, FromBigEndian(hash));
    var digits := bits[lzero..] + Fill(true, lzero);
    var reshx := BitsToBytes(digits, HASH_WIDTH);
    FirstThree(digits, reshx);
    var u32bts: Bytes := [255 - lzero % 256, reshx[0], reshx[1], reshx[2]];
    num := FromBigEndian(u32bts);
    NumberBytes(u32bts);
    assert u32bts[1..] == reshx[..3];
  }

  /** A target above 256 bits becomes the largest hash. */
  function TargetToHash(x: nat): (hash: Bytes)
    ensures |hash| == HASH_WIDTH
  {
    if x < Pow(2, 256) then BigEndian(x, HASH_WIDTH) else seq(HASH_WIDTH, i => 255)
  }

  function Capped(x: nat): nat {
    PowPositive(2, 256);
    if x < Pow(2, 256) then x else Pow(2, 256) - 1
  }

  lemma {:induction false} FullBytes(n: nat)
    ensures FromBigEndian(seq(n, i => 255)) == Pow(256, n) - 1
  {
    if n > 0 {
      FullBytes(n - 1);
      assert seq(n, i => 255)[..n - 1] == seq(n - 1, i => 255);
    }
  }

  lemma {:induction false} BytesAndBits(n: nat)
    ensures Pow(256, n) == Pow(2, 8 * n)
  {
    if n > 0 {
      BytesAndBits(n - 1);
      PowAdd(2, 8, 8 * (n - 1));
      assert Pow(2, 8) == 256;
    }
  }

  lemma TargetToHashIs(x: nat)
    ensures FromBigEndian(TargetToHash(x)) == Capped(x)
  {
    BytesAndBits(HASH_WIDTH);
    if x < Pow(2, 256) {
      BigEndianRoundTrip(x, HASH_WIDTH);
    } else {
      FullBytes(HASH_WIDTH);
    }
  }

  // ---- comparing ----------------------------------------------------------

  /** Compares as far as the shorter one reaches. */
  method HashBigThan(src: Bytes, tar: Bytes) returns (big: bool)
    ensures var sz := if |src| > |tar| then |tar| else |src|;
      big <==> FromBigEndian(src[..sz]) > FromBigEndian(tar[..sz])
  {
    var sz := |src|;
    if sz > |tar| {
      sz := |tar|;
    }
    for i := 0 to sz
      invariant src[..i] == tar[..i]
    {
      if src[i] != tar[i] {
        assert src[..sz][..i] == src[..i] && tar[..sz][..i] == tar[..i];
        FirstDifference(src[..sz], tar[..sz], i);
        return src[i] > tar[i];
      }
    }
    big := false;
  }

  lemma {:induction false} FirstDifference(a: Bytes, b: Bytes, i: nat)
    requires |a| == |b| && i < |a| && a[..i] == b[..i] && a[i] != b[i]
    ensures FromBigEndian(a) > FromBigEndian(b) <==> a[i] > b[i]
    ensures FromBigEndian(a) != FromBigEndian(b)
  {
    var n := |a| - 1;
    if i < n {
      assert a[..n][..i] == a[..i] && b[..n][..i] == b[..i];
      FirstDifference(a[..n], b[..n], i);
    }
  }

  // ---- adjusting ----------------------------------------------------------

  /** `cycle` blocks, `spacing` seconds apart, make up one adjustment period. */
  datatype Config = Config(chainId: nat, cycle: nat, spacing: nat) {
    function Goal(): nat {
      cycle * spacing
    }
  }

  /** What the rule looks at: the previous block's number and time, and the time of the block one cycle back. */
  datatype Visit = Visit(hei: nat, prevTime: nat, cycleTime: nat)

  predicate Usable(cnf: Config, v: Visit) {
    cnf.cycle > 0 && cnf.spacing > 0 && v.cycleTime <= v.prevTime
  }

  function Clamp(span: nat, goal: nat): nat {
    if span < goal / 4 then goal / 4 else if span > goal * 4 then goal * 4 else span
  }

  function Adjust(prior: nat, span: nat, goal: nat): nat
    requires goal > 0
  {
    Scaled(prior, Clamp(span, goal), goal)
  }

  function Scaled(a: nat, b: nat, d: nat): nat
    requires d > 0
  {
    a * b / d
  }

  lemma ScaledOrder(a: nat, b: nat, c: nat, d: nat)
    requires d > 0 && b <= c
    ensures Scaled(a, b, d) <= Scaled(a, c, d)
  {
    MulOrder(b, c, a);
    QuotientOrder(a * b, a * c, d);
  }

  lemma ScaledBack(a: nat, k: nat, d: nat)
    requires d > 0
    ensures Scaled(a, d * k, d) == a * k
  {
    assert a * (d * k) == (a * k) * d by {
      MulAssociates(a, d, k);
      MulAssociates(a, k, d);
    }
    QuotientIs(a * (d * k), d, a * k, 0);
  }

  function Span(cnf: Config, v: Visit): nat
    requires v.cycleTime <= v.prevTime
  {
    // the first blocks of the main chain counted one block less
    cnf.spacing + v.prevTime - v.cycleTime - (if cnf.chainId == 0 && v.hei < 288 * 450 then cnf.spacing else 0)
  }

  predicate Adjusts(cnf: Config, hei: nat)
    requires cnf.cycle > 0
  {
    cnf.cycle * 2 <= hei && hei % cnf.cycle == 0
  }

  function NextTarget(cnf: Config, prev: nat, v: Visit): nat
    requires Usable(cnf, v) && Exponent(prev) >= 23
  {
    MulPositive(cnf.cycle, cnf.spacing);
    if v.hei < cnf.cycle * 2 then Target(LOWEST_DIFFICULTY)
    else if v.hei % cnf.cycle != 0 then Target(prev)
    else Adjust(Target(prev), Span(cnf, v), cnf.Goal())
  }

  function NextNumber(cnf: Config, prev: nat, v: Visit): nat
    requires Usable(cnf, v) && Exponent(prev) >= 23
  {
    if v.hei < cnf.cycle * 2 then LOWEST_DIFFICULTY
    else if v.hei % cnf.cycle != 0 then prev
    else Number(Capped(NextTarget(cnf, prev, v)))
  }

  /** The hash and the target of a number that is kept. */
  method KeptTarget(num: nat) returns (hash: Bytes, target: nat)
    requires num < 0x1_0000_0000 && Exponent(num) >= 23
    ensures |hash| == HASH_WIDTH && FromBigEndian(hash) == target == Target(num) == Capped(target)
  {
    hash := U32ToHash(num);
    TargetFits(num);
    target := FromBigEndian(hash);
  }

  method AdjustedTarget(prev: nat, time: nat, goal: nat) returns (num: nat, hash: Bytes, target: nat)
    requires Exponent(prev) >= 23 && prev < 0x1_0000_0000 && goal > 0
    ensures target == Adjust(Target(prev), time, goal) && num == Number(Capped(target))
    ensures |hash| == HASH_WIDTH && FromBigEndian(hash) == Capped(target)
  {
    var span := time;
    if span < goal / 4 {
      span := goal / 4;
    } else if span > goal * 4 {
      span := goal * 4;
    }
    var prevHash := U32ToHash(prev);
    target := Scaled(FromBigEndian(prevHash), span, goal);
    hash := TargetToHash(target);
    TargetToHashIs(target);
    num := HashToU32(hash);
  }

  /** The number, the hash and the target of the block at `v.hei`. */
  method RequiredTarget(cnf: Config, prev: nat, v: Visit) returns (num: nat, hash: Bytes, target: nat)
    requires Usable(cnf, v) && Exponent(prev) >= 23 && prev < 0x1_0000_0000
    ensures num == NextNumber(cnf, prev, v) && target == NextTarget(cnf, prev, v) && Ruled(cnf, prev, v, num, target)
    ensures |hash| == HASH_WIDTH && FromBigEndian(hash) == Capped(target)
  {
    NextIsRuled(cnf, prev, v);
    if v.hei < cnf.cycle * 2 {
      num := LOWEST_DIFFICULTY;
      hash, target := KeptTarget(num);
    } else if v.hei % cnf.cycle != 0 {
      num := prev;
      hash, target := KeptTarget(num);
    } else {
      MulPositive(cnf.cycle, cnf.spacing);
      var time := cnf.spacing + v.prevTime - v.cycleTime;
      if cnf.chainId == 0 && v.hei < 288 * 450 {
        time := time - cnf.spacing;
      }
      num, hash, target := AdjustedTarget(prev, time, cnf.cycle * cnf.spacing);
    }
  }

  lemma TargetFits(num: nat)
    requires num < 0x1_0000_0000 && Exponent(num) >= 23
    ensures Target(num) < Pow(2, 256)
  {
    var k := Exponent(num) - 23;
    PowPositive(2, k);
    FullMantissa(k);
    MulStrictOrder(Mantissa(num), MANTISSA_END, Pow(2, k));
    PowOrder(k + 24, 256);
  }

  /** One adjustment changes a target by a factor of four at most, up to rounding. */
  lemma AdjustBounds(prior: nat, span: nat, goal: nat)
    requires goal > 0
    ensures prior * (goal / 4) / goal <= Adjust(prior, span, goal) <= prior * 4
  {
    ScaledOrder(prior, goal / 4, Clamp(span, goal), goal);
    ScaledOrder(prior, Clamp(span, goal), goal * 4, goal);
    ScaledBack(prior, 4, goal);
  }

  /** Slower blocks never make the work harder. */
  lemma AdjustOrder(prior: nat, span1: nat, span2: nat, goal: nat)
    requires goal > 0 && span1 <= span2
    ensures Adjust(prior, span1, goal) <= Adjust(prior, span2, goal)
  {
    ScaledOrder(prior, Clamp(span1, goal), Clamp(span2, goal), goal);
  }

  /** A cycle that took exactly its time leaves a canonical number as it is. */
  lemma OnTime(cnf: Config, prev: nat, v: Visit)
    requires Usable(cnf, v) && Canonical(prev) && Adjusts(cnf, v.hei) && Span(cnf, v) == cnf.Goal()
    ensures NextNumber(cnf, prev, v) == prev && NextTarget(cnf, prev, v) == Target(prev)
  {
    MulPositive(cnf.cycle, cnf.spacing);
    ScaledBack(Target(prev), 1, cnf.Goal());
    EncodeDecode(prev);
  }

  /** Numbers follow spans: of two adjustments of the same number the slower cycle's is not smaller. */
  lemma SlowerIsEasier(cnf: Config, prev: nat, v: Visit, w: Visit)
    requires Usable(cnf, v) && Usable(cnf, w) && Exponent(prev) >= 23 && v.hei == w.hei && Adjusts(cnf, v.hei)
    requires Span(cnf, v) <= Span(cnf, w) && NextTarget(cnf, prev, v) > 0
    ensures NextTarget(cnf, prev, v) <= NextTarget(cnf, prev, w)
    ensures NextNumber(cnf, prev, v) <= NextNumber(cnf, prev, w)
  {
    MulPositive(cnf.cycle, cnf.spacing);
    PowPositive(2, 256);
    AdjustOrder(Target(prev), Span(cnf, v), Span(cnf, w), cnf.Goal());
    assert Pow(2, 256) > 1 by { PowOrder(1, 256); }
    NumberOrder(Capped(NextTarget(cnf, prev, v)), Capped(NextTarget(cnf, prev, w)));
  }

  /** The number of a target below 2^23 cannot be decoded any more; only zero starts over. */
  lemma CanonicalFrom(x: nat)
    requires x < Pow(2, 256)
    ensures Canonical(Number(x)) <==> x == 0 || Pow(2, 23) <= x
    ensures 0 < x < Pow(2, 23) ==> Exponent(Number(x)) < 23
  {
    if Pow(2, 23) <= x {
      DecodeEncode(x);
    } else if x > 0 {
      LengthWithin(x, 23);
      NumberRange(x);
      MulOrder(Length(x), 23, MANTISSA_END);
    }
  }

  // ---- the rule in figures ------------------------------------------------

  /** The time that the last cycle took: from the block one cycle back to the previous block, and one spacing
      more, which was left out at first on the main chain. */
  function CycleTime(cnf: Config, v: Visit): nat
    requires v.cycleTime <= v.prevTime
  {
    v.prevTime - v.cycleTime + if cnf.chainId == 0 && v.hei < 12_9600 then 0 else cnf.spacing
  }

  /** The target after `prior` when a cycle should have taken `goal` and took `time`: in proportion, and
      within a factor of four. */
  ghost predicate Retargeted(prior: nat, time: nat, goal: nat, target: nat)
    requires goal > 0
  {
    && (time < goal / 4 ==> target == prior * (goal / 4) / goal)
    && (goal / 4 <= time <= goal * 4 ==> target == prior * time / goal)
    && (goal * 4 < time ==> target == prior * 4)
  }

  lemma AdjustRetargets(prior: nat, time: nat, goal: nat)
    requires goal > 0
    ensures Retargeted(prior, time, goal, Adjust(prior, time, goal))
  {
    if time > goal * 4 {
      ScaledBack(prior, 4, goal);
    }
  }

  /** `m` in the lower three bytes counts `2` to the power of the first byte less 23. */
  lemma TargetInFigures(e: nat, m: nat)
    requires 23 <= e && m < 0x100_0000
    ensures Exponent(e * 0x100_0000 + m) == e && Target(e * 0x100_0000 + m) == m * Pow(2, e - 23)
  {
    assert (e * 0x100_0000 + m) / 0x100_0000 == e && (e * 0x100_0000 + m) % 0x100_0000 == m;
  }

  /** The number of `x` holds the count of its binary digits less one, and below it the first 24 of them,
      filled up with ones. */
  lemma NumberInFigures(x: nat, len: nat)
    requires len > 0 && Pow(2, len - 1) <= x < Pow(2, len)
    ensures len >= 24 ==> Pow(2, len - 24) > 0 && Number(x) == (len - 1) * 0x100_0000 + x / Pow(2, len - 24)
    ensures len < 24 ==> Number(x) == (len - 1) * 0x100_0000 + (x + 1) * Pow(2, 24 - len) - 1
  {
    PowPositive(2, if len >= 24 then len - 24 else 24 - len);
    LengthIs(x, len);
  }

  /** The rule, by height: the lowest difficulty for two cycles, then the previous number, and at the end of
      each cycle the previous target in proportion to the time taken. */
  ghost predicate Ruled(cnf: Config, prev: nat, v: Visit, num: nat, target: nat)
    requires Usable(cnf, v) && Exponent(prev) >= 23
  {
    MulPositive(cnf.cycle, cnf.spacing);
    PowPositive(2, 256);
    && (v.hei < cnf.cycle * 2 ==> num == 0xFFFF_FFFE && target == 0xFF_FFFE * Pow(2, 232))
    && (v.hei >= cnf.cycle * 2 && v.hei % cnf.cycle != 0 ==>
          num == prev && target == prev % 0x100_0000 * Pow(2, prev / 0x100_0000 - 23))
    && (v.hei >= cnf.cycle * 2 && v.hei % cnf.cycle == 0 ==>
          && Retargeted(prev % 0x100_0000 * Pow(2, prev / 0x100_0000 - 23), CycleTime(cnf, v),
               cnf.cycle * cnf.spacing, target)
          && num == Number(if target < Pow(2, 256) then target else Pow(2, 256) - 1))
  }

  /** That is the rule that all of the above is about. */
  lemma NextIsRuled(cnf: Config, prev: nat, v: Visit)
    requires Usable(cnf, v) && Exponent(prev) >= 23
    ensures Ruled(cnf, prev, v, NextNumber(cnf, prev, v), NextTarget(cnf, prev, v))
  {
    MulPositive(cnf.cycle, cnf.spacing);
    TargetInFigures(255, 0xFF_FFFE);
    TargetInFigures(prev / 0x100_0000, prev % 0x100_0000);
    AdjustRetargets(Target(prev), Span(cnf, v), cnf.Goal());
  }

  /** The number after a run of blocks, as long as every number can be decoded. */
  function RunNumbers(cnf: Config, num: nat, vs: seq<Visit>): Option<nat>
    requires forall v :: v in vs ==> Usable(cnf, v)
    decreases |vs|
  {
    if vs == [] then Some(num)
    else if Exponent(num) < 23 then None
    else RunNumbers(cnf, NextNumber(cnf, num, vs[0]), vs[1..])
  }

  ghost predicate TargetsStayUp(cnf: Config, num: nat, vs: seq<Visit>)
    requires forall v :: v in vs ==> Usable(cnf, v)
    decreases |vs|
  {
    vs == [] || Exponent(num) < 23 ||
    (NextTarget(cnf, num, vs[0]) >= 0x80_0000 && TargetsStayUp(cnf, NextNumber(cnf, num, vs[0]), vs[1..]))
  }

  lemma NextCanonical(cnf: Config, num: nat, v: Visit)
    requires Usable(cnf, v) && Canonical(num) && NextTarget(cnf, num, v) >= 0x80_0000
    ensures Canonical(NextNumber(cnf, num, v))
  {
    Powers();
    PowOrder(24, 256);
    CanonicalFrom(Capped(NextTarget(cnf, num, v)));
  }

  /** From the lowest difficulty on, every number of a run is canonical while targets stay above 2^23. */
  lemma {:induction false} RunStaysCanonical(cnf: Config, num: nat, vs: seq<Visit>)
    requires forall v :: v in vs ==> Usable(cnf, v)
    requires Canonical(num) && TargetsStayUp(cnf, num, vs)
    ensures Canonical(LOWEST_DIFFICULTY)
    ensures RunNumbers(cnf, num, vs).Some? && Canonical(RunNumbers(cnf, num, vs).value)
    decreases |vs|
  {
    if vs != [] {
      NextCanonical(cnf, num, vs[0]);
      RunStaysCanonical(cnf, NextNumber(cnf, num, vs[0]), vs[1..]);
    }
  }
}
