/**
 The variable-length code of unsigned 64-bit numbers: the count of leading one bits in the first byte
 says how many bytes follow it, and the bits after the first zero carry the number.
 */
module AutoU64Code {
  import opened Base
  import opened Octets

  const U64_END: nat := 0x1_0000_0000_0000_0000
  const BITS: seq<Byte> := [0x80, 0x40, 0x20, 0x10, 0x08, 0x04, 0x02, 0x01]
  const MARKS: seq<Byte> := [0x00, 0x80, 0xC0, 0xE0, 0xF0, 0xF8, 0xFC, 0xFE]

  /** The first number that does not fit into `i` further bytes. */
  const LIMITS: seq<nat> := [
    0x80, 0x4000, 0x20_0000, 0x1000_0000, 0x8_0000_0000, 0x400_0000_0000, 0x2_0000_0000_0000, 0x100_0000_0000_0000]

  // ---- bits and bytes -----------------------------------------------------

  function And(a: nat, b: nat): nat {
    if a == 0 || b == 0 then 0 else 2 * And(a / 2, b / 2) + if a % 2 == 1 && b % 2 == 1 then 1 else 0
  }

  function Or(a: nat, b: nat): nat {
    if a == 0 then b else if b == 0 then a
    else 2 * Or(a / 2, b / 2) + if a % 2 == 0 && b % 2 == 0 then 0 else 1
  }

  lemma {:induction false} AndLow(a: nat, k: nat)
    ensures Pow(2, k) > 0 && And(a, Pow(2, k) - 1) == a % Pow(2, k)
  {
    if k > 0 {
      AndLow(a / 2, k - 1);
      Halve(a, Pow(2, k - 1));
    }
  }

  lemma {:induction false} AndBit(a: nat, k: nat)
    ensures Pow(2, k) > 0 && And(a, Pow(2, k)) == if a / Pow(2, k) % 2 == 1 then Pow(2, k) else 0
  {
    if k > 0 {
      AndBit(a / 2, k - 1);
      Halve(a, Pow(2, k - 1));
    } else {
      assert And(a / 2, 0) == 0;
    }
  }

  lemma {:induction false} OrDisjoint(a: nat, m: nat, k: nat)
    requires a < Pow(2, k)
    ensures Or(a, m * Pow(2, k)) == a + m * Pow(2, k)
  {
    if a > 0 && m > 0 {
      PowPositive(2, k);
      MulPositive(m, Pow(2, k));
      assert k > 0;
      assert m * Pow(2, k) == 2 * (m * Pow(2, k - 1)) by {
        MulAssociates(m, 2, Pow(2, k - 1));
        MulAssociates(2, m, Pow(2, k - 1));
      }
      OrDisjoint(a / 2, m, k - 1);
    }
  }

  // ---- the code -----------------------------------------------------------

  /** How many bytes follow the first one. */
  function Extra(v: nat, i: nat): (n: nat)
    requires i <= 8
    ensures i <= n <= 8
    ensures n < 8 ==> v < LIMITS[n]
    ensures forall k :: i <= k < n ==> LIMITS[k] <= v
    decreases 8 - i
  {
    if i == 8 || v < LIMITS[i] then i else Extra(v, i + 1)
  }

  lemma HeadSmall(v: nat, n: nat)
    requires n < 8 && v < LIMITS[n]
    ensures BigEndian(v, n + 1)[0] < Pow(2, 7 - n)
  {
    var b := BigEndian(v, n + 1);
    LimitIs(n);
    BigEndianRoundTrip(v, n + 1);
    HighByte(b);
    HighPart(b[0], Pow(256, n), FromBigEndian(b[1..]), Pow(2, 7 - n));
  }

  /** The bits of the first byte that carry the number do not meet its mark. */
  lemma MarkedHead(v: nat, n: nat)
    requires n < 8 && v < LIMITS[n]
    ensures var head: nat := BigEndian(v, n + 1)[0];
      Or(head, MARKS[n]) == MARKS[n] + head < 256 && LeadingOnes(MARKS[n] + head, 0) == (n, head)
  {
    HeadSmall(v, n);
    OrMark(BigEndian(v, n + 1)[0], n);
    HeadOf(n, BigEndian(v, n + 1)[0]);
  }

  lemma OrMark(h: nat, n: nat)
    requires n < 8 && h < Pow(2, 7 - n)
    ensures Or(h, MARKS[n]) == MARKS[n] + h < 256
  {
    MarkIs(n);
    OrDisjoint(h, (Pow(2, n) - 1) * 2, 7 - n);
  }

  lemma LimitIs(n: nat)
    requires n < 8
    ensures LIMITS[n] == Pow(2, 7 - n) * Pow(256, n) && LIMITS[n] <= Pow(256, n + 1) && LIMITS[n] <= U64_END
  {
    PowersOfTwo();
    PowersOf256();
  }

  lemma PowersOf256()
    ensures Pow(256, 0) == 1 && Pow(256, 1) == 0x100 && Pow(256, 2) == 0x1_0000 && Pow(256, 3) == 0x100_0000
    ensures Pow(256, 4) == 0x1_0000_0000 && Pow(256, 5) == 0x100_0000_0000 && Pow(256, 6) == 0x1_0000_0000_0000
    ensures Pow(256, 7) == 0x100_0000_0000_0000 && Pow(256, 8) == U64_END
  {
  }

  lemma MarkIs(n: nat)
    requires n < 8
    ensures Pow(2, n) >= 1 && MARKS[n] == (Pow(2, n) - 1) * 2 * Pow(2, 7 - n) && Pow(2, 7 - n) + MARKS[n] <= 256
  {
    PowersOfTwo();
  }

  lemma PowersOfTwo()
    ensures Pow(2, 0) == 1 && Pow(2, 1) == 2 && Pow(2, 2) == 4 && Pow(2, 3) == 8 && Pow(2, 4) == 16
    ensures Pow(2, 5) == 32 && Pow(2, 6) == 64 && Pow(2, 7) == 128 && Pow(2, 8) == 256
  {
  }

  function Encode(v: nat): Bytes {
    var n := Extra(v, 0);
    if n == 8 then [0xFF] + BigEndian(v, 8)
    else
      var tail := BigEndian(v, n + 1);
      MarkedHead(v, n);
      [Or(tail[0], MARKS[n])] + tail[1..]
  }

  /** The leading ones of a byte from its `n`-th bit on, and what stands after the first zero. */
  function LeadingOnes(a: Byte, n: nat): (nat, nat)
    requires n <= 8
    decreases 8 - n
  {
    if n == 8 then (8, 0)
    else if And(a, BITS[n]) == BITS[n] then LeadingOnes(a, n + 1)
    else (n, And(a, BITS[n] - 1))
  }

  /** After `n` ones the next bit is found by comparing with the mark. */
  lemma Ones(a: Byte, n: nat)
    requires n < 8 && MARKS[n] <= a
    ensures LeadingOnes(a, n) == if MARKS[n] + BITS[n] <= a then LeadingOnes(a, n + 1) else (n, a - MARKS[n])
  {
    BitIs(n);
    AndBit(a, 7 - n);
    AndLow(a, 7 - n);
    NextBit(a, n);
  }

  lemma BitIs(n: nat)
    requires n < 8
    ensures BITS[n] == Pow(2, 7 - n)
  {
    PowersOfTwo();
  }

  lemma NextBit(a: Byte, n: nat)
    requires n < 8 && MARKS[n] <= a
    ensures a / BITS[n] % 2 == 1 <==> MARKS[n] + BITS[n] <= a
    ensures a < MARKS[n] + BITS[n] ==> a % BITS[n] == a - MARKS[n]
  {
    match n
    case 0 => 
    case 1 =>
    case 2 =>
    case 3 =>
    case 4 =>
    case 5 =>
    case 6 =>
    case 7 =>
  }

  lemma {:induction false} OnesFrom(a: Byte, n: nat)
    requires n <= 8 && if n < 8 then MARKS[n] <= a else a == 0xFF
    ensures var (m, b) := LeadingOnes(a, n);
      n <= m <= 8 && (m == 8 <==> a == 0xFF) && (m < 8 ==> a == MARKS[m] + b && b < BITS[m])
    decreases 8 - n
  {
    if n < 8 {
      Ones(a, n);
      if MARKS[n] + BITS[n] <= a {
        OnesFrom(a, n + 1);
      }
    }
  }

  lemma HeadParts(a: Byte)
    ensures var (n, b) := LeadingOnes(a, 0);
      n <= 8 && (n == 8 <==> a == 0xFF) && (n < 8 ==> a == MARKS[n] + b && b < Pow(2, 7 - n))
  {
    OnesFrom(a, 0);
    if LeadingOnes(a, 0).0 < 8 {
      BitIs(LeadingOnes(a, 0).0);
    }
  }

  lemma HeadOf(n: nat, b: nat)
    requires n < 8 && b < Pow(2, 7 - n)
    ensures MARKS[n] + b < 256 && LeadingOnes(MARKS[n] + b, 0) == (n, b)
  {
    BitIs(n);
    HeadIs(MARKS[n] + b, n, b);
  }

  lemma HeadIs(a: nat, n: nat, b: nat)
    requires n < 8 && b < BITS[n] && a == MARKS[n] + b
    ensures a < 256 && LeadingOnes(a, 0) == (n, b)
  {
    MarksApart(n, n);
    HeadAt(a, n, b, 0);
  }

  lemma HeadAt(a: Byte, n: nat, b: nat, from: nat)
    requires from <= n < 8 && MARKS[from] <= a == MARKS[n] + b && b < BITS[n]
    ensures LeadingOnes(a, from) == (n, b)
  {
    OnesFrom(a, from);
    OneHead(a, n, LeadingOnes(a, from).0);
  }

  lemma OneHead(a: nat, n: nat, m: nat)
    requires n < 8 && MARKS[n] <= a < MARKS[n] + BITS[n]
    requires if m < 8 then MARKS[m] <= a < MARKS[m] + BITS[m] else a == 0xFF
    ensures m == n
  {
    MarksApart(n, 7);
    if m < n {
      MarksApart(m, n);
    } else if n < m < 8 {
      MarksApart(n, m);
    }
  }

  /** The first bytes with `m` leading ones come before those with more. */
  lemma MarksApart(m: nat, n: nat)
    requires m < 8 && n < 8
    ensures MARKS[m] + BITS[m] <= 0xFF
    ensures m < n ==> MARKS[m] + BITS[m] <= MARKS[n]
  {
  }

  datatype TooShort = TooShort(need: nat, got: nat)

  function Clip(buf: Bytes, len: nat): Result<Bytes, TooShort> {
    if len > |buf| then Err(TooShort(len, |buf|)) else Ok(buf[..len])
  }

  /** The number in eight bytes: those clipped, filled up with the bits of the first byte and zeros. */
  function Value(bdsz: nat, b1v: Byte, clip: Bytes): nat
    requires |clip| == bdsz <= 8
  {
    FromBigEndian(if bdsz == 8 then clip else Zeros(7 - bdsz) + [b1v] + clip)
  }

  /** The number at the front of `buf` and the length of its code. */
  function Decode(buf: Bytes): Result<(nat, nat), TooShort> {
    if buf == [] then Err(TooShort(1, 0))
    else
      HeadParts(buf[0]);
      var (n, first) := LeadingOnes(buf[0], 0);
      match Clip(buf[1..], n)
      case Err(e) => Err(e)
      case Ok(clip) => Ok((Value(n, first, clip), n + 1))
  }

  // ---- the code in figures ------------------------------------------------

  /** The first number that does not fit is a power of two, seven more bits for each further byte. */
  lemma LimitPower(n: nat)
    requires n < 8
    ensures LIMITS[n] == Pow(2, 7 * n + 7)
  {
    PowersOfTwo();
    PowersUp(7);
    PowersUp(14);
    PowersUp(21);
    PowersUp(28);
    PowersUp(35);
    PowersUp(42);
    PowersUp(49);
  }

  lemma PowersUp(k: nat)
    ensures Pow(2, k + 7) == 128 * Pow(2, k)
  {
    PowAdd(2, k, 7);
    PowersOfTwo();
  }

  lemma ExtraIs(v: nat, n: nat)
    requires n < 8 && v < LIMITS[n] && forall k :: 0 <= k < n ==> LIMITS[k] <= v
    ensures Extra(v, 0) == n
  {
  }

  lemma LimitsRise(n: nat)
    requires n < 8
    ensures forall k :: 0 <= k < n ==> LIMITS[k] <= LIMITS[n - 1]
  {
  }

  /** A number of up to `7 * n + 7` bits and no fewer takes `n + 1` bytes: the number itself in big-endian
      form with `n` ones and a zero on top. */
  lemma CodeInFigures(v: nat, n: nat)
    requires n < 8 && v < Pow(2, 7 * n + 7) && (n > 0 ==> Pow(2, 7 * n) <= v)
    ensures |Encode(v)| == n + 1 && FromBigEndian(Encode(v)) == (256 - Pow(2, 8 - n)) * Pow(256, n) + v
  {
    LimitPower(n);
    if n > 0 {
      LimitPower(n - 1);
      LimitsRise(n);
    }
    ExtraIs(v, n);
    MarkInFigures(n);
    MarkedCode(v, n, BigEndian(v, n + 1)[0], BigEndian(v, n + 1));
  }

  lemma MarkedCode(v: nat, n: nat, h: nat, tail: Bytes)
    requires n < 8 && v < LIMITS[n] && Extra(v, 0) == n && tail == BigEndian(v, n + 1) && h == tail[0]
    ensures |Encode(v)| == n + 1 && FromBigEndian(Encode(v)) == MARKS[n] * Pow(256, n) + v
  {
    LimitIs(n);
    MarkedHead(v, n);
    ShortCodeIs(v, n, h, tail);
    BigEndianRoundTrip(v, n + 1);
    MarkOnTop(MARKS[n], h, tail);
  }

  lemma ShortCodeIs(v: nat, n: nat, h: nat, tail: Bytes)
    requires n < 8 && Extra(v, 0) == n && tail == BigEndian(v, n + 1) && h == tail[0]
    requires Or(h, MARKS[n]) == MARKS[n] + h < 256
    ensures Encode(v) == [MARKS[n] + h] + tail[1..]
  {
  }

  lemma MarkInFigures(n: nat)
    requires n < 8
    ensures MARKS[n] == 256 - Pow(2, 8 - n)
  {
    PowersOfTwo();
  }

  lemma MarkOnTop(m: nat, h: nat, tail: Bytes)
    requires tail != [] && h == tail[0] && m + h < 256
    ensures FromBigEndian([m + h] + tail[1..]) == m * Pow(256, |tail| - 1) + FromBigEndian(tail)
  {
    var code: Bytes := [m + h] + tail[1..];
    HighByte(tail);
    HighByte(code);
    assert code[1..] == tail[1..];
    Distributes(m, h, Pow(256, |tail| - 1));
  }

  lemma Distributes(m: nat, h: nat, p: nat)
    ensures (m + h) * p == m * p + h * p
  {
  }

  /** A number of more than 56 bits takes nine bytes, the first of them full. */
  lemma LongCodeInFigures(v: nat)
    requires Pow(2, 56) <= v < Pow(2, 64)
    ensures Encode(v) == [0xFF] + BigEndian(v, 8) && FromBigEndian(BigEndian(v, 8)) == v
  {
    LimitPower(7);
    PowersUp(56);
    assert Pow(2, 64) == 2 * Pow(2, 63);
    PowersOf256();
    BigEndianRoundTrip(v, 8);
  }

  // ---- round trip ---------------------------------------------------------

  lemma DecodeShort(head: Byte, first: Byte, tail: Bytes, suffix: Bytes)
    requires |tail| < 8 && LeadingOnes(head, 0) == (|tail|, first)
    ensures Decode([head] + tail + suffix) == Ok((FromBigEndian([first] + tail), |tail| + 1))
  {
    FirstByte(head, tail, suffix);
    DecodeIs([head] + tail + suffix, |tail|, first, tail);
    ShortValueIs(|tail|, first, tail);
  }

  lemma FirstByte(head: Byte, tail: Bytes, suffix: Bytes)
    ensures var buf := [head] + tail + suffix; buf[0] == head && tail <= buf[1..]
  {
  }

  lemma DecodeIs(buf: Bytes, n: nat, first: Byte, clip: Bytes)
    requires buf != [] && LeadingOnes(buf[0], 0) == (n, first)
    requires |clip| == n <= 8 && clip <= buf[1..]
    ensures Decode(buf) == Ok((Value(n, first, clip), n + 1))
  {
    assert buf[1..][..n] == clip;
  }

  lemma ShortValueIs(n: nat, first: Byte, tail: Bytes)
    requires |tail| == n < 8
    ensures Value(n, first, tail) == FromBigEndian([first] + tail)
  {
    SkipZeros(7 - n, [first] + tail);
    assert Zeros(7 - n) + [first] + tail == Zeros(7 - n) + ([first] + tail);
  }

  lemma DecodeLong(tail: Bytes, suffix: Bytes)
    requires |tail| == 8
    ensures Decode([0xFF] + tail + suffix) == Ok((FromBigEndian(tail), 9))
  {
    HeadParts(0xFF);
    FirstByte(0xFF, tail, suffix);
    var buf := [0xFF] + tail + suffix;
    DecodeIs(buf, 8, LeadingOnes(buf[0], 0).1, tail);
  }

  lemma EncodeShort(v: nat, n: nat) returns (head: Byte, first: Byte, tail: Bytes)
    requires n < 8 && v < LIMITS[n] && Extra(v, 0) == n
    ensures Encode(v) == [head] + tail && |tail| == n && LeadingOnes(head, 0) == (n, first)
    ensures FromBigEndian([first] + tail) == v
  {
    var b := BigEndian(v, n + 1);
    LimitIs(n);
    BigEndianRoundTrip(v, n + 1);
    MarkedHead(v, n);
    head, first, tail := MARKS[n] + b[0], b[0], b[1..];
    assert [first] + tail == b;
  }

  /** The code of any number is read back from in front of any suffix. */
  lemma RoundTrip(v: nat, suffix: Bytes)
    requires v < U64_END
    ensures Decode(Encode(v) + suffix) == Ok((v, |Encode(v)|))
    ensures |Encode(v)| == Extra(v, 0) + 1
  {
    var n := Extra(v, 0);
    if n == 8 {
      PowersOf256();
      BigEndianRoundTrip(v, 8);
      DecodeLong(BigEndian(v, 8), suffix);
    } else {
      var head, first, tail := EncodeShort(v, n);
      DecodeShort(head, first, tail, suffix);
    }
  }

  /** Also behind any prefix: a reader that stands at the code reads the number and moves past it. */
  lemma RoundTripAt(prefix: Bytes, v: nat, suffix: Bytes)
    requires v < U64_END
    ensures Decode((prefix + Encode(v) + suffix)[|prefix|..]) == Ok((v, |Encode(v)|))
  {
    RoundTrip(v, suffix);
    DropPrefix(prefix, Encode(v), suffix);
  }

  lemma DropPrefix(prefix: Bytes, code: Bytes, suffix: Bytes)
    ensures (prefix + code + suffix)[|prefix|..] == code + suffix
  {
  }

  /** No code is a proper prefix of another. */
  lemma PrefixFree(v: nat, w: nat)
    requires v < U64_END && w < U64_END && Encode(v) <= Encode(w)
    ensures v == w
  {
    var suffix := Encode(w)[|Encode(v)|..];
    RoundTrip(v, suffix);
    RoundTrip(w, []);
    assert Encode(v) + suffix == Encode(w) == Encode(w) + [];
  }

  lemma ShortValue(first: nat, n: nat, tail: Bytes)
    requires n < 8 && first < Pow(2, 7 - n) && first < 256 && |tail| == n
    ensures FromBigEndian([first] + tail) < LIMITS[n]
  {
    var b := [first] + tail;
    HighByte(b);
    assert b[1..] == tail;
    LimitIs(n);
    LowPart(first, Pow(256, n), FromBigEndian(tail), Pow(2, 7 - n));
  }

  lemma ShortCode(head: Byte, first: Byte, tail: Bytes, n: nat)
    requires n < 8 && |tail| == n && LeadingOnes(head, 0) == (n, first)
    ensures var v := FromBigEndian([first] + tail);
      v < LIMITS[n] && Extra(v, 0) <= n && (Extra(v, 0) == n ==> Encode(v) == [head] + tail)
  {
    var v := FromBigEndian([first] + tail);
    HeadParts(head);
    ShortValue(first, n, tail);
    if Extra(v, 0) == n {
      BigEndianInverse([first] + tail);
      MarkedHead(v, n);
    }
  }

  lemma LongCode(tail: Bytes)
    requires |tail| == 8
    ensures var v := FromBigEndian(tail);
      v < U64_END && (Extra(v, 0) == 8 ==> Encode(v) == [0xFF] + tail)
  {
    FromBigEndianFits(tail);
    PowersOf256();
    BigEndianInverse(tail);
  }

  /** What is read is a 64-bit number. Of all codes that are read as `v`, `Encode(v)` is the shortest,
      and the only one of its length. */
  lemma EncodeIsShortest(buf: Bytes)
    requires Decode(buf).Ok?
    ensures var (v, k) := Decode(buf).value;
      && v < U64_END && k <= |buf| && |Encode(v)| <= k
      && (buf[..k] == Encode(v) <==> k == |Encode(v)|)
  {
    var (n, first) := LeadingOnes(buf[0], 0);
    HeadParts(buf[0]);
    if n < 8 {
      var tail := buf[1..n + 1];
      assert buf == [buf[0]] + tail + buf[n + 1..];
      DecodeShort(buf[0], first, tail, buf[n + 1..]);
      ShortCode(buf[0], first, tail, n);
      LimitIs(n);
      assert buf[..n + 1] == [buf[0]] + tail;
    } else {
      var tail := buf[1..9];
      assert buf == [buf[0]] + tail + buf[9..];
      DecodeLong(tail, buf[9..]);
      LongCode(tail);
      assert buf[..9] == [buf[0]] + tail;
    }
  }

  // ---- the field ----------------------------------------------------------

  /** The decoder's second half, as a reader inside a longer buffer sees it. */
  lemma DecodeBehind(buf: Bytes, seek: nat)
    requires seek < |buf|
    ensures var (n, first) := LeadingOnes(buf[seek], 0);
      && n <= 8 && first < 256
      && Decode(buf[seek..]) ==
           match Clip(buf[seek + 1..], n)
           case Err(e) => Err(e)
           case Ok(clip) => Ok((Value(n, first, clip), n + 1))
    ensures Decode(buf[seek..]).Ok? ==> Decode(buf[seek..]).value.0 < U64_END
  {
    var rest := buf[seek..];
    HeadParts(rest[0]);
    assert rest[1..] == buf[seek + 1..];
    if Decode(rest).Ok? {
      EncodeIsShortest(rest);
    }
  }

  lemma NewHead(buf: Bytes, head: Byte)
    requires buf != []
    ensures buf[0 := head] == [head] + buf[1..]
  {
  }

  lemma LastBytes(v: nat, n: nat)
    requires n < 8
    ensures ([0] + BigEndian(v, 8))[8 - n..] == BigEndian(v, n + 1)
  {
    Suffix(v, 8, n + 1);
  }

  class AutoU64 {
    var value: nat

    ghost predicate Valid()
      reads this
    {
      value < U64_END
    }

    constructor (value: nat)
      requires value < U64_END
      ensures Valid() && this.value == value
    {
      this.value := value;
    }

    /** Reads from `buf` at `seek` and returns where the code ends; a seek beyond the end would panic. */
    method Parse(buf: Bytes, seek: nat) returns (r: Result<nat, TooShort>)
      requires Valid() && seek <= |buf|
      modifies this
      ensures Valid()
      ensures match Decode(buf[seek..])
        case Err(e) => r == Err(e) && value == old(value)
        case Ok((v, k)) => r == Ok(seek + k) && value == v
    {
      var sk := seek;
      var head := Clip(buf[seek..], 1);
      if head.Err? {
        return Err(head.error);
      }
      HeadParts(head.value[0]);
      sk := sk + 1;
      var (bdsz, b1v) := LeadingOnes(head.value[0], 0);
      var body := Clip(buf[sk..], bdsz);
      DecodeBehind(buf, seek);
      if body.Err? {
        return Err(body.error);
      }
      sk := sk + bdsz;
      value := Number(bdsz, b1v, body.value);
      r := Ok(sk);
    }

    /** Eight bytes, filled up with the bits of the first byte and then with zeros. */
    static method Number(bdsz: nat, b1v: Byte, clip: Bytes) returns (v: nat)
      requires |clip| == bdsz <= 8
      ensures v == Value(bdsz, b1v, clip)
    {
      var body := clip;
      if bdsz < 8 {
        body := [b1v] + body;
      }
      if |body| < 8 {
        body := Zeros(8 - |body|) + body;
      }
      assert bdsz < 8 ==> body == Zeros(7 - bdsz) + [b1v] + clip;
      v := FromBigEndian(body);
    }

    method Serialize() returns (b: Bytes)
      requires Valid()
      ensures b == Encode(value)
    {
      var apsz := CountLimits();
      var nvbt: Bytes := [0] + BigEndian(value, 8);
      if apsz >= 8 {
        NewHead(nvbt, 0xFF);
        return nvbt[0 := 0xFF];
      }
      MarkedHead(value, apsz);
      LastBytes(value, apsz);
      var resbt := nvbt[9 - (apsz + 1)..];
      NewHead(resbt, Or(resbt[0], MARKS[apsz]));
      b := resbt[0 := Or(resbt[0], MARKS[apsz])];
    }

    method Size() returns (sz: nat)
      requires Valid()
      ensures sz == |Encode(value)|
    {
      var n := CountLimits();
      RoundTrip(value, []);
      sz := 1 + n;
    }

    method CountLimits() returns (n: nat)
      ensures n == Extra(value, 0)
    {
      n := 0;
      while n < 8 && value >= LIMITS[n]
        invariant n <= 8 && Extra(value, n) == Extra(value, 0)
      {
        n := n + 1;
      }
    }
  }
}
