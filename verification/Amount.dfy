/**
 Coin amounts: a decimal exponent, a sign with the count of bytes, and the digits as a big-endian
 number. Arithmetic goes through integers and back, and comes back in canonical form.
 */
module Amounts {
  import opened Base
  import opened Octets

  datatype Raw = Raw(unit: nat, dist: int, byte: Bytes) {
    /** What the fields can hold: an unsigned byte, a signed one and as many bytes. */
    predicate Valid() {
      unit <= 255 && -127 <= dist <= 127 && |byte| == Abs(dist)
    }
  }

  type Amount = a: Raw | a.Valid() witness Raw(0, 0, [])

  const EMPTY: Amount := Raw(0, 0, [])

  datatype TooWide = UnitTooWide | BytesTooWide

  function Abs(n: int): nat {
    if n < 0 then -n else n
  }

  // ---- decimal and binary digits ------------------------------------------

  /** The count of decimal zeros at the end of `m`. */
  function Zeros10(m: nat): nat
    requires m > 0
  {
    if m % 10 == 0 then Zeros10(m / 10) + 1 else 0
  }

  /** `m` without those zeros. */
  function Digits(m: nat): nat
    requires m > 0
  {
    if m % 10 == 0 then Digits(m / 10) else m
  }

  /** The bytes of `m` without leading zeros. */
  function MinBytes(m: nat): Bytes {
    if m == 0 then [] else MinBytes(m / 256) + [m % 256]
  }

  lemma {:induction false} StripIs(m: nat)
    requires m > 0
    ensures m == Digits(m) * Pow(10, Zeros10(m)) && Digits(m) % 10 != 0 && 0 < Digits(m) <= m
  {
    if m % 10 == 0 {
      StripIs(m / 10);
      MulAssociates(Digits(m), 10, Pow(10, Zeros10(m / 10)));
      MulAssociates(10, Digits(m), Pow(10, Zeros10(m / 10)));
    }
  }

  lemma OneMoreZero(d: nat, k: nat)
    ensures d * Pow(10, k + 1) == 10 * (d * Pow(10, k))
  {
    MulAssociates(d, 10, Pow(10, k));
    MulAssociates(10, d, Pow(10, k));
  }

  lemma {:induction false} StripOf(d: nat, k: nat)
    requires d % 10 != 0
    ensures d * Pow(10, k) > 0 && Zeros10(d * Pow(10, k)) == k && Digits(d * Pow(10, k)) == d
  {
    PowPositive(10, k);
    MulPositive(d, Pow(10, k));
    if k > 0 {
      StripOf(d, k - 1);
      OneMoreZero(d, k - 1);
      StripStep(d * Pow(10, k), d * Pow(10, k - 1));
    }
  }

  lemma StripStep(m: nat, q: nat)
    requires q > 0 && m == 10 * q
    ensures Zeros10(m) == Zeros10(q) + 1 && Digits(m) == Digits(q)
  {
  }

  lemma {:induction false} MinBytesValue(m: nat)
    ensures FromBigEndian(MinBytes(m)) == m
    ensures m > 0 ==> MinBytes(m) != [] && MinBytes(m)[0] != 0
  {
    if m > 0 {
      MinBytesValue(m / 256);
      assert MinBytes(m)[..|MinBytes(m)| - 1] == MinBytes(m / 256);
    }
  }

  lemma {:induction false} MinBytesOf(b: Bytes)
    requires b != [] ==> b[0] != 0
    ensures MinBytes(FromBigEndian(b)) == b
    ensures b != [] ==> FromBigEndian(b) > 0
  {
    if b != [] {
      MinBytesOf(b[..|b| - 1]);
    }
  }

  /** No other bytes for the same or a larger number are fewer. */
  lemma {:induction false} MinBytesShortest(m: nat, b: Bytes)
    requires m <= FromBigEndian(b)
    ensures |MinBytes(m)| <= |b|
  {
    if b != [] && m > 0 {
      MinBytesShortest(m / 256, b[..|b| - 1]);
    }
  }

  // ---- values -------------------------------------------------------------

  predicate IsEmpty(a: Amount) {
    a.unit == 0 || a.dist == 0
  }

  predicate IsPositive(a: Amount) {
    a.unit != 0 && a.dist > 0
  }

  predicate IsNegative(a: Amount) {
    a.unit != 0 && a.dist < 0
  }

  function ToBigint(a: Amount): int {
    if IsEmpty(a) then 0
    else
      var num: int := FromBigEndian(a.byte);
      (if a.dist < 0 then -num else num) * Pow(10, a.unit)
  }

  function FromBigint(n: int): Result<Amount, TooWide> {
    if n == 0 then Ok(EMPTY)
    else
      var unit := Zeros10(Abs(n));
      var byte := MinBytes(Digits(Abs(n)));
      if unit > 255 then Err(UnitTooWide)
      else if |byte| > 127 then Err(BytesTooWide)
      else Ok(Raw(unit, if n < 0 then -|byte| else |byte|, byte))
  }

  function Shift(num: nat, unit: nat): (nat, nat)
    requires unit < 255
    decreases 255 - unit
  {
    if num % 10 != 0 then (num, unit)
    else if unit + 1 == 255 then (num / 10, 255)
    else Shift(num / 10, unit + 1)
  }

  /** The amount of `num` coins of a given unit. */
  function FromUnits(num: nat, unit: nat): Result<Amount, TooWide>
    requires unit < 255
  {
    if num == 0 then Ok(EMPTY)
    else
      var (n, u) := Shift(num, unit);
      ShiftBounds(num, unit);
      if n % 10 == 0 then Err(UnitTooWide)
      else if |MinBytes(n)| > 127 then Err(BytesTooWide)
      else Ok(Raw(u, |MinBytes(n)|, MinBytes(n)))
  }

  lemma {:induction false} ShiftBounds(num: nat, unit: nat)
    requires unit < 255
    ensures var (n, u) := Shift(num, unit); unit <= u <= 255 && n * Pow(10, u) == num * Pow(10, unit)
    decreases 255 - unit
  {
    if num % 10 == 0 {
      MulAssociates(num / 10, 10, Pow(10, unit));
      if unit + 1 < 255 {
        ShiftBounds(num / 10, unit + 1);
      }
    }
  }

  lemma FromUnitsValue(num: nat, unit: nat)
    requires 0 < unit < 255 && FromUnits(num, unit).Ok?
    ensures ToBigint(FromUnits(num, unit).value) == num * Pow(10, unit) && Canonical(FromUnits(num, unit).value)
  {
    if num > 0 {
      ShiftBounds(num, unit);
      MinBytesValue(Shift(num, unit).0);
    }
  }

  /** The length of the stored form. */
  function Size(a: Amount): nat {
    2 + Abs(a.dist)
  }

  function Add(a: Amount, b: Amount): Result<Amount, TooWide> {
    FromBigint(ToBigint(a) + ToBigint(b))
  }

  function Sub(a: Amount, b: Amount): Result<Amount, TooWide> {
    FromBigint(ToBigint(a) - ToBigint(b))
  }

  /** The forms that `FromBigint` produces of values that amounts have. */
  predicate Canonical(a: Amount) {
    a == EMPTY || (a.unit > 0 && a.byte != [] && a.byte[0] != 0 && FromBigEndian(a.byte) % 10 != 0)
  }

  /** Every value is a multiple of ten: with exponent 0 an amount counts as empty. */
  lemma ValueIsMultiple(a: Amount)
    ensures ToBigint(a) % 10 == 0
  {
    if !IsEmpty(a) {
      var abs: int := FromBigEndian(a.byte);
      var num: int := if a.dist < 0 then -abs else abs;
      assert ToBigint(a) == num * Pow(10, a.unit - 1) * 10 by {
        MulAssociates(num, 10, Pow(10, a.unit - 1));
        MulAssociates(num, Pow(10, a.unit - 1), 10);
      }
    }
  }

  /** The magnitude that `FromBigint` keeps. */
  lemma KeptValue(n: int)
    requires n != 0 && FromBigint(n).Ok?
    ensures var a := FromBigint(n).value;
      && a.dist != 0 && FromBigEndian(a.byte) * Pow(10, a.unit) == Abs(n) && (a.dist < 0 <==> n < 0)
      && a.unit == Zeros10(Abs(n)) && a.byte != [] && a.byte[0] != 0 && FromBigEndian(a.byte) % 10 != 0
  {
    StripIs(Abs(n));
    MinBytesValue(Digits(Abs(n)));
  }

  lemma AbsMultiple(n: int)
    ensures Abs(n) % 10 == 0 <==> n % 10 == 0
  {
  }

  lemma SignedProduct(num: int, p: nat, n: int)
    requires num * p == Abs(n)
    ensures (if n < 0 then -num else num) * p == n
  {
    assert -num * p == -(num * p);
  }

  /** An integer comes back from its amount exactly when it is a multiple of ten; any other is lost. */
  lemma RoundTrip(n: int)
    requires FromBigint(n).Ok?
    ensures ToBigint(FromBigint(n).value) == n <==> n % 10 == 0
    ensures n % 10 != 0 ==> ToBigint(FromBigint(n).value) == 0
    ensures n % 10 == 0 ==> Canonical(FromBigint(n).value)
  {
    if n != 0 {
      KeptValue(n);
      AbsMultiple(n);
      var a := FromBigint(n).value;
      SignedProduct(FromBigEndian(a.byte), Pow(10, a.unit), n);
    }
  }

  lemma Exact(n: int)
    requires n % 10 == 0 && FromBigint(n).Ok?
    ensures ToBigint(FromBigint(n).value) == n && Canonical(FromBigint(n).value)
  {
    RoundTrip(n);
  }

  lemma Multiples(m: int, n: int)
    requires m % 10 == 0 && n % 10 == 0
    ensures (m + n) % 10 == 0 && (m - n) % 10 == 0
  {
  }

  /** Sums and differences are exact whenever they succeed, and canonical. */
  lemma SumIsExact(a: Amount, b: Amount)
    ensures Add(a, b).Ok? ==> ToBigint(Add(a, b).value) == ToBigint(a) + ToBigint(b) && Canonical(Add(a, b).value)
    ensures Sub(a, b).Ok? ==> ToBigint(Sub(a, b).value) == ToBigint(a) - ToBigint(b) && Canonical(Sub(a, b).value)
  {
    ValueIsMultiple(a);
    ValueIsMultiple(b);
    Multiples(ToBigint(a), ToBigint(b));
    if Add(a, b).Ok? {
      Exact(ToBigint(a) + ToBigint(b));
    }
    if Sub(a, b).Ok? {
      Exact(ToBigint(a) - ToBigint(b));
    }
  }

  // ---- canonical amounts --------------------------------------------------

  lemma Magnitude(a: Amount)
    requires !IsEmpty(a)
    ensures Abs(ToBigint(a)) == FromBigEndian(a.byte) * Pow(10, a.unit)
    ensures ToBigint(a) < 0 ==> a.dist < 0
    ensures ToBigint(a) > 0 ==> a.dist > 0
  {
    PowPositive(10, a.unit);
    var num: int := FromBigEndian(a.byte);
    assert -num * Pow(10, a.unit) == -(num * Pow(10, a.unit));
    MulOrder(0, num, Pow(10, a.unit));
  }

  /** A canonical amount is the one that its value is written as. */
  lemma CanonicalIsNormal(a: Amount)
    requires Canonical(a)
    ensures FromBigint(ToBigint(a)) == Ok(a)
  {
    if a != EMPTY {
      Magnitude(a);
      MinBytesOf(a.byte);
      StripOf(FromBigEndian(a.byte), a.unit);
    }
  }

  /** So on canonical amounts equality of fields is equality of values. */
  lemma CanonicalEquality(a: Amount, b: Amount)
    requires Canonical(a) && Canonical(b)
    ensures a == b <==> ToBigint(a) == ToBigint(b)
  {
    CanonicalIsNormal(a);
    CanonicalIsNormal(b);
  }

  /** An amount can be brought to canonical form, for example by adding zero, exactly when its value
      does not end in more than 255 zeros. */
  lemma NormalFormExists(a: Amount)
    ensures Add(a, EMPTY).Ok? <==> ToBigint(a) == 0 || Zeros10(Abs(ToBigint(a))) <= 255
  {
    if ToBigint(a) != 0 {
      Magnitude(a);
      var m := FromBigEndian(a.byte);
      DigitsOfProduct(m, a.unit);
      MinBytesShortest(Digits(Abs(ToBigint(a))), a.byte);
    }
  }

  lemma DigitsOfProduct(m: nat, k: nat)
    requires m > 0
    ensures m * Pow(10, k) > 0 && 0 < Digits(m * Pow(10, k)) <= m
  {
    StripIs(m);
    PowAdd(10, Zeros10(m), k);
    MulAssociates(Digits(m), Pow(10, Zeros10(m)), Pow(10, k));
    StripOf(Digits(m), Zeros10(m) + k);
  }

  /** Not every valid amount has one. */
  lemma NormalFormMissing()
    ensures var a: Amount := Raw(255, 1, [10]); a.Valid() && Add(a, EMPTY) == Err(UnitTooWide)
  {
    var a: Amount := Raw(255, 1, [10]);
    assert a.byte[..0] == [];
    assert FromBigEndian(a.byte) == 10;
    assert ToBigint(a) == 10 * Pow(10, 255) == 1 * Pow(10, 256);
    StripOf(1, 256);
  }

  // ---- comparing ----------------------------------------------------------

  datatype Ordering = Less | Equal | Greater

  function CmpInt(m: int, n: int): Ordering {
    if m < n then Less else if m == n then Equal else Greater
  }

  predicate MoreThan(a: Amount, b: Amount) {
    a != b && CmpInt(ToBigint(a), ToBigint(b)) == Greater
  }

  predicate MoreOrEqual(a: Amount, b: Amount) {
    a == b || CmpInt(ToBigint(a), ToBigint(b)) != Less
  }

  predicate LessThan(a: Amount, b: Amount) {
    a != b && CmpInt(ToBigint(a), ToBigint(b)) == Less
  }

  predicate LessOrEqual(a: Amount, b: Amount) {
    a == b || CmpInt(ToBigint(a), ToBigint(b)) != Greater
  }

  /** The order that balances are compared with: equal fields, else larger value, else smaller. */
  function Cmp(a: Amount, b: Amount): Ordering {
    if a == b then Equal else if MoreThan(a, b) then Greater else Less
  }

  /** The four comparisons go by value, whatever the form. */
  lemma ComparesByValue(a: Amount, b: Amount)
    ensures MoreThan(a, b) <==> ToBigint(a) > ToBigint(b)
    ensures MoreOrEqual(a, b) <==> ToBigint(a) >= ToBigint(b)
    ensures LessThan(a, b) <==> ToBigint(a) < ToBigint(b)
    ensures LessOrEqual(a, b) <==> ToBigint(a) <= ToBigint(b)
  {
  }

  /** `Cmp` goes by value exactly when the two amounts do not write one value in two forms. */
  lemma CmpByValue(a: Amount, b: Amount)
    ensures Cmp(a, b) == CmpInt(ToBigint(a), ToBigint(b)) <==> a == b || ToBigint(a) != ToBigint(b)
  {
  }

  /** So it is the order of the values among amounts that arithmetic made. */
  lemma CmpOnCanonical(a: Amount, b: Amount)
    requires Canonical(a) && Canonical(b)
    ensures Cmp(a, b) == CmpInt(ToBigint(a), ToBigint(b))
  {
    CanonicalEquality(a, b);
  }

  /** Two forms of one hundred, each of which is less than the other. */
  lemma CmpNotAntisymmetric()
    ensures var a: Amount := Raw(2, 1, [1]); var b: Amount := Raw(1, 1, [10]);
      a.Valid() && b.Valid() && ToBigint(a) == ToBigint(b) == 100 && Cmp(a, b) == Less && Cmp(b, a) == Less
  {
    var a: Amount := Raw(2, 1, [1]);
    var b: Amount := Raw(1, 1, [10]);
    assert a.byte[..0] == [] && b.byte[..0] == [];
    assert FromBigEndian(a.byte) == 1 && FromBigEndian(b.byte) == 10;
    assert Pow(10, 2) == 100 && Pow(10, 1) == 10;
  }
}
