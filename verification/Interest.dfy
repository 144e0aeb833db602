/**
 Compound interest on the coins locked in a payment channel: rounds of a fixed rate on a number of
 units, each rounded down, and the way back to an amount.
 */
module Interest {
  import opened Base
  import opened Octets
  import opened Amounts

  const D: nat := 10000

  // ---- the rounds ---------------------------------------------------------

  /** `x` after `n` rounds at a rate of `w` in ten thousand. */
  function Rounds(x: nat, n: nat, w: nat): nat {
    if n == 0 then x else Rounds(x, n - 1, w) * (D + w) / D
  }

  lemma RoundStep(x: nat, w: nat)
    ensures x <= x * (D + w) / D
    ensures D * (x * (D + w) / D) <= x * (D + w) < D * (x * (D + w) / D) + D
  {
    assert x * (D + w) == x * D + x * w;
    MulOrder(0, x, w);
    QuotientAtLeast(x, x * (D + w));
  }

  lemma QuotientAtLeast(x: nat, y: nat)
    requires x * D <= y
    ensures x <= y / D && D * (y / D) <= y < D * (y / D) + D
  {
  }

  lemma {:induction false} NeverLess(x: nat, n: nat, w: nat)
    ensures x <= Rounds(x, n, w)
  {
    if n > 0 {
      NeverLess(x, n - 1, w);
      RoundStep(Rounds(x, n - 1, w), w);
    }
  }

  /** What rounding down has cost so far, on the scale of `D` to the power of the rounds. */
  function Shortfall(x: nat, n: nat, w: nat): int {
    Pow(D + w, n) * x - Pow(D, n) * Rounds(x, n, w)
  }

  /** One more round multiplies the shortfall by `D + w` and adds less than one unit of its scale. */
  lemma ShortfallStep(x: nat, n: nat, w: nat) returns (rest: nat)
    ensures rest < D && Shortfall(x, n + 1, w) == (D + w) * Shortfall(x, n, w) + Pow(D, n) * rest
  {
    var a, p, q, y := D + w, Pow(D + w, n), Pow(D, n), Rounds(x, n, w);
    RoundStep(y, w);
    rest := y * a - D * (y * a / D);
    ShortfallArithmetic(a, p, q, x, y, y * a / D, rest);
  }

  lemma ShortfallArithmetic(a: nat, p: nat, q: nat, x: nat, y: nat, z: nat, rest: nat)
    requires rest == y * a - D * z
    ensures a * p * x - D * q * z == a * (p * x - q * y) + q * rest
  {
    assert a * p * x == a * (p * x) by { MulAssociates(a, p, x); }
    assert a * (p * x - q * y) == a * (p * x) - a * (q * y);
    assert q * rest == q * (y * a) - q * (D * z);
    assert a * (q * y) == q * (y * a) by { MulAssociates(q, y, a); }
    assert q * (D * z) == D * q * z by { MulAssociates(D, q, z); }
  }

  /** The result lies between the exact compound value and that value less the cost of rounding. */
  lemma {:induction false} CompoundBounds(x: nat, n: nat, w: nat)
    ensures Pow(D, n) * Rounds(x, n, w) <= Pow(D + w, n) * x
    ensures w * Shortfall(x, n, w) <= D * (Pow(D + w, n) - Pow(D, n))
  {
    if n > 0 {
      CompoundBounds(x, n - 1, w);
      var rest := ShortfallStep(x, n - 1, w);
      BoundArithmetic(w, Shortfall(x, n - 1, w), Pow(D + w, n - 1), Pow(D, n - 1), rest);
    }
  }

  lemma BoundArithmetic(w: nat, e: int, p: nat, q: nat, rest: nat)
    requires 0 <= e && w * e <= D * (p - q) && rest < D
    ensures 0 <= (D + w) * e + q * rest
    ensures w * ((D + w) * e + q * rest) <= D * ((D + w) * p - D * q)
  {
    MulOrder(0, e, D + w);
    MulOrder(0, q, rest);
    MulOrder(w * e, D * (p - q), D + w);
    MulOrder(rest, D, q * w);
    assert w * ((D + w) * e) == (w * e) * (D + w) by { MulAssociates(w, e, D + w); }
    assert w * (q * rest) == rest * (q * w) by { MulAssociates(w, q, rest); }
    assert D * (p - q) * (D + w) == D * ((D + w) * p) - D * ((D + w) * q) by {
      assert (p - q) * (D + w) == (D + w) * p - (D + w) * q;
      MulAssociates(D, p - q, D + w);
    }
    assert D * ((D + w) * q) == D * (D * q) + D * (q * w) by {
      assert (D + w) * q == D * q + q * w;
    }
  }

  // ---- back to an amount --------------------------------------------------

  /** Moves decimal zeros into the exponent, as far as that goes. */
  function Strip(x: nat, unit: nat): (r: (nat, nat))
    requires unit <= 255
    ensures unit <= r.1 <= 255
    decreases 255 - unit
  {
    if unit >= 255 || x % 10 != 0 then (x, unit) else Strip(x / 10, unit + 1)
  }

  lemma {:induction false} StripKeeps(x: nat, unit: nat)
    requires unit <= 255
    ensures var (y, u) := Strip(x, unit);
      y * Pow(10, u) == x * Pow(10, unit) && (u == unit <==> unit == 255 || x % 10 != 0)
    decreases 255 - unit
  {
    if unit < 255 && x % 10 == 0 {
      StripKeeps(x / 10, unit + 1);
      MulAssociates(x / 10, 10, Pow(10, unit));
    }
  }

  function ToBytes(x: nat): Bytes {
    if x == 0 then [0] else MinBytes(x)
  }

  function FromUnitByte(unit: nat, byte: Bytes): Result<Amount, TooWide>
    requires unit <= 255
  {
    if |byte| > 127 then Err(BytesTooWide) else Ok(Raw(unit, |byte|, byte))
  }

  /** The coins of `base` in the unit eight places below its own. */
  function Scaled(base: Amount): nat {
    FromBigEndian(base.byte) * 1_0000_0000
  }

  /** `user` plus the interest on `base`. */
  function Interest(user: Amount, base: Amount, n: nat, w: nat): Result<Amount, TooWide> {
    if base.unit < 8 then Ok(user)
    else
      var (x, unit) := Strip(Rounds(Scaled(base), n, w), base.unit - 8);
      match FromUnitByte(unit, ToBytes(x))
      case Err(e) => Err(e)
      case Ok(best) =>
        match Sub(best, base)
        case Err(e) => Err(e)
        case Ok(gain) => Add(gain, user)
  }

  method CalculateInterest(user: Amount, base: Amount, n: nat, w: nat) returns (r: Result<Amount, TooWide>)
    ensures r == Interest(user, base, n, w)
  {
    if base.unit < 8 {
      return Ok(user);
    }
    var unit: nat := base.unit - 8;
    var coin: nat := FromBigEndian(base.byte) * 1_0000_0000;
    for i := 0 to n
      invariant coin == Rounds(Scaled(base), i, w)
    {
      coin := coin * (D + w);
      coin := coin / D;
    }
    while unit < 255 && coin % 10 == 0
      invariant unit <= 255 && Strip(coin, unit) == Strip(Rounds(Scaled(base), n, w), base.unit - 8)
      decreases 255 - unit
    {
      coin, unit := coin / 10, unit + 1;
    }
    var best := FromUnitByte(unit, ToBytes(coin));
    if best.Err? {
      return best;
    }
    var gain := Sub(best.value, base);
    if gain.Err? {
      return gain;
    }
    r := Add(gain.value, user);
  }

  lemma ToBytesValue(x: nat)
    ensures FromBigEndian(ToBytes(x)) == x && ToBytes(x) != []
  {
    MinBytesValue(x);
    assert [0][..0] == [];
  }

  /** The amount made of the result has its value, unless its exponent is zero. */
  lemma BestValue(x: nat, unit: nat)
    requires unit <= 255 && FromUnitByte(unit, ToBytes(x)).Ok?
    ensures ToBigint(FromUnitByte(unit, ToBytes(x)).value) == if unit == 0 then 0 else x * Pow(10, unit)
  {
    ToBytesValue(x);
  }

  lemma BaseValue(base: Amount)
    requires base.unit >= 8 && !IsNegative(base)
    ensures ToBigint(base) == Scaled(base) * Pow(10, base.unit - 8)
  {
    PowAdd(10, 8, base.unit - 8);
    assert Pow(10, 8) == 1_0000_0000;
    MulAssociates(FromBigEndian(base.byte), 1_0000_0000, Pow(10, base.unit - 8));
  }

  /** The one case in which the coins themselves get lost on the way back. */
  predicate Loses(base: Amount, n: nat, w: nat) {
    base.unit == 8 && Rounds(Scaled(base), n, w) % 10 != 0
  }

  /** The interest, on the scale of whole values. */
  function Gain(base: Amount, n: nat, w: nat): int {
    if base.unit < 8 then 0
    else if Loses(base, n, w) then -ToBigint(base)
    else (Rounds(Scaled(base), n, w) - Scaled(base)) * Pow(10, base.unit - 8)
  }

  /** What a successful calculation adds to the user's amount. */
  lemma InterestValue(user: Amount, base: Amount, n: nat, w: nat)
    requires !IsNegative(base) && Interest(user, base, n, w).Ok?
    ensures ToBigint(Interest(user, base, n, w).value) == ToBigint(user) + Gain(base, n, w)
  {
    if base.unit >= 8 {
      var xn := Rounds(Scaled(base), n, w);
      var (x, unit) := Strip(xn, base.unit - 8);
      var best := FromUnitByte(unit, ToBytes(x)).value;
      StripKeeps(xn, base.unit - 8);
      BestValue(x, unit);
      BaseValue(base);
      SumIsExact(best, base);
      SumIsExact(Sub(best, base).value, user);
      GainArithmetic(xn, Scaled(base), Pow(10, base.unit - 8));
    }
  }

  lemma GainArithmetic(xn: nat, x0: nat, p: nat)
    ensures xn * p - x0 * p == (xn - x0) * p
  {
  }

  /** Interest is never negative, and coins are lost exactly in that one case. */
  lemma GainSign(base: Amount, n: nat, w: nat)
    requires !IsNegative(base)
    ensures Gain(base, n, w) < 0 <==> Loses(base, n, w) && ToBigint(base) > 0
    ensures ToBigint(base) >= 0
  {
    if base.unit >= 8 {
      BaseValue(base);
      NeverLess(Scaled(base), n, w);
      MulOrder(0, Rounds(Scaled(base), n, w) - Scaled(base), Pow(10, base.unit - 8));
      MulOrder(0, Scaled(base), Pow(10, base.unit - 8));
    } else if !IsEmpty(base) {
      MulOrder(0, FromBigEndian(base.byte), Pow(10, base.unit));
    }
  }

  lemma LossRounds()
    ensures Rounds(1_0000_0000, 2, 1) == 1_0002_0001
  {
    assert Rounds(1_0000_0000, 1, 1) == Rounds(1_0000_0000, 0, 1) * 10001 / 10000 == 1_0001_0000;
  }

  lemma LossBytes()
    ensures ToBytes(1_0002_0001) == [5, 246, 47, 33] && MinBytes(1) == [1]
  {
    assert MinBytes(1) == MinBytes(0) + [1];
  }

  lemma LossValue(dist: int)
    requires dist == 1 || dist == -1
    ensures var a: Amount := Raw(8, dist, [1]); a.Valid() && ToBigint(a) == dist * 1_0000_0000
    ensures FromBigint(-1_0000_0000) == Ok(Raw(8, -1, [1]))
  {
    assert [1][..0] == [];
    assert FromBigEndian([1]) == 1 && Pow(10, 8) == 1_0000_0000;
    StripOf(1, 8);
    LossBytes();
  }

  lemma LossAmount(a: Amount)
    requires a == Raw(8, 1, [1]) && ToBigint(a) == 1_0000_0000 && Scaled(a) == 1_0000_0000
    ensures Interest(a, a, 2, 1) == Ok(EMPTY)
  {
    LossRounds();
    LossBytes();
    LossValue(-1);
    var best: Amount := Raw(0, 4, [5, 246, 47, 33]);
    var gain: Amount := Raw(8, -1, [1]);
    assert Sub(best, a) == Ok(gain);
    assert Add(gain, a) == FromBigint(0);
  }

  /** The case does occur: one coin of the eighth unit, after two rounds at the lower rate. */
  lemma LossExample()
    ensures var a: Amount := Raw(8, 1, [1]);
      a.Valid() && ToBigint(a) == 1_0000_0000 && Loses(a, 2, 1) && Interest(a, a, 2, 1) == Ok(EMPTY)
  {
    LossValue(1);
    LossRounds();
    assert [1][..0] == [];
    assert FromBigEndian([1]) == 1;
    LossAmount(Raw(8, 1, [1]));
  }

  // ---- the gain in figures ------------------------------------------------

  /** `xs` are the numbers from round to round, each with its interest added and rounded down. */
  predicate Runs(x: nat, n: nat, w: nat, xs: seq<nat>) {
    |xs| == n + 1 && xs[0] == x && forall i :: 0 <= i < n ==> xs[i + 1] == xs[i] * (10000 + w) / 10000
  }

  lemma {:induction false} RoundsRun(x: nat, n: nat, w: nat) returns (xs: seq<nat>)
    ensures Runs(x, n, w, xs) && Rounds(x, n, w) == xs[n]
  {
    if n == 0 {
      xs := [x];
    } else {
      var before := RoundsRun(x, n - 1, w);
      xs := before + [Rounds(x, n, w)];
    }
  }

  /** The interest on `base`: its digits, counted eight places below its unit, run through the rounds, and
      what they are worth then takes the place of `base`. In unit 8 it is worth nothing when its last digit
      is not zero. */
  lemma InterestRuns(user: Amount, base: Amount, n: nat, w: nat) returns (xs: seq<nat>)
    requires !IsNegative(base) && Interest(user, base, n, w).Ok?
    ensures Runs(FromBigEndian(base.byte) * 1_0000_0000, n, w, xs)
    ensures base.unit < 8 ==> Interest(user, base, n, w).value == user
    ensures base.unit >= 8 ==>
      ToBigint(Interest(user, base, n, w).value) == ToBigint(user) - ToBigint(base)
        + (if base.unit == 8 && xs[n] % 10 != 0 then 0 else xs[n] * Pow(10, base.unit - 8))
  {
    xs := RoundsRun(Scaled(base), n, w);
    InterestValue(user, base, n, w);
    if base.unit >= 8 {
      BaseValue(base);
      GainArithmetic(xs[n], Scaled(base), Pow(10, base.unit - 8));
    }
  }

  lemma {:induction false} RoundsGrow(x: nat, n: nat, w: nat)
    requires x >= D && n > 0 && w > 0
    ensures Rounds(x, n, w) > x
  {
    NeverLess(x, n - 1, w);
    RoundGrows(Rounds(x, n - 1, w), w);
  }

  lemma RoundGrows(x: nat, w: nat)
    requires x >= D && w > 0
    ensures x * (D + w) / D > x
  {
    assert x * (D + w) == x * D + x * w;
    MulOrder(1, w, x);
    QuotientAtLeast(x + 1, x * (D + w));
  }

  /** From the first round on, a share that is worth something gains exactly when its unit is 8 or more and it
      is not lost; one of a smaller unit stays as it is. */
  lemma GainIsPositive(share: Amount, n: nat, w: nat)
    requires ToBigint(share) > 0 && n > 0 && w > 0
    ensures Gain(share, n, w) > 0 <==> share.unit >= 8 && !Loses(share, n, w)
    ensures share.unit < 8 ==> Gain(share, n, w) == 0
  {
    if share.unit >= 8 {
      var x, p := Scaled(share), Pow(10, share.unit - 8);
      PowPositive(10, share.unit - 8);
      SomethingScaled(share);
      RoundsGrow(x, n, w);
      MulPositive(Rounds(x, n, w) - x, p);
    }
  }

  lemma SomethingScaled(share: Amount)
    requires ToBigint(share) > 0
    ensures Scaled(share) >= 1_0000_0000 && !IsNegative(share)
  {
    var num: int := FromBigEndian(share.byte);
    if share.dist < 0 {
      MulOrder(-num, 0, Pow(10, share.unit));
    }
    assert num > 0;
  }

  /** A share and what it has become lie as far apart as compound interest takes them, less what rounding
      down costs. */
  predicate Compounded(share: int, paid: int, n: nat, w: nat, unit: nat)
    requires unit >= 8
  {
    && Pow(D, n) * paid <= Pow(D + w, n) * share
    && w * (Pow(D + w, n) * share - Pow(D, n) * paid) <= D * (Pow(D + w, n) - Pow(D, n)) * Pow(10, unit - 8)
  }

  lemma GainCompounds(share: Amount, n: nat, w: nat)
    requires !IsNegative(share) && share.unit >= 8 && !Loses(share, n, w)
    ensures Compounded(ToBigint(share), ToBigint(share) + Gain(share, n, w), n, w, share.unit)
  {
    var x, y, p := Scaled(share), Rounds(Scaled(share), n, w), Pow(10, share.unit - 8);
    BaseValue(share);
    CompoundBounds(x, n, w);
    GainArithmetic(y, x, p);
    ScaleBounds(Pow(D, n), Pow(D + w, n), x, y, w, p);
  }

  lemma ScaleBounds(q: nat, a: nat, x: nat, y: nat, w: nat, p: nat)
    requires q * y <= a * x && w * (a * x - q * y) <= D * (a - q)
    ensures q * (y * p) <= a * (x * p)
    ensures w * (a * (x * p) - q * (y * p)) <= D * (a - q) * p
  {
    MulAssociates(q, y, p);
    MulAssociates(a, x, p);
    MulOrder(q * y, a * x, p);
    MulOrder(w * (a * x - q * y), D * (a - q), p);
    assert a * (x * p) - q * (y * p) == (a * x - q * y) * p;
    MulAssociates(w, a * x - q * y, p);
  }

  // ---- both sides of a channel --------------------------------------------

  datatype Attribution = ByShare | AllToLeft | AllToRight | Unknown

  function BothInterest(to: Attribution, l: Amount, r: Amount, n: nat, w: nat): Result<(Amount, Amount), TooWide> {
    if to == ByShare then
      match Interest(l, l, n, w)
      case Err(e) => Err(e)
      case Ok(x) =>
        match Interest(r, r, n, w)
        case Err(e) => Err(e)
        case Ok(y) => Ok((x, y))
    else
      match Add(l, r)
      case Err(e) => Err(e)
      case Ok(both) =>
        match to
        case AllToLeft => (match Interest(l, both, n, w) case Err(e) => Err(e) case Ok(x) => Ok((x, r)))
        case AllToRight => (match Interest(r, both, n, w) case Err(e) => Err(e) case Ok(y) => Ok((l, y)))
        case _ => Ok((l, r))
  }

  /** The count of rounds and the rate for a channel opened at `open` and closed at `cur`. */
  function Terms(cur: nat, open: nat): (nat, nat)
    requires open <= cur
  {
    if open > 20_0000 then ((cur - open) / 10000, 10) else ((cur - open) / 2500, 1)
  }

  datatype InterestError = BelowOpenHeight | AmountTooWide(error: TooWide)

  function InterestOfHeight(cur: nat, open: nat, to: Attribution, l: Amount, r: Amount)
    : Result<(Amount, Amount), InterestError>
  {
    if cur < open then Err(BelowOpenHeight)
    else
      var (n, w) := Terms(cur, open);
      if n == 0 then Ok((l, r))
      else
        match BothInterest(to, l, r, n, w)
        case Err(e) => Err(AmountTooWide(e))
        case Ok(both) => Ok(both)
  }

  /** Both shares with their interest: nothing before the first round is due, and from then on the gain of
      the compound interest. */
  method CalculateInterestOfHeight(cur: nat, open: nat, to: Attribution, l: Amount, r: Amount)
    returns (res: Result<(Amount, Amount), InterestError>)
    ensures res == InterestOfHeight(cur, open, to, l, r)
    ensures res == Err(BelowOpenHeight) <==> cur < open
    ensures res.Ok? && !IsNegative(l) && !IsNegative(r) ==>
      open <= cur
      && ToBigint(res.value.0) + ToBigint(res.value.1) == ToBigint(l) + ToBigint(r) + TotalGain(cur, open, to, l, r)
      && Due(cur, open, to, l, r, res.value.0, res.value.1)
  {
    if cur < open {
      return Err(BelowOpenHeight);
    }
    if !IsNegative(l) && !IsNegative(r) && InterestOfHeight(cur, open, to, l, r).Ok? {
      InterestAdds(cur, open, to, l, r);
    }
    var n, w := (cur - open) / 2500, 1;
    if open > 20_0000 {
      n, w := (cur - open) / 10000, 10;
    }
    if n == 0 {
      return Ok((l, r));
    }
    var both := CalculateBoth(to, l, r, n, w);
    match both
    case Err(e) => res := Err(AmountTooWide(e));
    case Ok(x) => res := Ok(x);
  }

  /** Each side's share with the gain that the attribution gives it. */
  method CalculateBoth(to: Attribution, l: Amount, r: Amount, n: nat, w: nat)
    returns (res: Result<(Amount, Amount), TooWide>)
    ensures res == BothInterest(to, l, r, n, w)
    ensures res.Ok? && !IsNegative(l) && !IsNegative(r) ==> Grown(to, l, r, n, w, res.value.0, res.value.1)
  {
    if !IsNegative(l) && !IsNegative(r) && BothInterest(to, l, r, n, w).Ok? {
      BothGrow(to, l, r, n, w);
    }
    if to == ByShare {
      var x := CalculateInterest(l, l, n, w);
      if x.Err? {
        return Err(x.error);
      }
      var y := CalculateInterest(r, r, n, w);
      if y.Err? {
        return Err(y.error);
      }
      return Ok((x.value, y.value));
    }
    var both := Add(l, r);
    if both.Err? {
      return Err(both.error);
    }
    var pair := (l, r);
    if to == AllToLeft {
      var x := CalculateInterest(l, both.value, n, w);
      if x.Err? {
        return Err(x.error);
      }
      pair := (x.value, r);
    }
    if to == AllToRight {
      var y := CalculateInterest(r, both.value, n, w);
      if y.Err? {
        return Err(y.error);
      }
      pair := (l, y.value);
    }
    res := Ok(pair);
  }

  /** What each side receives beyond its share. */
  function SideGains(to: Attribution, l: Amount, r: Amount, n: nat, w: nat): (int, int) {
    match to
    case ByShare => (Gain(l, n, w), Gain(r, n, w))
    case AllToLeft => (if Add(l, r).Ok? then Gain(Add(l, r).value, n, w) else 0, 0)
    case AllToRight => (0, if Add(l, r).Ok? then Gain(Add(l, r).value, n, w) else 0)
    case Unknown => (0, 0)
  }

  /** What both sides together receive beyond their shares. */
  function TotalGain(cur: nat, open: nat, to: Attribution, l: Amount, r: Amount): int
    requires open <= cur
  {
    var (n, w) := Terms(cur, open);
    if n == 0 then 0 else SideGains(to, l, r, n, w).0 + SideGains(to, l, r, n, w).1
  }

  /** What each side receives: its share with the gain on it; or one side all the gain on both shares. */
  predicate Grown(to: Attribution, l: Amount, r: Amount, n: nat, w: nat, x: Amount, y: Amount) {
    match to
    case ByShare => ToBigint(x) == ToBigint(l) + Gain(l, n, w) && ToBigint(y) == ToBigint(r) + Gain(r, n, w)
    case AllToLeft => Add(l, r).Ok? && ToBigint(x) == ToBigint(l) + Gain(Add(l, r).value, n, w) && y == r
    case AllToRight => Add(l, r).Ok? && x == l && ToBigint(y) == ToBigint(r) + Gain(Add(l, r).value, n, w)
    case Unknown => x == l && y == r
  }

  /** What is due at height `cur` from a channel opened at `open`: for one opened above height 200,000 a round
      of ten in ten thousand every 10,000 blocks, for one opened before a round of one every 2,500 blocks. */
  predicate Due(cur: nat, open: nat, to: Attribution, l: Amount, r: Amount, x: Amount, y: Amount)
    requires open <= cur
  {
    if open > 20_0000 then
      if cur - open < 10000 then x == l && y == r else Grown(to, l, r, (cur - open) / 10000, 10, x, y)
    else
      if cur - open < 2500 then x == l && y == r else Grown(to, l, r, (cur - open) / 2500, 1, x, y)
  }

  /** However the interest is attributed, each side receives its share and its gain. */
  lemma BothGrow(to: Attribution, l: Amount, r: Amount, n: nat, w: nat)
    requires !IsNegative(l) && !IsNegative(r) && BothInterest(to, l, r, n, w).Ok?
    ensures var (x, y) := BothInterest(to, l, r, n, w).value; Grown(to, l, r, n, w, x, y)
  {
    if to == ByShare {
      InterestValue(l, l, n, w);
      InterestValue(r, r, n, w);
    } else if to != Unknown {
      SumSign(l, r);
      InterestValue(if to == AllToLeft then l else r, Add(l, r).value, n, w);
    }
  }

  /** Both shares together grow by the total gain; before the first round is due nothing changes. */
  lemma InterestAdds(cur: nat, open: nat, to: Attribution, l: Amount, r: Amount)
    requires !IsNegative(l) && !IsNegative(r) && InterestOfHeight(cur, open, to, l, r).Ok?
    ensures var (x, y) := InterestOfHeight(cur, open, to, l, r).value;
      open <= cur && ToBigint(x) + ToBigint(y) == ToBigint(l) + ToBigint(r) + TotalGain(cur, open, to, l, r)
      && Due(cur, open, to, l, r, x, y)
  {
    var (n, w) := Terms(cur, open);
    if n > 0 {
      BothGrow(to, l, r, n, w);
    }
  }

  /** Once the first round is over, after 10,000 blocks or 2,500, a share in a unit above 8 has grown, by its
      compound interest. */
  lemma ShareHasGrown(cur: nat, open: nat, l: Amount, r: Amount)
    requires !IsNegative(l) && !IsNegative(r) && InterestOfHeight(cur, open, ByShare, l, r).Ok?
    requires ToBigint(l) > 0 && l.unit > 8
    ensures var x := InterestOfHeight(cur, open, ByShare, l, r).value.0;
      && open <= cur
      && (open > 20_0000 && cur - open >= 10000 ==>
            ToBigint(x) > ToBigint(l) && Compounded(ToBigint(l), ToBigint(x), (cur - open) / 10000, 10, l.unit))
      && (open <= 20_0000 && cur - open >= 2500 ==>
            ToBigint(x) > ToBigint(l) && Compounded(ToBigint(l), ToBigint(x), (cur - open) / 2500, 1, l.unit))
  {
    InterestAdds(cur, open, ByShare, l, r);
    var x := InterestOfHeight(cur, open, ByShare, l, r).value.0;
    if open > 20_0000 {
      if cur - open >= 10000 {
        HasGrown(l, x, (cur - open) / 10000, 10);
      }
    } else if cur - open >= 2500 {
      HasGrown(l, x, (cur - open) / 2500, 1);
    }
  }

  lemma HasGrown(share: Amount, x: Amount, n: nat, w: nat)
    requires ToBigint(share) > 0 && share.unit > 8 && !IsNegative(share) && n > 0 && w > 0
    requires ToBigint(x) == ToBigint(share) + Gain(share, n, w)
    ensures ToBigint(x) > ToBigint(share) && Compounded(ToBigint(share), ToBigint(x), n, w, share.unit)
  {
    GainIsPositive(share, n, w);
    GainCompounds(share, n, w);
  }

  lemma SumSign(l: Amount, r: Amount)
    requires !IsNegative(l) && !IsNegative(r) && Add(l, r).Ok?
    ensures !IsNegative(Add(l, r).value)
  {
    GainSign(l, 0, 0);
    GainSign(r, 0, 0);
  }

  /** With no share in the eighth unit, closing a channel never pays out less than was locked. */
  lemma NoLoss(cur: nat, open: nat, to: Attribution, l: Amount, r: Amount)
    requires open <= cur && !IsNegative(l) && !IsNegative(r)
    requires l.unit != 8 && r.unit != 8 && (Add(l, r).Ok? ==> Add(l, r).value.unit != 8)
    ensures TotalGain(cur, open, to, l, r) >= 0
  {
    var (n, w) := Terms(cur, open);
    GainSign(l, n, w);
    GainSign(r, n, w);
    if Add(l, r).Ok? {
      SumSign(l, r);
      GainSign(Add(l, r).value, n, w);
    }
  }
}
