/** Sums of coins over all balances and all open channels, and what single operations do to them. */
module CoinTotals {
  import opened Base
  import opened Amounts
  import opened Interest
  import opened Ledgers
  import Octets
  import opened DiamondIndex

  function Hacs(balances: map<Address, Balance>): map<Address, int> {
    map a | a in balances :: ToBigint(balances[a].hacash)
  }

  /** The coins that an open channel holds. */
  function Lock(c: Channel): int {
    if c.status == Opening then ToBigint(c.leftAmt) + ToBigint(c.rightAmt) else 0
  }

  function Locks(channels: map<ChannelId, Channel>): map<ChannelId, int> {
    map id | id in channels :: Lock(channels[id])
  }

  ghost function CoinSum(l: Ledger): int {
    Sum(Hacs(l.balances))
  }

  ghost function LockSum(l: Ledger): int {
    Sum(Locks(l.channels))
  }

  ghost function Total(l: Ledger): int {
    CoinSum(l) + LockSum(l)
  }

  function Coins(l: Ledger, a: Address): int {
    ToBigint(BalanceIn(l.balances, a).hacash)
  }

  ghost predicate NoDebts(l: Ledger) {
    forall a :: Coins(l, a) >= 0
  }

  lemma HacsWrite(balances: map<Address, Balance>, a: Address, b: Balance)
    ensures Sum(Hacs(balances[a := b])) ==
      Sum(Hacs(balances)) + ToBigint(b.hacash) - ToBigint(BalanceIn(balances, a).hacash)
  {
    assert Hacs(balances[a := b]) == Hacs(balances)[a := ToBigint(b.hacash)];
    SumWrite(Hacs(balances), a, ToBigint(b.hacash));
  }

  lemma LocksWrite(channels: map<ChannelId, Channel>, id: ChannelId, c: Channel)
    ensures Sum(Locks(channels[id := c])) ==
      Sum(Locks(channels)) + Lock(c) - (if id in channels then Lock(channels[id]) else 0)
  {
    assert Locks(channels[id := c]) == Locks(channels)[id := Lock(c)];
    SumWrite(Locks(channels), id, Lock(c));
  }

  /** A change of coins in the balances only, by `delta` in all; nobody gets into debt. */
  ghost predicate CoinStep(l: Ledger, l1: Ledger, delta: int) {
    && l1 == l.(balances := l1.balances) && SameCounts(l, l1)
    && CoinSum(l1) == CoinSum(l) + delta
    && (NoDebts(l) ==> NoDebts(l1))
  }

  lemma CoinStepRefl(l: Ledger)
    ensures CoinStep(l, l, 0)
  {
  }

  lemma CoinStepJoin(l: Ledger, l1: Ledger, l2: Ledger, d: int, e: int)
    requires CoinStep(l, l1, d) && CoinStep(l1, l2, e)
    ensures CoinStep(l, l2, d + e)
  {
    forall a
      ensures BalanceIn(l2.balances, a).diamond == BalanceIn(l.balances, a).diamond
    {
      assert BalanceIn(l1.balances, a).diamond == BalanceIn(l.balances, a).diamond;
    }
  }

  lemma SetHacashStep(l: Ledger, a: Address, amt: Amount)
    requires SetHacash(l, a, amt).Ok?
    ensures var l1 := SetHacash(l, a, amt).value;
      && l1 == l.(balances := l1.balances) && SameCounts(l, l1)
      && CoinSum(l1) == CoinSum(l) + ToBigint(amt) - Coins(l, a)
      && Coins(l1, a) == ToBigint(amt) && forall x :: x != a ==> Coins(l1, x) == Coins(l, x)
  {
    HacsWrite(l.balances, a, BalanceOf(l, a).(hacash := amt));
  }

  lemma PositiveValue(amt: Amount)
    requires !IsNegative(amt)
    ensures ToBigint(amt) >= 0
  {
    GainSign(amt, 0, 0);
  }

  /** Adding coins to one balance changes just that balance, by just that amount. */
  lemma HacAddEffect(l: Ledger, a: Address, amt: Amount)
    requires HacAdd(l, a, amt).Ok?
    ensures var l1 := HacAdd(l, a, amt).value;
      && CoinStep(l, l1, ToBigint(amt))
      && Coins(l1, a) == Coins(l, a) + ToBigint(amt) && forall x :: x != a ==> Coins(l1, x) == Coins(l, x)
  {
    SumIsExact(BalanceOf(l, a).hacash, amt);
    SetHacashStep(l, a, Add(BalanceOf(l, a).hacash, amt).value);
    PositiveValue(amt);
  }

  lemma HacSubEffect(l: Ledger, a: Address, amt: Amount)
    requires HacSub(l, a, amt).Ok?
    ensures var l1 := HacSub(l, a, amt).value;
      && CoinStep(l, l1, -ToBigint(amt)) && ToBigint(amt) <= Coins(l, a)
      && Coins(l1, a) == Coins(l, a) - ToBigint(amt) && forall x :: x != a ==> Coins(l1, x) == Coins(l, x)
  {
    SumIsExact(BalanceOf(l, a).hacash, amt);
    SetHacashStep(l, a, Sub(BalanceOf(l, a).hacash, amt).value);
  }

  /** A transfer conserves coins. */
  lemma HacMoveEffect(l: Ledger, height: nat, from: Address, to: Address, amt: Amount)
    requires HacMove(l, height, from, to, amt).Ok?
    ensures var l1 := HacMove(l, height, from, to, amt).value;
      && CoinStep(l, l1, 0)
      && (from == to ==> l1 == l)
      && (from != to ==>
        Coins(l1, from) == Coins(l, from) - ToBigint(amt) && Coins(l1, to) == Coins(l, to) + ToBigint(amt))
      && (from != to ==> 0 <= ToBigint(amt) <= Coins(l, from))
      && forall a :: a != from && a != to ==> Coins(l1, a) == Coins(l, a)
  {
    if from == to {
      CoinStepRefl(l);
    } else {
      var l1 := HacSub(l, from, amt).value;
      PositiveValue(amt);
      HacSubEffect(l, from, amt);
      HacAddEffect(l1, to, amt);
      CoinStepJoin(l, l1, HacAdd(l1, to, amt).value, -ToBigint(amt), ToBigint(amt));
    }
  }

  /** A balance is found too low exactly when it is worth less than the amount, or the same in another
      form. */
  lemma HacSubRefused(l: Ledger, a: Address, amt: Amount)
    ensures HacSub(l, a, amt) == Err(NotEnough) <==>
      IsPositive(amt) &&
        (Coins(l, a) < ToBigint(amt) || (Coins(l, a) == ToBigint(amt) && BalanceOf(l, a).hacash != amt))
  {
    CmpByValue(BalanceOf(l, a).hacash, amt);
  }

  /** So a balance of one hundred in one form does not cover one hundred in another. */
  lemma CoveredRefused(l: Ledger, a: Address)
    requires BalanceOf(l, a).hacash == Raw(2, 1, [1])
    ensures var amt: Amount := Raw(1, 1, [10]);
      amt.Valid() && Coins(l, a) == ToBigint(amt) == 100 && HacSub(l, a, amt) == Err(NotEnough)
  {
    CmpNotAntisymmetric();
    HacSubRefused(l, a, Raw(1, 1, [10]));
  }

  /** A transfer to oneself is accepted without a look at it below height 200,000; from there on exactly
      when the amount is positive, and the balance is worth more or is that very amount. */
  lemma SelfTransferExact(l: Ledger, height: nat, a: Address, amt: Amount)
    ensures HacMove(l, height, a, a, amt).Ok? <==>
      height < 20_0000 || (IsPositive(amt) && (ToBigint(amt) < Coins(l, a) || BalanceOf(l, a).hacash == amt))
    ensures HacMove(l, height, a, a, amt).Ok? ==> HacMove(l, height, a, a, amt).value == l
  {
    CmpByValue(BalanceOf(l, a).hacash, amt);
    if IsPositive(amt) {
      PositiveValue(amt);
    }
  }

  lemma SubIfAnyEffect(l: Ledger, a: Address, amt: Amount)
    requires SubIfAny(l, a, amt).Ok?
    ensures CoinStep(l, SubIfAny(l, a, amt).value, -ToBigint(amt))
  {
    if IsEmpty(amt) {
      CoinStepRefl(l);
    } else {
      HacSubEffect(l, a, amt);
    }
  }

  lemma AddIfPositiveEffect(l: Ledger, a: Address, amt: Amount)
    requires AddIfPositive(l, a, amt).Ok? && ToBigint(amt) >= 0
    ensures CoinStep(l, AddIfPositive(l, a, amt).value, ToBigint(amt))
    ensures Coins(AddIfPositive(l, a, amt).value, a) == Coins(l, a) + ToBigint(amt)
    ensures forall x :: x != a ==> Coins(AddIfPositive(l, a, amt).value, x) == Coins(l, x)
  {
    if IsPositive(amt) {
      HacAddEffect(l, a, amt);
    } else {
      NotPositiveValue(amt);
      CoinStepRefl(l);
    }
  }

  lemma NotPositiveValue(amt: Amount)
    requires !IsPositive(amt)
    ensures ToBigint(amt) <= 0
  {
    if !IsEmpty(amt) {
      var num: int := Octets.FromBigEndian(amt.byte);
      MulOrder(-num, 0, Pow(10, amt.unit));
    }
  }

  /** Balances with the same coins everywhere. */
  ghost predicate SameCoins(m: map<Address, Balance>, m1: map<Address, Balance>) {
    && Sum(Hacs(m1)) == Sum(Hacs(m))
    && forall a :: ToBigint(BalanceIn(m1, a).hacash) == ToBigint(BalanceIn(m, a).hacash)
  }

  lemma SameCoinsJoin(m: map<Address, Balance>, m1: map<Address, Balance>, m2: map<Address, Balance>)
    requires SameCoins(m, m1) && SameCoins(m1, m2)
    ensures SameCoins(m, m2)
  {
    forall a
      ensures ToBigint(BalanceIn(m2, a).hacash) == ToBigint(BalanceIn(m, a).hacash)
    {
      assert ToBigint(BalanceIn(m1, a).hacash) == ToBigint(BalanceIn(m, a).hacash);
    }
  }

  /** Writing a diamond counter leaves all coins as they are. */
  lemma CounterKeepsCoins(m: map<Address, Balance>, a: Address, n: nat)
    ensures SameCoins(m, m[a := BalanceIn(m, a).(diamond := n)])
  {
    HacsWrite(m, a, BalanceIn(m, a).(diamond := n));
  }

  lemma SetCountKeepsCoins(l: Ledger, a: Address, n: nat, l1: Ledger)
    requires l1 == SetCount(l, a, n)
    ensures SameCoins(l.balances, l1.balances)
  {
    CounterKeepsCoins(l.balances, a, n);
  }

  lemma CountersKeepCoins(l: Ledger, from: Address, to: Address, n: nat)
    requires HacdMove(l, from, to, n).Ok?
    ensures SameCoins(l.balances, HacdMove(l, from, to, n).value.balances)
  {
    var l1, l2 := HacdMoveIs(l, from, to, n);
    SetCountKeepsCoins(l, from, BalanceOf(l, from).diamond - n, l1);
    SetCountKeepsCoins(l1, to, BalanceOf(l1, to).diamond + n, l2);
    SameCoinsJoin(l.balances, l1.balances, l2.balances);
  }

  lemma HacdMoveIs(l: Ledger, from: Address, to: Address, n: nat) returns (l1: Ledger, l2: Ledger)
    requires HacdMove(l, from, to, n).Ok?
    ensures n <= BalanceOf(l, from).diamond && l1 == SetCount(l, from, BalanceOf(l, from).diamond - n)
    ensures l2 == SetCount(l1, to, BalanceOf(l1, to).diamond + n) && HacdMove(l, from, to, n) == Ok(l2)
  {
    l1 := HacdSub(l, from, n).value;
    l2 := HacdAdd(l1, to, n);
  }
}
