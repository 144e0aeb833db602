/**
 The life of payment channels: the counter of open channels, what opening and closing do to coins, and
 what may become of a channel.
 */
module ChannelLife {
  import opened Base
  import opened Amounts
  import opened Interest
  import opened Ledgers
  import opened DiamondIndex
  import opened CoinTotals

  function OpenIds(channels: map<ChannelId, Channel>): set<ChannelId> {
    set id | id in channels && channels[id].status == Opening
  }

  ghost predicate ChannelsOk(l: Ledger) {
    && l.opening == |OpenIds(l.channels)|
    && forall id :: id in l.channels ==> SharesOk(l.channels[id])
  }

  /** Every channel was opened between two sides, with interest by share and without debts. */
  predicate SharesOk(c: Channel) {
    !IsNegative(c.leftAmt) && !IsNegative(c.rightAmt) && c.interestTo == ByShare && c.left != c.right
  }

  /** What may become of a channel: the sides stay; a later opening has a larger reuse number; within one
      opening the only change is the close. */
  predicate ChannelLater(c: Channel, d: Channel) {
    && d.left == c.left && d.right == c.right
    && (|| d.reuse > c.reuse
        || d == c
        || (d.reuse == c.reuse && c.status == Opening && d.status != Opening))
  }

  ghost predicate ChannelsLater(cs: map<ChannelId, Channel>, ds: map<ChannelId, Channel>) {
    forall id :: id in cs ==> id in ds && ChannelLater(cs[id], ds[id])
  }

  lemma ChannelsLaterJoin(cs: map<ChannelId, Channel>, ds: map<ChannelId, Channel>, es: map<ChannelId, Channel>)
    requires ChannelsLater(cs, ds) && ChannelsLater(ds, es)
    ensures ChannelsLater(cs, es)
  {
    forall id | id in cs
      ensures id in es && ChannelLater(cs[id], es[id])
    {
      assert ChannelLater(cs[id], ds[id]) && ChannelLater(ds[id], es[id]);
    }
  }

  // ---- opening ------------------------------------------------------------

  lemma OpenIdsWrite(channels: map<ChannelId, Channel>, id: ChannelId, c: Channel)
    ensures c.status == Opening ==> OpenIds(channels[id := c]) == OpenIds(channels) + {id}
    ensures c.status != Opening ==> OpenIds(channels[id := c]) == OpenIds(channels) - {id}
  {
  }

  /** What opening leaves: the coins are taken from both sides and locked. */
  lemma OpenEffect(l: Ledger, height: nat, id: ChannelId, left: Address, leftAmt: Amount, right: Address,
    rightAmt: Amount)
    requires OpenChannel(l, height, id, left, leftAmt, right, rightAmt).Ok?
    ensures var l1 := OpenChannel(l, height, id, left, leftAmt, right, rightAmt).value;
      && SameDiamonds(l, l1) && l1.txexist == l.txexist
      && Total(l1) == Total(l) && (NoDebts(l) ==> NoDebts(l1))
      && (ChannelsOk(l) ==> ChannelsOk(l1)) && ChannelsLater(l.channels, l1.channels)
      && id in l1.channels && l1.channels[id].status == Opening &&
        Lock(l1.channels[id]) == ToBigint(leftAmt) + ToBigint(rightAmt)
      && l1.channels[id].reuse == (if id in l.channels then l.channels[id].reuse + 1 else 1)
  {
    var l2 := SubIfAny(l, left, leftAmt).value;
    var l3 := SubIfAny(l2, right, rightAmt).value;
    SubIfAnyEffect(l, left, leftAmt);
    SubIfAnyEffect(l2, right, rightAmt);
    CoinStepJoin(l, l2, l3, -ToBigint(leftAmt), -ToBigint(rightAmt));
    OpenRecorded(l, l3, height, id, left, leftAmt, right, rightAmt);
  }

  ghost predicate ChannelMapOk(channels: map<ChannelId, Channel>, opening: nat) {
    && opening == |OpenIds(channels)|
    && forall id :: id in channels ==> SharesOk(channels[id])
  }

  /** Recording a newly opened channel, over nothing or over one closed by agreement. */
  lemma NewChannel(channels: map<ChannelId, Channel>, opening: nat, id: ChannelId, c: Channel)
    requires c.status == Opening && SharesOk(c)
    requires id in channels ==> var d := channels[id];
      d.status != Opening && d.left == c.left && d.right == c.right && c.reuse == d.reuse + 1
    ensures Sum(Locks(channels[id := c])) == Sum(Locks(channels)) + ToBigint(c.leftAmt) + ToBigint(c.rightAmt)
    ensures ChannelsLater(channels, channels[id := c])
    ensures ChannelMapOk(channels, opening) ==> ChannelMapOk(channels[id := c], opening + 1)
  {
    LocksWrite(channels, id, c);
    OpenIdsWrite(channels, id, c);
    assert id !in OpenIds(channels);
  }

  lemma OpenRecorded(l: Ledger, l3: Ledger, height: nat, id: ChannelId, left: Address, leftAmt: Amount,
    right: Address, rightAmt: Amount)
    requires OpenChannel(l, height, id, left, leftAmt, right, rightAmt).Ok?
    requires SubIfAny(l, left, leftAmt).Ok? && SubIfAny(SubIfAny(l, left, leftAmt).value, right, rightAmt) == Ok(l3)
    requires CoinStep(l, l3, -ToBigint(leftAmt) - ToBigint(rightAmt))
    ensures var l1 := OpenChannel(l, height, id, left, leftAmt, right, rightAmt).value;
      && SameDiamonds(l, l1) && l1.txexist == l.txexist
      && Total(l1) == Total(l) && (NoDebts(l) ==> NoDebts(l1))
      && (ChannelsOk(l) ==> ChannelsOk(l1)) && ChannelsLater(l.channels, l1.channels)
      && id in l1.channels && l1.channels[id].status == Opening &&
        Lock(l1.channels[id]) == ToBigint(leftAmt) + ToBigint(rightAmt)
      && l1.channels[id].reuse == (if id in l.channels then l.channels[id].reuse + 1 else 1)
  {
    var reuse := if id in l.channels then l.channels[id].reuse + 1 else 1;
    var c := Channel(Opening, reuse, height, ByShare, left, leftAmt, right, rightAmt, None);
    OpenIs(l, l3, height, id, left, leftAmt, right, rightAmt, c);
    NewChannel(l.channels, l.opening, id, c);
    var l1 := l3.(channels := l.channels[id := c], opening := l.opening + 1);
    assert forall a :: Coins(l1, a) == Coins(l3, a);
    assert ChannelsOk(l) <==> ChannelMapOk(l.channels, l.opening);
    assert ChannelsOk(l1) <==> ChannelMapOk(l1.channels, l1.opening);
  }

  lemma OpenIs(l: Ledger, l3: Ledger, height: nat, id: ChannelId, left: Address, leftAmt: Amount, right: Address,
    rightAmt: Amount, c: Channel)
    requires OpenChannel(l, height, id, left, leftAmt, right, rightAmt).Ok?
    requires SubIfAny(l, left, leftAmt).Ok? && SubIfAny(SubIfAny(l, left, leftAmt).value, right, rightAmt) == Ok(l3)
    requires l3.channels == l.channels && l3.opening == l.opening
    requires c == Channel(Opening, if id in l.channels then l.channels[id].reuse + 1 else 1,
                          height, ByShare, left, leftAmt, right, rightAmt, None)
    ensures OpenChannel(l, height, id, left, leftAmt, right, rightAmt).value ==
      l3.(channels := l.channels[id := c], opening := l.opening + 1)
    ensures !IsNegative(leftAmt) && !IsNegative(rightAmt) && left != right
    ensures id in l.channels ==>
      var d := l.channels[id]; d.status == AgreementClosed && d.left == left && d.right == right
  {
    assert CheckOpen(l3, id, left, leftAmt, right, rightAmt).None?;
  }

  // ---- closing ------------------------------------------------------------

  /** The interest on shares `x` and `y` when a channel is closed at this height. */
  function InterestOn(height: nat, c: Channel, x: Amount, y: Amount): int {
    if c.openHeight <= height && Add(x, y).Ok? && IsPositive(Add(x, y).value)
    then TotalGain(height, c.openHeight, c.interestTo, x, y) else 0
  }

  /** The interest that a close at the locked shares pays. */
  function InterestPaid(height: nat, c: Channel): int {
    InterestOn(height, c, c.leftAmt, c.rightAmt)
  }

  /** Two shares of what the channel holds. */
  predicate Divides(c: Channel, x: Amount, y: Amount) {
    SharesOk(c) && !IsNegative(x) && !IsNegative(y) && Add(x, y).Ok? && Add(x, y) == Add(c.leftAmt, c.rightAmt)
  }

  /** The interest on one share. */
  function ShareGain(height: nat, c: Channel, share: Amount): int
    requires c.openHeight <= height
  {
    var (n, w) := Terms(height, c.openHeight);
    if n == 0 then 0 else Gain(share, n, w)
  }

  /** A share that is lost on the way: it is worth something, its unit is 8, at least one round is due,
      and after the rounds its number does not end in a zero. */
  predicate ShareLost(height: nat, c: Channel, share: Amount)
    requires c.openHeight <= height
  {
    var (n, w) := Terms(height, c.openHeight);
    n > 0 && ToBigint(share) > 0 && share.unit == 8 && Rounds(Scaled(share), n, w) % 10 != 0
  }

  lemma ShareGainSign(height: nat, c: Channel, share: Amount)
    requires c.openHeight <= height && !IsNegative(share)
    ensures ToBigint(share) >= 0 && ToBigint(share) + ShareGain(height, c, share) >= 0
    ensures ShareGain(height, c, share) < 0 <==> ShareLost(height, c, share)
    ensures ShareLost(height, c, share) ==> ShareGain(height, c, share) == -ToBigint(share)
  {
    var (n, w) := Terms(height, c.openHeight);
    GainSign(share, n, w);
  }

  /** What the two sides are paid. */
  lemma SharesWithGain(height: nat, c: Channel, x: Amount, y: Amount)
    requires c.interestTo == ByShare && !IsNegative(x) && !IsNegative(y)
    requires InterestOfHeight(height, c.openHeight, c.interestTo, x, y).Ok?
    ensures c.openHeight <= height
    ensures var (v, w) := InterestOfHeight(height, c.openHeight, c.interestTo, x, y).value;
      && ToBigint(v) == ToBigint(x) + ShareGain(height, c, x) >= 0
      && ToBigint(w) == ToBigint(y) + ShareGain(height, c, y) >= 0
    ensures TotalGain(height, c.openHeight, c.interestTo, x, y) == ShareGain(height, c, x) + ShareGain(height, c, y)
  {
    var (n, w) := Terms(height, c.openHeight);
    ShareGainSign(height, c, x);
    ShareGainSign(height, c, y);
    if n > 0 {
      InterestValue(x, x, n, w);
      InterestValue(y, y, n, w);
    }
  }

  /** A payment gives each side its share and the interest on it, and nobody else anything; the interest
      of both together is not negative. */
  lemma PayOutEffect(l: Ledger, height: nat, c: Channel, x: Amount, y: Amount, total: Amount)
    requires Divides(c, x, y) && Add(x, y) == Ok(total) && PayOut(l, height, c, x, y, total).Ok?
    ensures CoinStep(l, PayOut(l, height, c, x, y, total).value, ToBigint(total) + InterestOn(height, c, x, y))
    ensures InterestOn(height, c, x, y) >= 0
  {
    if IsPositive(total) {
      var v, w := PayOutSteps(l, height, c, x, y, total, PayOut(l, height, c, x, y, total).value);
      SharesWithGain(height, c, x, y);
      PaidBoth(l, c, v, w);
      SumIsExact(x, y);
      SumIsExact(v, w);
      ComparesByValue(Add(v, w).value, total);
    } else {
      SumIsExact(x, y);
      PositiveValue(x);
      PositiveValue(y);
      NotPositiveValue(total);
      CoinStepRefl(l);
    }
  }

  lemma PaidBoth(l: Ledger, c: Channel, v: Amount, w: Amount)
    requires ToBigint(v) >= 0 && ToBigint(w) >= 0 && c.left != c.right
    requires AddIfPositive(l, c.left, v).Ok? && AddIfPositive(AddIfPositive(l, c.left, v).value, c.right, w).Ok?
    ensures var l2 := AddIfPositive(AddIfPositive(l, c.left, v).value, c.right, w).value;
      && CoinStep(l, l2, ToBigint(v) + ToBigint(w))
      && Coins(l2, c.left) == Coins(l, c.left) + ToBigint(v) && Coins(l2, c.right) == Coins(l, c.right) + ToBigint(w)
      && forall a :: a != c.left && a != c.right ==> Coins(l2, a) == Coins(l, a)
  {
    var l1 := AddIfPositive(l, c.left, v).value;
    AddIfPositiveEffect(l, c.left, v);
    AddIfPositiveEffect(l1, c.right, w);
    CoinStepJoin(l, l1, AddIfPositive(l1, c.right, w).value, ToBigint(v), ToBigint(w));
  }

  /** An accepted close, whatever the division: the opening is over and its coins are paid out. */
  lemma CloseEffect(l: Ledger, height: nat, id: ChannelId, x: Amount, y: Amount, final: bool)
    requires ChannelsOk(l) && id in l.channels && CloseWith(l, height, id, l.channels[id], x, y, final).Ok?
    ensures var c := l.channels[id]; var l1 := CloseWith(l, height, id, c, x, y, final).value;
      && SameDiamonds(l, l1) && l1.txexist == l.txexist
      && Total(l1) == Total(l) + InterestOn(height, c, x, y) && InterestOn(height, c, x, y) >= 0
      && (NoDebts(l) ==> NoDebts(l1))
      && ChannelsOk(l1) && ChannelsLater(l.channels, l1.channels)
      && l1.channels == l.channels[id :=
           c.(status := if final then FinalArbitrationClosed else AgreementClosed, closedLeft := Some(x))]
  {
    var c := l.channels[id];
    var total := Add(c.leftAmt, c.rightAmt).value;
    var l2 := PayOut(l, height, c, x, y, total).value;
    CloseIs(l, height, id, x, y, final, total, l2);
    PayOutEffect(l, height, c, x, y, total);
    SumIsExact(c.leftAmt, c.rightAmt);
    CloseRecorded(l, l2, id, Closed(c, x, final), ToBigint(total) + InterestOn(height, c, x, y));
  }

  function Closed(c: Channel, x: Amount, final: bool): Channel {
    c.(status := if final then FinalArbitrationClosed else AgreementClosed, closedLeft := Some(x))
  }

  lemma CloseIs(l: Ledger, height: nat, id: ChannelId, x: Amount, y: Amount, final: bool, total: Amount, l2: Ledger)
    requires ChannelsOk(l) && id in l.channels && CloseWith(l, height, id, l.channels[id], x, y, final).Ok?
    requires Add(l.channels[id].leftAmt, l.channels[id].rightAmt) == Ok(total)
    requires PayOut(l, height, l.channels[id], x, y, total) == Ok(l2)
    ensures Divides(l.channels[id], x, y) && Add(x, y) == Ok(total) && l.channels[id].status == Opening
    ensures l.opening > 0 && CloseWith(l, height, id, l.channels[id], x, y, final).value ==
      l2.(channels := l2.channels[id := Closed(l.channels[id], x, final)], opening := l.opening - 1)
  {
    assert SharesOk(l.channels[id]);
  }

  lemma CloseRecorded(l: Ledger, l2: Ledger, id: ChannelId, d: Channel, paid: int)
    requires ChannelsOk(l) && id in l.channels && l.opening > 0 && CoinStep(l, l2, paid)
    requires var c := l.channels[id];
      c.status == Opening && d.status != Opening && d == c.(status := d.status, closedLeft := d.closedLeft)
    ensures var l1 := l2.(channels := l2.channels[id := d], opening := l.opening - 1);
      && SameDiamonds(l, l1) && l1.txexist == l.txexist
      && Total(l1) == Total(l) + paid - Lock(l.channels[id]) && (NoDebts(l) ==> NoDebts(l1))
      && ChannelsOk(l1) && ChannelsLater(l.channels, l1.channels)
  {
    LocksWrite(l.channels, id, d);
    OpenIdsWrite(l.channels, id, d);
    assert id in OpenIds(l.channels);
    var l1 := l2.(channels := l2.channels[id := d], opening := l.opening - 1);
    assert forall a :: Coins(l1, a) == Coins(l2, a);
  }

  /** From `l` to `l1` each side of `c` is paid its share and the interest on it, and nobody else anything. */
  ghost predicate PaysShares(l: Ledger, l1: Ledger, height: nat, c: Channel, x: Amount, y: Amount) {
    && c.openHeight <= height
    && Coins(l1, c.left) == Coins(l, c.left) + ToBigint(x) + ShareGain(height, c, x)
    && Coins(l1, c.right) == Coins(l, c.right) + ToBigint(y) + ShareGain(height, c, y)
    && forall a :: a != c.left && a != c.right ==> Coins(l1, a) == Coins(l, a)
  }

  /** Closing gives each side its share and the interest on it, and nobody else anything. */
  lemma CloseReturns(l: Ledger, height: nat, id: ChannelId, x: Amount, y: Amount, final: bool)
    requires ChannelsOk(l) && id in l.channels && CloseWith(l, height, id, l.channels[id], x, y, final).Ok?
    requires IsPositive(Add(x, y).value)
    ensures PaysShares(l, CloseWith(l, height, id, l.channels[id], x, y, final).value, height, l.channels[id], x, y)
  {
    var c := l.channels[id];
    var total := Add(c.leftAmt, c.rightAmt).value;
    var l2 := PayOut(l, height, c, x, y, total).value;
    CloseIs(l, height, id, x, y, final, total, l2);
    PayOutReturns(l, height, c, x, y, total, l2);
    SameBalancesPay(l, l2, CloseWith(l, height, id, c, x, y, final).value, height, c, x, y);
  }

  lemma PayOutReturns(l: Ledger, height: nat, c: Channel, x: Amount, y: Amount, total: Amount, l2: Ledger)
    requires Divides(c, x, y) && IsPositive(total) && PayOut(l, height, c, x, y, total) == Ok(l2)
    ensures PaysShares(l, l2, height, c, x, y)
  {
    var v, w := PayOutSteps(l, height, c, x, y, total, l2);
    SharesWithGain(height, c, x, y);
    PaidBoth(l, c, v, w);
  }

  lemma PayOutSteps(l: Ledger, height: nat, c: Channel, x: Amount, y: Amount, total: Amount, l2: Ledger)
    returns (v: Amount, w: Amount)
    requires IsPositive(total) && PayOut(l, height, c, x, y, total) == Ok(l2)
    ensures InterestOfHeight(height, c.openHeight, c.interestTo, x, y) == Ok((v, w))
    ensures Add(v, w).Ok? && !LessThan(Add(v, w).value, total)
    ensures AddIfPositive(l, c.left, v).Ok? && AddIfPositive(AddIfPositive(l, c.left, v).value, c.right, w) == Ok(l2)
  {
    v, w := InterestOfHeight(height, c.openHeight, c.interestTo, x, y).value.0,
      InterestOfHeight(height, c.openHeight, c.interestTo, x, y).value.1;
  }

  lemma SameBalancesPay(l: Ledger, l2: Ledger, l1: Ledger, height: nat, c: Channel, x: Amount, y: Amount)
    requires PaysShares(l, l2, height, c, x, y) && l1.balances == l2.balances
    ensures PaysShares(l, l1, height, c, x, y)
  {
    forall a
      ensures Coins(l1, a) == Coins(l2, a)
    {
    }
  }

  /** With nothing locked, nothing is paid. */
  lemma CloseOfNothing(l: Ledger, height: nat, id: ChannelId, x: Amount, y: Amount, final: bool)
    requires ChannelsOk(l) && id in l.channels && CloseWith(l, height, id, l.channels[id], x, y, final).Ok?
    requires !IsPositive(Add(x, y).value)
    ensures CloseWith(l, height, id, l.channels[id], x, y, final).value.balances == l.balances
    ensures ToBigint(x) == 0 == ToBigint(y)
  {
    CloseIs(l, height, id, x, y, final, Add(x, y).value, l);
    SumIsExact(x, y);
    PositiveValue(x);
    PositiveValue(y);
    NotPositiveValue(Add(x, y).value);
  }

  /** An accepted close of a positive total pays a side less than its share exactly when that share is
      lost on the way; the side then gets nothing at all. */
  lemma CloseShortPays(l: Ledger, height: nat, id: ChannelId, x: Amount, y: Amount, final: bool)
    requires ChannelsOk(l) && id in l.channels && CloseWith(l, height, id, l.channels[id], x, y, final).Ok?
    requires IsPositive(Add(x, y).value)
    ensures var c := l.channels[id]; var l1 := CloseWith(l, height, id, c, x, y, final).value;
      && c.openHeight <= height
      && (Coins(l1, c.left) < Coins(l, c.left) + ToBigint(x) <==> ShareLost(height, c, x))
      && (Coins(l1, c.right) < Coins(l, c.right) + ToBigint(y) <==> ShareLost(height, c, y))
      && (ShareLost(height, c, x) ==> Coins(l1, c.left) == Coins(l, c.left))
      && (ShareLost(height, c, y) ==> Coins(l1, c.right) == Coins(l, c.right))
  {
    var c := l.channels[id];
    CloseReturns(l, height, id, x, y, final);
    ShareGainSign(height, c, x);
    ShareGainSign(height, c, y);
  }

  /** The counter of open channels cannot run below zero. */
  lemma CountNeverUnderflows(l: Ledger, height: nat, id: ChannelId, leftAmt: Amount, rightAmt: Amount, final: bool)
    requires ChannelsOk(l) && id in l.channels
    ensures CloseWith(l, height, id, l.channels[id], leftAmt, rightAmt, final) != Err(CountUnderflow)
  {
    var c := l.channels[id];
    if c.status == Opening {
      assert id in OpenIds(l.channels);
      if Add(c.leftAmt, c.rightAmt).Ok? {
        PayOutErrors(l, height, c, leftAmt, rightAmt, Add(c.leftAmt, c.rightAmt).value);
      }
    }
  }

  lemma AddErrors(l: Ledger, a: Address, amt: Amount)
    ensures AddIfPositive(l, a, amt) != Err(CountUnderflow) && AddIfPositive(l, a, amt) != Err(InterestTooLow)
  {
  }

  lemma PayOutErrors(l: Ledger, height: nat, c: Channel, leftAmt: Amount, rightAmt: Amount, total: Amount)
    ensures PayOut(l, height, c, leftAmt, rightAmt, total) != Err(CountUnderflow)
  {
    if InterestOfHeight(height, c.openHeight, c.interestTo, leftAmt, rightAmt).Ok? {
      var pay := InterestOfHeight(height, c.openHeight, c.interestTo, leftAmt, rightAmt).value;
      AddErrors(l, c.left, pay.0);
      if AddIfPositive(l, c.left, pay.0).Ok? {
        AddErrors(AddIfPositive(l, c.left, pay.0).value, c.right, pay.1);
      }
    }
  }

  /** A close is refused for too low interest exactly when one share is lost and is worth more than the
      interest on the other. */
  lemma InterestTooLowExact(l: Ledger, height: nat, c: Channel, x: Amount, y: Amount, total: Amount)
    requires Divides(c, x, y) && Add(x, y) == Ok(total) && IsPositive(total)
    requires InterestOfHeight(height, c.openHeight, c.interestTo, x, y).Ok?
    requires var pay := InterestOfHeight(height, c.openHeight, c.interestTo, x, y).value; Add(pay.0, pay.1).Ok?
    ensures c.openHeight <= height
    ensures PayOut(l, height, c, x, y, total) == Err(InterestTooLow) <==>
      || (ShareLost(height, c, x) && ToBigint(x) > ShareGain(height, c, y))
      || (ShareLost(height, c, y) && ToBigint(y) > ShareGain(height, c, x))
  {
    var (v, w) := InterestOfHeight(height, c.openHeight, c.interestTo, x, y).value;
    SharesWithGain(height, c, x, y);
    ShareGainSign(height, c, x);
    ShareGainSign(height, c, y);
    SumIsExact(v, w);
    SumIsExact(x, y);
    ComparesByValue(Add(v, w).value, total);
    TooLowByValue(l, height, c, x, y, total, v, w);
  }

  lemma TooLowByValue(l: Ledger, height: nat, c: Channel, x: Amount, y: Amount, total: Amount, v: Amount, w: Amount)
    requires IsPositive(total) && Add(v, w).Ok?
    requires InterestOfHeight(height, c.openHeight, c.interestTo, x, y) == Ok((v, w))
    ensures PayOut(l, height, c, x, y, total) == Err(InterestTooLow) <==> LessThan(Add(v, w).value, total)
  {
    if !LessThan(Add(v, w).value, total) && AddIfPositive(l, c.left, v).Ok? {
      AddErrors(l, c.left, v);
      AddErrors(AddIfPositive(l, c.left, v).value, c.right, w);
    }
  }

  // ---- reopening ----------------------------------------------------------

  /** A reused id keeps its two sides, and its new opening has a larger number than all before. */
  lemma ReuseGrows(l: Ledger, height: nat, id: ChannelId, left: Address, leftAmt: Amount, right: Address,
    rightAmt: Amount)
    requires id in l.channels && OpenChannel(l, height, id, left, leftAmt, right, rightAmt).Ok?
    ensures var c := OpenChannel(l, height, id, left, leftAmt, right, rightAmt).value.channels[id];
      c.left == l.channels[id].left && c.right == l.channels[id].right && c.reuse > l.channels[id].reuse
  {
    OpenEffect(l, height, id, left, leftAmt, right, rightAmt);
    assert ChannelLater(l.channels[id], OpenChannel(l, height, id, left, leftAmt, right, rightAmt).value.channels[id]);
  }
}
