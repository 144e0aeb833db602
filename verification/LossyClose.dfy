/**
 Two channels whose interest goes wrong, one coin of unit 8 on the left side of both: after it has been
 opened, the one cannot be closed, and the other is closed without paying that coin back.
 */
module LossyClose {
  import opened Base
  import opened Octets
  import opened Amounts
  import opened Interest
  import opened Ledgers
  import opened CoinTotals
  import opened ChannelLife

  // ---- numbers ------------------------------------------------------------

  /** An amount in normal form, by its number. */
  lemma NormalAmount(a: Amount, num: nat, p: nat)
    requires a.unit > 0 && a.dist > 0 && a.byte[0] != 0 && FromBigEndian(a.byte) == num && num % 10 != 0
    requires p == Pow(10, a.unit)
    ensures Canonical(a) && ToBigint(a) == num * p && FromBigint(num * p) == Ok(a)
  {
    CanonicalIsNormal(a);
  }

  lemma OneByte(b: Byte)
    ensures FromBigEndian([b]) == b
  {
    assert [b][..0] == [];
  }

  lemma TwoBytes(b: Byte, c: Byte)
    ensures FromBigEndian([b, c]) == b * 256 + c
  {
    OneByte(b);
    assert [b, c][..1] == [b];
  }

  lemma FourBytes(b: Byte, c: Byte, d: Byte, e: Byte)
    ensures FromBigEndian([b, c, d, e]) == (b * 256 + c) * 65536 + d * 256 + e
  {
    TwoBytes(b, c);
    assert [b, c, d, e][..3] == [b, c, d] && [b, c, d][..2] == [b, c];
  }

  lemma FiveBytes(b: Byte, c: Byte, d: Byte, e: Byte, f: Byte)
    ensures FromBigEndian([b, c, d, e, f]) == ((b * 256 + c) * 65536 + d * 256 + e) * 256 + f
  {
    FourBytes(b, c, d, e);
    assert [b, c, d, e, f][..4] == [b, c, d, e];
  }

  lemma Powers()
    ensures Pow(10, 8) == 1_0000_0000 && Pow(10, 12) == 1_0000_0000_0000 && Pow(10, 20) == 1_0000_0000_0000_0000_0000
  {
    assert Pow(10, 4) == 1_0000;
    PowAdd(10, 4, 4);
    PowAdd(10, 8, 4);
    PowAdd(10, 12, 8);
  }

  // ---- shares -------------------------------------------------------------

  const COIN: Amount := Raw(8, 1, [1])
  const LARGER: Amount := Raw(20, 1, [1])

  /** What the larger share has become after two rounds. */
  const GROWN: Amount := Raw(12, 4, [5, 246, 47, 33])

  lemma Values()
    ensures ToBigint(COIN) == 1_0000_0000 && ToBigint(LARGER) == 1_0000_0000_0000_0000_0000
    ensures ToBigint(GROWN) == 1_0002_0001_0000_0000_0000 && FromBigint(1_0002_0001_0000_0000_0000) == Ok(GROWN)
  {
    Powers();
    OneByte(1);
    FourBytes(5, 246, 47, 33);
    NormalAmount(COIN, 1, Pow(10, 8));
    NormalAmount(LARGER, 1, Pow(10, 20));
    NormalAmount(GROWN, 1_0002_0001, Pow(10, 12));
  }

  /** The interest on the larger share over two rounds at the lower rate. */
  lemma LargerGrows()
    ensures Interest.Interest(LARGER, LARGER, 2, 1) == Ok(GROWN)
  {
    Values();
    Powers();
    OneByte(1);
    TwoBytes(78, 33);
    LossRounds();
    LossBytes();
    var gain: Amount := Raw(12, 2, [78, 33]);
    NormalAmount(gain, 2_0001, Pow(10, 12));
    assert Scaled(LARGER) == 1_0000_0000;
    assert Strip(1_0002_0001, 12) == (1_0002_0001, 12);
    assert Sub(GROWN, LARGER) == Ok(gain);
  }

  // ---- opening ------------------------------------------------------------

  /** Two sides that can open the channel `id` and have just these coins. */
  ghost predicate Ready(l: Ledger, id: ChannelId, left: Address, right: Address, share: Amount) {
    && ChannelsOk(l) && ValidId(id) && id !in l.channels
    && left != right && left.version == PRIVAKEY && right.version == PRIVAKEY
    && BalanceOf(l, left).hacash == COIN && BalanceOf(l, right).hacash == share
  }

  /** The ledger after both have put all their coins into the channel, at height `h`. */
  ghost predicate Opened(l: Ledger, h: nat, id: ChannelId, left: Address, right: Address, share: Amount, l1: Ledger) {
    && OpenChannel(l, h, id, left, COIN, right, share) == Ok(l1)
    && ChannelsOk(l1) && id in l1.channels && l1.opening > 0
    && l1.channels[id] == Channel(Opening, 1, h, ByShare, left, COIN, right, share, None)
    && BalanceOf(l1, left).hacash == EMPTY && BalanceOf(l1, right).hacash == EMPTY
  }

  lemma SpendsAll(l: Ledger, a: Address, amt: Amount)
    requires BalanceOf(l, a).hacash == amt && IsPositive(amt)
    ensures HacSub(l, a, amt) == Ok(l.(balances := l.balances[a := BalanceOf(l, a).(hacash := EMPTY)]))
  {
    assert Sub(amt, amt) == FromBigint(0);
  }

  lemma TakesAll(l: Ledger, a: Address, amt: Amount)
    requires BalanceOf(l, a).hacash == amt && (amt == EMPTY || IsPositive(amt))
    ensures SubIfAny(l, a, amt).Ok?
    ensures var l1 := SubIfAny(l, a, amt).value;
      l1 == l.(balances := l1.balances) && BalanceOf(l1, a).hacash == EMPTY
        && forall x :: x != a ==> BalanceOf(l1, x) == BalanceOf(l, x)
  {
    if amt != EMPTY {
      SpendsAll(l, a, amt);
    }
  }

  lemma BothOpen(l: Ledger, h: nat, id: ChannelId, left: Address, right: Address, share: Amount) returns (l1: Ledger)
    requires Ready(l, id, left, right, share) && (share == EMPTY || share == LARGER)
    ensures Opened(l, h, id, left, right, share, l1)
  {
    TakesAll(l, left, COIN);
    var l2 := SubIfAny(l, left, COIN).value;
    TakesAll(l2, right, share);
    var l3 := SubIfAny(l2, right, share).value;
    MayOpen(l3, id, left, right, share);
    l1 := OpenChannel(l, h, id, left, COIN, right, share).value;
    OpenEffect(l, h, id, left, COIN, right, share);
    assert id in OpenIds(l1.channels);
  }

  lemma MayOpen(l: Ledger, id: ChannelId, left: Address, right: Address, share: Amount)
    requires ValidId(id) && id !in l.channels && left != right && (share == EMPTY || share == LARGER)
    ensures CheckOpen(l, id, left, COIN, right, share) == None && Add(COIN, share).Ok?
  {
    Sums();
    NormalCoin();
  }

  // ---- closing ------------------------------------------------------------

  lemma TwoRounds(h: nat, right: Amount, grown: Amount)
    requires h <= 20_0000 && Interest.Interest(right, right, 2, 1) == Ok(grown)
    ensures InterestOfHeight(h + 5000, h, ByShare, COIN, right) == Ok((EMPTY, grown))
  {
    LossExample();
    assert Terms(h + 5000, h) == (2, 1);
  }

  /** A coin of unit 8 alone: after two rounds the channel can be opened but not be closed. */
  lemma CloseRefused(l: Ledger, h: nat, id: ChannelId, left: Address, right: Address, env: Env)
    requires Ready(l, id, left, right, EMPTY) && 1 <= h <= 20_0000
    requires env.height == h + 5000 && left in env.signed && right in env.signed
    ensures OpenChannel(l, h, id, left, COIN, right, EMPTY).Ok?
    ensures CloseChannel(OpenChannel(l, h, id, left, COIN, right, EMPTY).value, env, id) == Err(InterestTooLow)
  {
    var l1 := BothOpen(l, h, id, left, right, EMPTY);
    NormalCoin();
    NothingIsPaid(l1, h, l1.channels[id]);
  }

  lemma NothingIsPaid(l: Ledger, h: nat, c: Channel)
    requires c.openHeight == h <= 20_0000 && c.interestTo == ByShare
    ensures PayOut(l, h + 5000, c, COIN, EMPTY, COIN) == Err(InterestTooLow)
  {
    Values();
    TwoRounds(h, EMPTY, EMPTY);
  }

  lemma NormalCoin()
    ensures Add(COIN, EMPTY) == Ok(COIN)
  {
    Powers();
    OneByte(1);
    NormalAmount(COIN, 1, Pow(10, 8));
  }

  /** Next to a larger share it can be closed, and the left side's coin is gone for good. */
  lemma CoinLost(l: Ledger, h: nat, id: ChannelId, left: Address, right: Address, env: Env)
    requires Ready(l, id, left, right, LARGER) && 1 <= h <= 20_0000
    requires env.height == h + 5000 && left in env.signed && right in env.signed
    ensures OpenChannel(l, h, id, left, COIN, right, LARGER).Ok?
    ensures var closed := CloseChannel(OpenChannel(l, h, id, left, COIN, right, LARGER).value, env, id);
      closed.Ok? && Coins(closed.value, left) == 0 < Coins(l, left) && Coins(l, right) < Coins(closed.value, right)
  {
    var l1 := BothOpen(l, h, id, left, right, LARGER);
    var c := l1.channels[id];
    Sums();
    GrownIsPaid(l1, h, c);
    CoinIsGone(l1, h, id, env);
    Values();
  }

  lemma CoinIsGone(l: Ledger, h: nat, id: ChannelId, env: Env)
    requires ChannelsOk(l) && id in l.channels && env.height == h + 5000 && h <= 20_0000
    requires var c := l.channels[id];
      c.openHeight == h && c.leftAmt == COIN && c.rightAmt == LARGER
      && BalanceOf(l, c.left).hacash == EMPTY && BalanceOf(l, c.right).hacash == EMPTY
    requires CloseWith(l, env.height, id, l.channels[id], COIN, LARGER, false).Ok?
    ensures var (c, l1) := (l.channels[id], CloseWith(l, env.height, id, l.channels[id], COIN, LARGER, false).value);
      Coins(l1, c.left) == 0 && Coins(l1, c.right) >= ToBigint(LARGER) + 1
  {
    var c := l.channels[id];
    Sums();
    CloseShortPays(l, env.height, id, COIN, LARGER, false);
    CloseReturns(l, env.height, id, COIN, LARGER, false);
    CoinIsLost(h, c);
    LargerGains(h, c);
  }

  lemma GrownIsPaid(l: Ledger, h: nat, c: Channel)
    requires c.openHeight == h <= 20_0000 && c.interestTo == ByShare && BalanceOf(l, c.right).hacash == EMPTY
    ensures PayOut(l, h + 5000, c, COIN, LARGER, Raw(8, 5, [232, 212, 165, 16, 1])).Ok?
  {
    Sums();
    LargerGrows();
    TwoRounds(h, LARGER, GROWN);
    assert HacAdd(l, c.right, GROWN).Ok?;
  }

  /** The total of both shares, and what the larger one's interest leaves above it. */
  lemma Sums()
    ensures Add(COIN, LARGER) == Ok(Raw(8, 5, [232, 212, 165, 16, 1])) && Add(EMPTY, GROWN) == Ok(GROWN)
    ensures Sub(GROWN, Raw(8, 5, [232, 212, 165, 16, 1])) == Ok(Raw(8, 4, [11, 235, 233, 15]))
    ensures ToBigint(Raw(8, 5, [232, 212, 165, 16, 1])) < ToBigint(GROWN)
  {
    Values();
    Powers();
    FourBytes(11, 235, 233, 15);
    FiveBytes(232, 212, 165, 16, 1);
    NormalAmount(Raw(8, 4, [11, 235, 233, 15]), 2_0000_9999, Pow(10, 8));
    NormalAmount(Raw(8, 5, [232, 212, 165, 16, 1]), 1_0000_0000_0001, Pow(10, 8));
  }

  lemma CoinIsLost(h: nat, c: Channel)
    requires c.openHeight == h <= 20_0000
    ensures ShareLost(h + 5000, c, COIN)
  {
    Values();
    OneByte(1);
    LossRounds();
    assert Terms(h + 5000, h) == (2, 1);
  }

  lemma LargerGains(h: nat, c: Channel)
    requires c.openHeight == h <= 20_0000
    ensures ShareGain(h + 5000, c, LARGER) > 0
  {
    LargerGain();
    assert Terms(h + 5000, h) == (2, 1);
  }

  lemma LargerGain()
    ensures Gain(LARGER, 2, 1) > 0
  {
    Values();
    LargerGrows();
    InterestValue(LARGER, LARGER, 2, 1);
  }
}
