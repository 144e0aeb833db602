/**
 Each action by itself: exactly when it is accepted, and all that it then changes.
 */
module Outcomes {
  import opened Base
  import opened Amounts
  import opened Interest
  import opened OwnedForm
  import opened Ledgers
  import opened DiamondIndex
  import opened CoinTotals
  import opened ChannelLife
  import Accounting

  // ---- coins --------------------------------------------------------------

  /** An amount of this value can be kept as a balance: it has at most 10 bytes of digits. */
  predicate Fits(v: int) {
    FromBigint(v).Ok? && |FromBigint(v).value.byte| <= 10
  }

  /** A balance is worth more than `amt`, or is that very amount. */
  predicate Covers(l: Ledger, a: Address, amt: Amount) {
    IsPositive(amt) && (ToBigint(amt) < Coins(l, a) || BalanceOf(l, a).hacash == amt)
  }

  /** Only these balances have changed, by this much. */
  ghost predicate Moved(l: Ledger, l1: Ledger, a: Address, x: int, b: Address, y: int) {
    && SameCounts(l, l1)
    && Coins(l1, a) == Coins(l, a) + x && Coins(l1, b) == Coins(l, b) + y
    && forall o :: o != a && o != b ==> Coins(l1, o) == Coins(l, o)
  }

  lemma SubExactly(l: Ledger, a: Address, amt: Amount)
    ensures HacSub(l, a, amt).Ok? <==> Covers(l, a, amt) && Fits(Coins(l, a) - ToBigint(amt))
  {
    CmpByValue(BalanceOf(l, a).hacash, amt);
  }

  lemma AddExactly(l: Ledger, a: Address, amt: Amount)
    ensures HacAdd(l, a, amt).Ok? <==> IsPositive(amt) && Fits(Coins(l, a) + ToBigint(amt))
  {
  }

  lemma MoveInSteps(l: Ledger, height: nat, from: Address, to: Address, amt: Amount)
    requires from != to
    ensures HacMove(l, height, from, to, amt) ==
      if HacSub(l, from, amt).Err? then HacSub(l, from, amt) else HacAdd(HacSub(l, from, amt).value, to, amt)
  {
  }

  lemma MoveExactly(l: Ledger, height: nat, from: Address, to: Address, amt: Amount)
    requires from != to
    ensures HacMove(l, height, from, to, amt).Ok? <==>
      Covers(l, from, amt) && Fits(Coins(l, from) - ToBigint(amt)) && Fits(Coins(l, to) + ToBigint(amt))
  {
    MoveInSteps(l, height, from, to, amt);
    SubExactly(l, from, amt);
    if HacSub(l, from, amt).Ok? {
      HacSubEffect(l, from, amt);
      AddSecond(l, HacSub(l, from, amt).value, to, amt);
    }
  }

  lemma AddSecond(l: Ledger, l1: Ledger, to: Address, amt: Amount)
    requires Coins(l1, to) == Coins(l, to)
    ensures HacAdd(l1, to, amt).Ok? <==> IsPositive(amt) && Fits(Coins(l, to) + ToBigint(amt))
  {
    AddExactly(l1, to, amt);
  }

  /** A transfer is accepted exactly when the sender's balance covers it and both new balances can be kept; one
      to oneself, which changes nothing, was not even looked at below height 200,000. */
  lemma TransferExactly(l: Ledger, env: Env, from: Address, to: Address, amt: Amount)
    ensures Act(l, env, HacTransfer(from, to, amt)).Ok? <==>
      if from == to then env.height < 20_0000 || Covers(l, from, amt)
      else Covers(l, from, amt) && Fits(Coins(l, from) - ToBigint(amt)) && Fits(Coins(l, to) + ToBigint(amt))
  {
    if from == to {
      SelfTransferExact(l, env.height, from, amt);
    } else {
      MoveExactly(l, env.height, from, to, amt);
    }
  }

  lemma TransferDone(l: Ledger, env: Env, from: Address, to: Address, amt: Amount, l1: Ledger)
    requires Act(l, env, HacTransfer(from, to, amt)) == Ok(l1)
    ensures from == to ==> l1 == l
    ensures from != to ==>
      l1 == l.(balances := l1.balances) && Moved(l, l1, from, -ToBigint(amt), to, ToBigint(amt))
  {
    HacMoveEffect(l, env.height, from, to, amt);
  }

  // ---- opening a channel --------------------------------------------------

  /** Nothing to take, or a balance that covers it. */
  predicate Takes(l: Ledger, a: Address, amt: Amount) {
    IsEmpty(amt) || (Covers(l, a, amt) && Fits(Coins(l, a) - ToBigint(amt)))
  }

  /** What the channel itself has to be like. */
  predicate Opens(l: Ledger, id: ChannelId, left: Address, leftAmt: Amount, right: Address, rightAmt: Amount) {
    && |id| == 16 && id[0] != 0 && id[15] != 0 && left != right
    && |leftAmt.byte| <= 4 && |rightAmt.byte| <= 4 && !(IsEmpty(leftAmt) && IsEmpty(rightAmt))
    && FromBigint(ToBigint(leftAmt) + ToBigint(rightAmt)).Ok?
    && (id in l.channels ==>
          l.channels[id].left == left && l.channels[id].right == right && l.channels[id].status == AgreementClosed)
  }

  lemma TakeExactly(l: Ledger, a: Address, amt: Amount)
    ensures SubIfAny(l, a, amt).Ok? <==> Takes(l, a, amt)
    ensures SubIfAny(l, a, amt).Ok? ==> !IsNegative(amt)
    ensures SubIfAny(l, a, amt).Ok? ==> var l1 := SubIfAny(l, a, amt).value;
      && l1 == l.(balances := l1.balances) && SameCounts(l, l1)
      && Coins(l1, a) == Coins(l, a) - ToBigint(amt)
      && forall o :: o != a ==> BalanceOf(l1, o) == BalanceOf(l, o)
  {
    SubExactly(l, a, amt);
    if !IsEmpty(amt) && HacSub(l, a, amt).Ok? {
      HacSubEffect(l, a, amt);
    }
  }

  lemma RecordExactly(l: Ledger, height: nat, id: ChannelId, left: Address, leftAmt: Amount, right: Address,
    rightAmt: Amount)
    requires !IsNegative(leftAmt) && !IsNegative(rightAmt)
    ensures RecordOpening(l, height, id, left, leftAmt, right, rightAmt).Ok? <==>
      Opens(l, id, left, leftAmt, right, rightAmt)
    ensures RecordOpening(l, height, id, left, leftAmt, right, rightAmt).Ok? ==>
      var reuse := if id in l.channels then l.channels[id].reuse + 1 else 1;
      RecordOpening(l, height, id, left, leftAmt, right, rightAmt) == Ok(l.(opening := l.opening + 1,
        channels := l.channels[id := Channel(Opening, reuse, height, ByShare, left, leftAmt, right, rightAmt, None)]))
  {
  }

  /** The two takings, and what is then recorded. */
  lemma OpenInSteps(l: Ledger, height: nat, id: ChannelId, left: Address, leftAmt: Amount, right: Address,
    rightAmt: Amount)
    requires left.version == 0 && right.version == 0
    ensures OpenChannel(l, height, id, left, leftAmt, right, rightAmt) ==
      if SubIfAny(l, left, leftAmt).Err? then Err(SubIfAny(l, left, leftAmt).error)
      else if SubIfAny(SubIfAny(l, left, leftAmt).value, right, rightAmt).Err? then
        Err(SubIfAny(SubIfAny(l, left, leftAmt).value, right, rightAmt).error)
      else
        RecordOpening(SubIfAny(SubIfAny(l, left, leftAmt).value, right, rightAmt).value, height, id,
          left, leftAmt, right, rightAmt)
  {
  }

  lemma TakeSecond(l: Ledger, l1: Ledger, left: Address, right: Address, rightAmt: Amount)
    requires left != right && forall o :: o != left ==> BalanceOf(l1, o) == BalanceOf(l, o)
    ensures SubIfAny(l1, right, rightAmt).Ok? <==> Takes(l, right, rightAmt)
  {
    TakeExactly(l1, right, rightAmt);
    assert BalanceOf(l1, right) == BalanceOf(l, right);
  }

  /** An opening is accepted exactly when both sides are private keys and have what they put in, the id is new or
      was closed by agreement between the same sides, and the amounts are small and not both empty. */
  lemma OpenExactly(l: Ledger, env: Env, id: ChannelId, left: Address, leftAmt: Amount, right: Address,
    rightAmt: Amount)
    ensures Act(l, env, ChannelOpen(id, left, leftAmt, right, rightAmt)).Ok? <==>
      && left.version == 0 && right.version == 0 && Opens(l, id, left, leftAmt, right, rightAmt)
      && Takes(l, left, leftAmt) && Takes(l, right, rightAmt)
  {
    if left.version == 0 && right.version == 0 {
      OpenInSteps(l, env.height, id, left, leftAmt, right, rightAmt);
      TakeExactly(l, left, leftAmt);
      if SubIfAny(l, left, leftAmt).Ok? {
        var l1 := SubIfAny(l, left, leftAmt).value;
        TakeExactly(l1, right, rightAmt);
        if left != right {
          TakeSecond(l, l1, left, right, rightAmt);
        }
        if SubIfAny(l1, right, rightAmt).Ok? {
          RecordExactly(SubIfAny(l1, right, rightAmt).value, env.height, id, left, leftAmt, right, rightAmt);
        }
      }
    }
  }

  lemma BothTaken(l: Ledger, l1: Ledger, l2: Ledger, left: Address, x: int, right: Address, y: int)
    requires left != right && SameCounts(l, l1) && SameCounts(l1, l2)
    requires Coins(l1, left) == Coins(l, left) - x && forall o :: o != left ==> BalanceOf(l1, o) == BalanceOf(l, o)
    requires Coins(l2, right) == Coins(l1, right) - y && forall o :: o != right ==> BalanceOf(l2, o) == BalanceOf(l1, o)
    ensures Moved(l, l2, left, -x, right, -y)
  {
    forall a
      ensures BalanceIn(l2.balances, a).diamond == BalanceIn(l.balances, a).diamond
    {
      assert BalanceIn(l1.balances, a).diamond == BalanceIn(l.balances, a).diamond;
    }
    assert BalanceOf(l1, right) == BalanceOf(l, right) && BalanceOf(l2, left) == BalanceOf(l1, left);
    forall o | o != left && o != right
      ensures Coins(l2, o) == Coins(l, o)
    {
      assert BalanceOf(l2, o) == BalanceOf(l1, o) == BalanceOf(l, o);
    }
  }

  lemma SameBalancesMoved(l: Ledger, l2: Ledger, l1: Ledger, a: Address, x: int, b: Address, y: int)
    requires Moved(l, l2, a, x, b, y) && l1.balances == l2.balances
    ensures Moved(l, l1, a, x, b, y)
  {
    assert forall o :: Coins(l1, o) == Coins(l2, o);
  }

  lemma TakenFromBoth(l: Ledger, left: Address, leftAmt: Amount, right: Address, rightAmt: Amount, l3: Ledger)
    requires left != right && SubIfAny(l, left, leftAmt).Ok?
    requires SubIfAny(SubIfAny(l, left, leftAmt).value, right, rightAmt) == Ok(l3)
    ensures l3 == l.(balances := l3.balances) && !IsNegative(leftAmt) && !IsNegative(rightAmt)
    ensures Moved(l, l3, left, -ToBigint(leftAmt), right, -ToBigint(rightAmt))
  {
    TakeExactly(l, left, leftAmt);
    var l2 := SubIfAny(l, left, leftAmt).value;
    TakeExactly(l2, right, rightAmt);
    BothTaken(l, l2, l3, left, ToBigint(leftAmt), right, ToBigint(rightAmt));
  }

  lemma Recorded(l: Ledger, l3: Ledger, height: nat, id: ChannelId, left: Address, leftAmt: Amount,
    right: Address, rightAmt: Amount, l1: Ledger)
    requires l3 == l.(balances := l3.balances) && !IsNegative(leftAmt) && !IsNegative(rightAmt)
    requires RecordOpening(l3, height, id, left, leftAmt, right, rightAmt) == Ok(l1)
    ensures var reuse := if id in l.channels then l.channels[id].reuse + 1 else 1;
      l1.channels == l.channels[id := Channel(Opening, reuse, height, ByShare, left, leftAmt, right, rightAmt, None)]
    ensures l1.balances == l3.balances
    ensures l1 == l.(balances := l1.balances, channels := l1.channels, opening := l.opening + 1)
  {
    RecordExactly(l3, height, id, left, leftAmt, right, rightAmt);
  }

  /** Each side's balance has lost just what that side put in, and the channel holds both. */
  lemma OpenDone(l: Ledger, env: Env, id: ChannelId, left: Address, leftAmt: Amount, right: Address,
    rightAmt: Amount, l1: Ledger)
    requires Act(l, env, ChannelOpen(id, left, leftAmt, right, rightAmt)) == Ok(l1)
    ensures var reuse := if id in l.channels then l.channels[id].reuse + 1 else 1;
      l1.channels == l.channels[id :=
        Channel(Opening, reuse, env.height, ByShare, left, leftAmt, right, rightAmt, None)]
    ensures l1 == l.(balances := l1.balances, channels := l1.channels, opening := l.opening + 1)
    ensures left != right && Moved(l, l1, left, -ToBigint(leftAmt), right, -ToBigint(rightAmt))
  {
    OpenExactly(l, env, id, left, leftAmt, right, rightAmt);
    OpenInSteps(l, env.height, id, left, leftAmt, right, rightAmt);
    var l3 := SubIfAny(SubIfAny(l, left, leftAmt).value, right, rightAmt).value;
    TakenFromBoth(l, left, leftAmt, right, rightAmt, l3);
    Recorded(l, l3, env.height, id, left, leftAmt, right, rightAmt, l1);
    SameBalancesMoved(l, l3, l1, left, -ToBigint(leftAmt), right, -ToBigint(rightAmt));
  }

  lemma OpenedBetween(l: Ledger, height: nat, id: ChannelId, left: Address, leftAmt: Amount, right: Address,
    rightAmt: Amount)
    requires OpenChannel(l, height, id, left, leftAmt, right, rightAmt).Ok?
    ensures Moved(l, OpenChannel(l, height, id, left, leftAmt, right, rightAmt).value,
      left, -ToBigint(leftAmt), right, -ToBigint(rightAmt))
  {
    var l1 := OpenChannel(l, height, id, left, leftAmt, right, rightAmt).value;
    OpenInSteps(l, height, id, left, leftAmt, right, rightAmt);
    var l3 := SubIfAny(SubIfAny(l, left, leftAmt).value, right, rightAmt).value;
    TakenBeforeRecord(l, height, id, left, leftAmt, right, rightAmt, l3, l1);
  }

  lemma TakenBeforeRecord(l: Ledger, height: nat, id: ChannelId, left: Address, leftAmt: Amount, right: Address,
    rightAmt: Amount, l3: Ledger, l1: Ledger)
    requires SubIfAny(l, left, leftAmt).Ok? && SubIfAny(SubIfAny(l, left, leftAmt).value, right, rightAmt) == Ok(l3)
    requires RecordOpening(l3, height, id, left, leftAmt, right, rightAmt) == Ok(l1)
    ensures Moved(l, l1, left, -ToBigint(leftAmt), right, -ToBigint(rightAmt))
  {
    TakenFromBoth(l, left, leftAmt, right, rightAmt, l3);
    Recorded(l, l3, height, id, left, leftAmt, right, rightAmt, l1);
    SameBalancesMoved(l, l3, l1, left, -ToBigint(leftAmt), right, -ToBigint(rightAmt));
  }

  // ---- minting ------------------------------------------------------------

  /** A mint is accepted exactly when the record has the next number, follows the last one's block, has been
      mined for its name, which is new, goes to a private key, and stands in a block of a height divisible by
      five or in none yet. */
  lemma MintExactly(l: Ledger, env: Env, m: MintRecord)
    ensures Act(l, env, DiamondMint(m)).Ok? <==>
      && m.address.version == 0
      && (env.height % 5 == 0 || forall i :: 0 <= i < |env.blockHash| ==> env.blockHash[i] == 0)
      && m.number == l.latest.number + 1 && (m.number > 1 ==> m.prevHash == l.latest.bornHash)
      && env.world.mined(m) == Some(m.name) && m.name !in l.diamonds
      && (m.number > 3_0000 && env.fee.unit > 1 ==> FromBigint(ToBigint(env.fee) - ToBigint(env.fee) / 10).Ok?)
  {
    TenthIs(env.fee);
    if env.fee.unit <= 1 {
      assert Sub(env.fee, TenthOf(env.fee)) == FromBigint(0);
    }
  }

  lemma TenthIs(fee: Amount)
    ensures ToBigint(TenthOf(fee)) == if fee.unit > 1 then ToBigint(fee) / 10 else ToBigint(fee)
  {
    if fee.unit > 1 {
      Accounting.TenthValue(fee);
    }
  }

  lemma MintDone(l: Ledger, env: Env, m: MintRecord, l1: Ledger)
    requires Act(l, env, DiamondMint(m)) == Ok(l1)
    ensures l1.latest == Latest(l.latest.number + 1, env.blockHash) && l1.minted == l.minted + 1
    ensures l1.diamonds == l.diamonds[m.name := Diamond(Normal, m.address, 0, [])]
    ensures l1.byNumber == l.byNumber[l.latest.number + 1 := m.name]
    ensures l1.owned == l.owned[m.address := ListOf(l.owned, m.address) + [m.name]]
    ensures l1 == l.(latest := l1.latest, minted := l1.minted, diamonds := l1.diamonds, byNumber := l1.byNumber,
      owned := l1.owned, balances := l1.balances)
    ensures BalanceOf(l1, m.address) == Balance(BalanceOf(l, m.address).hacash, BalanceOf(l, m.address).diamond + 1)
    ensures forall a :: a != m.address ==> BalanceOf(l1, a) == BalanceOf(l, a)
  {
    MintIs(l, env, m, Diamond(Normal, m.address, 0, []));
  }

  // ---- transferring diamonds ----------------------------------------------

  /** The sixteen letters of diamond names. */
  lemma NameLetters(name: Name)
    ensures ValidName(name) <==> forall i :: 0 <= i < 6 ==> (name[i] as char) in "WTYUIAHXVMEKBSZN"
  {
    forall b: Byte
      ensures b in NAME_CHARS <==> (b as char) in "WTYUIAHXVMEKBSZN"
    {
      LetterIs(b);
    }
  }

  lemma LetterIs(b: Byte)
    ensures b in NAME_CHARS <==> (b as char) in "WTYUIAHXVMEKBSZN"
  {
    var letters := "WTYUIAHXVMEKBSZN";
    assert letters[0] == 'W' && letters[1] == 'T' && letters[2] == 'Y' && letters[3] == 'U';
    assert letters[4] == 'I' && letters[5] == 'A' && letters[6] == 'H' && letters[7] == 'X';
    assert letters[8] == 'V' && letters[9] == 'M' && letters[10] == 'E' && letters[11] == 'K';
    assert letters[12] == 'B' && letters[13] == 'S' && letters[14] == 'Z' && letters[15] == 'N';
  }

  /** A transfer of diamonds is accepted exactly when it names up to 200 of the sender's, each once and none of
      them lent, and goes to somebody else. */
  lemma DiamondsExactly(l: Ledger, env: Env, from: Address, to: Address, names: seq<Name>)
    requires DiamondsOk(l)
    ensures Act(l, env, DiamondTransfer(from, to, names)).Ok? <==>
      && 0 < |names| <= 200 && from != to && Distinct(names)
      && forall n :: n in names ==>
           ValidName(n) && n in l.diamonds && l.diamonds[n].status == Normal && l.diamonds[n].owner == from
  {
    TransferExact(l, from, to, names);
  }

  /** Only the owner of those diamonds changes, with the two lists and the two counters; no coins move. */
  lemma DiamondsDone(l: Ledger, env: Env, from: Address, to: Address, names: seq<Name>, l1: Ledger)
    requires DiamondsOk(l) && Act(l, env, DiamondTransfer(from, to, names)) == Ok(l1)
    ensures l1.diamonds.Keys == l.diamonds.Keys
    ensures forall n :: n in names ==> n in l.diamonds && l1.diamonds[n] == l.diamonds[n].(owner := to)
    ensures forall n :: n in l.diamonds && n !in names ==> l1.diamonds[n] == l.diamonds[n]
    ensures ListOf(l1.owned, to) == ListOf(l.owned, to) + names
    ensures multiset(ListOf(l1.owned, from)) + multiset(names) == multiset(ListOf(l.owned, from))
    ensures forall a :: a != from && a != to ==> ListOf(l1.owned, a) == ListOf(l.owned, a)
    ensures BalanceOf(l1, from).diamond + |names| == BalanceOf(l, from).diamond
    ensures BalanceOf(l1, to).diamond == BalanceOf(l, to).diamond + |names|
    ensures forall a :: a != from && a != to ==> BalanceOf(l1, a) == BalanceOf(l, a)
    ensures SameCoins(l.balances, l1.balances)
    ensures l1 == l.(diamonds := l1.diamonds, owned := l1.owned, balances := l1.balances)
  {
    TransferExact(l, from, to, names);
    CountersMoved(l, from, to, |names|, l1);
  }

  lemma CountersMoved(l: Ledger, from: Address, to: Address, n: nat, l1: Ledger)
    requires from != to && HacdMove(l, from, to, n).Ok? && l1.balances == HacdMove(l, from, to, n).value.balances
    ensures BalanceOf(l1, from).diamond + n == BalanceOf(l, from).diamond
    ensures BalanceOf(l1, to).diamond == BalanceOf(l, to).diamond + n
    ensures forall a :: a != from && a != to ==> BalanceOf(l1, a) == BalanceOf(l, a)
    ensures SameCoins(l.balances, l1.balances)
  {
    CountersKeepCoins(l, from, to, n);
    var l2, l3 := HacdMoveIs(l, from, to, n);
  }

  // ---- closing a channel --------------------------------------------------

  /** Both sides are paid: their shares and what is due on them. */
  ghost predicate PaidOut(l: Ledger, l1: Ledger, height: nat, c: Channel, v: Amount, w: Amount) {
    && c.openHeight <= height && Due(height, c.openHeight, ByShare, c.leftAmt, c.rightAmt, v, w)
    && ToBigint(v) + ToBigint(w) >= ToBigint(c.leftAmt) + ToBigint(c.rightAmt)
    && c.left != c.right && Moved(l, l1, c.left, ToBigint(v), c.right, ToBigint(w))
  }

  /** An accepted close: the channel was open, both sides are private keys and have signed, and each has got its
      share with what is due on it. The channel is closed by agreement and nothing else has changed. */
  lemma CloseDone(l: Ledger, env: Env, id: ChannelId, l1: Ledger) returns (v: Amount, w: Amount)
    requires ChannelsOk(l) && Act(l, env, ChannelClose(id)) == Ok(l1)
    ensures id in l.channels
    ensures var c := l.channels[id];
      && c.status == Opening && c.left in env.signed && c.right in env.signed
      && c.left.version == 0 && c.right.version == 0
      && l1.channels == l.channels[id := c.(status := AgreementClosed, closedLeft := Some(c.leftAmt))]
      && l1 == l.(balances := l1.balances, channels := l1.channels, opening := l1.opening) &&
        l1.opening == l.opening - 1
      && if ToBigint(c.leftAmt) + ToBigint(c.rightAmt) > 0 then PaidOut(l, l1, env.height, c, v, w)
         else l1.balances == l.balances
  {
    var c := l.channels[id];
    assert SharesOk(c);
    var total := Add(c.leftAmt, c.rightAmt).value;
    var l2 := PayOut(l, env.height, c, c.leftAmt, c.rightAmt, total).value;
    CloseIs(l, env.height, id, c.leftAmt, c.rightAmt, false, total, l2);
    SignOfSum(c.leftAmt, c.rightAmt);
    v, w := c.leftAmt, c.rightAmt;
    PayOutEffect(l, env.height, c, c.leftAmt, c.rightAmt, total);
    if IsPositive(total) {
      v, w := PayOutSteps(l, env.height, c, c.leftAmt, c.rightAmt, total, l2);
      PaysDue(l, l2, env.height, c, total, v, w);
      SameBalancesMoved(l, l2, l1, c.left, ToBigint(v), c.right, ToBigint(w));
    }
  }

  /** What both sides are due can be paid: it is no less than what is locked, and both balances can take it. */
  predicate Payable(l: Ledger, c: Channel, v: Amount, w: Amount) {
    Enough(ToBigint(c.leftAmt) + ToBigint(c.rightAmt), ToBigint(v) + ToBigint(w)) && Room(l, c.left, v, c.right, w)
  }

  predicate Enough(locked: int, due: int) {
    locked <= due && FromBigint(due).Ok? && FromBigint(due - locked).Ok?
  }

  predicate Room(l: Ledger, a: Address, v: Amount, b: Address, w: Amount) {
    (IsPositive(v) ==> Fits(Coins(l, a) + ToBigint(v))) && (IsPositive(w) ==> Fits(Coins(l, b) + ToBigint(w)))
  }

  /** An amount where one is looked at more closely. */
  predicate Seen(a: Amount) {
    true
  }

  ghost predicate Suffices(total: Amount, v: Amount, w: Amount) {
    forall x {:trigger Seen(x)} :: x == v ==>
      Add(x, w).Ok? && !LessThan(Add(x, w).value, total) && Sub(Add(x, w).value, total).Ok?
  }

  ghost predicate Gives(l: Ledger, a: Address, v: Amount, b: Address, w: Amount) {
    forall x {:trigger Seen(x)} :: x == v ==>
      AddIfPositive(l, a, x).Ok? && AddIfPositive(AddIfPositive(l, a, x).value, b, w).Ok?
  }

  lemma GiveExactly(l: Ledger, a: Address, v: Amount)
    requires ToBigint(v) >= 0
    ensures AddIfPositive(l, a, v).Ok? <==> (IsPositive(v) ==> Fits(Coins(l, a) + ToBigint(v)))
    ensures AddIfPositive(l, a, v).Ok? ==> forall o :: o != a ==> Coins(AddIfPositive(l, a, v).value, o) == Coins(l, o)
  {
    AddExactly(l, a, v);
    if AddIfPositive(l, a, v).Ok? {
      AddIfPositiveEffect(l, a, v);
    }
  }

  lemma GiveSecond(l: Ledger, l1: Ledger, b: Address, w: Amount)
    requires Coins(l1, b) == Coins(l, b)
    ensures AddIfPositive(l1, b, w).Ok? <==> (IsPositive(w) ==> Fits(Coins(l, b) + ToBigint(w)))
  {
    AddExactly(l1, b, w);
  }

  lemma GivesExactly(l: Ledger, a: Address, v: Amount, b: Address, w: Amount)
    requires a != b && ToBigint(v) >= 0
    ensures Gives(l, a, v, b, w) <==> Room(l, a, v, b, w)
  {
    assert Seen(v);
    GiveExactly(l, a, v);
    if AddIfPositive(l, a, v).Ok? {
      GiveSecond(l, AddIfPositive(l, a, v).value, b, w);
    }
  }

  lemma LessByValue(sum: Amount, due: int, total: Amount, locked: int)
    requires ToBigint(sum) == due && ToBigint(total) == locked
    ensures LessThan(sum, total) <==> due < locked
    ensures Sub(sum, total) == FromBigint(due - locked)
  {
    ComparesByValue(sum, total);
  }

  /** The comparison of sums goes by value. */
  lemma SufficesByValue(total: Amount, locked: int, v: Amount, w: Amount, due: int)
    requires ToBigint(total) == locked && due == ToBigint(v) + ToBigint(w)
    ensures Suffices(total, v, w) <==> Enough(locked, due)
  {
    assert Seen(v);
    SumIsExact(v, w);
    if Add(v, w).Ok? {
      LessByValue(Add(v, w).value, due, total, locked);
    }
  }

  lemma SufficesExactly(x: Amount, y: Amount, total: Amount, v: Amount, w: Amount)
    requires Add(x, y) == Ok(total)
    ensures Suffices(total, v, w) <==> Enough(ToBigint(x) + ToBigint(y), ToBigint(v) + ToBigint(w))
  {
    SumIsExact(x, y);
    SufficesByValue(total, ToBigint(x) + ToBigint(y), v, w, ToBigint(v) + ToBigint(w));
  }

  lemma PayOutInSteps(l: Ledger, height: nat, c: Channel, x: Amount, y: Amount, total: Amount, v: Amount, w: Amount)
    requires IsPositive(total) && InterestOfHeight(height, c.openHeight, c.interestTo, x, y) == Ok((v, w))
    ensures PayOut(l, height, c, x, y, total).Ok? <==> Suffices(total, v, w) && Gives(l, c.left, v, c.right, w)
  {
    assert Seen(v);
  }

  lemma PayableExactly(l: Ledger, c: Channel, total: Amount, v: Amount, w: Amount)
    requires c.left != c.right && Add(c.leftAmt, c.rightAmt) == Ok(total) && ToBigint(v) >= 0
    ensures Suffices(total, v, w) && Gives(l, c.left, v, c.right, w) <==> Payable(l, c, v, w)
  {
    SufficesExactly(c.leftAmt, c.rightAmt, total, v, w);
    GivesExactly(l, c.left, v, c.right, w);
  }

  lemma PayExactly(l: Ledger, height: nat, c: Channel, total: Amount, v: Amount, w: Amount)
    requires SharesOk(c) && Add(c.leftAmt, c.rightAmt) == Ok(total) && IsPositive(total)
    requires InterestOfHeight(height, c.openHeight, c.interestTo, c.leftAmt, c.rightAmt) == Ok((v, w))
    ensures PayOut(l, height, c, c.leftAmt, c.rightAmt, total).Ok? <==>
      Suffices(total, v, w) && Gives(l, c.left, v, c.right, w)
    ensures ToBigint(v) >= 0
  {
    PayOutInSteps(l, height, c, c.leftAmt, c.rightAmt, total, v, w);
    SharesWithGain(height, c, c.leftAmt, c.rightAmt);
  }

  /** A close is accepted exactly when the channel is open, both sides are private keys and have signed, and what
      is due at this height can be calculated and paid. */
  lemma CloseExactly(l: Ledger, env: Env, id: ChannelId)
    requires ChannelsOk(l)
    ensures Act(l, env, ChannelClose(id)).Ok? <==>
      && |id| == 16 && id[0] != 0 && id[15] != 0 && id in l.channels
      && var c := l.channels[id];
         && c.status == Opening && c.left.version == 0 && c.right.version == 0
         && c.left in env.signed && c.right in env.signed
         && FromBigint(ToBigint(c.leftAmt) + ToBigint(c.rightAmt)).Ok?
         && (ToBigint(c.leftAmt) + ToBigint(c.rightAmt) > 0 ==>
              var r := InterestOfHeight(env.height, c.openHeight, ByShare, c.leftAmt, c.rightAmt);
              r.Ok? && Payable(l, c, r.value.0, r.value.1))
  {
    if id in l.channels {
      var c := l.channels[id];
      assert SharesOk(c);
      if c.status == Opening {
        assert id in OpenIds(l.channels);
        assert l.opening > 0;
      }
      if Add(c.leftAmt, c.rightAmt).Ok? {
        var total := Add(c.leftAmt, c.rightAmt).value;
        SignOfSum(c.leftAmt, c.rightAmt);
        var r := InterestOfHeight(env.height, c.openHeight, ByShare, c.leftAmt, c.rightAmt);
        if IsPositive(total) && r.Ok? {
          PayExactly(l, env.height, c, total, r.value.0, r.value.1);
          PayableExactly(l, c, total, r.value.0, r.value.1);
        }
        CloseWithExactly(l, env.height, id, c, total);
      }
    }
  }

  lemma CloseWithExactly(l: Ledger, height: nat, id: ChannelId, c: Channel, total: Amount)
    requires SharesOk(c) && Add(c.leftAmt, c.rightAmt) == Ok(total)
    ensures CloseWith(l, height, id, c, c.leftAmt, c.rightAmt, false).Ok? <==>
      && c.status == Opening && l.opening > 0
      && (IsPositive(total) ==> PayOut(l, height, c, c.leftAmt, c.rightAmt, total).Ok?)
  {
  }

  lemma SignOfSum(x: Amount, y: Amount)
    requires Add(x, y).Ok?
    ensures IsPositive(Add(x, y).value) <==> ToBigint(x) + ToBigint(y) > 0
  {
    SumIsExact(x, y);
    if IsPositive(Add(x, y).value) {
      KeptValue(ToBigint(x) + ToBigint(y));
    } else {
      NotPositiveValue(Add(x, y).value);
    }
  }

  lemma PaysDue(l: Ledger, l2: Ledger, height: nat, c: Channel, total: Amount, v: Amount, w: Amount)
    requires SharesOk(c) && Add(c.leftAmt, c.rightAmt) == Ok(total) && IsPositive(total)
    requires InterestOfHeight(height, c.openHeight, c.interestTo, c.leftAmt, c.rightAmt) == Ok((v, w))
    requires Add(v, w).Ok? && !LessThan(Add(v, w).value, total)
    requires AddIfPositive(l, c.left, v).Ok? && AddIfPositive(AddIfPositive(l, c.left, v).value, c.right, w) == Ok(l2)
    ensures PaidOut(l, l2, height, c, v, w)
  {
    InterestAdds(height, c.openHeight, c.interestTo, c.leftAmt, c.rightAmt);
    SharesWithGain(height, c, c.leftAmt, c.rightAmt);
    PaidBoth(l, c, v, w);
    SumIsExact(v, w);
    SumIsExact(c.leftAmt, c.rightAmt);
    ComparesByValue(Add(v, w).value, total);
  }

  // ---- conditions on a transaction ----------------------------------------

  /** A height limit lets a transaction through exactly between its two heights; an end of zero is none, but one
      of the two has to be given. */
  lemma LimitExactly(l: Ledger, env: Env, start: nat, end: nat)
    ensures Act(l, env, SubmitHeightLimit(start, end)).Ok? <==>
      (start > 0 || end > 0) && start <= env.height && (end > 0 ==> env.height <= end)
    ensures Act(l, env, SubmitHeightLimit(start, end)).Ok? ==> Act(l, env, SubmitHeightLimit(start, end)).value == l
  {
  }

  lemma ChainExactly(l: Ledger, env: Env, id: nat)
    ensures Act(l, env, SubChainID(id)).Ok? <==> id == env.world.chainId
    ensures Act(l, env, SubChainID(id)).Ok? ==> Act(l, env, SubChainID(id)).value == l
  {
  }
}
