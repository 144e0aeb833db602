/**
 The ledger as the node changes it: operations that write one record after the other. Each is proved to
 do what `Ledgers` says of it. A block runs on a fork of its parent's state, so whatever a failing
 operation has left half done is dropped with the fork.
 */
module LedgerState {
  import opened Base
  import opened Amounts
  import opened Interest
  import opened OwnedForm
  import opened Ledgers
  import opened CoinTotals
  import opened ChannelLife
  import DiamondIndex
  import Accounting
  import Inscriptions
  import Outcomes
  import BlockOutcomes

  // ---- loops that fail early ----------------------------------------------

  lemma {:induction false} MoveEachFails(l: Ledger, from: Address, to: Address, names: seq<Name>, i: nat)
    requires i <= |names| && MoveEach(l, from, to, names[..i]).Err?
    ensures MoveEach(l, from, to, names) == MoveEach(l, from, to, names[..i])
    decreases |names| - i
  {
    if i == |names| {
      assert names[..i] == names;
    } else {
      assert names[..i + 1][..i] == names[..i];
      MoveEachFails(l, from, to, names, i + 1);
    }
  }

  lemma {:induction false} EngraveEachFails(l: Ledger, env: Env, names: seq<Name>, content: Option<Bytes>, i: nat)
    requires i <= |names| && EngraveEach(l, env, names[..i], content).Err?
    ensures EngraveEach(l, env, names, content) == EngraveEach(l, env, names[..i], content)
    decreases |names| - i
  {
    if i == |names| {
      assert names[..i] == names;
    } else {
      assert names[..i + 1][..i] == names[..i];
      EngraveEachFails(l, env, names, content, i + 1);
    }
  }

  lemma {:induction false} ActEachFails(l: Ledger, env: Env, acts: seq<Action>, all: seq<Action>, i: nat)
    requires i <= |acts| && ActEach(l, env, acts[..i], all).Err?
    ensures ActEach(l, env, acts, all) == ActEach(l, env, acts[..i], all)
    decreases |acts| - i
  {
    if i == |acts| {
      assert acts[..i] == acts;
    } else {
      assert acts[..i + 1][..i] == acts[..i];
      ActEachFails(l, env, acts, all, i + 1);
    }
  }

  lemma ActEachStep(l: Ledger, env: Env, acts: seq<Action>, all: seq<Action>, i: nat, l1: Ledger)
    requires i < |acts| && ActEach(l, env, acts[..i], all) == Ok(l1)
    ensures ActEach(l, env, acts[..i + 1], all) ==
      if LevelOk(acts[i], all) then Act(l1, env, acts[i]) else Err(NotUnique)
  {
    assert acts[..i + 1][..i] == acts[..i];
  }

  lemma {:induction false} RunTxsFails(l: Ledger, w: World, height: nat, blockHash: Bytes, txs: seq<Tx>, i: nat)
    requires i <= |txs| && RunTxs(l, w, height, blockHash, txs[..i]).Err?
    ensures RunTxs(l, w, height, blockHash, txs) == RunTxs(l, w, height, blockHash, txs[..i])
    decreases |txs| - i
  {
    if i == |txs| {
      assert txs[..i] == txs;
    } else {
      assert txs[..i + 1][..i] == txs[..i];
      RunTxsFails(l, w, height, blockHash, txs, i + 1);
    }
  }

  // ---- what operations amount to ------------------------------------------

  lemma MintOutcome(l: Ledger, env: Env, m: MintRecord, l1: Ledger)
    requires Mint(l, env, m) == Ok(l1)
    ensures m.name !in l.diamonds && m.name in l1.diamonds && l1.diamonds[m.name].owner == m.address
    ensures l1.latest == Latest(l.latest.number + 1, env.blockHash) &&
      l1.byNumber == l.byNumber[l.latest.number + 1 := m.name]
    ensures DiamondIndex.DiamondsOk(l) ==> DiamondIndex.DiamondsOk(l1)
    ensures SameCoins(l.balances, l1.balances) && l1.channels == l.channels
  {
    Accounting.MintKeepsCoins(l, env, m, l1);
    DiamondIndex.MintIs(l, env, m, Diamond(Normal, m.address, 0, []));
    if DiamondIndex.DiamondsOk(l) {
      DiamondIndex.MintKeeps(l, env, m);
    }
  }

  /** The open channel `id` of `l` is closed in `l1`, and divided into `x` and `y`. */
  ghost predicate Paid(l: Ledger, l1: Ledger, height: nat, id: ChannelId, x: Amount, y: Amount) {
    && id in l.channels && id in l1.channels && l.channels[id].status == Opening && l1.channels[id].status != Opening
    && var c := l.channels[id];
      && Divides(c, x, y) && ChannelsOk(l1) && ChannelsLater(l.channels, l1.channels) && (NoDebts(l) ==> NoDebts(l1))
      && Total(l1) == Total(l) + InterestOn(height, c, x, y) && InterestOn(height, c, x, y) >= 0
      && if IsPositive(Add(x, y).value) then PaysShares(l, l1, height, c, x, y) else l1.balances == l.balances
  }

  lemma CloseOutcome(l: Ledger, height: nat, id: ChannelId, x: Amount, y: Amount, final: bool)
    requires ChannelsOk(l) && id in l.channels && CloseWith(l, height, id, l.channels[id], x, y, final).Ok?
    ensures Paid(l, CloseWith(l, height, id, l.channels[id], x, y, final).value, height, id, x, y)
  {
    var c := l.channels[id];
    var total := Add(c.leftAmt, c.rightAmt).value;
    CloseIs(l, height, id, x, y, final, total, PayOut(l, height, c, x, y, total).value);
    CloseEffect(l, height, id, x, y, final);
    if IsPositive(Add(x, y).value) {
      CloseReturns(l, height, id, x, y, final);
    } else {
      CloseOfNothing(l, height, id, x, y, final);
    }
  }

  lemma FeeOutcome(l: Ledger, height: nat, tx: Tx)
    requires PayFee(l, height, tx).Ok?
    ensures !(tx.hash in l.txexist && l.txexist[tx.hash] > 0)
    ensures var l1 := PayFee(l, height, tx).value;
      && l1.txexist == l.txexist[tx.hash := height] && l1 == l.(txexist := l1.txexist, balances := l1.balances)
      && Total(l1) == Total(l) - ToBigint(tx.fee) && ToBigint(tx.fee) <= Coins(l, tx.main)
      && Coins(l1, tx.main) == Coins(l, tx.main) - ToBigint(tx.fee)
      && forall a :: a != tx.main ==> Coins(l1, a) == Coins(l, a)
  {
    var l0 := l.(txexist := l.txexist[tx.hash := height]);
    HacSubEffect(l0, tx.main, tx.fee);
    assert forall a :: Coins(l0, a) == Coins(l, a);
  }

  // ---- the state ----------------------------------------------------------

  class State {
    var balances: map<Address, Balance>
    var txexist: map<TxHash, nat>
    var diamonds: map<Name, Diamond>
    var byNumber: map<nat, Name>
    var owned: map<Address, seq<Name>>
    var latest: Latest
    var channels: map<ChannelId, Channel>
    var opening: nat
    var minted: nat

    function Snapshot(): Ledger
      reads this
    {
      Ledger(balances, txexist, diamonds, byNumber, owned, latest, channels, opening, minted)
    }

    /** The state is what `spec` says, or the operation has reported its error. */
    ghost predicate Did(spec: Result<Ledger, Error>, e: Option<Error>)
      reads this
    {
      match spec
      case Ok(l) => e == None && Snapshot() == l
      case Err(x) => e == Some(x)
    }

    constructor Fork(base: State)
      ensures Snapshot() == base.Snapshot()
    {
      balances, txexist, diamonds, byNumber := base.balances, base.txexist, base.diamonds, base.byNumber;
      owned, latest, channels := base.owned, base.latest, base.channels;
      opening, minted := base.opening, base.minted;
    }

    // ---- coins ------------------------------------------------------------

    method SaveHacash(a: Address, amt: Amount) returns (e: Option<Error>)
      modifies this`balances
      ensures Did(SetHacash(old(Snapshot()), a, amt), e)
    {
      if Size(amt) > 12 {
        return Some(BalanceTooLarge);
      }
      balances := balances[a := BalanceIn(balances, a).(hacash := amt)];
      e := None;
    }

    method AddHac(a: Address, amt: Amount) returns (e: Option<Error>)
      modifies this`balances
      ensures Did(HacAdd(old(Snapshot()), a, amt), e)
    {
      if !IsPositive(amt) {
        return Some(NotPositive);
      }
      var sum := Add(BalanceIn(balances, a).hacash, amt);
      if sum.Err? {
        return Some(AmountWidth(sum.error));
      }
      e := SaveHacash(a, sum.value);
    }

    method SubHac(a: Address, amt: Amount) returns (e: Option<Error>)
      modifies this`balances
      ensures Did(HacSub(old(Snapshot()), a, amt), e)
    {
      if !IsPositive(amt) {
        return Some(NotPositive);
      }
      var coins := BalanceIn(balances, a).hacash;
      if Cmp(coins, amt) == Less {
        return Some(NotEnough);
      }
      var rest := Sub(coins, amt);
      if rest.Err? {
        return Some(AmountWidth(rest.error));
      }
      e := SaveHacash(a, rest.value);
    }

    /** Conserves coins: what one side loses the other gains, and nobody else anything; the sender had it. */
    method TransferHac(height: nat, from: Address, to: Address, amt: Amount) returns (e: Option<Error>)
      modifies this`balances
      ensures Did(HacMove(old(Snapshot()), height, from, to, amt), e)
      ensures e == None ==> var l, l1 := old(Snapshot()), Snapshot();
        && CoinStep(l, l1, 0) && (from == to ==> l1 == l)
        && (from != to ==> 0 <= ToBigint(amt) <= Coins(l, from))
        && (from != to ==>
          Coins(l1, from) == Coins(l, from) - ToBigint(amt) && Coins(l1, to) == Coins(l, to) + ToBigint(amt))
        && forall a :: a != from && a != to ==> Coins(l1, a) == Coins(l, a)
    {
      if HacMove(Snapshot(), height, from, to, amt).Ok? {
        HacMoveEffect(Snapshot(), height, from, to, amt);
      }
      if from == to {
        if height >= 20_0000 {
          var check := CheckHac(from, amt);
          return check;
        }
        return None;
      }
      e := SubHac(from, amt);
      if e == None {
        e := AddHac(to, amt);
      }
    }

    method CheckHac(a: Address, amt: Amount) returns (e: Option<Error>)
      ensures match HacCheck(Snapshot(), a, amt) case Ok(_) => e == None case Err(x) => e == Some(x)
    {
      if !IsPositive(amt) {
        return Some(NotPositive);
      }
      if a in balances && Cmp(balances[a].hacash, amt) != Less {
        return None;
      }
      e := Some(NotEnough);
    }

    /** The three balances of the first block. */
    method InitializeBalances(w: World)
      modifies this`balances
      ensures Snapshot() == Initialize(old(Snapshot()), w)
    {
      balances := balances[w.first.0.0 := Balance(w.first.0.1, 0)];
      balances := balances[w.first.1.0 := Balance(w.first.1.1, 0)];
      balances := balances[w.first.2.0 := Balance(w.first.2.1, 0)];
    }

    // ---- diamonds ---------------------------------------------------------

    method AddHacd(a: Address, n: nat)
      modifies this`balances
      ensures Snapshot() == HacdAdd(old(Snapshot()), a, n)
    {
      var b := BalanceIn(balances, a);
      balances := balances[a := b.(diamond := b.diamond + n)];
    }

    method SubHacd(a: Address, n: nat) returns (e: Option<Error>)
      modifies this`balances
      ensures Did(HacdSub(old(Snapshot()), a, n), e)
    {
      var b := BalanceIn(balances, a);
      if b.diamond < n {
        return Some(NotEnough);
      }
      balances := balances[a := b.(diamond := b.diamond - n)];
      e := None;
    }

    method TransferHacd(from: Address, to: Address, n: nat) returns (e: Option<Error>)
      modifies this`balances
      ensures Did(HacdMove(old(Snapshot()), from, to, n), e)
    {
      if from == to {
        return Some(SelfTransfer);
      }
      e := SubHacd(from, n);
      if e == None {
        AddHacd(to, n);
      }
    }

    method CheckDiamondStatus(from: Address, name: Name) returns (r: Result<Diamond, Error>)
      ensures r == CheckDiamond(Snapshot(), from, name)
    {
      if name !in diamonds {
        return Err(NoDiamond);
      }
      var item := diamonds[name];
      if item.status != Normal {
        return Err(Mortgaged);
      }
      if from != item.owner {
        return Err(NotOwner);
      }
      r := Ok(item);
    }

    method MoveOneDiamond(from: Address, to: Address, name: Name) returns (e: Option<Error>)
      modifies this`diamonds
      ensures Did(MoveOne(old(Snapshot()), from, to, name), e)
    {
      if from == to {
        return Some(SelfTransfer);
      }
      var item := CheckDiamondStatus(from, name);
      if item.Err? {
        return Some(item.error);
      }
      diamonds := diamonds[name := item.value.(owner := to)];
      e := None;
    }

    /** Drops the names from the packed list of one owner and appends them to the other's. */
    method MoveOwned(from: Address, to: Address, names: seq<Name>) returns (e: Option<Error>)
      modifies this`owned
      ensures Did(OwnedMove(old(Snapshot()), from, to, names), e)
    {
      if from !in owned {
        return Some(NoOwnedForm);
      }
      var fromOwned := new DiamondOwnedForm.Stored(owned[from]);
      var left := fromOwned.Drop(names);
      if left == None {
        return Some(DropMismatch);
      }
      var rest := Records(fromOwned.bytes[..]);
      if left.value > 0 {
        owned := owned[from := rest];
      } else {
        owned := owned - {from};
      }
      PushOwned(to, names);
      e := None;
    }

    method PushOneOwned(a: Address, name: Name)
      modifies this`owned
      ensures Snapshot() == OwnedPush(old(Snapshot()), a, [name])
    {
      var form := new DiamondOwnedForm.Stored(ListOf(owned, a));
      form.PushOne(name);
      owned := owned[a := Records(form.bytes[..])];
    }

    method PushOwned(a: Address, names: seq<Name>)
      modifies this`owned
      ensures Snapshot() == OwnedPush(old(Snapshot()), a, names)
    {
      var form := new DiamondOwnedForm.Stored(ListOf(owned, a));
      form.Push(names);
      owned := owned[a := Records(form.bytes[..])];
    }

    method MoveDiamonds(from: Address, to: Address, names: seq<Name>) returns (e: Option<Error>)
      modifies this
      ensures Did(DiamondsMove(old(Snapshot()), from, to, names), e)
    {
      if !ValidList(names) {
        return Some(BadNameList);
      }
      ghost var l := Snapshot();
      for i := 0 to |names|
        invariant MoveEach(l, from, to, names[..i]) == Ok(Snapshot())
      {
        assert names[..i + 1][..i] == names[..i];
        e := MoveOneDiamond(from, to, names[i]);
        if e != None {
          MoveEachFails(l, from, to, names, i + 1);
          return;
        }
      }
      assert names[..|names|] == names;
      e := MoveOwned(from, to, names);
      if e == None {
        e := TransferHacd(from, to, |names|);
      }
    }

    /** The new diamond gets the next number and is the address's; the indexes agree again and no coins or
        channels change. */
    method MintDiamond(env: Env, m: MintRecord) returns (e: Option<Error>)
      modifies this
      ensures Did(Mint(old(Snapshot()), env, m), e)
      ensures e == None ==> var l, l1 := old(Snapshot()), Snapshot();
        && m.name !in l.diamonds && m.name in l1.diamonds && l1.diamonds[m.name].owner == m.address
        && l1.latest == Latest(l.latest.number + 1, env.blockHash) &&
          l1.byNumber == l.byNumber[l.latest.number + 1 := m.name]
        && (DiamondIndex.DiamondsOk(l) ==> DiamondIndex.DiamondsOk(l1))
        && SameCoins(l.balances, l1.balances) && l1.channels == l.channels
    {
      ghost var l := Snapshot();
      e := MayMint(env, m);
      if e != None {
        return;
      }
      if m.number > BURN_FEES_ABOVE {
        var burn := Sub(env.fee, TenthOf(env.fee));
        if burn.Err? {
          return Some(AmountWidth(burn.error));
        }
      }
      WriteMint(env.blockHash, m);
      MintOutcome(l, env, m, Snapshot());
    }

    method MayMint(env: Env, m: MintRecord) returns (e: Option<Error>)
      ensures e == CheckMint(Snapshot(), env, m)
    {
      if m.address.version != PRIVAKEY {
        return Some(NotPrivateKey);
      }
      if IsNotZero(env.blockHash) && env.height % 5 != 0 {
        return Some(BadMintHeight);
      }
      if m.number != latest.number + 1 {
        return Some(BadDiamondNumber);
      }
      if m.number > 1 && latest.bornHash != m.prevHash {
        return Some(BadPrevHash);
      }
      if env.world.mined(m) != Some(m.name) {
        return Some(BadDiamond);
      }
      e := if m.name in diamonds then Some(DiamondExists) else None;
    }

    method WriteMint(blockHash: Bytes, m: MintRecord)
      modifies this
      ensures Snapshot() == RecordMint(old(Snapshot()), blockHash, m)
    {
      latest, minted := Latest(m.number, blockHash), minted + 1;
      diamonds := diamonds[m.name := Diamond(Normal, m.address, 0, [])];
      byNumber := byNumber[m.number := m.name];
      PushOneOwned(m.address, m.name);
      AddHacd(m.address, 1);
    }

    // ---- inscriptions -----------------------------------------------------

    method EngraveOne(env: Env, name: Name, content: Option<Bytes>) returns (r: Result<Amount, Error>)
      modifies this`diamonds
      ensures match Ledgers.EngraveOne(old(Snapshot()), env, name, content)
        case Err(e) => r == Err(e)
        case Ok((l, cost)) => r == Ok(cost) && Snapshot() == l
    {
      var d := CheckDiamondStatus(env.main, name);
      if d.Err? {
        return Err(d.error);
      }
      if content == None {
        r := CleanOne(env, name, d.value);
      } else {
        r := WriteOne(env, name, d.value, content.value);
      }
    }

    method WriteOne(env: Env, name: Name, d: Diamond, content: Bytes) returns (r: Result<Amount, Error>)
      requires CheckDiamond(Snapshot(), env.main, name) == Ok(d)
      modifies this`diamonds
      ensures match Engrave(old(Snapshot()), env, name, content)
        case Err(e) => r == Err(e)
        case Ok((l, cost)) => r == Ok(cost) && Snapshot() == l
    {
      if d.engravedHeight + 1000 > env.height {
        return Err(EngravedTooSoon);
      }
      if |d.inscripts| >= 200 {
        return Err(TooManyInscriptions);
      }
      var bid := env.world.averageBid(name);
      if bid.None? {
        return Err(NoSmelt);
      }
      var cost := EMPTY;
      if |d.inscripts| >= 10 {
        var units := FromUnits(bid.value, 247);
        if units.Err? {
          return Err(AmountWidth(units.error));
        }
        cost := units.value;
      }
      diamonds := diamonds[name := d.(engravedHeight := env.height, inscripts := d.inscripts + [content])];
      r := Ok(cost);
    }

    method CleanOne(env: Env, name: Name, d: Diamond) returns (r: Result<Amount, Error>)
      requires CheckDiamond(Snapshot(), env.main, name) == Ok(d)
      modifies this`diamonds
      ensures match Clean(old(Snapshot()), env, name)
        case Err(e) => r == Err(e)
        case Ok((l, cost)) => r == Ok(cost) && Snapshot() == l
    {
      var bid := env.world.averageBid(name);
      if bid.None? {
        return Err(NoSmelt);
      }
      if d.inscripts == [] {
        return Err(NothingEngraved);
      }
      var cost := FromUnits(bid.value, 248);
      if cost.Err? {
        return Err(AmountWidth(cost.error));
      }
      diamonds := diamonds[name := d.(engravedHeight := 0, inscripts := [])];
      r := Ok(cost.value);
    }

    /** Writes on every listed diamond once, or cleans it, and has the main address pay for it; no other diamond
        and no other balance changes. */
    method InscribeAll(env: Env, names: seq<Name>, cost: Amount, content: Option<Bytes>) returns (e: Option<Error>)
      modifies this
      ensures Did(Inscribe(old(Snapshot()), env, names, cost, content), e)
      ensures e == None ==> Inscriptions.Inscribed(old(Snapshot()), Snapshot(), env, names, cost, content)
    {
      ghost var l := Snapshot();
      e := EngraveAndPay(env, names, cost, content);
      if e == None {
        Inscriptions.InscribedSo(l, env, names, cost, content, Snapshot());
      }
    }

    method EngraveAndPay(env: Env, names: seq<Name>, cost: Amount, content: Option<Bytes>) returns (e: Option<Error>)
      modifies this
      ensures Did(Inscribe(old(Snapshot()), env, names, cost, content), e)
    {
      if !ValidList(names) {
        return Some(BadNameList);
      }
      if Size(cost) > 4 {
        return Some(CostTooWide);
      }
      ghost var l := Snapshot();
      var ttcost := EMPTY;
      for i := 0 to |names|
        invariant EngraveEach(l, env, names[..i], content) == Ok((Snapshot(), ttcost))
      {
        assert names[..i + 1][..i] == names[..i];
        var one := EngraveOne(env, names[i], content);
        if one.Err? {
          EngraveEachFails(l, env, names, content, i + 1);
          return Some(one.error);
        }
        var sum := Add(ttcost, one.value);
        if sum.Err? {
          EngraveEachFails(l, env, names, content, i + 1);
          return Some(AmountWidth(sum.error));
        }
        ttcost := sum.value;
      }
      assert names[..|names|] == names;
      if LessThan(cost, ttcost) {
        return Some(CostTooLow);
      }
      e := None;
      if IsPositive(cost) {
        e := SubHac(env.main, cost);
      }
    }

    // ---- channels ---------------------------------------------------------

    /** Locks the two amounts in a new opening of the channel: no coins are made or lost, nobody gets into
        debt, the counter stays right, and the id has kept its sides. */
    method OpenPayChannel(height: nat, id: ChannelId, left: Address, leftAmt: Amount, right: Address, rightAmt: Amount)
      returns (e: Option<Error>)
      modifies this
      ensures Did(OpenChannel(old(Snapshot()), height, id, left, leftAmt, right, rightAmt), e)
      ensures e == None ==> var l, l1 := old(Snapshot()), Snapshot();
        && Total(l1) == Total(l) && (NoDebts(l) ==> NoDebts(l1)) && (ChannelsOk(l) ==> ChannelsOk(l1))
        && ChannelsLater(l.channels, l1.channels)
        && id in l1.channels && l1.channels[id].status == Opening &&
          Lock(l1.channels[id]) == ToBigint(leftAmt) + ToBigint(rightAmt)
        && Outcomes.Moved(l, l1, left, -ToBigint(leftAmt), right, -ToBigint(rightAmt))
    {
      if OpenChannel(Snapshot(), height, id, left, leftAmt, right, rightAmt).Ok? {
        OpenEffect(Snapshot(), height, id, left, leftAmt, right, rightAmt);
        Outcomes.OpenedBetween(Snapshot(), height, id, left, leftAmt, right, rightAmt);
      }
      e := LockAndRecord(height, id, left, leftAmt, right, rightAmt);
    }

    method LockAndRecord(height: nat, id: ChannelId, left: Address, leftAmt: Amount, right: Address, rightAmt: Amount)
      returns (e: Option<Error>)
      modifies this
      ensures Did(OpenChannel(old(Snapshot()), height, id, left, leftAmt, right, rightAmt), e)
    {
      if left.version != PRIVAKEY || right.version != PRIVAKEY {
        return Some(NotPrivateKey);
      }
      e := TakeIfAny(left, leftAmt);
      if e != None {
        return;
      }
      e := TakeIfAny(right, rightAmt);
      if e != None {
        return;
      }
      e := RecordOpening(height, id, left, leftAmt, right, rightAmt);
    }

    method RecordOpening(height: nat, id: ChannelId, left: Address, leftAmt: Amount, right: Address, rightAmt: Amount)
      returns (e: Option<Error>)
      modifies this`channels, this`opening
      ensures Did(Ledgers.RecordOpening(old(Snapshot()), height, id, left, leftAmt, right, rightAmt), e)
    {
      if !ValidId(id) {
        return Some(BadChannelId);
      }
      if left == right {
        return Some(SameSides);
      }
      if Size(leftAmt) > 6 || Size(rightAmt) > 6 {
        return Some(BadChannelAmounts);
      }
      if IsNegative(leftAmt) || IsNegative(rightAmt) || (IsEmpty(leftAmt) && IsEmpty(rightAmt)) {
        return Some(BadChannelAmounts);
      }
      var reuse := 1;
      if id in channels {
        var chan := channels[id];
        if chan.left != left || chan.right != right || chan.status != AgreementClosed {
          return Some(ChannelInUse);
        }
        reuse := chan.reuse + 1;
      }
      e := None;
      channels := channels[id := Channel(Opening, reuse, height, ByShare, left, leftAmt, right, rightAmt, None)];
      opening := opening + 1;
      var deposit := Add(leftAmt, rightAmt);
      if deposit.Err? {
        return Some(AmountWidth(deposit.error));
      }
    }

    method TakeIfAny(a: Address, amt: Amount) returns (e: Option<Error>)
      modifies this`balances
      ensures Did(SubIfAny(old(Snapshot()), a, amt), e)
    {
      e := None;
      if !IsEmpty(amt) {
        e := SubHac(a, amt);
      }
    }

    method GiveIfPositive(a: Address, amt: Amount) returns (e: Option<Error>)
      modifies this`balances
      ensures Did(AddIfPositive(old(Snapshot()), a, amt), e)
    {
      e := None;
      if IsPositive(amt) {
        e := AddHac(a, amt);
      }
    }

    method PayShares(height: nat, c: Channel, leftAmt: Amount, rightAmt: Amount, total: Amount)
      returns (e: Option<Error>)
      modifies this`balances
      ensures Did(PayOut(old(Snapshot()), height, c, leftAmt, rightAmt, total), e)
    {
      if !IsPositive(total) {
        return None;
      }
      var pay := CalculateInterestOfHeight(height, c.openHeight, c.interestTo, leftAmt, rightAmt);
      if pay.Err? {
        return Some(BadInterest(pay.error));
      }
      var sum := Add(pay.value.0, pay.value.1);
      if sum.Err? {
        return Some(AmountWidth(sum.error));
      }
      if LessThan(sum.value, total) {
        return Some(InterestTooLow);
      }
      var gain := Sub(sum.value, total);
      if gain.Err? {
        return Some(AmountWidth(gain.error));
      }
      e := GiveIfPositive(c.left, pay.value.0);
      if e == None {
        e := GiveIfPositive(c.right, pay.value.1);
      }
    }

    /** Ends the opening, however its coins are divided: both sides get their part with the interest on it,
        which is all that the total changes by, and the counter stays right. */
    method CloseWithDistribution(height: nat, id: ChannelId, c: Channel, leftAmt: Amount, rightAmt: Amount, final: bool)
      returns (e: Option<Error>)
      modifies this
      ensures Did(CloseWith(old(Snapshot()), height, id, c, leftAmt, rightAmt, final), e)
      ensures e == None && ChannelsOk(old(Snapshot())) && id in old(channels) && old(channels)[id] == c ==>
        Paid(old(Snapshot()), Snapshot(), height, id, leftAmt, rightAmt)
    {
      ghost var l := Snapshot();
      e := PayAndRecord(height, id, c, leftAmt, rightAmt, final);
      if e == None && ChannelsOk(l) && id in l.channels && l.channels[id] == c {
        CloseOutcome(l, height, id, leftAmt, rightAmt, final);
      }
    }

    method PayAndRecord(height: nat, id: ChannelId, c: Channel, leftAmt: Amount, rightAmt: Amount, final: bool)
      returns (e: Option<Error>)
      modifies this
      ensures Did(CloseWith(old(Snapshot()), height, id, c, leftAmt, rightAmt, final), e)
    {
      if c.status != Opening {
        return Some(NotOpening);
      }
      if IsNegative(leftAmt) || IsNegative(rightAmt) {
        return Some(NegativeShare);
      }
      var total, shares := Add(c.leftAmt, c.rightAmt), Add(leftAmt, rightAmt);
      if total.Err? {
        return Some(AmountWidth(total.error));
      }
      if shares.Err? {
        return Some(AmountWidth(shares.error));
      }
      if shares.value != total.value {
        return Some(SharesDiffer);
      }
      if opening == 0 {
        return Some(CountUnderflow);
      }
      var count := opening - 1;
      e := PayShares(height, c, leftAmt, rightAmt, total.value);
      if e != None {
        return;
      }
      var status := if final then FinalArbitrationClosed else AgreementClosed;
      channels := channels[id := c.(status := status, closedLeft := Some(leftAmt))];
      opening := count;
    }

    /** Only with both signatures, and at the shares that were put in. */
    method ClosePayChannel(env: Env, id: ChannelId) returns (e: Option<Error>)
      modifies this
      ensures Did(CloseChannel(old(Snapshot()), env, id), e)
      ensures e == None ==>
        id in old(channels) && old(channels)[id].left in env.signed && old(channels)[id].right in env.signed
      ensures e == None && ChannelsOk(old(Snapshot())) ==>
        Paid(old(Snapshot()), Snapshot(), env.height, id, old(channels)[id].leftAmt, old(channels)[id].rightAmt)
    {
      if !ValidId(id) {
        return Some(BadChannelId);
      }
      if id !in channels {
        return Some(NoChannel);
      }
      var c := channels[id];
      if c.left.version != PRIVAKEY || c.right.version != PRIVAKEY {
        return Some(NotPrivateKey);
      }
      if c.left !in env.signed || c.right !in env.signed {
        return Some(NotSigned);
      }
      e := CloseWithDistribution(env.height, id, c, c.leftAmt, c.rightAmt, false);
    }

    // ---- actions, transactions and blocks ---------------------------------

    method Execute(env: Env, a: Action) returns (e: Option<Error>)
      modifies this
      ensures Did(Act(old(Snapshot()), env, a), e)
    {
      match a
      case HacTransfer(from, to, amt) => e := TransferHac(env.height, from, to, amt);
      case ChannelOpen(id, left, leftAmt, right, rightAmt) =>
        e := OpenPayChannel(env.height, id, left, leftAmt, right, rightAmt);
      case ChannelClose(id) => e := ClosePayChannel(env, id);
      case DiamondMint(m) => e := MintDiamond(env, m);
      case DiamondTransfer(from, to, names) => e := MoveDiamonds(from, to, names);
      case DiamondInscription(names, cost, kind, content) =>
        if !ValidList(names) {
          return Some(BadNameList);
        }
        if Size(cost) > 4 {
          return Some(CostTooWide);
        }
        if !ContentOk(env, kind, content) {
          return Some(BadContent);
        }
        e := InscribeAll(env, names, cost, Some(content));
      case DiamondInscriptionClear(names, cost) => e := InscribeAll(env, names, cost, None);
      case SubmitHeightLimit(start, end) => e := Limit(env, start, end);
      case SubChainID(id) => e := if id != env.world.chainId then Some(WrongChain) else None;
    }

    method ExecuteActions(w: World, height: nat, blockHash: Bytes, tx: Tx) returns (e: Option<Error>)
      modifies this
      ensures Did(RunActions(old(Snapshot()), w, height, blockHash, tx), e)
    {
      if tx.actions == [] || |tx.actions| > 0xFFFF {
        return Some(NoActions);
      }
      if tx.ty >= 3 && tx.gasMax > 0 {
        return Some(NeedsMachine);
      }
      var env, acts := TxEnv(w, height, blockHash, tx), tx.actions;
      ghost var l := Snapshot();
      for i := 0 to |acts|
        invariant ActEach(l, env, acts[..i], acts) == Ok(Snapshot())
      {
        ActEachStep(l, env, acts, acts, i, Snapshot());
        e := ExecuteAt(env, acts[i], acts);
        if e != None {
          ActEachFails(l, env, acts, acts, i + 1);
          return;
        }
      }
      assert acts[..|acts|] == acts;
      e := None;
    }

    /** One action, on the level that its kind demands. */
    method ExecuteAt(env: Env, a: Action, all: seq<Action>) returns (e: Option<Error>)
      modifies this
      ensures Did(if LevelOk(a, all) then Act(old(Snapshot()), env, a) else Err(NotUnique), e)
    {
      var smalv := 0;
      if TopUnique(a) {
        for i := 0 to |all|
          invariant LevelOk(a, all[..i]) <==> smalv <= 1
          invariant smalv == 0 <==> forall k :: 0 <= k < i ==> !SameKind(a, all[k])
        {
          if SameKind(a, all[i]) {
            smalv := smalv + 1;
          }
        }
        assert all[..|all|] == all;
        if smalv > 1 {
          return Some(NotUnique);
        }
      }
      e := Execute(env, a);
    }

    /** Refuses a transaction that is marked; otherwise marks it and takes its fee, from its main address
        only. */
    method PayTxFee(height: nat, tx: Tx) returns (e: Option<Error>)
      modifies this
      ensures Did(PayFee(old(Snapshot()), height, tx), e)
      ensures tx.hash in old(txexist) && old(txexist)[tx.hash] > 0 ==> e != None
      ensures e == None ==> var l, l1 := old(Snapshot()), Snapshot();
        && l1.txexist == l.txexist[tx.hash := height] && l1 == l.(txexist := l1.txexist, balances := l1.balances)
        && Total(l1) == Total(l) - ToBigint(tx.fee) && ToBigint(tx.fee) <= Coins(l, tx.main)
        && Coins(l1, tx.main) == Coins(l, tx.main) - ToBigint(tx.fee)
        && forall a :: a != tx.main ==> Coins(l1, a) == Coins(l, a)
    {
      if PayFee(Snapshot(), height, tx).Ok? {
        FeeOutcome(Snapshot(), height, tx);
      }
      e := MarkAndPay(height, tx);
    }

    method MarkAndPay(height: nat, tx: Tx) returns (e: Option<Error>)
      modifies this
      ensures Did(PayFee(old(Snapshot()), height, tx), e)
    {
      if height > 20_0000 && Size(tx.fee) > 6 {
        return Some(FeeTooWide);
      }
      if tx.hash in txexist && txexist[tx.hash] > 0 {
        return Some(TxExists);
      }
      txexist := txexist[tx.hash := height];
      if tx.main.version != PRIVAKEY {
        return Some(NotPrivateKey);
      }
      if tx.ty <= 3 && tx.anoMark != 0 {
        return Some(BadExtendData);
      }
      if tx.ty <= 2 && tx.gasMax != 0 {
        return Some(BadExtendData);
      }
      e := SubHac(tx.main, tx.fee);
    }

    /** Runs the transactions of a block and adds up what they leave for the miner. */
    method ExecuteTxs(w: World, height: nat, blockHash: Bytes, txs: seq<Tx>) returns (r: Result<Amount, Error>)
      modifies this
      ensures match RunTxs(old(Snapshot()), w, height, blockHash, txs)
        case Err(e) => r == Err(e)
        case Ok((l, fees)) => r == Ok(fees) && Snapshot() == l
    {
      ghost var l := Snapshot();
      var fees := EMPTY;
      for i := 0 to |txs|
        invariant RunTxs(l, w, height, blockHash, txs[..i]) == Ok((Snapshot(), fees))
      {
        assert txs[..i + 1][..i] == txs[..i];
        var one := ExecuteTx(w, height, blockHash, txs[i], fees);
        if one.Err? {
          RunTxsFails(l, w, height, blockHash, txs, i + 1);
          return one;
        }
        fees := one.value;
      }
      assert txs[..|txs|] == txs;
      r := Ok(fees);
    }

    method ExecuteTx(w: World, height: nat, blockHash: Bytes, tx: Tx, fees: Amount) returns (r: Result<Amount, Error>)
      modifies this
      ensures match RunActions(old(Snapshot()), w, height, blockHash, tx)
        case Err(e) => r == Err(e)
        case Ok(l) =>
          match Add(fees, FeeGot(tx))
          case Err(e) => r == Err(AmountWidth(e))
          case Ok(sum) =>
            match PayFee(l, height, tx) case Err(e) => r == Err(e) case Ok(l1) => r == Ok(sum) && Snapshot() == l1
    {
      var e := ExecuteActions(w, height, blockHash, tx);
      if e != None {
        return Err(e.value);
      }
      var sum := Add(fees, FeeGot(tx));
      if sum.Err? {
        return Err(AmountWidth(sum.error));
      }
      e := PayTxFee(height, tx);
      r := if e == None then Ok(sum.value) else Err(e.value);
    }
  }

  /** Runs a block on a fork of its parent's state: the parent's state stays as it is, whether or not the
      block is accepted. Reward and fees go to the miner and to nobody else. */
  method DoCheckInsert(base: State, w: World, b: BlockTxs) returns (r: Result<State, Error>)
    ensures match RunBlock(base.Snapshot(), w, b)
      case Err(e) => r == Err(e)
      case Ok(l) => r.Ok? && fresh(r.value) && r.value.Snapshot() == l
    ensures r.Ok? && w.Valid() ==> BlockOutcomes.MinerPaid(base.Snapshot(), w, b, r.value.Snapshot())
  {
    if w.Valid() && RunBlock(base.Snapshot(), w, b).Ok? {
      BlockOutcomes.MinerIsPaid(base.Snapshot(), w, b, RunBlock(base.Snapshot(), w, b).value);
    }
    r := RunOnFork(base, w, b);
  }

  method RunOnFork(base: State, w: World, b: BlockTxs) returns (r: Result<State, Error>)
    ensures match RunBlock(base.Snapshot(), w, b)
      case Err(e) => r == Err(e)
      case Ok(l) => r.Ok? && fresh(r.value) && r.value.Snapshot() == l
  {
    if b.reward != CoinReward(w, b.height) {
      return Err(BadReward);
    }
    var sub := new State.Fork(base);
    if b.height == 1 {
      sub.InitializeBalances(w);
    }
    var e := sub.AddHac(b.miner, b.reward);
    if e != None {
      return Err(e.value);
    }
    var fees := sub.ExecuteTxs(w, b.height, b.hash, b.txs);
    if fees.Err? {
      return Err(fees.error);
    }
    e := sub.GiveIfPositive(b.miner, fees.value);
    r := if e == None then Ok(sub) else Err(e.value);
  }
}
