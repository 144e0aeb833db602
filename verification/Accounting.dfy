/**
 Whole blocks and chains of blocks: every accepted action, transaction and block keeps the ledger sound,
 and changes the total of all coins by exactly its reward, interest and burns.
 */
module Accounting {
  import opened Base
  import opened Amounts
  import opened Interest
  import opened OwnedForm
  import opened Ledgers
  import opened DiamondIndex
  import opened CoinTotals
  import opened ChannelLife
  import Supply
  import Octets

  ghost predicate Sound(l: Ledger) {
    DiamondsOk(l) && ChannelsOk(l) && NoDebts(l)
  }

  /** A sound ledger has become another sound one whose total differs by `delta`. */
  ghost predicate Went(l: Ledger, l1: Ledger, delta: int) {
    && Sound(l1) && Total(l1) == Total(l) + delta
    && ChannelsLater(l.channels, l1.channels) && l.latest.number <= l1.latest.number
  }

  lemma WentJoin(l: Ledger, l1: Ledger, l2: Ledger, d: int, e: int)
    requires Went(l, l1, d) && Went(l1, l2, e)
    ensures Went(l, l2, d + e)
  {
    ChannelsLaterJoin(l.channels, l1.channels, l2.channels);
  }

  lemma WentNowhere(l: Ledger)
    requires Sound(l)
    ensures Went(l, l, 0)
  {
  }

  lemma CoinsWent(l: Ledger, l1: Ledger, delta: int)
    requires Sound(l) && CoinStep(l, l1, delta)
    ensures Went(l, l1, delta)
  {
    SameDiamondsOk(l, l1);
  }

  // ---- single actions -----------------------------------------------------

  function Burned(cost: Amount): int {
    if IsPositive(cost) then ToBigint(cost) else 0
  }

  /** The coins that an action creates: interest on closing a channel, less what inscriptions burn. */
  function ActionGain(l: Ledger, env: Env, a: Action): int {
    match a
    case ChannelClose(id) => if id in l.channels then InterestPaid(env.height, l.channels[id]) else 0
    case DiamondInscription(_, cost, _, _) => -Burned(cost)
    case DiamondInscriptionClear(_, cost) => -Burned(cost)
    case _ => 0
  }

  /** A change that leaves coins and channels alone. */
  lemma SameCoinsWent(l: Ledger, l1: Ledger)
    requires Sound(l) && DiamondsOk(l1) && SameCoins(l.balances, l1.balances)
    requires l1.channels == l.channels && l1.opening == l.opening && l.latest.number <= l1.latest.number
    ensures Went(l, l1, 0)
  {
    assert ChannelsOk(l1);
    forall a
      ensures Coins(l1, a) >= 0
    {
      assert Coins(l, a) >= 0;
    }
  }

  lemma MoveKeeps(l: Ledger, from: Address, to: Address, names: seq<Name>)
    requires Sound(l) && DiamondsMove(l, from, to, names).Ok?
    ensures Went(l, DiamondsMove(l, from, to, names).value, 0)
  {
    TransferExact(l, from, to, names);
    CountersKeepCoins(l, from, to, |names|);
    SameCoinsWent(l, DiamondsMove(l, from, to, names).value);
  }

  lemma MintKeepsCoins(l: Ledger, env: Env, m: MintRecord, l1: Ledger)
    requires Mint(l, env, m) == Ok(l1)
    ensures SameCoins(l.balances, l1.balances)
    ensures l1.channels == l.channels && l1.opening == l.opening && l.latest.number <= l1.latest.number
  {
    MintIs(l, env, m, Diamond(Normal, m.address, 0, []));
    CounterKeepsCoins(l.balances, m.address, BalanceIn(l.balances, m.address).diamond + 1);
  }

  lemma MintWent(l: Ledger, env: Env, m: MintRecord)
    requires Sound(l) && Mint(l, env, m).Ok?
    ensures Went(l, Mint(l, env, m).value, 0)
  {
    MintKeeps(l, env, m);
    MintKeepsCoins(l, env, m, Mint(l, env, m).value);
    SameCoinsWent(l, Mint(l, env, m).value);
  }

  lemma EngraveWent(l: Ledger, env: Env, names: seq<Name>, content: Option<Bytes>)
    requires Sound(l) && EngraveEach(l, env, names, content).Ok?
    ensures Went(l, EngraveEach(l, env, names, content).value.0, 0)
  {
    var l1 := EngraveEach(l, env, names, content).value.0;
    EngraveEachOwners(l, env, names, content);
    SameOwnersMembers(l.diamonds, l1.diamonds, l.owned);
    assert AllNormal(l1.diamonds);
    SameCoinsWent(l, l1);
  }

  lemma InscribeWent(l: Ledger, env: Env, names: seq<Name>, cost: Amount, content: Option<Bytes>)
    requires Sound(l) && Inscribe(l, env, names, cost, content).Ok?
    ensures Went(l, Inscribe(l, env, names, cost, content).value, -Burned(cost))
  {
    var l1 := EngraveEach(l, env, names, content).value.0;
    EngraveWent(l, env, names, content);
    if IsPositive(cost) {
      HacSubEffect(l1, env.main, cost);
      CoinsWent(l1, HacSub(l1, env.main, cost).value, -ToBigint(cost));
      WentJoin(l, l1, HacSub(l1, env.main, cost).value, 0, -ToBigint(cost));
    }
  }

  lemma OpenWent(l: Ledger, height: nat, id: ChannelId, left: Address, leftAmt: Amount, right: Address,
    rightAmt: Amount)
    requires Sound(l) && OpenChannel(l, height, id, left, leftAmt, right, rightAmt).Ok?
    ensures Went(l, OpenChannel(l, height, id, left, leftAmt, right, rightAmt).value, 0)
  {
    OpenEffect(l, height, id, left, leftAmt, right, rightAmt);
    SameDiamondsOk(l, OpenChannel(l, height, id, left, leftAmt, right, rightAmt).value);
  }

  lemma CloseWent(l: Ledger, env: Env, id: ChannelId)
    requires Sound(l) && CloseChannel(l, env, id).Ok?
    ensures id in l.channels && Went(l, CloseChannel(l, env, id).value, InterestPaid(env.height, l.channels[id]))
  {
    CloseEffect(l, env.height, id, l.channels[id].leftAmt, l.channels[id].rightAmt, false);
    SameDiamondsOk(l, CloseChannel(l, env, id).value);
  }

  /** Every accepted action keeps the ledger sound and changes the total by its gain. */
  lemma ActWent(l: Ledger, env: Env, a: Action)
    requires Sound(l) && Act(l, env, a).Ok?
    ensures Went(l, Act(l, env, a).value, ActionGain(l, env, a))
  {
    match a
    case HacTransfer(from, to, amt) =>
      HacMoveEffect(l, env.height, from, to, amt);
      CoinsWent(l, Act(l, env, a).value, 0);
    case ChannelOpen(id, left, leftAmt, right, rightAmt) => OpenWent(l, env.height, id, left, leftAmt, right, rightAmt);
    case ChannelClose(id) => CloseWent(l, env, id);
    case DiamondMint(m) => MintWent(l, env, m);
    case DiamondTransfer(from, to, names) => MoveKeeps(l, from, to, names);
    case DiamondInscription(names, cost, _, content) => InscribeWent(l, env, names, cost, Some(content));
    case DiamondInscriptionClear(names, cost) => InscribeWent(l, env, names, cost, None);
    case SubmitHeightLimit(_, _) => WentNowhere(l);
    case SubChainID(_) => WentNowhere(l);
  }

  // ---- transactions -------------------------------------------------------

  function ActsGain(l: Ledger, env: Env, acts: seq<Action>, all: seq<Action>): int
    decreases |acts|
  {
    if acts == [] then 0
    else
      match ActEach(l, env, acts[..|acts| - 1], all)
      case Err(_) => 0
      case Ok(l1) => ActsGain(l, env, acts[..|acts| - 1], all) + ActionGain(l1, env, acts[|acts| - 1])
  }

  lemma {:induction false} ActEachWent(l: Ledger, env: Env, acts: seq<Action>, all: seq<Action>)
    requires Sound(l) && ActEach(l, env, acts, all).Ok?
    ensures Went(l, ActEach(l, env, acts, all).value, ActsGain(l, env, acts, all))
    decreases |acts|
  {
    if acts == [] {
      WentNowhere(l);
    } else {
      var before := acts[..|acts| - 1];
      ActEachWent(l, env, before, all);
      var l1 := ActEach(l, env, before, all).value;
      var a := acts[|acts| - 1];
      ActWent(l1, env, a);
      WentJoin(l, l1, Act(l1, env, a).value, ActsGain(l, env, before, all), ActionGain(l1, env, a));
    }
  }

  lemma PayFeeWent(l: Ledger, height: nat, tx: Tx)
    requires Sound(l) && PayFee(l, height, tx).Ok?
    ensures Went(l, PayFee(l, height, tx).value, -ToBigint(tx.fee)) && ToBigint(tx.fee) >= 0
  {
    var l1 := l.(txexist := l.txexist[tx.hash := height]);
    assert Went(l, l1, 0) by {
      assert forall a :: Coins(l1, a) == Coins(l, a);
    }
    HacSubEffect(l1, tx.main, tx.fee);
    CoinsWent(l1, PayFee(l, height, tx).value, -ToBigint(tx.fee));
    PositiveValue(tx.fee);
    WentJoin(l, l1, PayFee(l, height, tx).value, 0, -ToBigint(tx.fee));
  }

  /** Nine tenths of a fee are burned exactly, unless its unit leaves no smaller one. */
  lemma FeeGotValue(tx: Tx)
    ensures if Burns90(tx) && tx.fee.unit > 1 then 10 * ToBigint(FeeGot(tx)) == ToBigint(tx.fee)
      else FeeGot(tx) == tx.fee
    ensures !IsNegative(tx.fee) ==> 0 <= ToBigint(FeeGot(tx)) <= ToBigint(tx.fee)
  {
    if Burns90(tx) && tx.fee.unit > 1 {
      TenthValue(tx.fee);
    }
    if !IsNegative(tx.fee) {
      PositiveValue(FeeGot(tx));
    }
  }

  lemma TenthValue(fee: Amount)
    requires fee.unit > 1
    ensures 10 * ToBigint(TenthOf(fee)) == ToBigint(fee)
  {
    if fee.dist != 0 {
      var num: int := Octets.FromBigEndian(fee.byte);
      var signed := if fee.dist < 0 then -num else num;
      assert ToBigint(fee) == signed * Pow(10, fee.unit);
      TenTimes(signed, Pow(10, fee.unit - 1));
    }
  }

  lemma TenTimes(a: int, p: nat)
    ensures a * (10 * p) == 10 * (a * p)
  {
    MulAssociates(a, 10, p);
    MulAssociates(10, a, p);
  }

  // ---- blocks -------------------------------------------------------------

  /** What a block's transactions create or destroy: interest less inscription costs, less the part of
      each fee that no miner receives. */
  function TxsGain(l: Ledger, w: World, height: nat, blockHash: Bytes, txs: seq<Tx>): int
    decreases |txs|
  {
    if txs == [] then 0
    else
      match RunTxs(l, w, height, blockHash, txs[..|txs| - 1])
      case Err(_) => 0
      case Ok(before) =>
        var tx := txs[|txs| - 1];
        TxsGain(l, w, height, blockHash, txs[..|txs| - 1])
        + ActsGain(before.0, TxEnv(w, height, blockHash, tx), tx.actions, tx.actions)
        - (ToBigint(tx.fee) - ToBigint(FeeGot(tx)))
  }

  lemma OneTxWent(l: Ledger, w: World, height: nat, blockHash: Bytes, tx: Tx)
    requires Sound(l) && RunActions(l, w, height, blockHash, tx).Ok?
    requires PayFee(RunActions(l, w, height, blockHash, tx).value, height, tx).Ok?
    ensures ToBigint(tx.fee) >= 0 && ToBigint(FeeGot(tx)) >= 0
    ensures Went(l, PayFee(RunActions(l, w, height, blockHash, tx).value, height, tx).value,
      ActsGain(l, TxEnv(w, height, blockHash, tx), tx.actions, tx.actions) - ToBigint(tx.fee))
  {
    var env := TxEnv(w, height, blockHash, tx);
    var l1 := RunActions(l, w, height, blockHash, tx).value;
    ActEachWent(l, env, tx.actions, tx.actions);
    PayFeeWent(l1, height, tx);
    FeeGotValue(tx);
    WentJoin(l, l1, PayFee(l1, height, tx).value, ActsGain(l, env, tx.actions, tx.actions), -ToBigint(tx.fee));
  }

  /** The ledgers before and after the actions of the last transaction. */
  lemma LastTx(l: Ledger, w: World, height: nat, blockHash: Bytes, txs: seq<Tx>) returns (l1: Ledger, l2: Ledger)
    requires txs != [] && RunTxs(l, w, height, blockHash, txs).Ok?
    ensures var (before, tx) := (txs[..|txs| - 1], txs[|txs| - 1]);
      && RunTxs(l, w, height, blockHash, before).Ok? && l1 == RunTxs(l, w, height, blockHash, before).value.0
      && ActEach(l1, TxEnv(w, height, blockHash, tx), tx.actions, tx.actions) == Ok(l2)
      && PayFee(l2, height, tx) == Ok(RunTxs(l, w, height, blockHash, txs).value.0)
  {
    l1 := RunTxs(l, w, height, blockHash, txs[..|txs| - 1]).value.0;
    l2 := RunActions(l1, w, height, blockHash, txs[|txs| - 1]).value;
  }

  /** The fees for the miner are what is missing from the total until they are paid. */
  lemma {:induction false} TxsWent(l: Ledger, w: World, height: nat, blockHash: Bytes, txs: seq<Tx>)
    requires Sound(l) && RunTxs(l, w, height, blockHash, txs).Ok?
    ensures var (l1, fees) := RunTxs(l, w, height, blockHash, txs).value;
      && ToBigint(fees) >= 0
      && Went(l, l1, TxsGain(l, w, height, blockHash, txs) - ToBigint(fees))
    decreases |txs|
  {
    if txs == [] {
      WentNowhere(l);
    } else {
      var before, tx := txs[..|txs| - 1], txs[|txs| - 1];
      TxsWent(l, w, height, blockHash, before);
      var (l1, fees) := RunTxs(l, w, height, blockHash, before).value;
      OneTxWent(l1, w, height, blockHash, tx);
      SumIsExact(fees, FeeGot(tx));
      WentJoin(l, l1, RunTxs(l, w, height, blockHash, txs).value.0,
        TxsGain(l, w, height, blockHash, before) - ToBigint(fees),
        ActsGain(l1, TxEnv(w, height, blockHash, tx), tx.actions, tx.actions) - ToBigint(tx.fee));
    }
  }

  /** What stands at the beginning. */
  function Allocation(w: World): int {
    ToBigint(w.first.0.1) + ToBigint(w.first.1.1) + ToBigint(w.first.2.1)
  }

  function BlockGain(l: Ledger, w: World, b: BlockTxs): int {
    var l0 := if b.height == 1 then Initialize(l, w) else l;
    (if b.height == 1 then Allocation(w) else 0)
    + ToBigint(b.reward)
    + (match HacAdd(l0, b.miner, b.reward) case Err(_) => 0 case Ok(l1) => TxsGain(l1, w, b.height, b.hash, b.txs))
  }

  lemma OneBalance(m: map<Address, Balance>, a: Address, amt: Amount)
    requires a !in m && ToBigint(amt) >= 0
    requires forall x :: ToBigint(BalanceIn(m, x).hacash) >= 0 && BalanceIn(m, x).diamond == 0
    ensures var m1 := m[a := Balance(amt, 0)];
      && Sum(Hacs(m1)) == Sum(Hacs(m)) + ToBigint(amt)
      && forall x :: ToBigint(BalanceIn(m1, x).hacash) >= 0 && BalanceIn(m1, x).diamond == 0
  {
    HacsWrite(m, a, Balance(amt, 0));
    var m1 := m[a := Balance(amt, 0)];
    forall x
      ensures ToBigint(BalanceIn(m1, x).hacash) >= 0 && BalanceIn(m1, x).diamond == 0
    {
      assert ToBigint(BalanceIn(m, x).hacash) >= 0 && BalanceIn(m, x).diamond == 0;
    }
  }

  lemma InitializeWent(w: World, l: Ledger)
    requires w.Valid() && IsNew(l)
    ensures Went(l, Initialize(l, w), Allocation(w))
  {
    var m0 := l.balances;
    var (a, b, c) := (w.first.0, w.first.1, w.first.2);
    var m1 := m0[a.0 := Balance(a.1, 0)];
    var m2 := m1[b.0 := Balance(b.1, 0)];
    PositiveValue(a.1);
    PositiveValue(b.1);
    PositiveValue(c.1);
    OneBalance(m0, a.0, a.1);
    OneBalance(m1, b.0, b.1);
    OneBalance(m2, c.0, c.1);
    InitialSound(l, Initialize(l, w));
  }

  lemma InitialSound(l: Ledger, l1: Ledger)
    requires IsNew(l) && l1 == l.(balances := l1.balances)
    requires forall x :: ToBigint(BalanceIn(l1.balances, x).hacash) >= 0 && BalanceIn(l1.balances, x).diamond == 0
    ensures Sound(l1) && ChannelsLater(l.channels, l1.channels)
  {
    NewLedgerOk(l);
    SameDiamondsOk(l, l1);
    assert OpenIds(l1.channels) == {};
    assert forall a :: Coins(l1, a) >= 0;
  }

  /** An accepted block keeps the ledger sound and changes the total of all coins by its reward, its
      channel interest less inscription costs, and minus the burned parts of its fees; the first block
      adds the fixed allocation. A rejected block gives no ledger at all. */
  lemma BlockWent(l: Ledger, w: World, b: BlockTxs)
    requires w.Valid() && Sound(l) && (b.height == 1 ==> IsNew(l)) && RunBlock(l, w, b).Ok?
    ensures Went(l, RunBlock(l, w, b).value, BlockGain(l, w, b))
  {
    var l0 := if b.height == 1 then Initialize(l, w) else l;
    if b.height == 1 {
      InitializeWent(w, l);
    } else {
      WentNowhere(l);
    }
    var first := if b.height == 1 then Allocation(w) else 0;
    var l1 := HacAdd(l0, b.miner, b.reward).value;
    HacAddEffect(l0, b.miner, b.reward);
    CoinsWent(l0, l1, ToBigint(b.reward));
    WentJoin(l, l0, l1, first, ToBigint(b.reward));
    TxsWent(l1, w, b.height, b.hash, b.txs);
    var (l2, fees) := RunTxs(l1, w, b.height, b.hash, b.txs).value;
    var gain := TxsGain(l1, w, b.height, b.hash, b.txs);
    WentJoin(l, l1, l2, first + ToBigint(b.reward), gain - ToBigint(fees));
    AddIfPositiveEffect(l2, b.miner, fees);
    CoinsWent(l2, RunBlock(l, w, b).value, ToBigint(fees));
    WentJoin(l, l2, RunBlock(l, w, b).value, first + ToBigint(b.reward) + gain - ToBigint(fees), ToBigint(fees));
  }

  // ---- chains of blocks, in general ---------------------------------------

  /** Blocks 1, 2, 3 and so on from `first`; `None` when one is rejected. */
  function RunFrom<S>(first: S, step: (S, BlockTxs) -> Option<S>, bs: seq<BlockTxs>): Option<S>
    decreases |bs|
  {
    if bs == [] then Some(first)
    else
      match RunFrom(first, step, bs[..|bs| - 1])
      case None => None
      case Some(l) => if bs[|bs| - 1].height != |bs| then None else step(l, bs[|bs| - 1])
  }

  /** What the blocks of a chain add up to, by `gain`. */
  function SumFrom<S>(first: S, step: (S, BlockTxs) -> Option<S>, gain: (S, BlockTxs) -> int, bs: seq<BlockTxs>): int
    decreases |bs|
  {
    if bs == [] then 0
    else
      match RunFrom(first, step, bs[..|bs| - 1])
      case None => 0
      case Some(l) => SumFrom(first, step, gain, bs[..|bs| - 1]) + gain(l, bs[|bs| - 1])
  }

  /** `step` keeps `sound`, and `gain` is what it adds to `total`. */
  ghost predicate Accounts<S(!new)>(
    first: S, step: (S, BlockTxs) -> Option<S>, sound: S -> bool, total: S -> int, gain: (S, BlockTxs) -> int)
  {
    && sound(first)
    && forall l: S, b: BlockTxs :: sound(l) && (b.height == 1 ==> l == first) && step(l, b).Some? ==>
         sound(step(l, b).value) && total(step(l, b).value) == total(l) + gain(l, b)
  }

  lemma {:induction false} TotalFrom<S(!new)>(
    first: S, step: (S, BlockTxs) -> Option<S>, sound: S -> bool, total: S -> int, gain: (S, BlockTxs) -> int,
    bs: seq<BlockTxs>)
    requires Accounts(first, step, sound, total, gain) && RunFrom(first, step, bs).Some?
    ensures sound(RunFrom(first, step, bs).value)
    ensures total(RunFrom(first, step, bs).value) == total(first) + SumFrom(first, step, gain, bs)
    decreases |bs|
  {
    if bs != [] {
      var before := bs[..|bs| - 1];
      TotalFrom(first, step, sound, total, gain, before);
      assert |bs| == 1 ==> before == [];
    }
  }

  /** Splitting the gain of every block in two splits the sum. */
  lemma {:induction false} SumSplits<S(!new)>(
    first: S, step: (S, BlockTxs) -> Option<S>, gain: (S, BlockTxs) -> int, part: nat -> int,
    rest: (S, BlockTxs) -> int, bs: seq<BlockTxs>)
    requires RunFrom(first, step, bs).Some?
    requires forall l: S, b: BlockTxs :: step(l, b).Some? ==> gain(l, b) == part(b.height) + rest(l, b)
    ensures SumFrom(first, step, gain, bs) == SumUpTo(part, |bs|) + SumFrom(first, step, rest, bs)
    decreases |bs|
  {
    if bs != [] {
      SumSplits(first, step, gain, part, rest, bs[..|bs| - 1]);
    }
  }

  function SumUpTo(part: nat -> int, n: nat): int {
    if n == 0 then 0 else SumUpTo(part, n - 1) + part(n)
  }

  // ---- the chain of the ledger --------------------------------------------

  function Start(w: World, height: nat): int {
    if height == 1 then Allocation(w) else 0
  }

  function Blocks(w: World): (Ledger, BlockTxs) -> Option<Ledger> {
    (l: Ledger, b: BlockTxs) => match RunBlock(l, w, b) case Err(_) => None case Ok(l1) => Some(l1)
  }

  function Gains(w: World): (Ledger, BlockTxs) -> int {
    (l: Ledger, b: BlockTxs) => BlockGain(l, w, b)
  }

  /** Interest less burns in a block. */
  function NetGain(l: Ledger, w: World, b: BlockTxs): int {
    var l0 := if b.height == 1 then Initialize(l, w) else l;
    match HacAdd(l0, b.miner, b.reward) case Err(_) => 0 case Ok(l1) => TxsGain(l1, w, b.height, b.hash, b.txs)
  }

  function NetGains(w: World): (Ledger, BlockTxs) -> int {
    (l: Ledger, b: BlockTxs) => NetGain(l, w, b)
  }

  /** The allocation and the value of the reward of one block. */
  function Fixed(w: World, height: nat): int {
    Start(w, height) + ToBigint(CoinReward(w, height))
  }

  function FixedParts(w: World): nat -> int {
    (height: nat) => Fixed(w, height)
  }

  lemma ChainStart(l: Ledger)
    requires IsNew(l)
    ensures Sound(l) && Total(l) == 0
  {
    InitialSound(l, l);
    assert Hacs(l.balances) == map[] && Locks(l.channels) == map[];
  }

  lemma OneBlockAccounts(w: World, l: Ledger, b: BlockTxs)
    requires w.Valid() && Sound(l) && (b.height == 1 ==> IsNew(l)) && Blocks(w)(l, b).Some?
    ensures Sound(Blocks(w)(l, b).value) && Total(Blocks(w)(l, b).value) == Total(l) + Gains(w)(l, b)
  {
    BlockWent(l, w, b);
  }

  ghost function SoundOf(): Ledger -> bool {
    (l: Ledger) => Sound(l)
  }

  ghost function TotalOf(): Ledger -> int {
    (l: Ledger) => Total(l)
  }

  lemma BlocksAccount(w: World, first: Ledger)
    requires w.Valid() && IsNew(first)
    ensures Accounts(first, Blocks(w), SoundOf(), TotalOf(), Gains(w)) && TotalOf()(first) == 0
  {
    ChainStart(first);
    forall l: Ledger, b: BlockTxs | SoundOf()(l) && (b.height == 1 ==> l == first) && Blocks(w)(l, b).Some?
      ensures SoundOf()(Blocks(w)(l, b).value) && TotalOf()(Blocks(w)(l, b).value) == TotalOf()(l) + Gains(w)(l, b)
    {
      OneBlockAccounts(w, l, b);
    }
  }

  lemma GainSplits(w: World, l: Ledger, b: BlockTxs)
    requires Blocks(w)(l, b).Some?
    ensures Gains(w)(l, b) == FixedParts(w)(b.height) + NetGains(w)(l, b)
  {
    RewardTaken(l, w, b);
  }

  lemma RewardTaken(l: Ledger, w: World, b: BlockTxs)
    requires RunBlock(l, w, b).Ok?
    ensures b.reward == CoinReward(w, b.height)
  {
  }

  /** Every ledger that a chain reaches from genesis is sound, and its total is what its blocks added. */
  lemma ChainSound(w: World, first: Ledger, bs: seq<BlockTxs>)
    requires w.Valid() && IsNew(first) && RunFrom(first, Blocks(w), bs).Some?
    ensures Sound(RunFrom(first, Blocks(w), bs).value)
    ensures Total(RunFrom(first, Blocks(w), bs).value) == SumFrom(first, Blocks(w), Gains(w), bs)
  {
    BlocksAccount(w, first);
    TotalFrom(first, Blocks(w), SoundOf(), TotalOf(), Gains(w), bs);
  }

  /** All coins of a chain: the allocation, the rewards of its blocks, and interest less burns. */
  lemma ChainTotal(w: World, first: Ledger, bs: seq<BlockTxs>)
    requires w.Valid() && IsNew(first) && RunFrom(first, Blocks(w), bs).Some?
    ensures Total(RunFrom(first, Blocks(w), bs).value) ==
      SumUpTo(FixedParts(w), |bs|) + SumFrom(first, Blocks(w), NetGains(w), bs)
  {
    ChainSound(w, first, bs);
    forall l: Ledger, b: BlockTxs | Blocks(w)(l, b).Some?
      ensures Gains(w)(l, b) == FixedParts(w)(b.height) + NetGains(w)(l, b)
    {
      GainSplits(w, l, b);
    }
    SumSplits(first, Blocks(w), Gains(w), FixedParts(w), NetGains(w), bs);
  }

  lemma OneByteValue(unit: nat, n: nat)
    requires 0 < unit <= 255 && 0 < n < 256
    ensures ToBigint(Raw(unit, 1, [n])) == n * Pow(10, unit)
  {
    assert [n][..0] == [];
    assert Octets.FromBigEndian([n]) == n;
  }

  lemma RewardValue(w: World, height: nat)
    requires w.Valid()
    ensures ToBigint(CoinReward(w, height)) == Supply.RewardIn(w.rewards, height) * Pow(10, w.coinUnit)
  {
    OneByteValue(w.coinUnit, Supply.RewardIn(w.rewards, height));
  }

  lemma Distribute(a: int, b: int, p: int)
    ensures (a + b) * p == a * p + b * p
  {
  }

  lemma NextReward(list: seq<nat>, height: nat, p: nat)
    requires height > 0
    ensures Supply.RewardSum(list, height) * p ==
      Supply.RewardSum(list, height - 1) * p + Supply.RewardIn(list, height) * p
  {
    Distribute(Supply.RewardSum(list, height - 1), Supply.RewardIn(list, height), p);
  }

  /** The fixed part in closed form: the allocation, and the sum of the reward numbers times the value
      of one coin. */
  lemma {:induction false} FixedInCoins(w: World, height: nat)
    requires w.Valid()
    ensures SumUpTo(FixedParts(w), height) ==
      (if height == 0 then 0 else Allocation(w)) + Supply.RewardSum(w.rewards, height) * Pow(10, w.coinUnit)
  {
    if height > 0 {
      FixedInCoins(w, height - 1);
      RewardValue(w, height);
      NextReward(w.rewards, height, Pow(10, w.coinUnit));
      assert FixedParts(w)(height) == Start(w, height) + ToBigint(CoinReward(w, height));
    }
  }

  /** On the main network 14 coins of unit 244 stand at the beginning. */
  lemma MainNetConstants(w: World)
    requires w == MainNet(w.mined, w.averageBid, w.readable, w.first.0.0, w.first.1.0, w.first.2.0)
    requires w.first.0.0 != w.first.1.0 && w.first.0.0 != w.first.2.0 && w.first.1.0 != w.first.2.0
    ensures w.Valid() && w.chainId == 0 && w.coinUnit == 248 && Allocation(w) == 14 * Pow(10, 244)
    ensures ToBigint(w.first.0.1) == 12 * Pow(10, 244)
    ensures ToBigint(w.first.1.1) == Pow(10, 244) == ToBigint(w.first.2.1)
  {
    Supply.RewardsSmall();
    OneByteValue(244, 12);
    OneByteValue(244, 1);
  }

  /** Before the rewards run out of their table, the closed form of the supply gives the fixed part. */
  lemma ChainClosedForm(w: World, first: Ledger, bs: seq<BlockTxs>, end: nat)
    requires w.Valid() && IsNew(first) && RunFrom(first, Blocks(w), bs).Some?
    requires w.rewards != [] && w.rewards[0] == 1 && end == |w.rewards| * Supply.STEP_BLOCKS && 0 < |bs| < end
    ensures Total(RunFrom(first, Blocks(w), bs).value) ==
      Allocation(w) + Supply.Cumulative(w.rewards, |bs|) * Pow(10, w.coinUnit)
      + SumFrom(first, Blocks(w), NetGains(w), bs)
  {
    ChainTotal(w, first, bs);
    FixedInCoins(w, |bs|);
    Supply.CumulativeExact(w.rewards, end, |bs|);
  }
}
