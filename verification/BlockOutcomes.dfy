/**
 Transactions and blocks in full: the ledgers that they pass through one by one, what each transaction leaves
 for the miner, and whose coins change.
 */
module BlockOutcomes {
  import opened Base
  import opened Amounts
  import opened Ledgers
  import opened CoinTotals
  import opened Outcomes
  import DiamondIndex
  import Accounting
  import Supply

  /** A ledger where one is looked at more closely. */
  predicate Shown(l: Ledger) {
    true
  }

  // ---- the actions of a transaction ---------------------------------------

  /** The action leads from `l` to `l1`. */
  ghost predicate Acted(env: Env, a: Action, l: Ledger, l1: Ledger) {
    forall x {:trigger Shown(x)} :: x == l ==> Act(x, env, a) == Ok(l1)
  }

  lemma ActedIs(env: Env, a: Action, l: Ledger, l1: Ledger)
    ensures Acted(env, a, l, l1) <==> Act(l, env, a) == Ok(l1)
  {
    assert Shown(l);
  }

  /** `ls` are the ledgers before, between and after the actions. */
  ghost predicate Acts(env: Env, acts: seq<Action>, ls: seq<Ledger>) {
    && |ls| == |acts| + 1
    && forall i {:trigger Acted(env, acts[i], ls[i], ls[i + 1])} :: 0 <= i < |acts| ==>
         Acted(env, acts[i], ls[i], ls[i + 1])
  }

  /** No two actions of one of the kinds that may stand only once. */
  predicate OnceEach(acts: seq<Action>) {
    forall i, j :: 0 <= i < j < |acts| ==>
      && !(acts[i].DiamondMint? && acts[j].DiamondMint?)
      && !(acts[i].DiamondInscription? && acts[j].DiamondInscription?)
      && !(acts[i].DiamondInscriptionClear? && acts[j].DiamondInscriptionClear?)
      && !(acts[i].SubmitHeightLimit? && acts[j].SubmitHeightLimit?)
      && !(acts[i].SubChainID? && acts[j].SubChainID?)
  }

  ghost predicate LevelsOk(acts: seq<Action>, all: seq<Action>) {
    forall i :: 0 <= i < |acts| ==> LevelOk(acts[i], all)
  }

  lemma LevelsExactly(acts: seq<Action>)
    ensures OnceEach(acts) <==> LevelsOk(acts, acts)
  {
    if LevelsOk(acts, acts) {
      forall i, j | 0 <= i < j < |acts|
        ensures TopUnique(acts[i]) ==> !SameKind(acts[i], acts[j])
      {
        assert LevelOk(acts[i], acts);
      }
    }
  }

  /** The actions lead from `l` to `l1`. */
  ghost predicate ActedAll(env: Env, l: Ledger, acts: seq<Action>, all: seq<Action>, l1: Ledger) {
    forall x {:trigger Shown(x)} :: x == l ==> ActEach(x, env, acts, all) == Ok(l1)
  }

  lemma ActedAllIs(env: Env, l: Ledger, acts: seq<Action>, all: seq<Action>, l1: Ledger)
    ensures ActedAll(env, l, acts, all, l1) <==> ActEach(l, env, acts, all) == Ok(l1)
  {
    assert Shown(l);
  }

  lemma ActedNone(env: Env, l: Ledger, all: seq<Action>, l1: Ledger)
    ensures ActedAll(env, l, [], all, l1) <==> l1 == l
  {
    assert Shown(l);
  }

  lemma ActedBefore(env: Env, l: Ledger, acts: seq<Action>, all: seq<Action>, l1: Ledger) returns (l0: Ledger)
    requires acts != [] && ActedAll(env, l, acts, all, l1)
    ensures LevelOk(acts[|acts| - 1], all) && ActedAll(env, l, acts[..|acts| - 1], all, l0)
    ensures Acted(env, acts[|acts| - 1], l0, l1)
  {
    assert Shown(l);
    l0 := ActEach(l, env, acts[..|acts| - 1], all).value;
  }

  lemma ActedMore(env: Env, l: Ledger, acts: seq<Action>, all: seq<Action>, l0: Ledger, l1: Ledger)
    requires acts != [] && LevelOk(acts[|acts| - 1], all) && ActedAll(env, l, acts[..|acts| - 1], all, l0)
    requires Acted(env, acts[|acts| - 1], l0, l1)
    ensures ActedAll(env, l, acts, all, l1)
  {
    assert Shown(l) && Shown(l0);
  }

  lemma {:induction false} ActsOf(env: Env, l: Ledger, acts: seq<Action>, all: seq<Action>, l1: Ledger)
    returns (ls: seq<Ledger>)
    requires ActedAll(env, l, acts, all, l1)
    ensures Acts(env, acts, ls) && ls[0] == l && ls[|acts|] == l1 && LevelsOk(acts, all)
    decreases |acts|
  {
    if acts == [] {
      ActedNone(env, l, all, l1);
      ls := [l];
    } else {
      var l0 := ActedBefore(env, l, acts, all, l1);
      var ls0 := ActsOf(env, l, acts[..|acts| - 1], all, l0);
      ActsGrow(env, acts, ls0, l1);
      ls := ls0 + [l1];
      assert forall i :: 0 <= i < |acts| - 1 ==> acts[..|acts| - 1][i] == acts[i];
    }
  }

  lemma ActsGrow(env: Env, acts: seq<Action>, ls0: seq<Ledger>, last: Ledger)
    requires acts != [] && Acts(env, acts[..|acts| - 1], ls0) && Acted(env, acts[|acts| - 1], ls0[|acts| - 1], last)
    ensures Acts(env, acts, ls0 + [last]) && (ls0 + [last])[0] == ls0[0] && (ls0 + [last])[|acts|] == last
  {
    var ls := ls0 + [last];
    forall i | 0 <= i < |acts|
      ensures Acted(env, acts[i], ls[i], ls[i + 1])
    {
      if i < |acts| - 1 {
        assert Acted(env, acts[..|acts| - 1][i], ls0[i], ls0[i + 1]);
      }
    }
  }

  lemma {:induction false} ActsBack(env: Env, acts: seq<Action>, all: seq<Action>, ls: seq<Ledger>)
    requires Acts(env, acts, ls) && LevelsOk(acts, all)
    ensures ActedAll(env, ls[0], acts, all, ls[|acts|])
    decreases |acts|
  {
    if acts == [] {
      ActedNone(env, ls[0], all, ls[0]);
    } else {
      var n := |acts| - 1;
      forall i | 0 <= i < n
        ensures Acted(env, acts[..n][i], ls[..|acts|][i], ls[..|acts|][i + 1])
      {
        assert Acted(env, acts[i], ls[i], ls[i + 1]);
      }
      ActsBack(env, acts[..n], all, ls[..|acts|]);
      assert Acted(env, acts[n], ls[n], ls[n + 1]);
      ActedMore(env, ls[0], acts, all, ls[n], ls[n + 1]);
    }
  }

  /** The actions of a transaction are accepted exactly when there are some and not too many, none of a kind
      stands twice that may not, no machine is needed, and each is accepted on what the one before has left. */
  lemma ActionsExactly(l: Ledger, w: World, height: nat, blockHash: Bytes, tx: Tx, l1: Ledger)
    ensures RunActions(l, w, height, blockHash, tx) == Ok(l1) <==>
      && 0 < |tx.actions| <= 65535 && (tx.ty >= 3 ==> tx.gasMax == 0) && OnceEach(tx.actions)
      && exists ls :: Acts(Env(w, height, blockHash, tx.main, tx.fee, tx.signed), tx.actions, ls)
                      && ls[0] == l && ls[|tx.actions|] == l1
  {
    var env := TxEnv(w, height, blockHash, tx);
    LevelsExactly(tx.actions);
    ActedAllIs(env, l, tx.actions, tx.actions, l1);
    if ActedAll(env, l, tx.actions, tx.actions, l1) {
      var ls := ActsOf(env, l, tx.actions, tx.actions, l1);
    }
    if exists ls :: Acts(env, tx.actions, ls) && ls[0] == l && ls[|tx.actions|] == l1 {
      var ls :| Acts(env, tx.actions, ls) && ls[0] == l && ls[|tx.actions|] == l1;
      if OnceEach(tx.actions) {
        ActsBack(env, tx.actions, tx.actions, ls);
      }
    }
  }

  // ---- its fee ------------------------------------------------------------

  /** The fee is accepted exactly when the transaction carries no mark, comes from a private key, is of a known
      form, and the balance of its main address covers it. */
  lemma FeeExactly(l: Ledger, height: nat, tx: Tx)
    ensures PayFee(l, height, tx).Ok? <==>
      && (height > 20_0000 ==> |tx.fee.byte| <= 4) && !(tx.hash in l.txexist && l.txexist[tx.hash] > 0)
      && tx.main.version == 0 && (tx.ty <= 3 ==> tx.anoMark == 0) && (tx.ty <= 2 ==> tx.gasMax == 0)
      && Covers(l, tx.main, tx.fee) && Fits(Coins(l, tx.main) - ToBigint(tx.fee))
  {
    SubExactly(l.(txexist := l.txexist[tx.hash := height]), tx.main, tx.fee);
  }

  lemma FeeDone(l: Ledger, height: nat, tx: Tx, l1: Ledger)
    requires PayFee(l, height, tx) == Ok(l1)
    ensures l1 == l.(balances := l1.balances, txexist := l.txexist[tx.hash := height])
    ensures DiamondIndex.SameCounts(l, l1) && Coins(l1, tx.main) == Coins(l, tx.main) - ToBigint(tx.fee)
    ensures forall a :: a != tx.main ==> Coins(l1, a) == Coins(l, a)
  {
    var l0 := l.(txexist := l.txexist[tx.hash := height]);
    HacSubEffect(l0, tx.main, tx.fee);
    assert forall a :: Coins(l0, a) == Coins(l, a);
    assert DiamondIndex.SameCounts(l, l0);
  }

  /** Nine tenths are burned by late mints and by inscriptions, unless the fee has the smallest unit. */
  predicate BurnsMost(tx: Tx) {
    && tx.fee.unit > 1
    && exists i :: 0 <= i < |tx.actions| && (
         || (tx.actions[i].DiamondMint? && tx.actions[i].record.number > 3_0000)
         || tx.actions[i].DiamondInscription? || tx.actions[i].DiamondInscriptionClear?)
  }

  /** What a transaction leaves for the miner. */
  function Left(tx: Tx): int {
    if BurnsMost(tx) then ToBigint(tx.fee) / 10 else ToBigint(tx.fee)
  }

  function LeftByAll(txs: seq<Tx>): int
    decreases |txs|
  {
    if txs == [] then 0 else LeftByAll(txs[..|txs| - 1]) + Left(txs[|txs| - 1])
  }

  lemma FeeGotIsLeft(tx: Tx)
    ensures ToBigint(FeeGot(tx)) == Left(tx)
  {
    TenthIs(tx.fee);
    if BurnsMost(tx) {
      var i :| 0 <= i < |tx.actions| && (
        || (tx.actions[i].DiamondMint? && tx.actions[i].record.number > 3_0000)
        || tx.actions[i].DiamondInscription? || tx.actions[i].DiamondInscriptionClear?);
      assert Burns(tx.actions[i]);
    }
  }

  // ---- the transactions of a block ----------------------------------------

  ghost predicate Passes(w: World, height: nat, blockHash: Bytes, tx: Tx, l: Ledger, l1: Ledger) {
    exists mid :: RunActions(l, w, height, blockHash, tx) == Ok(mid) && PayFee(mid, height, tx) == Ok(l1)
  }

  /** A transaction leads from `l` to `l1`: first its actions, then its fee. */
  ghost predicate Leads(w: World, height: nat, blockHash: Bytes, tx: Tx, l: Ledger, l1: Ledger) {
    forall x {:trigger Shown(x)} :: x == l ==> Passes(w, height, blockHash, tx, x, l1)
  }

  /** `ls` are the ledgers before, between and after the transactions. */
  ghost predicate Runs(w: World, height: nat, blockHash: Bytes, txs: seq<Tx>, ls: seq<Ledger>) {
    && |ls| == |txs| + 1
    && forall i {:trigger Leads(w, height, blockHash, txs[i], ls[i], ls[i + 1])} :: 0 <= i < |txs| ==>
         Leads(w, height, blockHash, txs[i], ls[i], ls[i + 1])
  }

  /** What the first `k` transactions leave can be written as an amount. */
  predicate CountableTo(txs: seq<Tx>, k: nat)
    requires k <= |txs|
  {
    FromBigint(LeftByAll(txs[..k])).Ok?
  }

  /** The fees left so far can always be written as an amount. */
  ghost predicate Countable(txs: seq<Tx>) {
    forall k {:trigger CountableTo(txs, k)} :: 0 <= k <= |txs| ==> CountableTo(txs, k)
  }

  /** The transactions run from `l` to `l1` and leave `fees`. */
  ghost predicate Ran(w: World, height: nat, blockHash: Bytes, l: Ledger, txs: seq<Tx>, l1: Ledger, fees: Amount) {
    forall x {:trigger Shown(x)} :: x == l ==> RunTxs(x, w, height, blockHash, txs) == Ok((l1, fees))
  }

  lemma RanIs(w: World, height: nat, blockHash: Bytes, l: Ledger, txs: seq<Tx>, l1: Ledger, fees: Amount)
    ensures Ran(w, height, blockHash, l, txs, l1, fees) <==> RunTxs(l, w, height, blockHash, txs) == Ok((l1, fees))
  {
    assert Shown(l);
  }

  lemma RanNone(w: World, height: nat, blockHash: Bytes, l: Ledger, l1: Ledger, fees: Amount)
    ensures Ran(w, height, blockHash, l, [], l1, fees) <==> l1 == l && fees == EMPTY
  {
    assert Shown(l);
  }

  lemma RanBefore(w: World, height: nat, blockHash: Bytes, l: Ledger, txs: seq<Tx>, l1: Ledger, fees: Amount)
    returns (l0: Ledger, fees0: Amount)
    requires txs != [] && Ran(w, height, blockHash, l, txs, l1, fees)
    ensures Ran(w, height, blockHash, l, txs[..|txs| - 1], l0, fees0)
    ensures Leads(w, height, blockHash, txs[|txs| - 1], l0, l1) && Add(fees0, FeeGot(txs[|txs| - 1])) == Ok(fees)
  {
    var mid: Ledger;
    l0, fees0, mid := LastTx(w, height, blockHash, l, txs, l1, fees);
    assert Passes(w, height, blockHash, txs[|txs| - 1], l0, l1);
  }

  lemma LastTx(w: World, height: nat, blockHash: Bytes, l: Ledger, txs: seq<Tx>, l1: Ledger, fees: Amount)
    returns (l0: Ledger, fees0: Amount, mid: Ledger)
    requires txs != [] && Ran(w, height, blockHash, l, txs, l1, fees)
    ensures Ran(w, height, blockHash, l, txs[..|txs| - 1], l0, fees0)
    ensures Add(fees0, FeeGot(txs[|txs| - 1])) == Ok(fees)
    ensures RunActions(l0, w, height, blockHash, txs[|txs| - 1]) == Ok(mid) &&
      PayFee(mid, height, txs[|txs| - 1]) == Ok(l1)
  {
    assert Shown(l);
    var before := RunTxs(l, w, height, blockHash, txs[..|txs| - 1]).value;
    l0, fees0, mid := before.0, before.1, RunActions(before.0, w, height, blockHash, txs[|txs| - 1]).value;
  }

  lemma RanMore(w: World, height: nat, blockHash: Bytes, l: Ledger, txs: seq<Tx>, l0: Ledger, fees0: Amount,
    l1: Ledger, fees: Amount)
    requires txs != [] && Ran(w, height, blockHash, l, txs[..|txs| - 1], l0, fees0)
    requires Leads(w, height, blockHash, txs[|txs| - 1], l0, l1) && Add(fees0, FeeGot(txs[|txs| - 1])) == Ok(fees)
    ensures Ran(w, height, blockHash, l, txs, l1, fees)
  {
    assert Shown(l) && Shown(l0);
  }

  // ---- rows of ledgers, and sums of fees ----------------------------------

  /** `fees` is what the transactions leave. */
  ghost predicate Counted(txs: seq<Tx>, fees: Amount) {
    forall n {:trigger CountableTo(txs, n)} :: n == |txs| ==>
      FromBigint(LeftByAll(txs)) == Ok(fees) && ToBigint(fees) == LeftByAll(txs)
  }

  lemma CountedIs(txs: seq<Tx>, fees: Amount)
    ensures Counted(txs, fees) <==> FromBigint(LeftByAll(txs)) == Ok(fees) && ToBigint(fees) == LeftByAll(txs)
  {
    CountableAll(txs);
  }

  lemma OneMoreFee(txs: seq<Tx>, before: seq<Tx>, fees0: Amount)
    requires txs != [] && before == txs[..|txs| - 1] && Counted(before, fees0)
    ensures var sum := Add(fees0, FeeGot(txs[|txs| - 1]));
      && (sum.Ok? <==> CountableTo(txs, |txs|)) && (sum.Ok? ==> Counted(txs, sum.value))
  {
    CountedIs(before, fees0);
    FeeGotIsLeft(txs[|txs| - 1]);
    SumIsExact(fees0, FeeGot(txs[|txs| - 1]));
    CountableAll(txs);
  }

  lemma RunsGrow(w: World, height: nat, blockHash: Bytes, txs: seq<Tx>, ls0: seq<Ledger>, last: Ledger)
    requires txs != [] && Runs(w, height, blockHash, txs[..|txs| - 1], ls0)
    requires Leads(w, height, blockHash, txs[|txs| - 1], ls0[|txs| - 1], last)
    ensures Runs(w, height, blockHash, txs, ls0 + [last])
    ensures (ls0 + [last])[0] == ls0[0] && (ls0 + [last])[|txs|] == last
  {
    var ls := ls0 + [last];
    forall i | 0 <= i < |txs|
      ensures Leads(w, height, blockHash, txs[i], ls[i], ls[i + 1])
    {
      if i < |txs| - 1 {
        assert txs[..|txs| - 1][i] == txs[i] && ls0[i] == ls[i] && ls0[i + 1] == ls[i + 1];
      }
    }
  }

  lemma RunsShrink(w: World, height: nat, blockHash: Bytes, txs: seq<Tx>, ls: seq<Ledger>)
    requires txs != [] && Runs(w, height, blockHash, txs, ls)
    ensures Runs(w, height, blockHash, txs[..|txs| - 1], ls[..|txs|])
    ensures Leads(w, height, blockHash, txs[|txs| - 1], ls[|txs| - 1], ls[|txs|])
  {
    forall i | 0 <= i < |txs| - 1
      ensures Leads(w, height, blockHash, txs[..|txs| - 1][i], ls[..|txs|][i], ls[..|txs|][i + 1])
    {
      assert Leads(w, height, blockHash, txs[i], ls[i], ls[i + 1]);
    }
    var n := |txs| - 1;
    assert Leads(w, height, blockHash, txs[n], ls[n], ls[n + 1]);
  }

  lemma CountableBefore(txs: seq<Tx>, before: seq<Tx>, k: nat)
    requires txs != [] && before == txs[..|txs| - 1] && k < |txs|
    ensures CountableTo(before, k) <==> CountableTo(txs, k)
  {
    assert before[..k] == txs[..k];
  }

  lemma CountableAll(txs: seq<Tx>)
    ensures CountableTo(txs, |txs|) <==> FromBigint(LeftByAll(txs)).Ok?
  {
    assert txs[..|txs|] == txs;
  }

  lemma CountableGrows(txs: seq<Tx>, before: seq<Tx>)
    requires txs != [] && before == txs[..|txs| - 1]
    ensures Countable(txs) <==> Countable(before) && CountableTo(txs, |txs|)
  {
    forall k | 0 <= k <= |before|
      ensures CountableTo(before, k) <==> CountableTo(txs, k)
    {
      CountableBefore(txs, before, k);
    }
  }

  lemma NothingLeft()
    ensures Countable([]) && Counted([], EMPTY)
  {
    CountableAll([]);
    CountedIs([], EMPTY);
  }

  lemma {:induction false} TxsOf(w: World, height: nat, blockHash: Bytes, l: Ledger, txs: seq<Tx>, l1: Ledger,
    fees: Amount) returns (ls: seq<Ledger>)
    requires Ran(w, height, blockHash, l, txs, l1, fees)
    ensures Runs(w, height, blockHash, txs, ls) && ls[0] == l && ls[|txs|] == l1
    ensures Countable(txs) && Counted(txs, fees)
    decreases |txs|
  {
    if txs == [] {
      RanNone(w, height, blockHash, l, l1, fees);
      NothingLeft();
      ls := [l];
    } else {
      var before := txs[..|txs| - 1];
      var l0, fees0 := RanBefore(w, height, blockHash, l, txs, l1, fees);
      var ls0 := TxsOf(w, height, blockHash, l, before, l0, fees0);
      RunsGrow(w, height, blockHash, txs, ls0, l1);
      ls := ls0 + [l1];
      OneMoreFee(txs, before, fees0);
      CountableGrows(txs, before);
    }
  }

  lemma {:induction false} TxsBack(w: World, height: nat, blockHash: Bytes, txs: seq<Tx>, ls: seq<Ledger>)
    returns (fees: Amount)
    requires Runs(w, height, blockHash, txs, ls) && Countable(txs)
    ensures Counted(txs, fees) && Ran(w, height, blockHash, ls[0], txs, ls[|txs|], fees)
    decreases |txs|
  {
    if txs == [] {
      fees := EMPTY;
      NothingLeft();
      RanNone(w, height, blockHash, ls[0], ls[0], EMPTY);
    } else {
      var before := txs[..|txs| - 1];
      RunsShrink(w, height, blockHash, txs, ls);
      CountableGrows(txs, before);
      var fees0 := TxsBack(w, height, blockHash, before, ls[..|txs|]);
      OneMoreFee(txs, before, fees0);
      fees := Add(fees0, FeeGot(txs[|txs| - 1])).value;
      RanMore(w, height, blockHash, ls[0], txs, ls[|txs| - 1], fees0, ls[|txs|], fees);
    }
  }

  /** The transactions of a block are accepted exactly when there is a row of ledgers from one to the next, each
      made by one transaction; the fees for the miner are the sum of what each leaves. */
  lemma TransactionsExactly(w: World, height: nat, blockHash: Bytes, l: Ledger, txs: seq<Tx>, l1: Ledger, fees: Amount)
    ensures RunTxs(l, w, height, blockHash, txs) == Ok((l1, fees)) <==>
      && (exists ls :: Runs(w, height, blockHash, txs, ls) && ls[0] == l && ls[|txs|] == l1)
      && Countable(txs) && FromBigint(LeftByAll(txs)) == Ok(fees)
  {
    RanIs(w, height, blockHash, l, txs, l1, fees);
    if Ran(w, height, blockHash, l, txs, l1, fees) {
      var ls := TxsOf(w, height, blockHash, l, txs, l1, fees);
      CountedIs(txs, fees);
    }
    if (exists ls :: Runs(w, height, blockHash, txs, ls) && ls[0] == l && ls[|txs|] == l1) && Countable(txs) {
      var ls :| Runs(w, height, blockHash, txs, ls) && ls[0] == l && ls[|txs|] == l1;
      var left := TxsBack(w, height, blockHash, txs, ls);
      CountedIs(txs, left);
    }
  }

  lemma {:induction false} LeftIsPositive(w: World, height: nat, blockHash: Bytes, txs: seq<Tx>, ls: seq<Ledger>)
    requires Runs(w, height, blockHash, txs, ls)
    ensures LeftByAll(txs) >= 0
    decreases |txs|
  {
    if txs != [] {
      RunsShrink(w, height, blockHash, txs, ls);
      LeftIsPositive(w, height, blockHash, txs[..|txs| - 1], ls[..|txs|]);
      LeftByOne(w, height, blockHash, txs[|txs| - 1], ls[|txs| - 1], ls[|txs|]);
    }
  }

  lemma LeftByOne(w: World, height: nat, blockHash: Bytes, tx: Tx, l: Ledger, l1: Ledger)
    requires Leads(w, height, blockHash, tx, l, l1)
    ensures Left(tx) >= 0
  {
    assert Shown(l);
    var mid :| RunActions(l, w, height, blockHash, tx) == Ok(mid) && PayFee(mid, height, tx) == Ok(l1);
    FeeExactly(mid, height, tx);
    PositiveValue(tx.fee);
  }

  // ---- the whole block ----------------------------------------------------

  /** The balances before the first block's reward: the three given ones. Before any other block nothing
      changes. */
  ghost predicate Starts(l: Ledger, w: World, height: nat, l0: Ledger) {
    if height == 1 then
      && l0 == l.(balances := l0.balances)
      && BalanceOf(l0, w.first.0.0) == Balance(w.first.0.1, 0)
      && BalanceOf(l0, w.first.1.0) == Balance(w.first.1.1, 0)
      && BalanceOf(l0, w.first.2.0) == Balance(w.first.2.1, 0)
      && forall a :: a != w.first.0.0 && a != w.first.1.0 && a != w.first.2.0 ==> BalanceOf(l0, a) == BalanceOf(l, a)
    else l0 == l
  }

  lemma StartsSo(l: Ledger, w: World, height: nat)
    requires w.Valid()
    ensures Starts(l, w, height, if height == 1 then Initialize(l, w) else l)
  {
  }

  /** Only the coins of `a` have changed, by `x`. */
  ghost predicate Gained(l: Ledger, l1: Ledger, a: Address, x: int) {
    && l1 == l.(balances := l1.balances) && DiamondIndex.SameCounts(l, l1)
    && Coins(l1, a) == Coins(l, a) + x && forall o :: o != a ==> Coins(l1, o) == Coins(l, o)
  }

  /** A row of ledgers for the transactions, and at its end room for the fees. */
  ghost predicate Fed(l: Ledger, w: World, b: BlockTxs, ls: seq<Ledger>) {
    && Runs(w, b.height, b.hash, b.txs, ls) && ls[0] == l && Countable(b.txs)
    && (LeftByAll(b.txs) == 0 || Fits(Coins(ls[|b.txs|], b.miner) + LeftByAll(b.txs)))
  }

  /** Transactions that have run, and then the fees paid to the miner. */
  ghost predicate PaysMiner(l: Ledger, w: World, b: BlockTxs, l1: Ledger) {
    exists l2, fees :: Ran(w, b.height, b.hash, l, b.txs, l2, fees) && AddIfPositive(l2, b.miner, fees) == Ok(l1)
  }

  lemma FeesPaid(l2: Ledger, miner: Address, fees: Amount, left: int)
    requires FromBigint(left) == Ok(fees) && ToBigint(fees) == left >= 0
    ensures AddIfPositive(l2, miner, fees).Ok? <==> left == 0 || Fits(Coins(l2, miner) + left)
    ensures AddIfPositive(l2, miner, fees).Ok? ==> Gained(l2, AddIfPositive(l2, miner, fees).value, miner, left)
  {
    AddExactly(l2, miner, fees);
    if left > 0 {
      KeptValue(left);
    }
    if AddIfPositive(l2, miner, fees).Ok? {
      AddIfPositiveEffect(l2, miner, fees);
    }
  }

  lemma FedBy(l: Ledger, w: World, b: BlockTxs, l1: Ledger) returns (ls: seq<Ledger>)
    requires PaysMiner(l, w, b, l1)
    ensures Fed(l, w, b, ls) && Gained(ls[|b.txs|], l1, b.miner, LeftByAll(b.txs))
  {
    var l2, fees :| Ran(w, b.height, b.hash, l, b.txs, l2, fees) && AddIfPositive(l2, b.miner, fees) == Ok(l1);
    ls := TxsOf(w, b.height, b.hash, l, b.txs, l2, fees);
    CountedIs(b.txs, fees);
    LeftIsPositive(w, b.height, b.hash, b.txs, ls);
    FeesPaid(l2, b.miner, fees, LeftByAll(b.txs));
  }

  lemma FedIsEnough(l: Ledger, w: World, b: BlockTxs, ls: seq<Ledger>) returns (l1: Ledger)
    requires Fed(l, w, b, ls)
    ensures PaysMiner(l, w, b, l1)
  {
    var fees := TxsBack(w, b.height, b.hash, b.txs, ls);
    CountedIs(b.txs, fees);
    LeftIsPositive(w, b.height, b.hash, b.txs, ls);
    FeesPaid(ls[|b.txs|], b.miner, fees, LeftByAll(b.txs));
    l1 := AddIfPositive(ls[|b.txs|], b.miner, fees).value;
  }

  lemma BlockInSteps(l: Ledger, w: World, b: BlockTxs, l0: Ledger, l1: Ledger)
    requires l0 == if b.height == 1 then Initialize(l, w) else l
    ensures RunBlock(l, w, b) == Ok(l1) <==>
      && b.reward == CoinReward(w, b.height) && HacAdd(l0, b.miner, b.reward).Ok?
      && PaysMiner(HacAdd(l0, b.miner, b.reward).value, w, b, l1)
  {
    if b.reward == CoinReward(w, b.height) && HacAdd(l0, b.miner, b.reward).Ok? {
      PaysMinerIs(HacAdd(l0, b.miner, b.reward).value, w, b, l1);
    }
  }

  lemma PaysMinerIs(l: Ledger, w: World, b: BlockTxs, l1: Ledger)
    ensures PaysMiner(l, w, b, l1) <==>
      match RunTxs(l, w, b.height, b.hash, b.txs)
      case Err(_) => false
      case Ok((l2, fees)) => AddIfPositive(l2, b.miner, fees) == Ok(l1)
  {
    forall l2, fees
      ensures Ran(w, b.height, b.hash, l, b.txs, l2, fees) <==>
        RunTxs(l, w, b.height, b.hash, b.txs) == Ok((l2, fees))
    {
      RanIs(w, b.height, b.hash, l, b.txs, l2, fees);
    }
  }

  lemma RewardIs(w: World, b: BlockTxs)
    requires w.Valid()
    ensures b.reward == CoinReward(w, b.height) <==>
      && b.reward.unit == w.coinUnit && b.reward.dist == 1
      && b.reward.byte == [Supply.RewardIn(w.rewards, b.height)]
  {
  }

  /** A block from `l` to `l1`: the miner, and nobody else, gets the reward of the height; then the transactions
      run one after the other; then the miner, and nobody else, gets what they have left. */
  ghost predicate Made(l: Ledger, w: World, b: BlockTxs, l0: Ledger, ls: seq<Ledger>, l1: Ledger) {
    && Starts(l, w, b.height, l0) && Runs(w, b.height, b.hash, b.txs, ls)
    && Gained(l0, ls[0], b.miner, Supply.RewardIn(w.rewards, b.height) * Pow(10, w.coinUnit))
    && Gained(ls[|b.txs|], l1, b.miner, LeftByAll(b.txs))
  }

  /** There are such ledgers in between: `l0` before the reward, and `ls` from the reward to the fees. */
  ghost predicate MinerPaid(l: Ledger, w: World, b: BlockTxs, l1: Ledger) {
    exists l0, ls :: Made(l, w, b, l0, ls, l1)
      && Coins(ls[0], b.miner) == Coins(l0, b.miner) + Supply.RewardIn(w.rewards, b.height) * Pow(10, w.coinUnit)
      && (forall a :: a != b.miner ==> Coins(ls[0], a) == Coins(l0, a))
      && Coins(l1, b.miner) == Coins(ls[|b.txs|], b.miner) + LeftByAll(b.txs)
      && (forall a :: a != b.miner ==> Coins(l1, a) == Coins(ls[|b.txs|], a))
  }

  lemma RewardPaid(l0: Ledger, w: World, b: BlockTxs)
    requires w.Valid() && b.reward == CoinReward(w, b.height) && HacAdd(l0, b.miner, b.reward).Ok?
    ensures Gained(l0, HacAdd(l0, b.miner, b.reward).value, b.miner,
      Supply.RewardIn(w.rewards, b.height) * Pow(10, w.coinUnit))
  {
    HacAddEffect(l0, b.miner, b.reward);
    Accounting.RewardValue(w, b.height);
  }

  /** Every accepted block is made so. */
  lemma BlockDone(l: Ledger, w: World, b: BlockTxs, l1: Ledger) returns (l0: Ledger, ls: seq<Ledger>)
    requires w.Valid() && RunBlock(l, w, b) == Ok(l1)
    ensures Made(l, w, b, l0, ls, l1)
  {
    l0 := if b.height == 1 then Initialize(l, w) else l;
    StartsSo(l, w, b.height);
    BlockInSteps(l, w, b, l0, l1);
    RewardPaid(l0, w, b);
    ls := FedBy(HacAdd(l0, b.miner, b.reward).value, w, b, l1);
  }

  lemma MinerIsPaid(l: Ledger, w: World, b: BlockTxs, l1: Ledger)
    requires w.Valid() && RunBlock(l, w, b) == Ok(l1)
    ensures MinerPaid(l, w, b, l1)
  {
    var l0, ls := BlockDone(l, w, b, l1);
    PaidWhenMade(l, w, b, l0, ls, l1);
  }

  lemma PaidWhenMade(l: Ledger, w: World, b: BlockTxs, l0: Ledger, ls: seq<Ledger>, l1: Ledger)
    requires Made(l, w, b, l0, ls, l1)
    ensures MinerPaid(l, w, b, l1)
  {
  }

  /** And a block is accepted exactly when it states the reward of its height, the miner's balance can take the
      reward, its transactions run one after the other from there, and the balance can take what they leave. */
  lemma BlockExactly(l: Ledger, w: World, b: BlockTxs, l0: Ledger)
    requires w.Valid() && l0 == if b.height == 1 then Initialize(l, w) else l
    ensures Starts(l, w, b.height, l0)
    ensures RunBlock(l, w, b).Ok? <==>
      && b.reward.unit == w.coinUnit && b.reward.dist == 1
      && b.reward.byte == [Supply.RewardIn(w.rewards, b.height)]
      && HacAdd(l0, b.miner, b.reward).Ok?
      && exists ls :: Fed(HacAdd(l0, b.miner, b.reward).value, w, b, ls)
  {
    StartsSo(l, w, b.height);
    RewardIs(w, b);
    if RunBlock(l, w, b).Ok? {
      BlockInSteps(l, w, b, l0, RunBlock(l, w, b).value);
      var ls := FedBy(HacAdd(l0, b.miner, b.reward).value, w, b, RunBlock(l, w, b).value);
    }
    if b.reward == CoinReward(w, b.height) && HacAdd(l0, b.miner, b.reward).Ok? {
      if ls :| Fed(HacAdd(l0, b.miner, b.reward).value, w, b, ls) {
        var l1 := FedIsEnough(HacAdd(l0, b.miner, b.reward).value, w, b, ls);
        BlockInSteps(l, w, b, l0, l1);
      }
    }
  }
}
