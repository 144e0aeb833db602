/** Every transaction is carried out once: its mark in the ledger outlives it and refuses it a second time. */
module Replay {
  import opened Base
  import opened Amounts
  import opened OwnedForm
  import opened Ledgers
  import DiamondIndex
  import opened CoinTotals
  import opened ChannelLife
  import opened Accounting

  predicate Marked(l: Ledger, h: TxHash) {
    h in l.txexist && l.txexist[h] > 0
  }

  function Hashes(txs: seq<Tx>): seq<TxHash>
    decreases |txs|
  {
    if txs == [] then [] else Hashes(txs[..|txs| - 1]) + [txs[|txs| - 1].hash]
  }

  /** The transactions of a chain, in order. */
  function ChainHashes(bs: seq<BlockTxs>): seq<TxHash>
    decreases |bs|
  {
    if bs == [] then [] else ChainHashes(bs[..|bs| - 1]) + Hashes(bs[|bs| - 1].txs)
  }

  /** From `l` to `l1` exactly `hashes` have been marked, each of them once and for the first time. */
  ghost predicate MarksOnce(l: Ledger, l1: Ledger, hashes: seq<TxHash>) {
    forall h :: multiset(hashes)[h] + (if Marked(l, h) then 1 else 0) == if Marked(l1, h) then 1 else 0
  }

  lemma MarksJoin(l: Ledger, l1: Ledger, l2: Ledger, a: seq<TxHash>, b: seq<TxHash>)
    requires MarksOnce(l, l1, a) && MarksOnce(l1, l2, b)
    ensures MarksOnce(l, l2, a + b)
  {
    forall h
      ensures multiset(a + b)[h] + (if Marked(l, h) then 1 else 0) == if Marked(l2, h) then 1 else 0
    {
      assert multiset(a + b)[h] == multiset(a)[h] + multiset(b)[h];
    }
  }

  // ---- actions leave all marks --------------------------------------------

  lemma InscribeKeepsMarks(l: Ledger, env: Env, names: seq<Name>, cost: Amount, content: Option<Bytes>)
    requires Inscribe(l, env, names, cost, content).Ok?
    ensures Inscribe(l, env, names, cost, content).value.txexist == l.txexist
  {
    DiamondIndex.EngraveEachOwners(l, env, names, content);
    if IsPositive(cost) {
      HacSubEffect(EngraveEach(l, env, names, content).value.0, env.main, cost);
    }
  }

  lemma ActKeepsMarks(l: Ledger, env: Env, a: Action)
    requires Sound(l) && Act(l, env, a).Ok?
    ensures Act(l, env, a).value.txexist == l.txexist
  {
    match a
    case HacTransfer(from, to, amt) => HacMoveEffect(l, env.height, from, to, amt);
    case ChannelOpen(id, left, leftAmt, right, rightAmt) =>
      OpenEffect(l, env.height, id, left, leftAmt, right, rightAmt);
    case ChannelClose(id) => CloseEffect(l, env.height, id, l.channels[id].leftAmt, l.channels[id].rightAmt, false);
    case DiamondMint(m) => DiamondIndex.MintIs(l, env, m, Diamond(Normal, m.address, 0, []));
    case DiamondTransfer(from, to, names) => DiamondIndex.TransferExact(l, from, to, names);
    case DiamondInscription(names, cost, _, content) => InscribeKeepsMarks(l, env, names, cost, Some(content));
    case DiamondInscriptionClear(names, cost) => InscribeKeepsMarks(l, env, names, cost, None);
    case _ =>
  }

  lemma {:induction false} ActsKeepMarks(l: Ledger, env: Env, acts: seq<Action>, all: seq<Action>)
    requires Sound(l) && ActEach(l, env, acts, all).Ok?
    ensures ActEach(l, env, acts, all).value.txexist == l.txexist
    decreases |acts|
  {
    if acts != [] {
      var before := acts[..|acts| - 1];
      ActsKeepMarks(l, env, before, all);
      ActEachWent(l, env, before, all);
      ActKeepsMarks(ActEach(l, env, before, all).value, env, acts[|acts| - 1]);
    }
  }

  // ---- transactions, blocks, chains ---------------------------------------

  /** Paying the fee marks the transaction, and is refused when it is marked already. */
  lemma FeeMarks(l: Ledger, height: nat, tx: Tx)
    requires height > 0 && PayFee(l, height, tx).Ok?
    ensures MarksOnce(l, PayFee(l, height, tx).value, [tx.hash])
  {
    HacSubEffect(l.(txexist := l.txexist[tx.hash := height]), tx.main, tx.fee);
    assert PayFee(l, height, tx).value.txexist == l.txexist[tx.hash := height];
  }

  lemma {:induction false} TxsMark(l: Ledger, w: World, height: nat, blockHash: Bytes, txs: seq<Tx>)
    requires Sound(l) && height > 0 && RunTxs(l, w, height, blockHash, txs).Ok?
    ensures MarksOnce(l, RunTxs(l, w, height, blockHash, txs).value.0, Hashes(txs))
    decreases |txs|
  {
    if txs != [] {
      var before, tx := txs[..|txs| - 1], txs[|txs| - 1];
      TxsMark(l, w, height, blockHash, before);
      TxsWent(l, w, height, blockHash, before);
      var l1, l2 := LastTx(l, w, height, blockHash, txs);
      ActsKeepMarks(l1, TxEnv(w, height, blockHash, tx), tx.actions, tx.actions);
      FeeMarks(l2, height, tx);
      MarksJoin(l, l1, PayFee(l2, height, tx).value, Hashes(before), [tx.hash]);
    }
  }

  lemma BlockMarks(l: Ledger, w: World, b: BlockTxs)
    requires w.Valid() && Sound(l) && b.height > 0 && (b.height == 1 ==> IsNew(l)) && RunBlock(l, w, b).Ok?
    ensures MarksOnce(l, RunBlock(l, w, b).value, Hashes(b.txs))
  {
    var l0 := if b.height == 1 then Initialize(l, w) else l;
    if b.height == 1 {
      InitializeWent(w, l);
    }
    var l1 := HacAdd(l0, b.miner, b.reward).value;
    HacAddEffect(l0, b.miner, b.reward);
    CoinsWent(l0, l1, ToBigint(b.reward));
    TxsMark(l1, w, b.height, b.hash, b.txs);
    TxsWent(l1, w, b.height, b.hash, b.txs);
    var (l2, fees) := RunTxs(l1, w, b.height, b.hash, b.txs).value;
    AddIfPositiveEffect(l2, b.miner, fees);
  }

  /** In any chain a transaction occurs once if its mark stands, and otherwise never: none is carried out
      twice. */
  lemma {:induction false} NoReplay(w: World, first: Ledger, bs: seq<BlockTxs>)
    requires w.Valid() && IsNew(first) && RunFrom(first, Blocks(w), bs).Some?
    ensures var l := RunFrom(first, Blocks(w), bs).value;
      forall h :: multiset(ChainHashes(bs))[h] == if Marked(l, h) then 1 else 0
    decreases |bs|
  {
    if bs != [] {
      var before, b := bs[..|bs| - 1], bs[|bs| - 1];
      NoReplay(w, first, before);
      ChainSound(w, first, before);
      var l := RunFrom(first, Blocks(w), before).value;
      assert |bs| == 1 ==> before == [];
      BlockMarks(l, w, b);
      MarksFrom(l, RunBlock(l, w, b).value, ChainHashes(before), Hashes(b.txs));
    }
  }

  lemma MarksFrom(l: Ledger, l1: Ledger, a: seq<TxHash>, b: seq<TxHash>)
    requires forall h :: multiset(a)[h] == if Marked(l, h) then 1 else 0
    requires MarksOnce(l, l1, b)
    ensures forall h :: multiset(a + b)[h] == if Marked(l1, h) then 1 else 0
  {
    forall h
      ensures multiset(a + b)[h] == if Marked(l1, h) then 1 else 0
    {
      assert multiset(a + b)[h] == multiset(a)[h] + multiset(b)[h];
    }
  }
}
