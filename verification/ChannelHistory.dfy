/**
 The channels of a whole chain, action by action: how often an opening is paid out, to whom, and what a
 channel that is closed was opened with.
 */
module ChannelHistory {
  import opened Base
  import opened Amounts
  import opened OwnedForm
  import opened Interest
  import opened Ledgers
  import DiamondIndex
  import opened CoinTotals
  import opened ChannelLife
  import opened Accounting

  type Channels = map<ChannelId, Channel>

  // ---- the actions of a chain, in order -----------------------------------

  /** An action and the ledger that it finds. */
  datatype Event = Event(before: Ledger, env: Env, action: Action)

  function After(e: Event): Result<Ledger, Error> {
    Act(e.before, e.env, e.action)
  }

  function ActsEvents(l: Ledger, env: Env, acts: seq<Action>, all: seq<Action>): seq<Event>
    decreases |acts|
  {
    if acts == [] then []
    else
      match ActEach(l, env, acts[..|acts| - 1], all)
      case Err(_) => []
      case Ok(l1) => ActsEvents(l, env, acts[..|acts| - 1], all) + [Event(l1, env, acts[|acts| - 1])]
  }

  function TxsEvents(l: Ledger, w: World, height: nat, blockHash: Bytes, txs: seq<Tx>): seq<Event>
    decreases |txs|
  {
    if txs == [] then []
    else
      match RunTxs(l, w, height, blockHash, txs[..|txs| - 1])
      case Err(_) => []
      case Ok(before) =>
        var tx := txs[|txs| - 1];
        TxsEvents(l, w, height, blockHash, txs[..|txs| - 1])
        + ActsEvents(before.0, TxEnv(w, height, blockHash, tx), tx.actions, tx.actions)
  }

  function BlockEvents(l: Ledger, w: World, b: BlockTxs): seq<Event> {
    match HacAdd(if b.height == 1 then Initialize(l, w) else l, b.miner, b.reward)
    case Err(_) => []
    case Ok(l1) => TxsEvents(l1, w, b.height, b.hash, b.txs)
  }

  /** All actions of a chain from `first` on. */
  function ChainEvents(w: World, first: Ledger, bs: seq<BlockTxs>): seq<Event>
    decreases |bs|
  {
    if bs == [] then []
    else
      match RunFrom(first, Blocks(w), bs[..|bs| - 1])
      case None => []
      case Some(l) => ChainEvents(w, first, bs[..|bs| - 1]) + BlockEvents(l, w, bs[|bs| - 1])
  }

  /** Nothing but these actions leads from the channels `cs` to the channels `ds`: each of them finds the
      channels as the one before left them, in a sound ledger, and is accepted. */
  ghost predicate Leads(cs: Channels, events: seq<Event>, ds: Channels)
    decreases |events|
  {
    if events == [] then ds == cs
    else
      var e := events[|events| - 1];
      && Leads(cs, events[..|events| - 1], e.before.channels)
      && Accepted(e) && After(e).value.channels == ds
  }

  ghost predicate Accepted(e: Event) {
    Sound(e.before) && After(e).Ok?
  }

  lemma LeadsMore(cs: Channels, events: seq<Event>, e: Event)
    requires Leads(cs, events, e.before.channels) && Accepted(e)
    ensures Leads(cs, events + [e], After(e).value.channels)
  {
    assert (events + [e])[..|events|] == events;
  }

  lemma LeadsBack(cs: Channels, events: seq<Event>, ds: Channels) returns (before: seq<Event>, e: Event)
    requires events != [] && Leads(cs, events, ds)
    ensures events == before + [e] && |before| == |events| - 1
    ensures Leads(cs, before, e.before.channels) && Accepted(e) && ds == After(e).value.channels
  {
    before, e := events[..|events| - 1], events[|events| - 1];
    LeadsLast(cs, events, ds, before, e);
    SplitLast(events, before, e);
  }

  lemma SplitLast(events: seq<Event>, before: seq<Event>, e: Event)
    requires events != [] && before == events[..|events| - 1] && e == events[|events| - 1]
    ensures events == before + [e]
  {
  }

  lemma LeadsLast(cs: Channels, events: seq<Event>, ds: Channels, before: seq<Event>, e: Event)
    requires events != [] && Leads(cs, events, ds) && before == events[..|events| - 1] && e == events[|events| - 1]
    ensures Leads(cs, before, e.before.channels) && Accepted(e) && ds == After(e).value.channels
  {
  }

  lemma {:induction false} LeadsJoin(cs: Channels, first: seq<Event>, ds: Channels, second: seq<Event>, es: Channels)
    requires Leads(cs, first, ds) && Leads(ds, second, es)
    ensures Leads(cs, first + second, es)
    decreases |second|
  {
    if second == [] {
      assert first + second == first;
    } else {
      var before, e := LeadsBack(ds, second, es);
      LeadsJoin(cs, first, ds, before, e.before.channels);
      LeadsMore(cs, first + before, e);
      assert first + (before + [e]) == first + before + [e];
    }
  }

  /** An action in the middle finds what those before it lead to. */
  lemma {:induction false} LeadsTo(cs: Channels, events: seq<Event>, ds: Channels, j: nat)
    requires Leads(cs, events, ds) && j < |events|
    ensures Leads(cs, events[..j], events[j].before.channels) && Accepted(events[j])
    decreases |events|
  {
    if j < |events| - 1 {
      var before := events[..|events| - 1];
      LeadsTo(cs, before, events[|events| - 1].before.channels, j);
      assert before[..j] == events[..j];
    }
  }

  // ---- chains lead from no channel to their channels ----------------------

  lemma {:induction false} ActsLead(l: Ledger, env: Env, acts: seq<Action>, all: seq<Action>)
    requires Sound(l) && ActEach(l, env, acts, all).Ok?
    ensures Leads(l.channels, ActsEvents(l, env, acts, all), ActEach(l, env, acts, all).value.channels)
    decreases |acts|
  {
    if acts != [] {
      var before := acts[..|acts| - 1];
      ActsLead(l, env, before, all);
      ActEachWent(l, env, before, all);
      var l1 := ActEach(l, env, before, all).value;
      LeadsMore(l.channels, ActsEvents(l, env, before, all), Event(l1, env, acts[|acts| - 1]));
    }
  }

  lemma FeeKeepsChannels(l: Ledger, height: nat, tx: Tx)
    requires PayFee(l, height, tx).Ok?
    ensures PayFee(l, height, tx).value.channels == l.channels
  {
    HacSubEffect(l.(txexist := l.txexist[tx.hash := height]), tx.main, tx.fee);
  }

  lemma {:induction false} TxsLead(l: Ledger, w: World, height: nat, blockHash: Bytes, txs: seq<Tx>)
    requires Sound(l) && RunTxs(l, w, height, blockHash, txs).Ok?
    ensures Leads(l.channels, TxsEvents(l, w, height, blockHash, txs),
      RunTxs(l, w, height, blockHash, txs).value.0.channels)
    decreases |txs|
  {
    if txs != [] {
      var before, tx := txs[..|txs| - 1], txs[|txs| - 1];
      TxsLead(l, w, height, blockHash, before);
      TxsWent(l, w, height, blockHash, before);
      var l1, l2 := LastTx(l, w, height, blockHash, txs);
      var env := TxEnv(w, height, blockHash, tx);
      ActsLead(l1, env, tx.actions, tx.actions);
      FeeKeepsChannels(l2, height, tx);
      LeadsJoin(l.channels, TxsEvents(l, w, height, blockHash, before), l1.channels,
        ActsEvents(l1, env, tx.actions, tx.actions), l2.channels);
    }
  }

  lemma BlockLeads(l: Ledger, w: World, b: BlockTxs)
    requires w.Valid() && Sound(l) && (b.height == 1 ==> IsNew(l)) && RunBlock(l, w, b).Ok?
    ensures Leads(l.channels, BlockEvents(l, w, b), RunBlock(l, w, b).value.channels)
  {
    var l0 := if b.height == 1 then Initialize(l, w) else l;
    if b.height == 1 {
      InitializeWent(w, l);
    }
    var l1 := HacAdd(l0, b.miner, b.reward).value;
    HacAddEffect(l0, b.miner, b.reward);
    CoinsWent(l0, l1, ToBigint(b.reward));
    TxsLead(l1, w, b.height, b.hash, b.txs);
    TxsWent(l1, w, b.height, b.hash, b.txs);
    var (l2, fees) := RunTxs(l1, w, b.height, b.hash, b.txs).value;
    AddIfPositiveEffect(l2, b.miner, fees);
  }

  lemma {:induction false} ChainLeads(w: World, first: Ledger, bs: seq<BlockTxs>)
    requires w.Valid() && IsNew(first) && RunFrom(first, Blocks(w), bs).Some?
    ensures Leads(map[], ChainEvents(w, first, bs), RunFrom(first, Blocks(w), bs).value.channels)
    decreases |bs|
  {
    if bs != [] {
      var before, b := bs[..|bs| - 1], bs[|bs| - 1];
      ChainLeads(w, first, before);
      ChainSound(w, first, before);
      var l := RunFrom(first, Blocks(w), before).value;
      assert |bs| == 1 ==> before == [];
      BlockLeads(l, w, b);
      LeadsJoin(map[], ChainEvents(w, first, before), l.channels, BlockEvents(l, w, b),
        RunBlock(l, w, b).value.channels);
    }
  }

  // ---- what one action does to the channels -------------------------------

  /** A channel as an opening leaves it, over the channels `cs`. */
  function Fresh(cs: Channels, height: nat, id: ChannelId, left: Address, leftAmt: Amount, right: Address,
    rightAmt: Amount): Channel {
    Channel(Opening, if id in cs then cs[id].reuse + 1 else 1, height, ByShare, left, leftAmt, right, rightAmt, None)
  }

  predicate Opens(e: Event, id: ChannelId) {
    e.action.ChannelOpen? && e.action.id == id
  }

  predicate Closes(e: Event, id: ChannelId) {
    e.action.ChannelClose? && e.action.id == id
  }

  lemma OpenChannels(l: Ledger, height: nat, id: ChannelId, left: Address, leftAmt: Amount, right: Address,
    rightAmt: Amount)
    requires OpenChannel(l, height, id, left, leftAmt, right, rightAmt).Ok?
    ensures var ds := OpenChannel(l, height, id, left, leftAmt, right, rightAmt).value.channels;
      ds == l.channels[id := Fresh(l.channels, height, id, left, leftAmt, right, rightAmt)]
    ensures id in l.channels ==> l.channels[id].status == AgreementClosed
  {
    var l2 := SubIfAny(l, left, leftAmt).value;
    var l3 := SubIfAny(l2, right, rightAmt).value;
    SubIfAnyEffect(l, left, leftAmt);
    SubIfAnyEffect(l2, right, rightAmt);
    OpenIs(l, l3, height, id, left, leftAmt, right, rightAmt,
      Fresh(l.channels, height, id, left, leftAmt, right, rightAmt));
  }

  lemma CloseChannels(l: Ledger, env: Env, id: ChannelId)
    requires Sound(l) && CloseChannel(l, env, id).Ok?
    ensures id in l.channels && l.channels[id].status == Opening
    ensures CloseChannel(l, env, id).value.channels ==
      l.channels[id := Closed(l.channels[id], l.channels[id].leftAmt, false)]
  {
    var c := l.channels[id];
    var total := Add(c.leftAmt, c.rightAmt).value;
    var l2 := PayOut(l, env.height, c, c.leftAmt, c.rightAmt, total).value;
    CloseIs(l, env.height, id, c.leftAmt, c.rightAmt, false, total, l2);
    PayOutEffect(l, env.height, c, c.leftAmt, c.rightAmt, total);
  }

  /** An accepted action opens a channel that is not open, closes one that is open, or leaves all channels
      as they are. */
  lemma EventChannels(e: Event)
    requires Accepted(e)
    ensures var cs, ds := e.before.channels, After(e).value.channels;
      match e.action
      case ChannelOpen(id, left, leftAmt, right, rightAmt) =>
        && ds == cs[id := Fresh(cs, e.env.height, id, left, leftAmt, right, rightAmt)]
        && (id in cs ==> cs[id].status == AgreementClosed)
      case ChannelClose(id) =>
        id in cs && cs[id].status == Opening && ds == cs[id := Closed(cs[id], cs[id].leftAmt, false)]
      case _ => ds == cs
  {
    var l := e.before;
    match e.action
    case HacTransfer(from, to, amt) => HacMoveEffect(l, e.env.height, from, to, amt);
    case ChannelOpen(id, left, leftAmt, right, rightAmt) =>
      OpenChannels(l, e.env.height, id, left, leftAmt, right, rightAmt);
    case ChannelClose(id) => CloseChannels(l, e.env, id);
    case _ => ActKeepsChannels(l, e.env, e.action);
  }

  lemma ActKeepsChannels(l: Ledger, env: Env, a: Action)
    requires Sound(l) && Act(l, env, a).Ok? && !a.HacTransfer? && !a.ChannelOpen? && !a.ChannelClose?
    ensures Act(l, env, a).value.channels == l.channels
  {
    match a
    case DiamondMint(m) => MintKeepsCoins(l, env, m, Mint(l, env, m).value);
    case DiamondTransfer(from, to, names) => DiamondIndex.TransferExact(l, from, to, names);
    case DiamondInscription(names, cost, _, content) => InscribeKeepsChannels(l, env, names, cost, Some(content));
    case DiamondInscriptionClear(names, cost) => InscribeKeepsChannels(l, env, names, cost, None);
    case _ =>
  }

  lemma InscribeKeepsChannels(l: Ledger, env: Env, names: seq<Name>, cost: Amount, content: Option<Bytes>)
    requires Inscribe(l, env, names, cost, content).Ok?
    ensures Inscribe(l, env, names, cost, content).value.channels == l.channels
  {
    DiamondIndex.EngraveEachOwners(l, env, names, content);
    if IsPositive(cost) {
      HacSubEffect(EngraveEach(l, env, names, content).value.0, env.main, cost);
    }
  }

  // ---- how often openings are opened and closed ---------------------------

  /** How often `id` is opened. */
  function TimesOpened(events: seq<Event>, id: ChannelId): nat
    decreases |events|
  {
    if events == [] then 0
    else TimesOpened(events[..|events| - 1], id) + if Opens(events[|events| - 1], id) then 1 else 0
  }

  predicate ClosesOpening(e: Event, id: ChannelId, reuse: nat) {
    Closes(e, id) && id in e.before.channels && e.before.channels[id].reuse == reuse
  }

  /** How often the opening of `id` with this reuse number is closed. */
  function TimesClosed(events: seq<Event>, id: ChannelId, reuse: nat): nat
    decreases |events|
  {
    if events == [] then 0
    else
      TimesClosed(events[..|events| - 1], id, reuse) + if ClosesOpening(events[|events| - 1], id, reuse) then 1 else 0
  }

  /** The opening has taken place and is over. */
  predicate Ended(cs: Channels, id: ChannelId, reuse: nat) {
    reuse > 0 && id in cs && (cs[id].reuse > reuse || (cs[id].reuse == reuse && cs[id].status != Opening))
  }

  function Openings(cs: Channels, id: ChannelId): nat {
    if id in cs then cs[id].reuse else 0
  }

  /** One action opens or closes as much as the channels show afterwards. */
  lemma EventCounts(e: Event, id: ChannelId, reuse: nat)
    requires Accepted(e) && (id in e.before.channels ==> e.before.channels[id].reuse > 0)
    ensures var cs, ds := e.before.channels, After(e).value.channels;
      && Openings(ds, id) == Openings(cs, id) + (if Opens(e, id) then 1 else 0)
      && (id in ds ==> ds[id].reuse > 0)
      && (Ended(cs, id, reuse) ==> Ended(ds, id, reuse) && !ClosesOpening(e, id, reuse))
      && (!Ended(cs, id, reuse) ==> (Ended(ds, id, reuse) <==> ClosesOpening(e, id, reuse)))
  {
    EventChannels(e);
  }

  /** Over any run of actions from no channels: the reuse number counts how often an id was opened, and an
      opening was closed once if it is over, and otherwise never. */
  lemma {:induction false} CountsExact(events: seq<Event>, ds: Channels, id: ChannelId, reuse: nat)
    requires Leads(map[], events, ds)
    ensures TimesOpened(events, id) == Openings(ds, id) && (id in ds ==> ds[id].reuse > 0)
    ensures TimesClosed(events, id, reuse) == if Ended(ds, id, reuse) then 1 else 0
    decreases |events|
  {
    if events != [] {
      var before, e := LeadsBack(map[], events, ds);
      CountsExact(before, e.before.channels, id, reuse);
      EventCounts(e, id, reuse);
      assert events[..|events| - 1] == before;
    }
  }

  /** In any chain each opening of a channel is paid out at most once: once if it is over, and otherwise
      never; and its reuse number says which of the openings of the id it is. */
  lemma PaidOnce(w: World, first: Ledger, bs: seq<BlockTxs>, id: ChannelId, reuse: nat)
    requires w.Valid() && IsNew(first) && RunFrom(first, Blocks(w), bs).Some?
    ensures var events, ds := ChainEvents(w, first, bs), RunFrom(first, Blocks(w), bs).value.channels;
      && TimesClosed(events, id, reuse) == (if Ended(ds, id, reuse) then 1 else 0)
      && TimesOpened(events, id) == Openings(ds, id)
  {
    ChainLeads(w, first, bs);
    CountsExact(ChainEvents(w, first, bs), RunFrom(first, Blocks(w), bs).value.channels, id, reuse);
  }

  // ---- what a close pays out ----------------------------------------------

  /** `d` is the channel that `e` opened, either untouched or closed. */
  predicate StemsFrom(d: Channel, e: Event, id: ChannelId) {
    && Opens(e, id)
    && var a := e.action;
       var c := Fresh(e.before.channels, e.env.height, id, a.left, a.leftAmt, a.right, a.rightAmt);
       d == c || d == Closed(c, c.leftAmt, false)
  }

  /** Every channel was opened by one of the actions, and holds what was opened. */
  lemma {:induction false} Provenance(events: seq<Event>, ds: Channels, id: ChannelId) returns (i: nat)
    requires Leads(map[], events, ds) && id in ds
    ensures i < |events| && Accepted(events[i]) && StemsFrom(ds[id], events[i], id)
    decreases |events|
  {
    var before, e := LeadsBack(map[], events, ds);
    EventChannels(e);
    if Opens(e, id) {
      i := |before|;
    } else {
      i := Provenance(before, e.before.channels, id);
    }
  }

  lemma ClosePays(l: Ledger, env: Env, id: ChannelId)
    requires Sound(l) && CloseChannel(l, env, id).Ok?
    ensures var c, l1 := l.channels[id], CloseChannel(l, env, id).value;
      if ToBigint(c.leftAmt) > 0 || ToBigint(c.rightAmt) > 0 then
        PaysShares(l, l1, env.height, c, c.leftAmt, c.rightAmt)
      else l1.balances == l.balances
  {
    var c := l.channels[id];
    SumIsExact(c.leftAmt, c.rightAmt);
    PositiveValue(c.leftAmt);
    PositiveValue(c.rightAmt);
    if IsPositive(Add(c.leftAmt, c.rightAmt).value) {
      CloseReturns(l, env.height, id, c.leftAmt, c.rightAmt, false);
    } else {
      NotPositiveValue(Add(c.leftAmt, c.rightAmt).value);
      CloseOfNothing(l, env.height, id, c.leftAmt, c.rightAmt, false);
    }
  }

  /** The `j`-th action closes the channel that the `i`-th opened: it holds what was taken then from these two
      sides, has not changed since, and each side is paid its own share with its interest. */
  ghost predicate PaysWhatWasOpened(events: seq<Event>, i: nat, j: nat, id: ChannelId) {
    && i < j < |events| && Opens(events[i], id) && Closes(events[j], id) && Accepted(events[i]) && Accepted(events[j])
    && id in events[j].before.channels && id in After(events[i]).value.channels
    && var (a, c) := (events[i].action, events[j].before.channels[id]);
      && c == After(events[i]).value.channels[id] && c.status == Opening && c.openHeight == events[i].env.height
      && c.left == a.left && c.leftAmt == a.leftAmt && c.right == a.right && c.rightAmt == a.rightAmt
      && if ToBigint(a.leftAmt) > 0 || ToBigint(a.rightAmt) > 0
         then PaysShares(events[j].before, After(events[j]).value, events[j].env.height, c, a.leftAmt, a.rightAmt)
         else After(events[j]).value.balances == events[j].before.balances
  }

  /** From opening over any run to closing: whatever a chain closes was opened before, in this chain. */
  lemma OpenedThenPaid(w: World, first: Ledger, bs: seq<BlockTxs>, j: nat, id: ChannelId) returns (i: nat)
    requires w.Valid() && IsNew(first) && RunFrom(first, Blocks(w), bs).Some?
    requires j < |ChainEvents(w, first, bs)| && Closes(ChainEvents(w, first, bs)[j], id)
    ensures PaysWhatWasOpened(ChainEvents(w, first, bs), i, j, id)
  {
    var events := ChainEvents(w, first, bs);
    ChainLeads(w, first, bs);
    LeadsTo(map[], events, RunFrom(first, Blocks(w), bs).value.channels, j);
    var e := events[j];
    EventChannels(e);
    i := Provenance(events[..j], e.before.channels, id);
    EventChannels(events[i]);
    ClosePays(e.before, e.env, id);
  }

  // ---- channels of one chain over time ------------------------------------

  /** As a chain grows, no channel disappears or changes its sides; its reuse number never falls, and
      within one opening the only change is the close. */
  lemma {:induction false} ChainLater(w: World, first: Ledger, bs: seq<BlockTxs>, k: nat)
    requires w.Valid() && IsNew(first) && RunFrom(first, Blocks(w), bs).Some? && k <= |bs|
    ensures RunFrom(first, Blocks(w), bs[..k]).Some?
    ensures ChannelsLater(RunFrom(first, Blocks(w), bs[..k]).value.channels,
      RunFrom(first, Blocks(w), bs).value.channels)
    decreases |bs|
  {
    if k == |bs| {
      assert bs[..k] == bs;
    } else {
      var before, b := bs[..|bs| - 1], bs[|bs| - 1];
      assert before[..k] == bs[..k];
      ChainLater(w, first, before, k);
      ChainSound(w, first, before);
      var l := RunFrom(first, Blocks(w), before).value;
      assert |bs| == 1 ==> before == [];
      BlockWent(l, w, b);
      ChannelsLaterJoin(RunFrom(first, Blocks(w), bs[..k]).value.channels, l.channels,
        RunBlock(l, w, b).value.channels);
    }
  }
}
