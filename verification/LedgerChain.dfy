/**
 The two halves together: a node whose blocks are blocks of the ledger. The flat state of every good block
 holds the ledger that its chain of blocks gives, so what `Accounting` says of chains holds of every node of
 the tree, on every fork, after every roll and every restart.
 */
module LedgerChain {
  import opened Base
  import opened Amounts
  import opened OwnedForm
  import opened Ledgers
  import opened ChainSpec
  import opened Records
  import opened LedgerPrograms
  import opened ChainState
  import opened RollTree
  import Accounting
  import CoinTotals
  import ChannelHistory
  import ChannelLife
  import BlockOutcomes
  import Inscriptions
  import Engine

  /** How a block is read as a block of the ledger. `passes` are the checks that look at headers only. */
  datatype Reading = Reading(codec: Codec, world: World, read: Block -> BlockTxs, passes: (Block, Block) -> bool) {
    function Program(prev: Block, b: Block): Prog {
      if passes(prev, b) then BlockProg(codec, world, read(b)) else Fail
    }

    ghost predicate Valid(r: Rules) {
      && r.Valid() && codec.Valid() && world.Valid()
      && (forall b {:trigger read(b)} :: read(b).height == b.height)
      && (forall prev, b :: r.program(prev, b) == Program(prev, b))
    }
  }

  /** The blocks of the ledger from the one after genesis up to `h`. */
  function BlocksTo(r: Rules, x: Reading, h: Hash): seq<BlockTxs>
    decreases Height(r, h)
  {
    if h == r.Root() || Height(r, h) <= Height(r, Prev(r, h)) then []
    else BlocksTo(r, x, Prev(r, h)) + [x.read(r.unhash(h))]
  }

  function LedgerAt(r: Rules, x: Reading, first: Ledger, h: Hash): Option<Ledger> {
    Accounting.RunFrom(first, Accounting.Blocks(x.world), BlocksTo(r, x, h))
  }

  lemma RunAgain(first: Ledger, w: World, before: seq<BlockTxs>, b: BlockTxs)
    requires Accounting.RunFrom(first, Accounting.Blocks(w), before).Some? && b.height == |before| + 1
    ensures Accounting.RunFrom(first, Accounting.Blocks(w), before + [b])
      == Accounting.Blocks(w)(Accounting.RunFrom(first, Accounting.Blocks(w), before).value, b)
  {
    assert (before + [b])[..|before|] == before;
  }

  /** The flat state of a good block holds the ledger of its chain. */
  lemma {:induction false} StateIsLedger(r: Rules, x: Reading, first: Ledger, h: Hash)
    requires x.Valid(r) && IsNew(first) && Good(r, h)
    ensures |BlocksTo(r, x, h)| == Height(r, h)
    ensures LedgerAt(r, x, first, h).Some?
    ensures Holds(x.codec, StateOf(r, h).value, LedgerAt(r, x, first, h).value)
    decreases Height(r, h)
  {
    if h == r.Root() {
      EmptyHolds(x.codec, first);
    } else {
      var p := Prev(r, h);
      var b := x.read(r.unhash(h));
      StateIsLedger(r, x, first, p);
      var v, l, v1 := StateOf(r, p).value, LedgerAt(r, x, first, p).value, StateOf(r, h).value;
      RunAgain(first, x.world, BlocksTo(r, x, p), b);
      assert r.program(r.unhash(p), r.unhash(h)) == x.Program(r.unhash(p), r.unhash(h));
      assert Ends(BlockProg(x.codec, x.world, b), v, v1);
      BlockEnds(x.codec, v, l, x.world, b, v1);
    }
  }

  /** So the ledger at a good block is sound, and all its coins are accounted for. */
  lemma GoodIsSound(r: Rules, x: Reading, first: Ledger, h: Hash)
    requires x.Valid(r) && IsNew(first) && Good(r, h)
    ensures LedgerAt(r, x, first, h).Some? && Accounting.Sound(LedgerAt(r, x, first, h).value)
    ensures CoinTotals.Total(LedgerAt(r, x, first, h).value) ==
      Accounting.SumFrom(first, Accounting.Blocks(x.world), Accounting.Gains(x.world), BlocksTo(r, x, h))
  {
    StateIsLedger(r, x, first, h);
    Accounting.ChainSound(x.world, first, BlocksTo(r, x, h));
  }

  // ---- which blocks are accepted ------------------------------------------

  /** The accesses that the node allows a block suffice for `p`, when any number does. */
  ghost predicate StepsSuffice(r: Rules, p: Prog, v: View) {
    (exists w :: Ends(p, v, w)) ==> RunFlat(p, v, r.steps).Some?
  }

  /** Within the accesses allowed, a block's program ends exactly when the ledger accepts the block. */
  lemma BlockDecided(c: Codec, v: View, l: Ledger, w: World, b: BlockTxs, p: Prog, r: Rules)
    requires c.Valid() && Holds(c, v, l) && p == BlockProg(c, w, b) && StepsSuffice(r, p, v)
    ensures RunFlat(p, v, r.steps).Some? <==> RunBlock(l, w, b).Ok?
  {
    if RunBlock(l, w, b).Ok? {
      var v1 := BlockAccepted(c, v, l, w, b);
    }
    if RunFlat(p, v, r.steps).Some? {
      assert Ends(p, v, RunFlat(p, v, r.steps).value);
      BlockEnds(c, v, l, w, b, RunFlat(p, v, r.steps).value);
    }
  }

  /** A block on a good parent is good when its program ends. */
  lemma ChildGood(r: Rules, b: Block)
    requires r.Valid() && Good(r, b.prev) && b.height == Height(r, b.prev) + 1
    ensures Good(r, r.hash(b)) <==>
      RunFlat(r.program(r.unhash(b.prev), b), StateOf(r, b.prev).value, r.steps).Some?
  {
    assert r.unhash(r.hash(b)) == b;
  }

  /** On a good parent, the node accepts a block exactly when its header passes and the ledger accepts its
      transactions after those of the parent's chain. */
  lemma AcceptedExactly(r: Rules, x: Reading, first: Ledger, b: Block)
    requires x.Valid(r) && IsNew(first) && Good(r, b.prev) && b.height == Height(r, b.prev) + 1
    requires StepsSuffice(r, BlockProg(x.codec, x.world, x.read(b)), StateOf(r, b.prev).value)
    ensures LedgerAt(r, x, first, b.prev).Some?
    ensures Good(r, r.hash(b)) <==>
      x.passes(r.unhash(b.prev), b) && RunBlock(LedgerAt(r, x, first, b.prev).value, x.world, x.read(b)).Ok?
  {
    StateIsLedger(r, x, first, b.prev);
    ChildGood(r, b);
    assert r.program(r.unhash(b.prev), b) == x.Program(r.unhash(b.prev), b);
    BlockDecided(x.codec, StateOf(r, b.prev).value, LedgerAt(r, x, first, b.prev).value, x.world, x.read(b),
      BlockProg(x.codec, x.world, x.read(b)), r);
  }

  /** Whatever a block's program makes of a view, the miner is paid in it, and nobody else by reward or fees. */
  lemma BlockPays(c: Codec, v: View, l: Ledger, w: World, b: BlockTxs, v1: View) returns (l1: Ledger)
    requires c.Valid() && w.Valid() && Holds(c, v, l) && Ends(BlockProg(c, w, b), v, v1)
    ensures Holds(c, v1, l1) && BlockOutcomes.MinerPaid(l, w, b, l1)
  {
    BlockEnds(c, v, l, w, b, v1);
    l1 := RunBlock(l, w, b).value;
    BlockOutcomes.MinerIsPaid(l, w, b, l1);
  }

  /** What the program of an inscription leaves in the record of each listed diamond. */
  function RecordAfter(l: Ledger, env: Env, n: Name, content: Option<Bytes>): Record
    requires n in l.diamonds
  {
    match content
    case Some(x) => DiamondRec(Diamond(Normal, env.main, env.height, l.diamonds[n].inscripts + [x]))
    case None => DiamondRec(Diamond(Normal, env.main, 0, []))
  }

  /** The program of inscriptions is stuck, or goes on over a view in which exactly the listed diamonds have been
      written on or cleaned. */
  lemma InscriptionInView(c: Codec, v: View, l: Ledger, env: Env, names: seq<Name>, cost: Amount,
    content: Option<Bytes>, next: Prog) returns (v1: View)
    requires c.Valid() && Holds(c, v, l)
    ensures Stuck(InscribeProg(c, env, names, cost, content, next), v)
      || (Same(InscribeProg(c, env, names, cost, content, next), v, next, v1)
          && (forall n :: n in names ==>
               n in l.diamonds && RecordIn(c, v1, DiamondKey(n)) == Some(RecordAfter(l, env, n, content)))
          && (forall n :: n !in names ==> RecordIn(c, v1, DiamondKey(n)) == RecordIn(c, v, DiamondKey(n))))
  {
    v1 := InscribeRuns(c, v, l, env, names, cost, content, next);
    if Inscribe(l, env, names, cost, content).Ok? {
      var l1 := Inscribe(l, env, names, cost, content).value;
      Inscriptions.InscribedSo(l, env, names, cost, content, l1);
      assert c.Look();
      forall n
        ensures RecordIn(c, v, DiamondKey(n)) == RecordOf(l, DiamondKey(n))
        ensures RecordIn(c, v1, DiamondKey(n)) == RecordOf(l1, DiamondKey(n))
      {
      }
    }
  }

  // ---- one block and its ancestors ----------------------------------------

  /** The blocks to an ancestor are the first of the blocks to `h`. */
  lemma {:induction false} BlocksToAncestor(r: Rules, x: Reading, h: Hash, k: nat)
    requires r.Valid() && Good(r, h) && k <= Height(r, h)
    ensures |BlocksTo(r, x, h)| == Height(r, h)
    ensures BlocksTo(r, x, AncestorAt(r, h, k)) == BlocksTo(r, x, h)[..k]
    decreases Height(r, h)
  {
    if h == r.Root() {
      assert k == 0;
    } else if k < Height(r, h) {
      BlocksToAncestor(r, x, Prev(r, h), k);
    } else {
      BlocksToAncestor(r, x, Prev(r, h), Height(r, Prev(r, h)));
    }
  }

  /** Between a block and its ancestors no channel disappears or changes its sides. */
  lemma AncestorChannels(r: Rules, x: Reading, first: Ledger, h: Hash, k: nat)
    requires x.Valid(r) && IsNew(first) && Good(r, h) && k <= Height(r, h)
    ensures LedgerAt(r, x, first, AncestorAt(r, h, k)).Some? && LedgerAt(r, x, first, h).Some?
    ensures ChannelLife.ChannelsLater(
      LedgerAt(r, x, first, AncestorAt(r, h, k)).value.channels, LedgerAt(r, x, first, h).value.channels)
  {
    StateIsLedger(r, x, first, h);
    BlocksToAncestor(r, x, h, k);
    ChannelHistory.ChainLater(x.world, first, BlocksTo(r, x, h), k);
  }

  // ---- the nodes of the engine --------------------------------------------

  /** What `s` reads under a key, through the links that upgrade. */
  function RecordAt(c: Codec, s: State, alive: set<State>, k: Key): Option<Record>
    requires s.Linked() && forall o :: o in alive ==> o.Linked() && o.disk == s.disk
    reads s, alive, s.disk
  {
    c.Read(s.GetAt(c.key(k), alive))
  }

  /** Reading `s` record by record gives the ledger `l`. */
  ghost predicate Shows(c: Codec, s: State, alive: set<State>, l: Ledger)
    requires s.Linked() && forall o :: o in alive ==> o.Linked() && o.disk == s.disk
    reads s, alive, s.disk
  {
    && (forall k: Key :: !Single(k) ==> RecordAt(c, s, alive, k) == RecordOf(l, k))
    && LatestIn(RecordAt(c, s, alive, LatestKey)) == l.latest
    && CountIn(RecordAt(c, s, alive, CountKey)) == (l.opening, l.minted)
  }

  lemma ReadsShow(c: Codec, s: State, alive: set<State>, l: Ledger)
    requires s.Linked() && forall o :: o in alive ==> o.Linked() && o.disk == s.disk
    requires s.ReadsTrue(alive) && Holds(c, s.view, l)
    ensures Shows(c, s, alive, l)
  {
    assert c.Look();
    forall k: Key
      ensures RecordAt(c, s, alive, k) == RecordIn(c, s.view, k)
    {
      assert s.GetAt(c.key(k), alive) == Lookup(s.view, c.key(k));
    }
  }

  /** Every node of a valid engine reads the ledger of its chain, and that ledger is sound, with all its
      coins accounted for. */
  lemma NodeShowsLedger(e: Engine.BlockEngine, x: Reading, first: Ledger, n: RollChunk, alive: set<State>)
    requires e.Valid() && x.Valid(e.rules) && IsNew(first)
    requires e.t.Has(n) && TreeStates(e.t) <= alive <= e.book.mem.Keys
    ensures n.state.Linked() && forall o :: o in alive ==> o.Linked() && o.disk == n.state.disk
    ensures LedgerAt(e.rules, x, first, n.hash).Some?
    ensures var l := LedgerAt(e.rules, x, first, n.hash).value;
      && Shows(x.codec, n.state, alive, l)
      && Accounting.Sound(l)
      && CoinTotals.Total(l) ==
           Accounting.SumFrom(first, Accounting.Blocks(x.world), Accounting.Gains(x.world),
             BlocksTo(e.rules, x, n.hash))
  {
    e.NodeReads(n, alive);
    assert Good(e.rules, n.hash);
    StateIsLedger(e.rules, x, first, n.hash);
    GoodIsSound(e.rules, x, first, n.hash);
    ReadsShow(x.codec, n.state, alive, LedgerAt(e.rules, x, first, n.hash).value);
  }
}
