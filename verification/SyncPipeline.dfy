/**
 Receiving a batch of blocks runs three stages at the same time: parsing with a height check,
 execution onto the tree, and rolling with storing. Each stage hands over to the next through a
 queue. This module states the stages as steps that may interleave in any order and proves that the
 outcome is the one of inserting the blocks one at a time up to the first that fails.
 */
module SyncPipeline {
  import opened Base
  import opened ChainSpec

  // ---- one block at a time ------------------------------------------------

  /** Inserts the blocks in order and stops at the first that is rejected. */
  function Sync(r: Rules, c: Chain, bs: seq<Block>): (Chain, bool)
    decreases |bs|
  {
    if bs == [] then (c, true)
    else
      match Insert(r, c, bs[0])
      case Err(_) => (c, false)
      case Ok(c1) => Sync(r, c1, bs[1..])
  }

  /** The longest prefix of the batch whose heights count up from `hei`. */
  function InOrder(hei: nat, bs: seq<Block>): seq<Block>
    decreases |bs|
  {
    if bs == [] || bs[0].height != hei then [] else [bs[0]] + InOrder(hei + 1, bs[1..])
  }

  // ---- the three stages ---------------------------------------------------

  /** `raw` and `hei` belong to the parser, `parsed` is its queue; `base` is the block whose parent
      the executor has located; `queue` holds executed nodes that are not rolled yet. */
  datatype Pipe = Pipe(
    chain: Chain, raw: seq<Block>, hei: nat, parsed: seq<Block>,
    base: Option<Block>, queue: seq<Block>, badData: bool, failed: bool)

  datatype Stage = Parse | Locate | Execute | Roll

  function Begin(c: Chain, hei: nat, bs: seq<Block>): Pipe {
    Pipe(c, bs, hei, [], None, [], false, false)
  }

  predicate Enabled(p: Pipe, s: Stage) {
    match s
    case Parse => p.raw != []
    case Locate => !p.failed && p.parsed != [] && p.base.None?
    case Execute => p.base.Some?
    case Roll => p.queue != []
  }

  function Step(r: Rules, p: Pipe, s: Stage): Pipe
    requires Enabled(p, s)
  {
    match s
    case Parse =>
      if p.raw[0].height != p.hei then p.(raw := [], badData := true)
      else p.(raw := p.raw[1..], hei := p.hei + 1, parsed := p.parsed + [p.raw[0]])
    case Locate =>
      var b := p.parsed[0];
      if b.prev !in p.chain.tree || r.hash(b) in p.chain.tree then p.(failed := true)
      else p.(parsed := p.parsed[1..], base := Some(b))
    case Execute =>
      var b := p.base.value;
      if b.height != Height(r, b.prev) + 1 || StateOf(r, r.hash(b)).None? then p.(base := None, failed := true)
      else
        // the node hangs on its parent, which a roll may have cut off in the meantime
        var tree := if b.prev in p.chain.tree then p.chain.tree + {r.hash(b)} else p.chain.tree;
        p.(chain := p.chain.(tree := tree), base := None, queue := p.queue + [b])
    case Roll =>
      p.(chain := RollStore(r, p.chain, r.hash(p.queue[0])), queue := p.queue[1..])
  }

  predicate Finished(p: Pipe) {
    p.base.None? && p.queue == [] && (p.failed || (p.raw == [] && p.parsed == []))
  }

  predicate Succeeded(p: Pipe) {
    !p.failed && !p.badData
  }

  /** Runs the stages in the order of `sched`, as long as the chosen stage has work. */
  function RunPipe(r: Rules, p: Pipe, sched: seq<Stage>): Pipe
    decreases |sched|
  {
    if sched == [] || !Enabled(p, sched[0]) then p else RunPipe(r, Step(r, p, sched[0]), sched[1..])
  }

  // ---- relating the two ---------------------------------------------------

  /** `bs` inserted one after the other, provided that all of them are accepted. */
  function InsertAll(r: Rules, c: Chain, bs: seq<Block>): Option<Chain>
    decreases |bs|
  {
    if bs == [] then Some(c)
    else
      match Insert(r, c, bs[0])
      case Err(_) => None
      case Ok(c1) => InsertAll(r, c1, bs[1..])
  }

  function Hashes(r: Rules, bs: seq<Block>): set<Hash> {
    set b | b in bs :: r.hash(b)
  }

  ghost predicate Consecutive(bs: seq<Block>) {
    forall i :: 0 <= i < |bs| ==> bs[i].height == bs[0].height + i
  }

  /** What is still to come of the batch, apart from executed nodes. */
  function Remaining(p: Pipe): seq<Block> {
    (if p.base.Some? then [p.base.value] else []) + p.parsed + InOrder(p.hei, p.raw)
  }

  /** `s` is the chain as it was after the last rolled node, `d` as it will be after rolling the
      queue: the pipeline's own tree is that of `s` with the queued nodes already on it. */
  ghost predicate Sim(r: Rules, p: Pipe, s: Chain, d: Chain) {
    && Inv(r, s)
    && Ahead(r, s, p.queue, p.chain, d)
    && OrderOk(p)
    && (p.base.Some? ==> !p.failed && Located(r, p.base.value, d))
  }

  ghost predicate Ahead(r: Rules, s: Chain, q: seq<Block>, c: Chain, d: Chain) {
    c == s.(tree := s.tree + Hashes(r, q)) && InsertAll(r, s, q) == Some(d)
  }

  ghost predicate OrderOk(p: Pipe) {
    if p.failed then Consecutive(p.queue) else Consecutive(p.queue + Remaining(p))
  }

  ghost predicate Located(r: Rules, b: Block, d: Chain) {
    r.hash(b) !in d.tree && (b.height == Height(r, b.prev) + 1 ==> b.prev in d.tree)
  }

  ghost function Outcome(r: Rules, p: Pipe, d: Chain): (Chain, bool) {
    if p.failed then (d, false) else Sync(r, d, Remaining(p))
  }

  // ---- queued blocks ------------------------------------------------------

  lemma {:induction false} InsertAllInv(r: Rules, s: Chain, q: seq<Block>)
    requires r.Valid() && Inv(r, s) && InsertAll(r, s, q).Some?
    ensures Inv(r, InsertAll(r, s, q).value)
    ensures InsertAll(r, s, q).value.tree <= s.tree + Hashes(r, q)
    decreases |q|
  {
    if q != [] {
      InsertInv(r, s, q[0]);
      InsertAllInv(r, Insert(r, s, q[0]).value, q[1..]);
    }
  }

  /** Blocks that are not above the head are only added. */
  lemma {:induction false} NothingPruned(r: Rules, s: Chain, q: seq<Block>)
    requires r.Valid() && InsertAll(r, s, q).Some?
    requires forall b :: b in q ==> b.height <= Height(r, s.head)
    ensures InsertAll(r, s, q).value.tree == s.tree + Hashes(r, q)
    decreases |q|
  {
    if q != [] {
      NothingPruned(r, Insert(r, s, q[0]).value, q[1..]);
    } else {
      assert s.tree + Hashes(r, q) == s.tree;
    }
  }

  /** From the first block above the head on, each block builds on the one before it. */
  lemma {:induction false} QueueIsPath(r: Rules, s: Chain, q: seq<Block>)
    requires r.Valid() && Inv(r, s) && q != [] && InsertAll(r, s, q).Some?
    requires Consecutive(q) && Height(r, s.head) < q[0].height
    ensures forall i :: 0 < i < |q| ==> q[i].prev == r.hash(q[i - 1])
    ensures r.hash(q[|q| - 1]) in InsertAll(r, s, q).value.tree
    decreases |q|
  {
    if |q| == 1 {
      InsertHighest(r, s, q[0]);
    } else {
      QueueHead(r, s, q);
      QueueIsPath(r, Insert(r, s, q[0]).value, q[1..]);
      PathAll(r, q);
    }
  }

  lemma PathAll(r: Rules, q: seq<Block>)
    requires |q| > 1 && q[1].prev == r.hash(q[0])
    requires forall i :: 0 < i < |q[1..]| ==> q[1..][i].prev == r.hash(q[1..][i - 1])
    ensures forall i :: 0 < i < |q| ==> q[i].prev == r.hash(q[i - 1])
  {
    PathBehind(r, q[0], q[1..]);
    assert q == [q[0]] + q[1..];
  }

  lemma QueueHead(r: Rules, s: Chain, q: seq<Block>)
    requires r.Valid() && Inv(r, s) && |q| > 1 && InsertAll(r, s, q).Some?
    requires Consecutive(q) && Height(r, s.head) < q[0].height
    ensures Insert(r, s, q[0]).Ok?
    ensures var s1 := Insert(r, s, q[0]).value;
      Inv(r, s1) && Height(r, s1.head) < q[1].height && InsertAll(r, s1, q[1..]) == InsertAll(r, s, q)
    ensures Consecutive(q[1..]) && q[1].prev == r.hash(q[0])
  {
    InsertHighest(r, s, q[0]);
    assert q[1..][0] == q[1];
    HighestIsHead(r, s, q[0], q[1]);
  }

  lemma PathBehind(r: Rules, first: Block, rest: seq<Block>)
    requires forall i :: 0 < i < |rest| ==> rest[i].prev == r.hash(rest[i - 1])
    requires rest != [] && rest[0].prev == r.hash(first)
    ensures var q := [first] + rest; forall i :: 0 < i < |q| ==> q[i].prev == r.hash(q[i - 1])
  {
  }

  lemma InsertHighest(r: Rules, s: Chain, b: Block)
    requires r.Valid() && Inv(r, s) && Insert(r, s, b).Ok? && Height(r, s.head) < b.height
    ensures var s1 := Insert(r, s, b).value; Inv(r, s1) && s1.head == r.hash(b) && Height(r, s1.head) == b.height
    ensures r.hash(b) in Insert(r, s, b).value.tree
  {
    InsertInv(r, s, b);
  }

  /** After `b` has become the head, a block one above it can only follow `b`. */
  lemma HighestIsHead(r: Rules, s: Chain, b: Block, next: Block)
    requires r.Valid() && Inv(r, s) && Insert(r, s, b).Ok? && Height(r, s.head) < b.height
    requires next.height == b.height + 1 && Insert(r, Insert(r, s, b).value, next).Ok?
    ensures next.prev == r.hash(b)
  {
    assert next.prev in s.tree + {r.hash(b)};
  }

  lemma {:induction false} PathAncestors(r: Rules, q: seq<Block>, i: nat, k: nat)
    requires r.Valid() && i < |q| && Consecutive(q) && k <= q[0].height
    requires forall j :: 0 < j < |q| ==> q[j].prev == r.hash(q[j - 1])
    ensures AncestorAt(r, r.hash(q[i]), k) == AncestorAt(r, r.hash(q[0]), k)
    ensures q[0].height <= q[i].height
  {
    if i > 0 {
      PathAncestors(r, q, i - 1, k);
    }
  }

  // ---- the steps ----------------------------------------------------------

  /** Rolling the first queued node commutes with the later nodes already hanging on the tree. */
  lemma RollCommutes(r: Rules, s: Chain, q: seq<Block>)
    requires r.Valid() && Inv(r, s) && q != [] && InsertAll(r, s, q).Some? && Consecutive(q)
    ensures var s1 := Insert(r, s, q[0]).value;
      RollStore(r, s.(tree := s.tree + Hashes(r, q)), r.hash(q[0])) == s1.(tree := s1.tree + Hashes(r, q[1..]))
  {
    var h := r.hash(q[0]);
    var c := s.(tree := s.tree + {h});
    QueueTree(r, s, q);
    if Rolls(r, c, h) {
      RollsAbove(r, s, q, c, h, NewRoot(r, c, h));
    }
    RollAmid(r, c, h, Hashes(r, q[1..]));
  }

  lemma QueueTree(r: Rules, s: Chain, q: seq<Block>)
    requires q != [] && InsertAll(r, s, q).Some?
    ensures s.tree + Hashes(r, q) == s.tree + {r.hash(q[0])} + Hashes(r, q[1..])
    ensures Insert(r, s, q[0]) == Ok(RollStore(r, s.(tree := s.tree + {r.hash(q[0])}), r.hash(q[0])))
  {
  }

  lemma RollsAbove(r: Rules, s: Chain, q: seq<Block>, c: Chain, h: Hash, root: Hash)
    requires r.Valid() && Inv(r, s) && q != [] && InsertAll(r, s, q).Some? && Consecutive(q)
    requires c == s.(tree := c.tree) && h == r.hash(q[0]) && Rolls(r, c, h) && root == NewRoot(r, c, h)
    ensures forall m :: m in Hashes(r, q[1..]) ==> AncestorAt(r, m, Height(r, root)) == root
  {
    NewRootIs(r, s, c, h);
    QueueDescends(r, s, q, h, root);
  }

  lemma NewRootIs(r: Rules, s: Chain, c: Chain, h: Hash)
    requires c == s.(tree := c.tree) && Rolls(r, c, h)
    ensures Height(r, s.head) < Height(r, h) && NewRoot(r, c, h) == AncestorAt(r, h, Height(r, s.root) + 1)
  {
  }

  /** Nodes that descend from the root to be are not touched by a roll, nor do they touch it. */
  lemma RollAmid(r: Rules, c: Chain, h: Hash, more: set<Hash>)
    requires Rolls(r, c, h) ==>
      forall m :: m in more ==> AncestorAt(r, m, Height(r, NewRoot(r, c, h))) == NewRoot(r, c, h)
    ensures var c1 := RollStore(r, c, h);
      RollStore(r, c.(tree := c.tree + more), h) == c1.(tree := c1.tree + more)
  {
    if Rolls(r, c, h) {
      DescendantsJoin(r, c.tree, more, NewRoot(r, c, h));
    }
  }

  lemma DescendantsJoin(r: Rules, tree: set<Hash>, more: set<Hash>, root: Hash)
    requires forall h :: h in more ==> AncestorAt(r, h, Height(r, root)) == root
    ensures Descendants(r, tree + more, root) == Descendants(r, tree, root) + more
  {
  }

  lemma HeadAboveRoot(r: Rules, s: Chain, b: Block)
    requires r.Valid() && Inv(r, s) && Insert(r, s, b).Ok?
    ensures Good(r, r.hash(b)) && Height(r, s.root) <= Height(r, s.head)
  {
  }

  lemma QueueDescends(r: Rules, s: Chain, q: seq<Block>, h: Hash, root: Hash)
    requires r.Valid() && Inv(r, s) && q != [] && InsertAll(r, s, q).Some? && Consecutive(q)
    requires h == r.hash(q[0]) && Height(r, s.head) < Height(r, h) && root == AncestorAt(r, h, Height(r, s.root) + 1)
    ensures forall m :: m in Hashes(r, q[1..]) ==> AncestorAt(r, m, Height(r, root)) == root
  {
    QueueIsPath(r, s, q);
    HeadAboveRoot(r, s, q[0]);
    PathDescends(r, q, Height(r, s.root) + 1, h, root);
  }

  lemma PathDescends(r: Rules, q: seq<Block>, k: nat, h: Hash, root: Hash)
    requires r.Valid() && q != [] && Consecutive(q) && forall j :: 0 < j < |q| ==> q[j].prev == r.hash(q[j - 1])
    requires h == r.hash(q[0]) && Good(r, h) && k <= Height(r, h) && root == AncestorAt(r, h, k)
    ensures forall m :: m in Hashes(r, q[1..]) ==> AncestorAt(r, m, Height(r, root)) == root
  {
    GoodAncestor(r, h, k);
    forall b | b in q[1..]
      ensures AncestorAt(r, r.hash(b), Height(r, root)) == root
    {
      var i :| 0 < i < |q| && q[i] == b;
      PathAncestors(r, q, i, Height(r, root));
    }
  }

  /** Once the queue passes the head, its last block is in the tree when all of it is rolled. */
  lemma LastStays(r: Rules, s: Chain, q: seq<Block>)
    requires r.Valid() && Inv(r, s) && q != [] && InsertAll(r, s, q).Some? && Consecutive(q)
    requires Height(r, s.head) < q[|q| - 1].height
    ensures r.hash(q[|q| - 1]) in InsertAll(r, s, q).value.tree
  {
    if Height(r, s.head) < q[0].height {
      QueueIsPath(r, s, q);
    } else {
      LastStaysBehind(r, s, q, Height(r, s.head) - q[0].height + 1);
    }
  }

  lemma LastStaysBehind(r: Rules, s: Chain, q: seq<Block>, n: nat)
    requires r.Valid() && Inv(r, s) && q != [] && InsertAll(r, s, q).Some? && Consecutive(q)
    requires q[0].height + n == Height(r, s.head) + 1 && 0 < n < |q|
    ensures r.hash(q[|q| - 1]) in InsertAll(r, s, q).value.tree
  {
    SplitQueue(r, s, q, n);
    InsertAllInv(r, s, q[..n]);
    NothingMoved(r, s, q[..n]);
    TailPasses(q, n, Height(r, s.head));
    QueueIsPath(r, InsertAll(r, s, q[..n]).value, q[n..]);
  }

  lemma TailPasses(q: seq<Block>, n: nat, head: nat)
    requires n < |q| && Consecutive(q) && q[0].height + n == head + 1
    ensures Consecutive(q[n..]) && q[n..][0].height == head + 1 && q[n..][|q| - n - 1] == q[|q| - 1]
    ensures forall b :: b in q[..n] ==> b.height <= head
  {
  }

  /** A parent that the executor finds will still be there when the queue has been rolled. */
  lemma LocatedStays(r: Rules, s: Chain, q: seq<Block>, b: Block)
    requires r.Valid() && Inv(r, s) && InsertAll(r, s, q).Some? && Consecutive(q + [b])
    requires b.prev in s.tree + Hashes(r, q) && b.height == Height(r, b.prev) + 1
    ensures b.prev in InsertAll(r, s, q).value.tree
  {
    if q == [] {
      assert Hashes(r, q) == {};
    } else {
      HeightsUpTo(q, b);
      if q[|q| - 1].height <= Height(r, s.head) {
        NothingPruned(r, s, q);
      } else {
        LastStays(r, s, q);
        LastIsParent(r, s, q, b);
      }
    }
  }

  lemma LastIsParent(r: Rules, s: Chain, q: seq<Block>, b: Block)
    requires r.Valid() && q != [] && Consecutive(q) && HeadHighest(r, s) && Height(r, s.head) < q[|q| - 1].height
    requires b.prev in s.tree + Hashes(r, q) && Height(r, b.prev) == q[|q| - 1].height
    ensures b.prev == r.hash(q[|q| - 1])
  {
    var i :| 0 <= i < |q| && b.prev == r.hash(q[i]);
    assert q[i].height == q[0].height + i;
  }

  lemma HeightsUpTo(q: seq<Block>, b: Block)
    requires q != [] && Consecutive(q + [b])
    ensures Consecutive(q) && b.height == q[|q| - 1].height + 1
    ensures forall g :: g in q ==> q[0].height <= g.height <= q[|q| - 1].height
  {
    var s := q + [b];
    assert s[0] == q[0] && s[|q|] == b && s[|q| - 1] == q[|q| - 1];
    forall i | 0 <= i < |q|
      ensures q[i].height == q[0].height + i
    {
      assert s[i] == q[i];
    }
  }

  lemma {:induction false} SplitQueue(r: Rules, s: Chain, q: seq<Block>, n: nat)
    requires n <= |q| && InsertAll(r, s, q).Some?
    ensures InsertAll(r, s, q[..n]).Some?
    ensures InsertAll(r, InsertAll(r, s, q[..n]).value, q[n..]) == InsertAll(r, s, q)
    decreases |q|
  {
    if n > 0 {
      SplitQueue(r, Insert(r, s, q[0]).value, q[1..], n - 1);
      assert q[..n][1..] == q[1..][..n - 1];
      assert q[1..][n - 1..] == q[n..];
    }
  }

  lemma {:induction false} NothingMoved(r: Rules, s: Chain, q: seq<Block>)
    requires r.Valid() && InsertAll(r, s, q).Some?
    requires forall b :: b in q ==> b.height <= Height(r, s.head)
    ensures InsertAll(r, s, q).value.head == s.head
    decreases |q|
  {
    if q != [] {
      NothingMoved(r, Insert(r, s, q[0]).value, q[1..]);
    }
  }

  // ---- every step keeps the relation and the outcome ----------------------

  lemma {:induction false} InOrderConsecutive(hei: nat, bs: seq<Block>)
    ensures Consecutive(InOrder(hei, bs))
    ensures InOrder(hei, bs) != [] ==> InOrder(hei, bs)[0].height == hei
    ensures InOrder(hei, bs) <= bs
    decreases |bs|
  {
    if bs != [] && bs[0].height == hei {
      InOrderConsecutive(hei + 1, bs[1..]);
    }
  }

  lemma ParseOrder(p: Pipe)
    requires OrderOk(p) && Enabled(p, Parse)
    ensures p.raw[0].height == p.hei ==>
      var p1 := p.(raw := p.raw[1..], hei := p.hei + 1, parsed := p.parsed + [p.raw[0]]);
      Remaining(p1) == Remaining(p) && OrderOk(p1)
    ensures p.raw[0].height != p.hei ==>
      var p1 := p.(raw := [], badData := true);
      Remaining(p1) == Remaining(p) && OrderOk(p1)
  {
    if p.raw[0].height == p.hei {
      var p1 := p.(raw := p.raw[1..], hei := p.hei + 1, parsed := p.parsed + [p.raw[0]]);
      assert Remaining(p1) == Remaining(p);
    }
  }

  lemma ParseStep(r: Rules, p: Pipe, s: Chain, d: Chain)
    requires Sim(r, p, s, d) && Enabled(p, Parse)
    ensures var p1 := Step(r, p, Parse);
      Sim(r, p1, s, d) && Outcome(r, p1, d) == Outcome(r, p, d)
  {
    ParseOrder(p);
  }

  lemma OrderFacts(p: Pipe)
    requires OrderOk(p)
    ensures Consecutive(p.queue)
    ensures !p.failed && Remaining(p) != [] ==> Consecutive(p.queue + [Remaining(p)[0]])
  {
    if !p.failed {
      var all := p.queue + Remaining(p);
      assert p.queue == all[..|p.queue|];
      assert Remaining(p) != [] ==> p.queue + [Remaining(p)[0]] == all[..|p.queue| + 1];
    }
  }

  lemma SyncStops(r: Rules, d: Chain, bs: seq<Block>)
    requires bs != [] && Check(r, d.tree, bs[0]).Some?
    ensures Sync(r, d, bs) == (d, false)
  {
  }

  lemma LocateOrder(p: Pipe)
    requires OrderOk(p) && Enabled(p, Locate)
    ensures var p1 := p.(parsed := p.parsed[1..], base := Some(p.parsed[0]));
      OrderOk(p1) && Remaining(p1) == Remaining(p)
    ensures Remaining(p)[0] == p.parsed[0]
    ensures OrderOk(p.(failed := true))
  {
    var p1 := p.(parsed := p.parsed[1..], base := Some(p.parsed[0]));
    assert Remaining(p1) == Remaining(p);
    OrderFacts(p);
  }

  /** What the executor finds in the tree now is what it will find when the queue is rolled. */
  lemma LocateTree(r: Rules, s: Chain, q: seq<Block>, d: Chain, b: Block)
    requires r.Valid() && Inv(r, s) && InsertAll(r, s, q) == Some(d) && Consecutive(q + [b]) && Consecutive(q)
    ensures b.prev !in s.tree + Hashes(r, q) || r.hash(b) in s.tree + Hashes(r, q) ==> Check(r, d.tree, b).Some?
    ensures r.hash(b) !in s.tree + Hashes(r, q) && b.prev in s.tree + Hashes(r, q) ==> Located(r, b, d)
  {
    InsertAllInv(r, s, q);
    if r.hash(b) in s.tree + Hashes(r, q) {
      LocateRepeated(r, s, q, b);
    } else if b.prev in s.tree + Hashes(r, q) && b.height == Height(r, b.prev) + 1 {
      LocatedStays(r, s, q, b);
    }
  }

  lemma LocateStep(r: Rules, p: Pipe, s: Chain, d: Chain)
    requires r.Valid() && Sim(r, p, s, d) && Enabled(p, Locate)
    ensures var p1 := Step(r, p, Locate);
      Sim(r, p1, s, d) && Outcome(r, p1, d) == Outcome(r, p, d)
  {
    LocateOrder(p);
    OrderFacts(p);
    LocateTree(r, s, p.queue, d, p.parsed[0]);
    if Step(r, p, Locate).failed {
      SyncStops(r, d, Remaining(p));
    }
  }

  /** A repeated block is also repeated once the queue has been rolled, or lost its parent. */
  lemma LocateRepeated(r: Rules, s: Chain, q: seq<Block>, b: Block)
    requires r.Valid() && Inv(r, s) && InsertAll(r, s, q).Some? && Consecutive(q + [b])
    requires r.hash(b) in s.tree + Hashes(r, q)
    ensures r.hash(b) in InsertAll(r, s, q).value.tree
  {
    if q == [] {
      assert Hashes(r, q) == {};
    } else {
      HeightsUpTo(q, b);
      NothingPruned(r, s, q);
    }
  }

  lemma ExecuteOrder(p: Pipe)
    requires OrderOk(p) && Enabled(p, Execute) && !p.failed
    ensures Remaining(p) == [p.base.value] + Remaining(p.(base := None))
    ensures OrderOk(p.(base := None, failed := true))
    ensures forall c: Chain :: OrderOk(p.(chain := c, base := None, queue := p.queue + [p.base.value]))
  {
    OrderFacts(p);
    var rest := p.parsed + InOrder(p.hei, p.raw);
    assert p.queue + Remaining(p) == p.queue + [p.base.value] + rest;
    assert [] + p.parsed + InOrder(p.hei, p.raw) == rest;
  }

  lemma ExecuteTree(r: Rules, s: Chain, q: seq<Block>, c: Chain, d: Chain, b: Block)
    requires r.Valid() && Inv(r, s) && Ahead(r, s, q, c, d) && Located(r, b, d)
    requires b.height == Height(r, b.prev) + 1 && StateOf(r, r.hash(b)).Some?
    ensures b.prev in c.tree && Insert(r, d, b).Ok?
    ensures Ahead(r, s, q + [b], c.(tree := c.tree + {r.hash(b)}), Insert(r, d, b).value)
  {
    LocatedFits(r, s, q, d, b);
    InsertOneMore(r, s, q, d, b);
    assert s.tree + Hashes(r, q + [b]) == (s.tree + Hashes(r, q)) + {r.hash(b)};
  }

  lemma LocatedFits(r: Rules, s: Chain, q: seq<Block>, d: Chain, b: Block)
    requires r.Valid() && Inv(r, s) && InsertAll(r, s, q) == Some(d) && Located(r, b, d)
    requires b.height == Height(r, b.prev) + 1 && StateOf(r, r.hash(b)).Some?
    ensures b.prev in s.tree + Hashes(r, q) && Insert(r, d, b).Ok?
  {
    InsertAllInv(r, s, q);
  }

  lemma InsertOneMore(r: Rules, s: Chain, q: seq<Block>, d: Chain, b: Block)
    requires InsertAll(r, s, q) == Some(d) && Insert(r, d, b).Ok?
    ensures InsertAll(r, s, q + [b]) == Some(Insert(r, d, b).value)
    ensures Hashes(r, q + [b]) == Hashes(r, q) + {r.hash(b)}
  {
    InsertLast(r, s, q, b);
  }

  lemma ExecuteStep(r: Rules, p: Pipe, s: Chain, d: Chain) returns (d1: Chain)
    requires r.Valid() && Sim(r, p, s, d) && Enabled(p, Execute)
    ensures var p1 := Step(r, p, Execute);
      Sim(r, p1, s, d1) && Outcome(r, p1, d1) == Outcome(r, p, d)
  {
    var b := p.base.value;
    ExecuteOrder(p);
    if Step(r, p, Execute).failed {
      d1 := d;
      SyncStops(r, d, Remaining(p));
    } else {
      ExecuteTree(r, s, p.queue, p.chain, d, b);
      d1 := Insert(r, d, b).value;
    }
  }

  lemma {:induction false} InsertLast(r: Rules, s: Chain, q: seq<Block>, b: Block)
    requires InsertAll(r, s, q).Some?
    ensures InsertAll(r, s, q + [b]) == InsertAll(r, InsertAll(r, s, q).value, [b])
    decreases |q|
  {
    if q == [] {
      assert q + [b] == [b];
    } else {
      InsertLast(r, Insert(r, s, q[0]).value, q[1..], b);
      assert (q + [b])[1..] == q[1..] + [b];
    }
  }

  lemma RollOrder(p: Pipe)
    requires OrderOk(p) && Enabled(p, Roll)
    ensures forall c: Chain :: OrderOk(p.(chain := c, queue := p.queue[1..]))
  {
    var rest := if p.failed then [] else Remaining(p);
    var all, all1 := p.queue + rest, p.queue[1..] + rest;
    assert p.failed ==> all == p.queue && all1 == p.queue[1..];
    assert all1 == all[1..];
    assert all1 != [] ==> all1[0] == all[1];
  }

  lemma RollStep(r: Rules, p: Pipe, s: Chain, d: Chain) returns (s1: Chain)
    requires r.Valid() && Sim(r, p, s, d) && Enabled(p, Roll)
    ensures var p1 := Step(r, p, Roll);
      Sim(r, p1, s1, d) && Outcome(r, p1, d) == Outcome(r, p, d)
  {
    s1 := Insert(r, s, p.queue[0]).value;
    InsertInv(r, s, p.queue[0]);
    OrderFacts(p);
    RollCommutes(r, s, p.queue);
    RollOrder(p);
  }

  lemma StepKeeps(r: Rules, p: Pipe, stage: Stage, s: Chain, d: Chain) returns (s1: Chain, d1: Chain)
    requires r.Valid() && Sim(r, p, s, d) && Enabled(p, stage)
    ensures Sim(r, Step(r, p, stage), s1, d1)
    ensures Outcome(r, Step(r, p, stage), d1) == Outcome(r, p, d)
  {
    s1, d1 := s, d;
    match stage
    case Parse => ParseStep(r, p, s, d);
    case Locate => LocateStep(r, p, s, d);
    case Execute => d1 := ExecuteStep(r, p, s, d);
    case Roll => s1 := RollStep(r, p, s, d);
  }

  /** The parser reports bad data exactly when some height is out of order. */
  ghost predicate DataOk(p: Pipe, hei: nat, bs: seq<Block>) {
    if p.badData then p.raw == [] && InOrder(hei, bs) != bs
    else InOrder(hei, bs) == bs <==> InOrder(p.hei, p.raw) == p.raw
  }

  lemma StepParses(r: Rules, p: Pipe, stage: Stage, hei: nat, bs: seq<Block>)
    requires DataOk(p, hei, bs) && Enabled(p, stage)
    ensures DataOk(Step(r, p, stage), hei, bs)
  {
    if stage == Parse && p.raw[0].height == p.hei {
      assert InOrder(p.hei, p.raw) == [p.raw[0]] + InOrder(p.hei + 1, p.raw[1..]);
      assert p.raw == [p.raw[0]] + p.raw[1..];
      assert InOrder(p.hei, p.raw)[1..] == InOrder(p.hei + 1, p.raw[1..]);
    }
  }

  /** A pipeline on its way from `c` through the batch `bs` that starts at height `hei`. */
  ghost predicate Running(r: Rules, p: Pipe, s: Chain, d: Chain, c: Chain, hei: nat, bs: seq<Block>) {
    && Sim(r, p, s, d)
    && Outcome(r, p, d) == Sync(r, c, InOrder(hei, bs))
    && DataOk(p, hei, bs)
  }

  lemma RunningStart(r: Rules, c: Chain, hei: nat, bs: seq<Block>)
    requires r.Valid() && Inv(r, c)
    ensures Running(r, Begin(c, hei, bs), c, c, c, hei, bs)
  {
    BeginOrder(c, hei, bs);
    NothingAhead(r, c);
  }

  lemma BeginOrder(c: Chain, hei: nat, bs: seq<Block>)
    ensures var p := Begin(c, hei, bs); Remaining(p) == InOrder(hei, bs) && OrderOk(p)
  {
    var p := Begin(c, hei, bs);
    InOrderConsecutive(hei, bs);
    assert p.queue + Remaining(p) == InOrder(hei, bs) == Remaining(p);
  }

  lemma NothingAhead(r: Rules, c: Chain)
    ensures Ahead(r, c, [], c, c)
  {
    assert c.tree + Hashes(r, []) == c.tree;
  }

  lemma RunningStep(r: Rules, p: Pipe, stage: Stage, s: Chain, d: Chain, c: Chain, hei: nat, bs: seq<Block>)
    returns (s1: Chain, d1: Chain)
    requires r.Valid() && Running(r, p, s, d, c, hei, bs) && Enabled(p, stage)
    ensures Running(r, Step(r, p, stage), s1, d1, c, hei, bs)
  {
    s1, d1 := StepKeeps(r, p, stage, s, d);
    StepParses(r, p, stage, hei, bs);
  }

  lemma RunningEnd(r: Rules, p: Pipe, s: Chain, d: Chain, c: Chain, hei: nat, bs: seq<Block>)
    requires Running(r, p, s, d, c, hei, bs) && Finished(p)
    ensures var (e, ok) := Sync(r, c, InOrder(hei, bs));
      p.chain == e && (Succeeded(p) <==> ok && InOrder(hei, bs) == bs) && Inv(r, p.chain)
  {
    assert s.tree + Hashes(r, p.queue) == s.tree;
  }

  lemma {:induction false} RunKeeps(
    r: Rules, p: Pipe, sched: seq<Stage>, s: Chain, d: Chain, c: Chain, hei: nat, bs: seq<Block>)
    returns (s1: Chain, d1: Chain)
    requires r.Valid() && Running(r, p, s, d, c, hei, bs)
    ensures Running(r, RunPipe(r, p, sched), s1, d1, c, hei, bs)
    decreases |sched|
  {
    if sched == [] || !Enabled(p, sched[0]) {
      s1, d1 := s, d;
    } else {
      s1, d1 := RunningStep(r, p, sched[0], s, d, c, hei, bs);
      s1, d1 := RunKeeps(r, Step(r, p, sched[0]), sched[1..], s1, d1, c, hei, bs);
    }
  }

  /** Whatever the order of the stages, a finished pipeline leaves the chain that inserting the
      blocks one at a time leaves, and reports success exactly when all of them were accepted. */
  lemma PipelineRefinesSequence(r: Rules, c: Chain, hei: nat, bs: seq<Block>, sched: seq<Stage>)
    requires r.Valid() && Inv(r, c)
    requires Finished(RunPipe(r, Begin(c, hei, bs), sched))
    ensures var p := RunPipe(r, Begin(c, hei, bs), sched);
      var (d, ok) := Sync(r, c, InOrder(hei, bs));
      p.chain == d && (Succeeded(p) <==> ok && InOrder(hei, bs) == bs)
  {
    RunningStart(r, c, hei, bs);
    var s, d := RunKeeps(r, Begin(c, hei, bs), sched, c, c, c, hei, bs);
    RunningEnd(r, RunPipe(r, Begin(c, hei, bs), sched), s, d, c, hei, bs);
  }

  /** Until it is finished some stage has work, and every step uses some of it up. */
  function Work(p: Pipe): nat {
    4 * |p.raw| + 3 * |p.parsed| + (if p.base.Some? then 2 else 0) + |p.queue| + (if p.failed then 0 else 1)
  }

  lemma SomeStageHasWork(p: Pipe)
    requires !Finished(p)
    ensures exists s :: Enabled(p, s)
  {
    if p.raw != [] {
      assert Enabled(p, Parse);
    } else if p.base.Some? {
      assert Enabled(p, Execute);
    } else if p.queue != [] {
      assert Enabled(p, Roll);
    } else {
      assert Enabled(p, Locate);
    }
  }

  lemma StepUsesWork(r: Rules, p: Pipe, s: Stage)
    requires Enabled(p, s)
    ensures Work(Step(r, p, s)) < Work(p)
  {
    match s
    case Parse =>
    case Locate =>
    case Execute =>
    case Roll =>
  }

  // ---- what the stages may rely on ----------------------------------------

  /** The parent that the executor has located is still in the tree when it is needed. */
  lemma LocatedInTree(r: Rules, p: Pipe, s: Chain, d: Chain)
    requires r.Valid() && Sim(r, p, s, d) && p.base.Some?
    ensures p.base.value.height == Height(r, p.base.value.prev) + 1 ==> p.base.value.prev in p.chain.tree
  {
    InsertAllInv(r, s, p.queue);
  }

  lemma ExecuteSimply(r: Rules, p: Pipe)
    requires p.base.Some?
    requires p.base.value.height == Height(r, p.base.value.prev) + 1 ==> p.base.value.prev in p.chain.tree
    ensures var b := p.base.value;
      Step(r, p, Execute) ==
        if b.height == Height(r, b.prev) + 1 && Good(r, r.hash(b)) then
          p.(chain := p.chain.(tree := p.chain.tree + {r.hash(b)}), base := None, queue := p.queue + [b])
        else p.(base := None, failed := true)
  {
  }

  /** No queued block is the located one. */
  lemma LocatedIsNew(r: Rules, p: Pipe, s: Chain, d: Chain)
    requires r.Valid() && Sim(r, p, s, d) && p.base.Some?
    ensures forall g :: g in p.queue ==> r.hash(g) != r.hash(p.base.value)
  {
    OrderFacts(p);
    if p.queue != [] {
      HeightsUpTo(p.queue, p.base.value);
    }
  }

  /** The next node to be rolled hangs on the tree, at most one above the head. */
  lemma QueuedIsReady(r: Rules, p: Pipe, s: Chain, d: Chain)
    requires r.Valid() && Sim(r, p, s, d) && p.queue != []
    ensures var h := r.hash(p.queue[0]);
      && h in p.chain.tree && h != p.chain.root && h != r.Root() && Height(r, h) <= Height(r, p.chain.head) + 1
      && Rollable(r, p.chain)
  {
    var b := p.queue[0];
    assert b in p.queue && r.hash(b) in Hashes(r, p.queue);
    assert Check(r, s.tree, b).None?;
    assert r.unhash(r.hash(b)) == b && r.unhash(r.Root()) == r.genesis;
  }
}
