/**
 The nodes of the block tree and what holds of them at any moment, as a value: which chunks are
 reachable from the root, who lists whom, and where the weak links lead.
 */
module RollTree {
  import opened Base
  import opened ChainSpec
  import opened ChainState

  /** `parent` is a weak link; it is set before the node is shared and never changes after that. */
  class RollChunk {
    const height: nat
    const hash: Hash
    const block: Block
    const state: State
    const parent: RollChunk?
    var childs: seq<RollChunk>

    constructor (hash: Hash, block: Block, state: State, parent: RollChunk?)
      ensures this.block == block && this.hash == hash && height == block.height
      ensures this.state == state && this.parent == parent && childs == []
    {
      this.block, this.hash, this.height := block, hash, block.height;
      this.state, this.parent := state, parent;
      childs := [];
    }

    method PushChild(c: RollChunk)
      modifies this
      ensures childs == old(childs) + [c]
    {
      childs := childs + [c];
    }
  }

  type Kids = map<RollChunk, seq<RollChunk>>

  /** `node` finds the chunks reachable from `root`; `chunks` are all that were ever made, alive or
      not, and `kids` records the child list of each. */
  datatype Index = Index(
    active: bool, rules: Rules, root: RollChunk?, head: RollChunk?,
    node: map<Hash, RollChunk>, chunks: set<RollChunk>, kids: Kids)
  {
    ghost predicate Has(c: RollChunk) {
      c.hash in node && node[c.hash] == c
    }

    ghost predicate ChunkOk(c: RollChunk) {
      && c.hash == rules.hash(c.block) && c.height == c.block.height
      && Good(rules, c.hash)
      && (c.parent != null ==> c.parent in chunks && c.parent.hash == c.block.prev && c.hash != rules.Root())
    }

    /** The links of a node lead to its parent's node and state. */
    ghost predicate ParentOk(c: RollChunk) {
      c.parent != null && Has(c.parent) && c.state.base == c.parent.state
      && c.parent in kids && c in kids[c.parent]
    }

    /** A node lists nodes whose parent it is, each once. */
    ghost predicate ListOk(c: RollChunk) {
      && c in kids
      && (forall i :: 0 <= i < |kids[c]| ==> Has(kids[c][i]) && kids[c][i].parent == c && kids[c][i] != root)
      && (forall i, j :: 0 <= i < j < |kids[c]| ==> kids[c][i] != kids[c][j])
    }

    ghost predicate Sound()
      requires root != null && head != null
    {
      && (forall c {:trigger ChunkOk(c)} :: c in chunks ==> ChunkOk(c))
      && (forall c {:trigger ParentOk(c)} :: c in chunks && Has(c) && c != root ==> ParentOk(c))
      && (forall c {:trigger ListOk(c)} :: c in chunks && Has(c) ==> ListOk(c))
      && IsTree(rules, node.Keys, root.hash, head.hash)
    }

    /** Marks the places where what `Sound` says of an index is looked at. */
    ghost predicate Look() {
      true
    }

    /** `Sound`, to be used only where the index is looked at, which keeps other proofs small. */
    ghost predicate Ok() {
      active ==>
        && rules.Valid() && kids.Keys == chunks
        && root != null && Has(root) && head != null && Has(head)
        && (forall h :: h in node ==> node[h].hash == h && node[h] in chunks)
        && forall t: Index {:trigger t.Look()} :: t == this ==> t.Sound()
    }

    /** The index with `c` hung below `base`. */
    function Grow(base: RollChunk, c: RollChunk): Index
      requires base in kids
    {
      this.(node := node[c.hash := c], chunks := chunks + {c},
            kids := kids[base := kids[base] + [c]][c := []])
    }

    /** The index with `c` as head and `top` as root, without the nodes that `top` does not reach. */
    function Move(c: RollChunk, top: RollChunk): Index {
      this.(head := c, root := top,
            node := map h | h in node && AncestorAt(rules, h, Height(rules, top.hash)) == top.hash :: node[h])
    }
  }

  type Tree = t: Index | t.Ok()
    witness Index(false, Rules(Block(0, 0, []), 0, 0, (p, b) => Done, b => 0, h => Block(0, 0, [])), null, null,
      map[], {}, map[])

  lemma GrowIsTree(t: Tree, c: RollChunk)
    requires t.active && c.hash !in t.node && c.hash == t.rules.hash(c.block) && c.hash != t.rules.Root()
    requires Good(t.rules, c.hash) && c.block.prev in t.node
    ensures IsTree(t.rules, t.node.Keys + {c.hash}, t.root.hash, t.head.hash)
  {
    assert t.Look();
    GoodParent(t.rules, c.hash);
    ExecTree(t.rules, Chain(t.node.Keys, t.root.hash, t.head.hash, map[], map[], Status(0, 0)), c.block);
  }

  /** A new node below one of the tree. */
  ghost predicate Fits(t: Tree, base: RollChunk, c: RollChunk) {
    && t.active && t.Has(base) && base in t.kids && c !in t.chunks && c.hash !in t.node
    && c.hash == t.rules.hash(c.block) && c.height == c.block.height && c.hash != t.rules.Root() &&
      Good(t.rules, c.hash)
    && c.parent == base && c.block.prev == base.hash && c.state.base == base.state
  }

  lemma GrowOk(t: Tree, base: RollChunk, c: RollChunk)
    requires Fits(t, base, c)
    ensures t.Grow(base, c).Ok()
  {
    GrowSound(t, base, c);
    forall h | h in t.Grow(base, c).node
      ensures h == c.hash || t.node[h].hash == h
    {
    }
  }

  lemma GrowSound(t: Tree, base: RollChunk, c: RollChunk)
    requires Fits(t, base, c)
    ensures t.Grow(base, c).Sound()
  {
    var u := t.Grow(base, c);
    GrowIsTree(t, c);
    assert u.node.Keys == t.node.Keys + {c.hash};
    forall d | d in u.chunks
      ensures u.ChunkOk(d)
    {
      GrowChunk(t, base, c, d);
    }
    forall d | d in u.chunks && u.Has(d) && d != u.root
      ensures u.ParentOk(d)
    {
      GrowParent(t, base, c, d);
    }
    forall d | d in u.chunks && u.Has(d)
      ensures u.ListOk(d)
    {
      GrowList(t, base, c, d);
    }
  }

  lemma GrowChunk(t: Tree, base: RollChunk, c: RollChunk, d: RollChunk)
    requires Fits(t, base, c) && d in t.chunks + {c}
    ensures t.Grow(base, c).ChunkOk(d)
  {
    assert t.Look();
    assert d != c ==> t.ChunkOk(d);
    assert t.ChunkOk(base);
  }

  lemma GrowParent(t: Tree, base: RollChunk, c: RollChunk, d: RollChunk)
    requires Fits(t, base, c) && d in t.chunks + {c} && d != t.root && t.Grow(base, c).Has(d)
    ensures t.Grow(base, c).ParentOk(d)
  {
    assert t.Look();
    var u := t.Grow(base, c);
    assert t.ChunkOk(base);
    if d == c {
      assert u.kids[base][|t.kids[base]|] == c;
    } else {
      assert t.ParentOk(d);
      assert t.kids[d.parent] <= u.kids[d.parent];
    }
  }

  lemma GrowList(t: Tree, base: RollChunk, c: RollChunk, d: RollChunk)
    requires Fits(t, base, c) && d in t.chunks + {c} && t.Grow(base, c).Has(d)
    ensures t.Grow(base, c).ListOk(d)
  {
    assert t.Look();
    var u := t.Grow(base, c);
    if d == c {
      assert u.kids[d] == [];
    } else {
      assert t.ListOk(d);
      assert u.kids[d] == if d == base then t.kids[d] + [c] else t.kids[d];
      forall i | 0 <= i < |t.kids[d]|
        ensures u.Has(t.kids[d][i]) && t.kids[d][i] != c
      {
        assert t.Has(t.kids[d][i]);
      }
    }
  }

  lemma GrowPicture(t: Tree, base: RollChunk, c: RollChunk)
    requires base in t.kids
    ensures t.Grow(base, c).node.Keys == t.node.Keys + {c.hash}
    ensures t.Grow(base, c).node.Values <= t.node.Values + {c}
    ensures forall u: Tree :: u == t.Grow(base, c) ==> TreeStates(u) <= TreeStates(t) + {c.state}
    ensures t.Grow(base, c).Has(c)
  {
  }

  // ---- moving head and root -----------------------------------------------

  ghost predicate Below(t: Tree, c: RollChunk, top: RollChunk) {
    t.active && t.Has(c) && t.Has(top) && AncestorAt(t.rules, c.hash, Height(t.rules, top.hash)) == top.hash
  }

  lemma MoveOk(t: Tree, c: RollChunk, top: RollChunk)
    requires Below(t, c, top)
    ensures t.Move(c, top).Ok()
    ensures t.Move(c, top).node.Keys == Descendants(t.rules, t.node.Keys, top.hash)
  {
    MoveSound(t, c, top);
    assert t.Move(c, top).node.Keys == Descendants(t.rules, t.node.Keys, top.hash);
    assert AncestorAt(t.rules, top.hash, Height(t.rules, top.hash)) == top.hash;
  }

  lemma MoveSound(t: Tree, c: RollChunk, top: RollChunk)
    requires Below(t, c, top)
    ensures t.Move(c, top).Sound()
  {
    var u := t.Move(c, top);
    MoveIsTree(t, c, top);
    forall d | d in u.chunks
      ensures u.ChunkOk(d)
    {
      MoveChunk(t, c, top, d);
    }
    forall d | d in u.chunks && u.Has(d) && d != u.root
      ensures u.ParentOk(d)
    {
      MoveParent(t, c, top, d);
    }
    forall d | d in u.chunks && u.Has(d)
      ensures u.ListOk(d)
    {
      MoveList(t, c, top, d);
    }
  }

  lemma MoveIsTree(t: Tree, c: RollChunk, top: RollChunk)
    requires Below(t, c, top)
    ensures IsTree(t.rules, t.Move(c, top).node.Keys, top.hash, c.hash)
  {
    assert t.Look();
    assert t.Move(c, top).node.Keys == Descendants(t.rules, t.node.Keys, top.hash);
    CutTree(t.rules, Chain(t.node.Keys, t.root.hash, t.head.hash, map[], map[], Status(0, 0)), c.hash, top.hash);
  }

  lemma MoveChunk(t: Tree, c: RollChunk, top: RollChunk, d: RollChunk)
    requires t.active && d in t.chunks
    ensures t.Move(c, top).ChunkOk(d)
  {
    assert t.Look();
    assert t.ChunkOk(d);
  }

  lemma MoveParent(t: Tree, c: RollChunk, top: RollChunk, d: RollChunk)
    requires Below(t, c, top) && d in t.chunks && t.Has(d) && d != top
    requires AncestorAt(t.rules, d.hash, Height(t.rules, top.hash)) == top.hash
    ensures t.Move(c, top).ParentOk(d)
  {
    assert t.Look();
    assert t.ChunkOk(d) && t.ChunkOk(top);
    assert AncestorAt(t.rules, t.root.hash, Height(t.rules, t.root.hash)) == t.root.hash;
    assert Height(t.rules, t.root.hash) <= Height(t.rules, top.hash);
    assert d != t.root;
    assert t.ParentOk(d);
    assert AncestorAt(t.rules, t.rules.Root(), Height(t.rules, top.hash)) == t.rules.Root();
    GoodParent(t.rules, d.hash);
  }

  lemma MoveList(t: Tree, c: RollChunk, top: RollChunk, d: RollChunk)
    requires Below(t, c, top) && d in t.chunks && t.Has(d)
    requires AncestorAt(t.rules, d.hash, Height(t.rules, top.hash)) == top.hash
    ensures t.Move(c, top).ListOk(d)
  {
    assert t.Look();
    assert t.ListOk(d) && t.ChunkOk(d) && t.ChunkOk(top);
    GoodDepth(t, d, top);
    forall i | 0 <= i < |t.kids[d]|
      ensures t.Move(c, top).Has(t.kids[d][i]) && t.kids[d][i] != top
    {
      var e := t.kids[d][i];
      assert t.Has(e) && t.ChunkOk(e);
      GoodParent(t.rules, e.hash);
    }
  }

  lemma GoodDepth(t: Tree, d: RollChunk, top: RollChunk)
    requires t.active && t.Has(d) && t.Has(top) && AncestorAt(t.rules, d.hash, Height(t.rules, top.hash)) == top.hash
    ensures Height(t.rules, top.hash) <= Height(t.rules, d.hash)
  {
    assert t.Look();
  }

  /** Without a roll nothing is cut off. */
  lemma MoveHeadOnly(t: Tree, c: RollChunk)
    requires t.active && t.Has(c)
    ensures Below(t, c, t.root) && t.Move(c, t.root).node == t.node
  {
    assert t.Look();
    assert c.hash in t.node.Keys;
    var u := t.Move(c, t.root);
    forall h | h in t.node
      ensures h in u.node
    {
      assert h in t.node.Keys;
    }
  }

  // ---- parent links -------------------------------------------------------

  lemma NodeFacts(t: Tree, c: RollChunk)
    requires t.active && t.Has(c)
    ensures c in t.chunks && c.height == Height(t.rules, c.hash) && c.hash == t.rules.hash(c.block)
    ensures Good(t.rules, c.hash) && Height(t.rules, t.root.hash) <= Height(t.rules, c.hash)
    ensures AncestorAt(t.rules, c.hash, Height(t.rules, t.root.hash)) == t.root.hash
    ensures c in t.kids && t.ListOk(c)
  {
    assert t.Look();
    assert t.ChunkOk(c) && c.hash in t.node.Keys;
  }

  /** Also outside the tree a parent link leads to the chunk of the parent block. */
  lemma ChunkFacts(t: Tree, c: RollChunk)
    requires t.active && c in t.chunks
    ensures c.height == Height(t.rules, c.hash) && c.block == t.rules.unhash(c.hash) && Good(t.rules, c.hash)
    ensures c.parent != null ==> c.parent in t.chunks && c.parent.hash == Prev(t.rules, c.hash)
    ensures c.parent != null ==> c.height == c.parent.height + 1 && Height(t.rules, c.parent.hash) == c.parent.height
    ensures c.parent != null ==> forall k: nat :: k < c.height ==>
      AncestorAt(t.rules, c.hash, k) == AncestorAt(t.rules, c.parent.hash, k)
  {
    assert t.Look();
    assert t.ChunkOk(c);
    if c.parent != null {
      assert t.ChunkOk(c.parent);
      GoodParent(t.rules, c.hash);
    }
  }

  lemma NodeParent(t: Tree, c: RollChunk)
    requires t.active && t.Has(c) && c != t.root
    ensures c.parent != null && t.Has(c.parent) && c.parent.hash == c.block.prev && c.state.base == c.parent.state
    ensures Height(t.rules, c.hash) == Height(t.rules, c.parent.hash) + 1 && c.parent in t.kids && c in t.kids[c.parent]
    ensures forall k: nat :: k < Height(t.rules, c.hash) ==>
      AncestorAt(t.rules, c.hash, k) == AncestorAt(t.rules, c.parent.hash, k)
  {
    assert t.Look();
    assert t.ChunkOk(c) && t.ParentOk(c);
    GoodParent(t.rules, c.hash);
  }

  lemma ParentAlive(t: Tree, c: RollChunk, alive: set<RollChunk>)
    requires t.active && t.Has(c) && c != t.root && t.node.Values <= alive
    ensures c.parent != null && c.parent in alive
  {
    NodeParent(t, c);
    assert c.parent in t.node.Values;
  }

  /** Follows `step` parent links, each of which must still upgrade. */
  function ScanParent(c: RollChunk?, step: nat, alive: set<RollChunk>): Option<RollChunk>
    decreases step
  {
    if c == null || c !in alive then None
    else if step == 0 then Some(c)
    else ScanParent(c.parent, step - 1, alive)
  }

  /** Down to the root every parent link upgrades and leads to the ancestor's node. */
  lemma {:induction false} ScanFinds(t: Tree, c: RollChunk, step: nat, k: nat, alive: set<RollChunk>)
    requires t.active && t.Has(c) && t.node.Values <= alive
    requires Height(t.rules, t.root.hash) <= k && k + step == Height(t.rules, c.hash)
    ensures AncestorAt(t.rules, c.hash, k) in t.node &&
      ScanParent(c, step, alive) == Some(t.node[AncestorAt(t.rules, c.hash, k)])
    decreases step
  {
    assert c in t.node.Values;
    if step == 0 {
      assert AncestorAt(t.rules, c.hash, k) == c.hash;
    } else {
      NodeParent(t, c);
      ScanFinds(t, c.parent, step - 1, k, alive);
    }
  }

  lemma {:induction false} AncestorNode(t: Tree, c: RollChunk, k: nat) returns (d: RollChunk)
    requires t.active && t.Has(c) && Height(t.rules, t.root.hash) <= k <= Height(t.rules, c.hash)
    ensures t.Has(d) && d.hash == AncestorAt(t.rules, c.hash, k) && d.height == Height(t.rules, d.hash) == k &&
      Below(t, c, d)
    decreases Height(t.rules, c.hash)
  {
    NodeFacts(t, c);
    if k == Height(t.rules, c.hash) {
      d := c;
    } else {
      NodeParent(t, c);
      d := AncestorNode(t, c.parent, k);
    }
  }

  /** A root with one child leaves no choice for the next root. */
  lemma OnlyChild(t: Tree, c: RollChunk)
    requires t.active && t.Has(c) && Height(t.rules, t.root.hash) < Height(t.rules, c.hash)
    ensures AncestorAt(t.rules, c.hash, Height(t.rules, t.root.hash) + 1) in t.node
    ensures var top := t.node[AncestorAt(t.rules, c.hash, Height(t.rules, t.root.hash) + 1)];
      && Below(t, c, top) && top.height == Height(t.rules, top.hash) == Height(t.rules, t.root.hash) + 1
      && t.root in t.kids && top in t.kids[t.root]
      && (|t.kids[t.root]| == 1 ==> top == t.kids[t.root][0])
  {
    var top := AncestorNode(t, c, Height(t.rules, t.root.hash) + 1);
    NodeParent(t, top);
    NodeFacts(t, top.parent);
  }

  // ---- a tree of one chunk ------------------------------------------------

  ghost function Seed(r: Rules, c: RollChunk): Index {
    Index(true, r, c, c, map[c.hash := c], {c}, map[c := []])
  }

  lemma SeedOk(r: Rules, c: RollChunk)
    requires r.Valid() && Good(r, c.hash) && c.hash == r.hash(c.block) && c.height == c.block.height && c.parent == null
    ensures Seed(r, c).Ok()
  {
    assert Seed(r, c).node.Keys == {c.hash};
    assert Seed(r, c).Sound();
  }

  // ---- searching ----------------------------------------------------------

  ghost predicate Under(t: Tree, c: RollChunk, h: Hash) {
    h in t.node && AncestorAt(t.rules, h, c.height) == c.hash
  }

  lemma UnderRoot(t: Tree, h: Hash)
    requires t.active
    ensures Under(t, t.root, h) <==> h in t.node
  {
    NodeFacts(t, t.root);
    if h in t.node {
      NodeFacts(t, t.node[h]);
    }
  }

  lemma ChildIsSmaller(t: Tree, c: RollChunk, i: nat)
    requires t.active && t.Has(c) && c in t.kids && i < |t.kids[c]|
    ensures t.Has(t.kids[c][i]) && t.kids[c][i] in t.chunks && t.kids[c][i].height == c.height + 1
    ensures Descendants(t.rules, t.node.Keys, t.kids[c][i].hash) < Descendants(t.rules, t.node.Keys, c.hash)
  {
    NodeFacts(t, c);
    var d := t.kids[c][i];
    assert t.Has(d);
    NodeFacts(t, d);
    NodeParent(t, d);
    DescendantsShrink(t.rules, t.node.Keys, c.hash, d.hash);
  }

  lemma DescendantsShrink(r: Rules, tree: set<Hash>, top: Hash, d: Hash)
    requires top in tree && Height(r, d) == Height(r, top) + 1 && AncestorAt(r, d, Height(r, top)) == top
    ensures Descendants(r, tree, d) < Descendants(r, tree, top)
  {
    forall h | h in Descendants(r, tree, d)
      ensures h in Descendants(r, tree, top)
    {
      AncestorTransitive(r, h, Height(r, top), Height(r, d));
    }
    assert AncestorAt(r, top, Height(r, top)) == top == AncestorAt(r, top, Height(r, d));
    assert top in Descendants(r, tree, top) && top !in Descendants(r, tree, d);
  }

  /** What lies under a node, other than the node itself, lies under one of its children. */
  lemma UnderSomeChild(t: Tree, c: RollChunk, h: Hash)
    requires t.active && t.Has(c) && h != c.hash
    ensures c in t.kids
    ensures Under(t, c, h) <==> exists j :: 0 <= j < |t.kids[c]| && Under(t, t.kids[c][j], h)
  {
    NodeFacts(t, c);
    forall j | 0 <= j < |t.kids[c]| && Under(t, t.kids[c][j], h)
      ensures Under(t, c, h)
    {
      assert t.Has(t.kids[c][j]);
      ChildBelow(t, c, t.kids[c][j], h);
    }
    if Under(t, c, h) {
      var j := StepTowards(t, c, h);
    }
  }

  lemma ChildBelow(t: Tree, c: RollChunk, d: RollChunk, h: Hash)
    requires t.active && t.Has(c) && t.Has(d) && d.parent == c && d != t.root && Under(t, d, h)
    ensures Under(t, c, h)
  {
    NodeFacts(t, c);
    NodeFacts(t, d);
    NodeParent(t, d);
    AncestorTransitive(t.rules, h, c.height, d.height);
  }

  lemma StepTowards(t: Tree, c: RollChunk, h: Hash) returns (j: nat)
    requires t.active && t.Has(c) && Under(t, c, h) && h != c.hash && c in t.kids
    ensures j < |t.kids[c]| && Under(t, t.kids[c][j], h)
  {
    var d := NextTowards(t, c, h);
    NodeParent(t, d);
    j :| 0 <= j < |t.kids[c]| && t.kids[c][j] == d;
  }

  lemma NextTowards(t: Tree, c: RollChunk, h: Hash) returns (d: RollChunk)
    requires t.active && t.Has(c) && Under(t, c, h) && h != c.hash
    ensures t.Has(d) && d != t.root && d.parent == c && Under(t, d, h)
  {
    NodeFacts(t, c);
    NodeFacts(t, t.node[h]);
    AncestorNotAbove(t.rules, h, c.height);
    d := AncestorNode(t, t.node[h], c.height + 1);
    AncestorTransitive(t.rules, h, c.height, c.height + 1);
    NodeParent(t, d);
    assert d.parent.hash == c.hash;
  }

  lemma AncestorNotAbove(r: Rules, h: Hash, k: nat)
    requires r.Valid() && Good(r, h) && h != AncestorAt(r, h, k) && k == Height(r, AncestorAt(r, h, k))
    ensures k < Height(r, h)
  {
  }

  /** The two ways of choosing the next root: the only child, or `step` parents up from `c`. Either
      way a choice of the right height is the ancestor of `c` there. */
  lemma ChoiceIsAncestor(t: Tree, c: RollChunk, step: nat, alive: set<RollChunk>)
    requires t.active && t.Has(c) && t.node.Values <= alive &&
      Height(t.rules, t.root.hash) + step < Height(t.rules, c.hash)
    ensures t.root in t.kids && t.root.height == Height(t.rules, t.root.hash)
    ensures ScanParent(c, step, alive).Some? && t.Has(ScanParent(c, step, alive).value)
    ensures ScanParent(c, step, alive).value.height == c.height - step
    ensures forall d :: d == ScanParent(c, step, alive).value && d.height == t.root.height + 1 ==> NextRoot(t, c, d)
    ensures |t.kids[t.root]| == 1 ==> NextRoot(t, c, t.kids[t.root][0])
  {
    NodeFacts(t, c);
    NodeFacts(t, t.root);
    var k := Height(t.rules, c.hash) - step;
    ScanFinds(t, c, step, k, alive);
    var d := AncestorNode(t, c, k);
    OnlyChild(t, c);
    var top := AncestorNode(t, c, Height(t.rules, t.root.hash) + 1);
    NodeParent(t, top);
    NodeFacts(t, top.parent);
  }

  /** `d` is the ancestor of `c` right above the root. */
  ghost predicate NextRoot(t: Tree, c: RollChunk, d: RollChunk) {
    && Below(t, c, d) && d.height == t.root.height + 1 && d.parent == t.root
    && d.hash == AncestorAt(t.rules, c.hash, Height(t.rules, t.root.hash) + 1)
    && d.state.base == t.root.state
  }

  lemma MoveAfterHead(t: Tree, u: Tree, c: RollChunk, d: RollChunk)
    requires u == t.(head := c) && NextRoot(u, c, d)
    ensures u.Move(c, d) == t.Move(c, d) && NextRoot(t, c, d)
  {
  }

  /** A block is in the tree exactly when its base lists it. */
  lemma RepeatIsListed(t: Tree, base: RollChunk, b: Block)
    requires t.active && t.Has(base) && base.hash == b.prev
    ensures base in t.kids && base in t.chunks
    ensures t.rules.hash(b) in t.node <==>
      exists i :: 0 <= i < |t.kids[base]| && t.kids[base][i].hash == t.rules.hash(b)
  {
    NodeFacts(t, base);
    forall i | 0 <= i < |t.kids[base]|
      ensures t.kids[base][i].hash in t.node
    {
      assert t.Has(t.kids[base][i]);
    }
    if t.rules.hash(b) in t.node {
      var c := t.node[t.rules.hash(b)];
      NodeFacts(t, c);
      assert t.rules.unhash(c.hash) == b == c.block;
      RootHasNoBase(t, base, c);
      NodeParent(t, c);
    }
  }

  lemma RootHasNoBase(t: Tree, base: RollChunk, c: RollChunk)
    requires t.active && t.Has(base) && t.Has(c) && c.block == t.rules.unhash(c.hash) && c.block.prev == base.hash
    ensures c != t.root
  {
    NodeFacts(t, c);
    NodeFacts(t, base);
    if c == t.root && c.hash != t.rules.Root() {
      GoodParent(t.rules, c.hash);
    }
  }

  // ---- states of the tree -------------------------------------------------

  ghost function TreeStates(t: Tree): set<State> {
    set h | h in t.node :: t.node[h].state
  }

  /** Inside the tree the links lead to the root's state through states that are alive. */
  lemma {:induction false} NodeLinked(t: Tree, c: RollChunk, alive: set<State>)
    requires t.active && t.Has(c) && TreeStates(t) <= alive
    requires forall s :: s in alive ==> s.Linked()
    ensures c.state in TreeStates(t) && c.state.Linked() && LinkedTo(c.state, t.root.state, alive)
    decreases Height(t.rules, c.hash)
  {
    NodeFacts(t, c);
    assert t.node[c.hash].state in TreeStates(t);
    if c != t.root {
      NodeParent(t, c);
      NodeLinked(t, c.parent, alive);
    }
  }

  // ---- the states behind the nodes ----------------------------------------

  /** The changes and the flat state of every state that was ever made. */
  datatype Book = Book(active: bool, disk: LevelDb?, mem: map<State, map<Bytes, MemItem>>, view: map<State, View>) {
    /** A state links to one below it and holds its changes over that one's flat state. */
    ghost predicate StateOk(s: State)
      requires mem.Keys == view.Keys && s in mem
    {
      && s.Linked() && s.disk == disk
      && (if s.base == null then mem[s] == map[] else s.base in mem && view[s] == Apply(mem[s], view[s.base]))
    }

    ghost predicate Sound()
      requires mem.Keys == view.Keys
    {
      forall s {:trigger StateOk(s)} :: s in mem ==> StateOk(s)
    }

    ghost predicate Look() {
      true
    }

    ghost predicate Ok() {
      active ==>
        && disk != null && mem.Keys == view.Keys
        && forall b: Book {:trigger b.Look()} :: b == this ==> b.Sound()
    }

    function Add(s: State, m: map<Bytes, MemItem>, v: View): Book {
      this.(mem := mem[s := m], view := view[s := v])
    }

    /** What is recorded is what the states hold. */
    ghost predicate Holds()
      reads mem.Keys
    {
      forall s :: s in mem ==> s in view && s.memk == mem[s] && s.view == view[s]
    }
  }

  type States = b: Book | b.Ok() witness Book(false, null, map[], map[])

  ghost function OpenBook(disk: LevelDb, s: State, v: View): Book {
    Book(true, disk, map[s := map[]], map[s := v])
  }

  lemma OpenBookOk(disk: LevelDb, s: State, v: View)
    requires s.base == null && s.disk == disk
    ensures OpenBook(disk, s, v).Ok()
  {
    assert OpenBook(disk, s, v).Sound();
  }

  lemma AddOk(b: States, s: State, m: map<Bytes, MemItem>, v: View)
    requires b.active && s !in b.mem && s.Linked() && s.disk == b.disk
    requires if s.base == null then m == map[] else s.base in b.mem && v == Apply(m, b.view[s.base])
    ensures b.Add(s, m, v).Ok()
  {
    assert b.Look();
    var u := b.Add(s, m, v);
    forall x | x in u.mem
      ensures u.StateOk(x)
    {
      assert x != s ==> b.StateOk(x);
    }
    assert u.Sound();
  }

  lemma HoldsStack(b: States, root: State, disk: LevelDb)
    requires b.active && b.Holds() && b.disk == disk && root in b.mem && disk.data == b.view[root]
    ensures Stack(b.mem.Keys, root, disk)
  {
    assert b.Look();
    forall s | s in b.mem.Keys
      ensures s.Linked() && s.disk == disk && s.Layered() && (s.base != null ==> s.base in b.mem.Keys)
    {
      assert b.StateOk(s);
    }
  }

  /** The recorded flat state of each chunk is that of its block. */
  ghost predicate Views(r: Rules, chunks: set<RollChunk>, b: States) {
    forall c {:trigger ViewOk(r, b, c)} :: c in chunks ==> ViewOk(r, b, c)
  }

  ghost predicate ViewOk(r: Rules, b: States, c: RollChunk) {
    c.state in b.mem && c.state in b.view && Some(b.view[c.state]) == StateOf(r, c.hash)
  }

  lemma ViewsGrow(r: Rules, chunks: set<RollChunk>, b: States, c: RollChunk, m: map<Bytes, MemItem>, v: View)
    requires Views(r, chunks, b) && c.state !in b.mem && Some(v) == StateOf(r, c.hash)
    requires b.active && b.Add(c.state, m, v).Ok()
    ensures Views(r, chunks + {c}, b.Add(c.state, m, v))
  {
    var b1 := b.Add(c.state, m, v);
    forall d | d in chunks + {c}
      ensures ViewOk(r, b1, d)
    {
      assert d != c ==> ViewOk(r, b, d);
    }
  }
}
