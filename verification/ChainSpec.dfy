/**
 The block tree as a reader would describe it: a set of block hashes with a root and a head, one
 pointer for each height of the canonical path, and, for every block, one flat state that is
 obtained by executing its ancestors from the genesis block. `Insert` says what accepting a block
 does to that picture. `Engine` implements it with overlays, weak links and partial disk flushes.
 */
module ChainSpec {
  import opened Base

  // ---- blocks -------------------------------------------------------------

  /** A block hash, as a number. */
  type Hash = nat

  /** `body` stands for everything a header and its transactions hold besides these two fields. */
  datatype Block = Block(prev: Hash, height: nat, body: Bytes)

  function Height(r: Rules, h: Hash): nat {
    r.unhash(h).height
  }

  function Prev(r: Rules, h: Hash): Hash {
    r.unhash(h).prev
  }

  /** The ancestor of `h` at height `k` (`h` itself when it is not above `k`). */
  function AncestorAt(r: Rules, h: Hash, k: nat): Hash
    decreases Height(r, h)
  {
    if Height(r, h) <= k || Height(r, h) <= Height(r, Prev(r, h)) then h else AncestorAt(r, Prev(r, h), k)
  }

  // ---- execution ----------------------------------------------------------

  /** A flat state: every key that has a value. */
  type View = map<Bytes, Bytes>

  /** A block's execution as the sequence of state accesses it makes; what it does next may depend
      on what it has read. */
  datatype Prog =
    | Done
    | Fail
    | Read(key: Bytes, cont: Option<Bytes> -> Prog)
    | Write(key: Bytes, value: Bytes, next: Prog)
    | Remove(key: Bytes, next: Prog)

  function RunFlat(p: Prog, v: View, steps: nat): Option<View>
    decreases steps
  {
    match p
    case Done => Some(v)
    case Fail => None
    case Read(k, cont) => if steps == 0 then None else RunFlat(cont(Lookup(v, k)), v, steps - 1)
    case Write(k, x, next) => if steps == 0 then None else RunFlat(next, v[k := x], steps - 1)
    case Remove(k, next) => if steps == 0 then None else RunFlat(next, v - {k}, steps - 1)
  }

  /** What a node is configured with. `program(prev, block)` holds every check and every state
      change of `block` on top of `prev`, and makes at most `steps` accesses. Hashing is free of
      collisions: `unhash` gives back the block that was hashed; genesis follows no block. */
  datatype Rules = Rules(genesis: Block, unstable: nat, steps: nat,
    program: (Block, Block) -> Prog, hash: Block -> Hash, unhash: Hash -> Block)
  {
    ghost predicate Valid() {
      && genesis.height == 0
      && (forall b :: unhash(hash(b)) == b)
      && (forall b :: hash(b) != genesis.prev)
    }

    function Root(): Hash {
      hash(genesis)
    }
  }

  /** The state after `h`: its ancestors executed in order from the empty state of genesis. `None`
      when some block on the way does not follow its parent or does not execute. */
  function StateOf(r: Rules, h: Hash): Option<View>
    decreases Height(r, h)
  {
    if h == r.Root() then Some(map[])
    else if r.hash(r.unhash(h)) != h || Height(r, h) != Height(r, Prev(r, h)) + 1 then None
    else
      match StateOf(r, Prev(r, h))
      case None => None
      case Some(v) => RunFlat(r.program(r.unhash(Prev(r, h)), r.unhash(h)), v, r.steps)
  }

  ghost predicate Good(r: Rules, h: Hash) {
    StateOf(r, h).Some?
  }

  // ---- the node's picture of the chain ------------------------------------

  datatype Status = Status(rootHeight: nat, lastHeight: nat)

  /** `ptr` holds the pointers of heights 1 and above; `bodies` and `status` are the rest of the
      block store. The state on disk is always `StateOf(root)`. */
  datatype Chain = Chain(
    tree: set<Hash>, root: Hash, head: Hash,
    ptr: map<nat, Hash>, bodies: map<Hash, Block>, status: Status)

  datatype InsertError = PrevNotFound | Repetitive | HeightMismatch | ExecFailed

  /** The outcome of checking and executing `b`, without changing anything. */
  function Check(r: Rules, tree: set<Hash>, b: Block): Option<InsertError> {
    if b.prev !in tree then Some(PrevNotFound)
    else if r.hash(b) in tree then Some(Repetitive)
    else if b.height != Height(r, b.prev) + 1 then Some(HeightMismatch)
    else if StateOf(r, r.hash(b)).None? then Some(ExecFailed)
    else None
  }

  /** First stage: a block that passes the checks becomes a node of the tree. */
  function Exec(r: Rules, c: Chain, b: Block): Result<Chain, InsertError> {
    match Check(r, c.tree, b)
    case Some(e) => Err(e)
    case None => Ok(c.(tree := c.tree + {r.hash(b)}))
  }

  function Descendants(r: Rules, tree: set<Hash>, top: Hash): set<Hash> {
    set h | h in tree && AncestorAt(r, h, Height(r, top)) == top
  }

  /** Pointers after rewriting those of `p` and its ancestors down to height `low`. */
  function Repoint(r: Rules, ptr: map<nat, Hash>, p: Hash, low: nat): map<nat, Hash>
    decreases Height(r, p)
  {
    if Height(r, p) < low || Height(r, p) == 0 then ptr
    else if Height(r, p) <= Height(r, Prev(r, p)) then ptr[Height(r, p) := p]
    else Repoint(r, ptr[Height(r, p) := p], Prev(r, p), low)
  }

  predicate Rolls(r: Rules, c: Chain, h: Hash) {
    Height(r, c.head) < Height(r, h) && Height(r, c.root) + r.unstable < Height(r, h)
  }

  function NewRoot(r: Rules, c: Chain, h: Hash): Hash {
    if Rolls(r, c, h) then AncestorAt(r, h, Height(r, c.root) + 1) else c.root
  }

  function NewPtr(r: Rules, c: Chain, h: Hash, low: nat): map<nat, Hash>
  {
    if Height(r, h) <= Height(r, c.head) then c.ptr
    else if c.head == Prev(r, h) then c.ptr[Height(r, h) := h]
    else Repoint(r, c.ptr[Height(r, h) := h], Prev(r, h), low)
  }

  /** Second stage: the executed node `h` becomes the head when it is higher than the head; the root
      then follows at a distance of `unstable`, and the pointers follow the new path. */
  function RollStore(r: Rules, c: Chain, h: Hash): Chain
  {
    var root := NewRoot(r, c, h);
    Chain(
      if Rolls(r, c, h) then Descendants(r, c.tree, root) else c.tree,
      root,
      if Height(r, c.head) < Height(r, h) then h else c.head,
      NewPtr(r, c, h, Height(r, root)),
      c.bodies[h := r.unhash(h)],
      if Rolls(r, c, h) then Status(Height(r, root), Height(r, h)) else c.status)
  }

  function Insert(r: Rules, c: Chain, b: Block): Result<Chain, InsertError> {
    match Exec(r, c, b)
    case Err(e) => Err(e)
    case Ok(c1) => Ok(RollStore(r, c1, r.hash(b)))
  }

  function Start(r: Rules): Chain {
    Chain({r.Root()}, r.Root(), r.Root(), map[], map[], Status(0, 0))
  }

  /** A run: every block that is offered is either taken or leaves the chain as it was. */
  function Run(r: Rules, c: Chain, bs: seq<Block>): Chain
    decreases |bs|
  {
    if bs == [] then c
    else
      match Insert(r, c, bs[0])
      case Err(_) => Run(r, c, bs[1..])
      case Ok(c1) => Run(r, c1, bs[1..])
  }

  // ---- the invariant ------------------------------------------------------

  ghost predicate IsTree(r: Rules, tree: set<Hash>, root: Hash, head: Hash) {
    && root in tree
    && head in tree
    && (forall h :: h in tree ==>
      Good(r, h) && Height(r, root) <= Height(r, h) && AncestorAt(r, h, Height(r, root)) == root)
    && (forall h {:trigger Prev(r, h)} :: h in tree && h != root ==> Prev(r, h) in tree)
  }

  ghost predicate TreeOk(r: Rules, c: Chain) {
    IsTree(r, c.tree, c.root, c.head)
  }

  ghost predicate HeadHighest(r: Rules, c: Chain) {
    forall h :: h in c.tree ==> Height(r, h) <= Height(r, c.head)
  }

  /** The root trails the head by exactly `unstable` blocks as soon as there are that many. */
  ghost predicate RootTrails(r: Rules, c: Chain) {
    Height(r, c.root) == if r.unstable <= Height(r, c.head) then Height(r, c.head) - r.unstable else 0
  }

  /** One pointer for each height from 1 to the head, each to the head's ancestor there. */
  ghost predicate Indexes(r: Rules, ptr: map<nat, Hash>, head: Hash) {
    && (forall k :: k in ptr <==> 1 <= k <= Height(r, head))
    && (forall k :: k in ptr ==> ptr[k] == AncestorAt(r, head, k))
  }

  ghost predicate StoreOk(r: Rules, c: Chain) {
    && (forall h :: h in c.tree && h != r.Root() ==> h in c.bodies)
    && (forall h :: h in c.bodies ==>
          c.bodies[h] == r.unhash(h) && r.hash(c.bodies[h]) == h && (Prev(r, h) == r.Root() || Prev(r, h) in c.bodies))
    && c.status.rootHeight == Height(r, c.root)
    && c.status.lastHeight == if r.unstable < Height(r, c.head) then Height(r, c.head) else 0
  }

  ghost predicate Inv(r: Rules, c: Chain) {
    TreeOk(r, c) && HeadHighest(r, c) && RootTrails(r, c) && Indexes(r, c.ptr, c.head) && StoreOk(r, c)
  }

  /** What rolling a node needs of the picture; it also holds while a reopened node replays. */
  ghost predicate Rollable(r: Rules, c: Chain) {
    && Height(r, c.root) <= Height(r, c.head) <= Height(r, c.root) + r.unstable
    && forall k :: 1 <= k <= Height(r, c.head) ==> k in c.ptr && c.ptr[k] == AncestorAt(r, c.head, k)
  }

  // ---- ancestors ----------------------------------------------------------

  lemma {:induction false} GoodAncestor(r: Rules, h: Hash, k: nat)
    requires r.Valid() && Good(r, h) && k <= Height(r, h)
    ensures Good(r, AncestorAt(r, h, k)) && Height(r, AncestorAt(r, h, k)) == k
    decreases Height(r, h)
  {
    if k < Height(r, h) {
      GoodAncestor(r, Prev(r, h), k);
    }
  }

  lemma {:induction false} AncestorTransitive(r: Rules, h: Hash, j: nat, k: nat)
    requires j <= k
    ensures AncestorAt(r, AncestorAt(r, h, k), j) == AncestorAt(r, h, j)
    decreases Height(r, h)
  {
    if k < Height(r, h) && Height(r, Prev(r, h)) < Height(r, h) {
      AncestorTransitive(r, Prev(r, h), j, k);
    }
  }

  /** The parent of a good block other than genesis is one step below it. */
  lemma GoodParent(r: Rules, h: Hash)
    requires r.Valid() && Good(r, h) && h != r.Root()
    ensures Good(r, Prev(r, h)) && Height(r, h) == Height(r, Prev(r, h)) + 1
    ensures forall k: nat :: k < Height(r, h) ==> AncestorAt(r, h, k) == AncestorAt(r, Prev(r, h), k)
  {
  }

  /** A good block of height 0 is genesis. */
  lemma GoodGround(r: Rules, h: Hash)
    requires r.Valid() && Good(r, h) && Height(r, h) == 0
    ensures h == r.Root()
  {
  }

  /** The tree is closed under ancestors that are not below the root. */
  lemma {:induction false} AncestorInTree(r: Rules, c: Chain, h: Hash, k: nat)
    requires r.Valid() && TreeOk(r, c) && h in c.tree && Height(r, c.root) <= k <= Height(r, h)
    ensures AncestorAt(r, h, k) in c.tree
    decreases Height(r, h)
  {
    if k < Height(r, h) {
      GoodParent(r, h);
      AncestorInTree(r, c, Prev(r, h), k);
    }
  }

  // ---- every insert keeps the invariant -----------------------------------

  lemma StartInv(r: Rules)
    requires r.Valid()
    ensures Inv(r, Start(r))
  {
  }

  lemma ExecTree(r: Rules, c: Chain, b: Block)
    requires r.Valid() && TreeOk(r, c) && Exec(r, c, b).Ok?
    ensures TreeOk(r, Exec(r, c, b).value)
    ensures forall k :: Height(r, c.root) <= k <= Height(r, b.prev) ==>
      AncestorAt(r, r.hash(b), k) == AncestorAt(r, b.prev, k)
  {
    var h := r.hash(b);
    GoodParent(r, h);
  }

  /** Cutting the tree down to the descendants of one of its nodes leaves a tree. */
  lemma CutTree(r: Rules, c: Chain, h: Hash, root: Hash)
    requires r.Valid() && TreeOk(r, c) && h in c.tree && root in c.tree && AncestorAt(r, h, Height(r, root)) == root
    ensures IsTree(r, Descendants(r, c.tree, root), root, h)
  {
    forall g | g in Descendants(r, c.tree, root)
      ensures Height(r, root) <= Height(r, g)
      ensures g != root ==> Prev(r, g) in Descendants(r, c.tree, root)
    {
      if g != root {
        assert g != r.Root() by {
          assert AncestorAt(r, r.Root(), Height(r, root)) == r.Root();
        }
        GoodParent(r, g);
        assert g != c.root;
      }
    }
  }

  lemma PruneTree(r: Rules, c: Chain, h: Hash, root: Hash)
    requires r.Valid() && TreeOk(r, c) && h in c.tree
    requires root == AncestorAt(r, h, Height(r, c.root) + 1) && Height(r, c.root) < Height(r, h)
    ensures Height(r, root) == Height(r, c.root) + 1 && root in c.tree && h in Descendants(r, c.tree, root)
    ensures IsTree(r, Descendants(r, c.tree, root), root, h)
  {
    GoodAncestor(r, h, Height(r, c.root) + 1);
    AncestorInTree(r, c, h, Height(r, c.root) + 1);
    CutTree(r, c, h, root);
  }

  lemma {:induction false} RepointAt(r: Rules, ptr: map<nat, Hash>, p: Hash, low: nat)
    requires r.Valid() && Good(r, p)
    ensures forall k :: k in Repoint(r, ptr, p, low) <==> k in ptr || (1 <= k <= Height(r, p) && low <= k)
    ensures forall k :: k in Repoint(r, ptr, p, low) ==>
      Repoint(r, ptr, p, low)[k] == if 1 <= k <= Height(r, p) && low <= k then AncestorAt(r, p, k) else ptr[k]
    decreases Height(r, p)
  {
    if low <= Height(r, p) && Height(r, p) != 0 {
      GoodParent(r, p);
      RepointAt(r, ptr[Height(r, p) := p], Prev(r, p), low);
    }
  }

  /** Moving the head to a child of the old head, without a rewrite, keeps the index right. */
  lemma IndexAppend(r: Rules, ptr: map<nat, Hash>, h: Hash)
    requires r.Valid() && Good(r, h) && h != r.Root() && Indexes(r, ptr, Prev(r, h))
    ensures Indexes(r, ptr[Height(r, h) := h], h)
  {
    GoodParent(r, h);
  }

  /** Moving it elsewhere needs the rewrite, and the rewrite may stop where the paths agree. */
  lemma IndexSwitch(r: Rules, ptr: map<nat, Hash>, from: Hash, h: Hash, low: nat)
    requires r.Valid() && Good(r, h) && h != r.Root() && Indexes(r, ptr, from) && Height(r, h) == Height(r, from) + 1
    requires forall k: nat :: 1 <= k < low ==> AncestorAt(r, h, k) == AncestorAt(r, from, k)
    ensures Indexes(r, Repoint(r, ptr[Height(r, h) := h], Prev(r, h), low), h)
  {
    GoodParent(r, h);
    RepointAt(r, ptr[Height(r, h) := h], Prev(r, h), low);
  }

  /** Two nodes of one tree have the same ancestors up to the root. */
  lemma SameBelowRoot(r: Rules, c: Chain, g: Hash, h: Hash, k: nat)
    requires TreeOk(r, c) && g in c.tree && h in c.tree && k <= Height(r, c.root)
    ensures AncestorAt(r, g, k) == AncestorAt(r, h, k)
  {
    AncestorTransitive(r, g, k, Height(r, c.root));
    AncestorTransitive(r, h, k, Height(r, c.root));
  }

  lemma NewPtrIndexes(r: Rules, c: Chain, h: Hash, low: nat)
    requires r.Valid() && TreeOk(r, c) && h in c.tree && h != r.Root()
    requires Indexes(r, c.ptr, c.head) && Height(r, h) <= Height(r, c.head) + 1 && low <= Height(r, c.root) + 1
    ensures Indexes(r, NewPtr(r, c, h, low), if Height(r, c.head) < Height(r, h) then h else c.head)
  {
    if Height(r, c.head) < Height(r, h) {
      if c.head == Prev(r, h) {
        IndexAppend(r, c.ptr, h);
      } else {
        forall k: nat | 1 <= k < low
          ensures AncestorAt(r, h, k) == AncestorAt(r, c.head, k)
        {
          SameBelowRoot(r, c, h, c.head, k);
        }
        IndexSwitch(r, c.ptr, c.head, h, low);
      }
    }
  }

  lemma RollStoreTree(r: Rules, c: Chain, h: Hash)
    requires r.Valid() && TreeOk(r, c) && h in c.tree
    ensures TreeOk(r, RollStore(r, c, h))
    ensures RollStore(r, c, h).tree <= c.tree && NewRoot(r, c, h) in c.tree
    ensures Height(r, NewRoot(r, c, h)) == if Rolls(r, c, h) then Height(r, c.root) + 1 else Height(r, c.root)
  {
    if Rolls(r, c, h) {
      PruneTree(r, c, h, NewRoot(r, c, h));
    }
  }

  lemma RollStoreInv(r: Rules, c: Chain, h: Hash)
    requires r.Valid() && TreeOk(r, c) && h in c.tree && h != c.root
    requires HeadHighest(r, c.(tree := c.tree - {h})) && RootTrails(r, c) && Indexes(r, c.ptr, c.head)
    requires StoreOk(r, c.(tree := c.tree - {h})) && c.head != h
    ensures Inv(r, RollStore(r, c, h))
  {
    assert AncestorAt(r, r.Root(), Height(r, c.root)) == r.Root();
    GoodParent(r, h);
    var c1 := RollStore(r, c, h);
    assert Prev(r, h) in c.tree - {h};
    RollStoreTree(r, c, h);
    NewPtrIndexes(r, c, h, Height(r, c1.root));
    assert HeadHighest(r, c1) && RootTrails(r, c1);
    assert StoreOk(r, c1);
  }

  /** Accepting a block keeps the whole invariant. */
  lemma InsertInv(r: Rules, c: Chain, b: Block)
    requires r.Valid() && Inv(r, c) && Insert(r, c, b).Ok?
    ensures Inv(r, Insert(r, c, b).value)
  {
    ExecTree(r, c, b);
    var c1 := Exec(r, c, b).value;
    assert c1.tree - {r.hash(b)} == c.tree;
    assert c1.(tree := c1.tree - {r.hash(b)}) == c;
    RollStoreInv(r, c1, r.hash(b));
  }

  /** So it holds after any run. */
  lemma {:induction false} RunInv(r: Rules, c: Chain, bs: seq<Block>)
    requires r.Valid() && Inv(r, c)
    ensures Inv(r, Run(r, c, bs))
    decreases |bs|
  {
    if bs != [] {
      match Insert(r, c, bs[0])
      case Err(_) => RunInv(r, c, bs[1..]);
      case Ok(c1) =>
        InsertInv(r, c, bs[0]);
        RunInv(r, c1, bs[1..]);
    }
  }

  // ---- finality -----------------------------------------------------------

  /** `d` is a later picture than `c`: the root only moves up along its own path, the head never
      gets lower, and pointers at or below the root of `c` are the same in both. */
  ghost predicate Final(r: Rules, c: Chain, d: Chain) {
    && Height(r, c.root) <= Height(r, d.root)
    && AncestorAt(r, d.root, Height(r, c.root)) == c.root
    && Height(r, c.head) <= Height(r, d.head)
    && (forall k :: 1 <= k <= Height(r, c.root) ==> k in c.ptr && k in d.ptr && d.ptr[k] == c.ptr[k])
  }

  lemma InsertFinal(r: Rules, c: Chain, b: Block)
    requires r.Valid() && Inv(r, c) && Insert(r, c, b).Ok?
    ensures Final(r, c, Insert(r, c, b).value)
  {
    var d := Insert(r, c, b).value;
    InsertInv(r, c, b);
    ExecTree(r, c, b);
    var c1 := Exec(r, c, b).value;
    RollStoreTree(r, c1, r.hash(b));
    assert Height(r, c.root) <= Height(r, d.root) && AncestorAt(r, d.root, Height(r, c.root)) == c.root;
    assert Height(r, c.head) <= Height(r, d.head);
    forall k | 1 <= k <= Height(r, c.root)
      ensures k in c.ptr && k in d.ptr && d.ptr[k] == c.ptr[k]
    {
      SameBelowRoot(r, c1, d.head, c.head, k);
    }
  }

  lemma FinalTransitive(r: Rules, c: Chain, d: Chain, e: Chain)
    requires Final(r, c, d) && Final(r, d, e)
    ensures Final(r, c, e)
  {
    AncestorTransitive(r, e.root, Height(r, c.root), Height(r, d.root));
  }

  /** Once the root has reached a height, no run changes the pointer there any more. */
  lemma {:induction false} RunFinal(r: Rules, c: Chain, bs: seq<Block>)
    requires r.Valid() && Inv(r, c)
    ensures Final(r, c, Run(r, c, bs))
    decreases |bs|
  {
    if bs != [] {
      match Insert(r, c, bs[0])
      case Err(_) => RunFinal(r, c, bs[1..]);
      case Ok(c1) =>
        InsertInv(r, c, bs[0]);
        InsertFinal(r, c, bs[0]);
        RunFinal(r, c1, bs[1..]);
        FinalTransitive(r, c, c1, Run(r, c1, bs[1..]));
    }
  }
}
