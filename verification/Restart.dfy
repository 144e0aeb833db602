/**
 What a node does when it is opened again: it takes its base block from the stored status (or
 genesis when the state has to be built anew), and inserts the blocks of the stored pointers above
 it one after the other until a height has no pointer.
 */
module Restart {
  import opened Base
  import opened ChainSpec

  /** The base block: the pointer at the stored root height, or genesis at height 0. */
  function BaseBlock(r: Rules, c: Chain): Option<Block> {
    if c.status.rootHeight == 0 then Some(r.genesis)
    else if c.status.rootHeight in c.ptr && c.ptr[c.status.rootHeight] in c.bodies then
      Some(c.bodies[c.ptr[c.status.rootHeight]])
    else None
  }

  /** A tree of one block over an unchanged store. */
  function Reopen(r: Rules, c: Chain, base: Block): Chain {
    c.(tree := {r.hash(base)}, root := r.hash(base), head := r.hash(base))
  }

  /** Inserts the stored blocks from height `next` up; `None` where the node would panic. */
  function Rebuild(r: Rules, c: Chain, next: nat, last: nat): Option<Chain>
    requires next <= last + 1
    decreases last + 1 - next
  {
    if next !in c.ptr || c.ptr[next] !in c.bodies then Some(c)
    else
      match Insert(r, c, c.bodies[c.ptr[next]])
      case Err(_) => None
      case Ok(c1) => if next > last then None else Rebuild(r, c1, next + 1, last)
  }

  function PathSet(r: Rules, head: Hash, lo: nat, hi: nat): set<Hash> {
    set k: nat | lo <= k <= hi :: AncestorAt(r, head, k)
  }

  function RootHeight(r: Rules, low: nat, k: nat): nat {
    if low + r.unstable < k then k - r.unstable else low
  }

  /** The picture after the canonical path has been replayed from height `low` up to `k`. */
  function Replayed(r: Rules, c: Chain, low: nat, k: nat): Chain {
    var root := RootHeight(r, low, k);
    c.(tree := PathSet(r, c.head, root, k), root := AncestorAt(r, c.head, root), head := AncestorAt(r, c.head, k),
       status := if low + r.unstable < k then Status(root, k) else c.status)
  }

  /** What a reopened node recovers: everything but the branches off the canonical path. */
  function Recovered(r: Rules, c: Chain): Chain {
    c.(tree := PathSet(r, c.head, Height(r, c.root), Height(r, c.head)))
  }

  /** Opened on `base`, whose height is `low`, the node accepts every stored block above it, stops at the
      old head and has recovered. */
  ghost predicate Recovers(r: Rules, c: Chain, base: Block, low: nat) {
    && low <= Height(r, c.head)
    && Rebuild(r, Reopen(r, c, base), low + 1, Height(r, c.head)) == Some(Recovered(r, c))
  }

  ghost predicate Stored(r: Rules, c: Chain, k: nat) {
    k in c.ptr && c.ptr[k] == AncestorAt(r, c.head, k) && c.ptr[k] in c.bodies && r.hash(c.bodies[c.ptr[k]]) == c.ptr[k]
  }

  lemma StoredBlock(r: Rules, c: Chain, k: nat)
    requires r.Valid() && Inv(r, c) && 1 <= k <= Height(r, c.head)
    ensures Stored(r, c, k)
  {
    assert c.head != r.Root();
    BodiesClosed(r, c, c.head, k);
  }

  lemma {:induction false} BodiesClosed(r: Rules, c: Chain, h: Hash, k: nat)
    requires r.Valid() && StoreOk(r, c) && Good(r, h) && h in c.bodies && 1 <= k <= Height(r, h)
    ensures AncestorAt(r, h, k) in c.bodies
    decreases Height(r, h)
  {
    if k < Height(r, h) {
      assert h != r.Root();
      GoodParent(r, h);
      BodiesClosed(r, c, Prev(r, h), k);
    }
  }

  lemma PathFacts(r: Rules, head: Hash, k: nat)
    requires r.Valid() && Good(r, head) && k <= Height(r, head)
    ensures Good(r, AncestorAt(r, head, k)) && Height(r, AncestorAt(r, head, k)) == k
    ensures k > 0 ==>
      AncestorAt(r, head, k) != r.Root() && Prev(r, AncestorAt(r, head, k)) == AncestorAt(r, head, k - 1)
  {
    GoodAncestor(r, head, k);
    if k > 0 {
      GoodParent(r, AncestorAt(r, head, k));
      AncestorTransitive(r, head, k - 1, k);
    }
  }

  lemma PathDescends(r: Rules, head: Hash, root: nat, k: nat)
    requires r.Valid() && Good(r, head) && root + 1 <= k <= Height(r, head)
    ensures Descendants(r, PathSet(r, head, root, k), AncestorAt(r, head, root + 1)) == PathSet(r, head, root + 1, k)
  {
    PathFacts(r, head, root + 1);
    PathFacts(r, head, root);
    forall j: nat | root + 1 <= j <= k
      ensures AncestorAt(r, AncestorAt(r, head, j), root + 1) == AncestorAt(r, head, root + 1)
    {
      AncestorTransitive(r, head, root + 1, j);
    }
    PathCut(r, head, root, k);
  }

  lemma PathCut(r: Rules, head: Hash, root: nat, k: nat)
    requires root + 1 <= k
    requires Height(r, AncestorAt(r, head, root)) == root && Height(r, AncestorAt(r, head, root + 1)) == root + 1
    requires forall j: nat :: root + 1 <= j <= k ==>
      AncestorAt(r, AncestorAt(r, head, j), root + 1) == AncestorAt(r, head, root + 1)
    ensures Descendants(r, PathSet(r, head, root, k), AncestorAt(r, head, root + 1)) == PathSet(r, head, root + 1, k)
  {
    assert AncestorAt(r, AncestorAt(r, head, root), root + 1) == AncestorAt(r, head, root);
  }

  lemma PathGrows(r: Rules, head: Hash, root: nat, k: nat)
    requires r.Valid() && Good(r, head) && root <= k < Height(r, head)
    ensures PathSet(r, head, root, k) + {AncestorAt(r, head, k + 1)} == PathSet(r, head, root, k + 1)
    ensures AncestorAt(r, head, k + 1) !in PathSet(r, head, root, k)
    ensures AncestorAt(r, head, k) in PathSet(r, head, root, k)
  {
    PathFacts(r, head, k + 1);
    forall j: nat | root <= j <= k
      ensures AncestorAt(r, head, k + 1) != AncestorAt(r, head, j)
    {
      PathFacts(r, head, j);
    }
  }

  lemma ReplayExec(r: Rules, head: Hash, root: nat, k: nat, ck: Chain)
    requires r.Valid() && Good(r, head) && root <= k < Height(r, head) && ck.tree == PathSet(r, head, root, k)
    ensures var h := AncestorAt(r, head, k + 1);
      Exec(r, ck, r.unhash(h)) == Ok(ck.(tree := PathSet(r, head, root, k + 1)))
  {
    PathFacts(r, head, k + 1);
    PathFacts(r, head, k);
    PathGrows(r, head, root, k);
    assert Check(r, ck.tree, r.unhash(AncestorAt(r, head, k + 1))).None?;
  }

  lemma ReplayRoll(r: Rules, c: Chain, low: nat, k: nat, h: Hash)
    requires low <= k && h == AncestorAt(r, c.head, k + 1) && Height(r, h) == k + 1
    requires Prev(r, h) == AncestorAt(r, c.head, k) && Height(r, Prev(r, h)) == k
    requires k + 1 in c.ptr && c.ptr[k + 1] == h && h in c.bodies && c.bodies[h] == r.unhash(h)
    requires var root := RootHeight(r, low, k);
      && Height(r, AncestorAt(r, c.head, root)) == root
      && Height(r, AncestorAt(r, c.head, root + 1)) == root + 1
      && AncestorAt(r, h, root + 1) == AncestorAt(r, c.head, root + 1)
      && Descendants(r, PathSet(r, c.head, root, k + 1), AncestorAt(r, c.head, root + 1)) ==
           PathSet(r, c.head, root + 1, k + 1)
    ensures var ck := Replayed(r, c, low, k);
      RollStore(r, ck.(tree := PathSet(r, c.head, RootHeight(r, low, k), k + 1)), h) == Replayed(r, c, low, k + 1)
  {
    assert c.ptr[k + 1 := h] == c.ptr && c.bodies[h := r.unhash(h)] == c.bodies;
  }

  /** Inserting the next stored block moves the replayed picture up by one height. */
  lemma ReplayOne(r: Rules, c: Chain, low: nat, k: nat)
    requires r.Valid() && Good(r, c.head) && low <= k < Height(r, c.head)
    requires Stored(r, c, k + 1)
    ensures Insert(r, Replayed(r, c, low, k), c.bodies[c.ptr[k + 1]]) == Ok(Replayed(r, c, low, k + 1))
  {
    var root := RootHeight(r, low, k);
    PathFacts(r, c.head, k + 1);
    PathFacts(r, c.head, k);
    PathFacts(r, c.head, root);
    PathFacts(r, c.head, root + 1);
    ReplayExec(r, c.head, root, k, Replayed(r, c, low, k));
    PathDescends(r, c.head, root, k + 1);
    AncestorTransitive(r, c.head, root + 1, k + 1);
    ReplayRoll(r, c, low, k, AncestorAt(r, c.head, k + 1));
  }

  lemma {:induction false} ReplayRest(r: Rules, c: Chain, low: nat, k: nat)
    requires r.Valid() && Good(r, c.head) && low <= k <= Height(r, c.head)
    requires forall j :: 1 <= j <= Height(r, c.head) ==> Stored(r, c, j)
    requires Height(r, c.head) + 1 !in c.ptr
    ensures Rebuild(r, Replayed(r, c, low, k), k + 1, Height(r, c.head)) == Some(Replayed(r, c, low, Height(r, c.head)))
    decreases Height(r, c.head) - k
  {
    if k < Height(r, c.head) {
      assert Stored(r, c, k + 1);
      ReplayAdvances(r, c, low, k);
      ReplayRest(r, c, low, k + 1);
    }
  }

  lemma ReplayAdvances(r: Rules, c: Chain, low: nat, k: nat)
    requires r.Valid() && Good(r, c.head) && low <= k < Height(r, c.head) && Stored(r, c, k + 1)
    ensures Rebuild(r, Replayed(r, c, low, k), k + 1, Height(r, c.head)) ==
      Rebuild(r, Replayed(r, c, low, k + 1), k + 2, Height(r, c.head))
  {
    ReplayOne(r, c, low, k);
    RebuildOne(r, Replayed(r, c, low, k), k + 1, Height(r, c.head), Replayed(r, c, low, k + 1));
  }

  lemma RebuildOne(r: Rules, c: Chain, next: nat, last: nat, c1: Chain)
    requires next <= last && next in c.ptr && c.ptr[next] in c.bodies && Insert(r, c, c.bodies[c.ptr[next]]) == Ok(c1)
    ensures Rebuild(r, c, next, last) == Rebuild(r, c1, next + 1, last)
  {
  }

  lemma AllStored(r: Rules, c: Chain)
    requires r.Valid() && Inv(r, c)
    ensures forall j :: 1 <= j <= Height(r, c.head) ==> Stored(r, c, j)
    ensures Height(r, c.head) + 1 !in c.ptr && Good(r, c.head)
  {
    forall j | 1 <= j <= Height(r, c.head)
      ensures Stored(r, c, j)
    {
      StoredBlock(r, c, j);
    }
  }

  lemma ReplayEnds(r: Rules, c: Chain, low: nat)
    requires r.Valid() && Inv(r, c) && low <= Height(r, c.root)
    ensures Replayed(r, c, low, Height(r, c.head)) == Recovered(r, c)
  {
    RootFacts(r, c);
    ReplayEndsAt(r, c, low);
  }

  lemma RootFacts(r: Rules, c: Chain)
    requires r.Valid() && Inv(r, c)
    ensures AncestorAt(r, c.head, Height(r, c.root)) == c.root && AncestorAt(r, c.head, Height(r, c.head)) == c.head
    ensures Height(r, c.root) <= Height(r, c.head) <= Height(r, c.root) + r.unstable
    ensures Height(r, c.root) > 0 ==> Height(r, c.head) >= r.unstable + Height(r, c.root)
    ensures Height(r, c.root) > 0 ==> c.status == Status(Height(r, c.root), Height(r, c.head))
  {
  }

  lemma ReplayEndsAt(r: Rules, c: Chain, low: nat)
    requires AncestorAt(r, c.head, Height(r, c.root)) == c.root && AncestorAt(r, c.head, Height(r, c.head)) == c.head
    requires low <= Height(r, c.root) <= Height(r, c.head) <= Height(r, c.root) + r.unstable
    requires Height(r, c.root) > 0 ==> Height(r, c.head) == Height(r, c.root) + r.unstable
    requires Height(r, c.root) > 0 ==> c.status == Status(Height(r, c.root), Height(r, c.head))
    ensures Replayed(r, c, low, Height(r, c.head)) == Recovered(r, c)
  {
  }

  /** The height to replay from: that of the stored root, or genesis when the state is built anew. */
  function StartHeight(c: Chain, upgrade: bool): nat {
    if upgrade then 0 else c.status.rootHeight
  }

  /** The base block, which is genesis when the state is built anew. */
  function StartBlock(r: Rules, c: Chain, upgrade: bool): Option<Block> {
    if upgrade then Some(r.genesis) else BaseBlock(r, c)
  }

  /** The base block of a reopened node is the one at that height of the old canonical path. */
  lemma StartBase(r: Rules, c: Chain, upgrade: bool)
    requires r.Valid() && Inv(r, c)
    ensures StartHeight(c, upgrade) <= Height(r, c.root)
    ensures var low := StartHeight(c, upgrade);
      var base := StartBlock(r, c, upgrade);
      base == Some(r.unhash(AncestorAt(r, c.head, low))) && Reopen(r, c, base.value) == Replayed(r, c, low, low)
  {
    var low := StartHeight(c, upgrade);
    PathFacts(r, c.head, low);
    if low > 0 {
      StoredBlock(r, c, low);
    } else {
      GoodGround(r, AncestorAt(r, c.head, 0));
    }
    assert PathSet(r, c.head, low, low) == {AncestorAt(r, c.head, low)};
  }

  /** From the store of any reachable picture, a restart replays up to the old head, and so does
      building the state anew from genesis: root, head, pointers, bodies and status come back, and
      the tree is the canonical path. */
  lemma RestartRecovers(r: Rules, c: Chain, upgrade: bool)
    requires r.Valid() && Inv(r, c)
    ensures var base := StartBlock(r, c, upgrade);
      base.Some? && Recovers(r, c, base.value, StartHeight(c, upgrade))
  {
    StartBase(r, c, upgrade);
    ReplayFrom(r, c, StartBlock(r, c, upgrade).value, StartHeight(c, upgrade));
  }

  lemma ReplayFrom(r: Rules, c: Chain, base: Block, low: nat)
    requires r.Valid() && Inv(r, c) && low <= Height(r, c.root) && Reopen(r, c, base) == Replayed(r, c, low, low)
    ensures Recovers(r, c, base, low)
  {
    ReplayAll(r, c, low);
  }

  lemma ReplayAll(r: Rules, c: Chain, low: nat)
    requires r.Valid() && Inv(r, c) && low <= Height(r, c.root)
    ensures low <= Height(r, c.head)
    ensures Rebuild(r, Replayed(r, c, low, low), low + 1, Height(r, c.head)) == Some(Recovered(r, c))
  {
    AllStored(r, c);
    ReplayRest(r, c, low, low);
    ReplayEnds(r, c, low);
  }

  /** A plain restart never rolls. */
  lemma RestartNeverRolls(r: Rules, c: Chain, k: nat)
    requires r.Valid() && Inv(r, c) && Height(r, c.root) <= k <= Height(r, c.head)
    ensures Replayed(r, c, StartHeight(c, false), k).root == c.root
    ensures Replayed(r, c, StartHeight(c, false), k).status == c.status
  {
    assert AncestorAt(r, c.head, Height(r, c.root)) == c.root;
  }

  /** While it replays, the next block may be inserted. */
  lemma ReplayedRollable(r: Rules, c: Chain, low: nat, k: nat)
    requires r.Valid() && Inv(r, c) && low <= k <= Height(r, c.head)
    ensures HeadHighest(r, Replayed(r, c, low, k)) && Rollable(r, Replayed(r, c, low, k))
    ensures Height(r, AncestorAt(r, c.head, RootHeight(r, low, k))) == RootHeight(r, low, k)
  {
    PathFacts(r, c.head, k);
    PathFacts(r, c.head, RootHeight(r, low, k));
    forall j: nat | j <= k
      ensures AncestorAt(r, AncestorAt(r, c.head, k), j) == AncestorAt(r, c.head, j)
      ensures Height(r, AncestorAt(r, c.head, j)) == j
    {
      AncestorTransitive(r, c.head, j, k);
      PathFacts(r, c.head, j);
    }
  }

  /** What is recovered satisfies the invariant again, so runs may continue and restart at will. */
  lemma RecoveredInv(r: Rules, c: Chain)
    requires r.Valid() && Inv(r, c)
    ensures Inv(r, Recovered(r, c))
  {
    var d := Recovered(r, c);
    forall h | h in d.tree
      ensures h in c.tree && (h != c.root ==> Prev(r, h) in d.tree)
    {
      var k: nat :| Height(r, c.root) <= k <= Height(r, c.head) && h == AncestorAt(r, c.head, k);
      AncestorInTree(r, c, c.head, k);
      PathFacts(r, c.head, k);
      assert AncestorAt(r, c.head, Height(r, c.root)) == c.root;
      assert AncestorAt(r, c.head, Height(r, c.head)) == c.head;
    }
    assert AncestorAt(r, c.head, Height(r, c.root)) == c.root;
    assert AncestorAt(r, c.head, Height(r, c.head)) == c.head;
  }

  /** One step of the replay, as the loop that reads the store sees it. */
  lemma ReplayNext(r: Rules, c: Chain, low: nat, k: nat)
    requires r.Valid() && Inv(r, c) && low <= k <= Height(r, c.head) && k + 1 in c.ptr
    ensures k < Height(r, c.head) && c.ptr[k + 1] in c.bodies
    ensures HeadHighest(r, Replayed(r, c, low, k)) && Rollable(r, Replayed(r, c, low, k))
    ensures Insert(r, Replayed(r, c, low, k), c.bodies[c.ptr[k + 1]]) == Ok(Replayed(r, c, low, k + 1))
  {
    StoredBlock(r, c, k + 1);
    ReplayedRollable(r, c, low, k);
    ReplayOne(r, c, low, k);
  }

  lemma ReplayStops(r: Rules, c: Chain, low: nat, k: nat)
    requires r.Valid() && Inv(r, c) && low <= Height(r, c.root) && low <= k <= Height(r, c.head)
    requires k + 1 !in c.ptr || c.ptr[k + 1] !in c.bodies
    ensures Replayed(r, c, low, k) == Recovered(r, c)
  {
    NothingStored(r, c, k);
    ReplayEnds(r, c, low);
  }

  lemma NothingStored(r: Rules, c: Chain, k: nat)
    requires r.Valid() && Inv(r, c) && k <= Height(r, c.head)
    requires k + 1 !in c.ptr || c.ptr[k + 1] !in c.bodies
    ensures k == Height(r, c.head)
  {
    if k < Height(r, c.head) {
      StoredBlock(r, c, k + 1);
    }
  }
}
