/**
 A block's state as the node keeps it: the changes of that block in memory, a weak link to the state
 it was forked from, and the disk shared by all states. A read takes the first answer on the way up
 and asks the disk where a link is missing or no longer upgrades.
 */
module ChainState {
  import opened Base
  import opened ChainSpec

  datatype MemItem = Deleted | Value(value: Bytes)

  /** The flat state that `mem` makes of `v`. */
  function Apply(mem: map<Bytes, MemItem>, v: View): View {
    map k | k in v.Keys + mem.Keys && !(k in mem && mem[k].Deleted?) ::
      if k in mem then mem[k].value else v[k]
  }

  // ---- the disk -----------------------------------------------------------

  datatype BatchOp = Put(key: Bytes, value: Bytes) | Delete(key: Bytes)

  function Perform(batch: seq<BatchOp>, v: View): View {
    if batch == [] then v
    else
      var rest := Perform(batch[..|batch| - 1], v);
      match batch[|batch| - 1]
      case Put(k, x) => rest[k := x]
      case Delete(k) => rest - {k}
  }

  class LevelDb {
    var data: View

    constructor ()
      ensures data == map[]
    {
      data := map[];
    }

    /** A batch is written as a whole. */
    method Write(batch: seq<BatchOp>)
      modifies this
      ensures data == Perform(batch, old(data))
    {
      data := Perform(batch, data);
    }
  }

  // ---- a state ------------------------------------------------------------

  class State {
    var memk: map<Bytes, MemItem>
    const disk: LevelDb
    const base: State?
    ghost const depth: nat   // grows along the links, so reads come to an end
    ghost var view: View     // the flat state that this object stands for

    /** The state of an opened database: no changes in memory and no link. */
    constructor Open(disk: LevelDb, ghost depth: nat)
      ensures this.disk == disk && base == null && this.depth == depth
      ensures memk == map[] && view == disk.data
      ensures Layered()
    {
      this.disk := disk;
      this.base := null;
      this.depth := depth;
      memk := map[];
      view := disk.data;
    }

    /** A fork starts with no changes of its own. */
    constructor Fork(parent: State)
      ensures base == parent && disk == parent.disk && depth == parent.depth + 1
      ensures memk == map[] && view == parent.view
      ensures Linked() && Layered()
    {
      this.disk := parent.disk;
      this.base := parent;
      this.depth := parent.depth + 1;
      memk := map[];
      view := parent.view;
    }

    ghost predicate Linked() {
      base != null ==> base.depth < depth && base.disk == disk
    }

    ghost predicate Layered()
      reads this, base
    {
      if base == null then memk == map[] else view == Apply(memk, base.view)
    }

    /** `alive` are the states to which a weak link still upgrades. */
    function GetAt(key: Bytes, alive: set<State>): (r: Option<Bytes>)
      requires Linked() && forall s :: s in alive ==> s.Linked() && s.disk == disk
      reads this, alive, disk
      decreases depth
    {
      if key in memk then
        match memk[key]
        case Deleted => None
        case Value(v) => Some(v)
      else if base != null && base in alive then base.GetAt(key, alive)
      else Lookup(disk.data, key)
    }

    /** Every read gives what the flat state holds. */
    ghost predicate ReadsTrue(alive: set<State>)
      requires Linked() && forall s :: s in alive ==> s.Linked() && s.disk == disk
      reads this, alive, disk
    {
      forall k :: GetAt(k, alive) == Lookup(view, k)
    }

    method SetAt(key: Bytes, value: Bytes)
      requires base != null && Layered()
      modifies this
      ensures memk == old(memk)[key := Value(value)] && view == old(view)[key := value]
      ensures Layered()
    {
      memk := memk[key := Value(value)];
      view := view[key := value];
      assert view == Apply(memk, base.view);
    }

    method DelAt(key: Bytes)
      requires base != null && Layered()
      modifies this
      ensures memk == old(memk)[key := Deleted] && view == old(view) - {key}
      ensures Layered()
    {
      memk := memk[key := Deleted];
      view := view - {key};
      assert view == Apply(memk, base.view);
    }

    /** One access of a program, through the links that upgrade now; on one flat map it does the same. */
    method Access(p: Prog, alive: set<State>) returns (q: Prog)
      requires !p.Done? && !p.Fail? && base != null && Linked() && Layered()
      requires forall s :: s in alive ==> s.Linked() && s.disk == disk
      requires base in alive && base.ReadsTrue(alive)
      modifies this
      ensures Layered()
      ensures forall n: nat :: RunFlat(q, view, n) == RunFlat(p, old(view), n + 1)
    {
      match p
      case Read(k, cont) =>
        assert base.GetAt(k, alive) == Lookup(base.view, k);
        q := cont(GetAt(k, alive));
      case Write(k, x, next) =>
        SetAt(k, x);
        q := next;
      case Remove(k, next) =>
        DelAt(k);
        q := next;
    }

    /** Executes a block on a fresh fork: on overlays the program takes the same course, and ends in
        the same flat state, as on one flat map. */
    method Execute(p0: Prog, steps0: nat, alive: set<State>) returns (ok: bool)
      requires base != null && this !in alive && Linked() && Layered() && memk == map[] && view == base.view
      requires forall s :: s in alive ==> s.Linked() && s.disk == disk
      requires base in alive && base.ReadsTrue(alive)
      modifies this
      ensures Layered()
      ensures ok <==> RunFlat(p0, base.view, steps0).Some?
      ensures ok ==> Some(view) == RunFlat(p0, base.view, steps0)
    {
      var p, steps := p0, steps0;
      while !p.Done? && !p.Fail? && steps > 0
        invariant Layered() && base.ReadsTrue(alive) && base.view == old(base.view)
        invariant RunFlat(p, view, steps) == RunFlat(p0, base.view, steps0)
        decreases steps
      {
        steps := steps - 1;
        p := Access(p, alive);
      }
      ok := p.Done?;
    }

    /** The same while the root moves on: between any two reads, the next root of `tops` may be flushed.
        The links that upgrade may be different ones at every read, as long as they lead from the base to
        the next root, whether or not it has been flushed yet; nothing above it need be left. */
    method ExecuteDuringRolls(
      p0: Prog, steps0: nat, root: State, tops: seq<State>,
      flushes: nat -> bool, aliveAt: (nat, nat) -> set<State>, ghost all: set<State>) returns (ok: bool)
      requires base != null && this !in all && Linked() && Layered() && memk == map[] && view == base.view
      requires Stack(all, root, disk) && base in all && Path(all, root, tops)
      requires ReachesRoot(all, root, tops, aliveAt, base)
      modifies this, disk
      ensures Layered()
      ensures ok <==> RunFlat(p0, base.view, steps0).Some?
      ensures ok ==> Some(view) == RunFlat(p0, base.view, steps0)
    {
      var p, steps, i, j := p0, steps0, 0, 0;
      while !p.Done? && !p.Fail? && steps > 0
        invariant Layered() && base.view == old(base.view) && j <= |tops|
        invariant Stack(all, RootAt(root, tops, j), disk)
        invariant RunFlat(p, view, steps) == RunFlat(p0, base.view, steps0)
        decreases steps
      {
        if j < |tops| && flushes(i) {
          FlushNext(all, root, tops, j, disk);
          j := j + 1;
        }
        steps := steps - 1;
        match p
        case Read(k, cont) =>
          ReadAt(all, aliveAt, root, tops, i, j, base, k);
          p := cont(GetAt(k, aliveAt(i, j)));
        case Write(k, x, next) =>
          SetAt(k, x);
          p := next;
        case Remove(k, next) =>
          DelAt(k);
          p := next;
        i := i + 1;
      }
      ok := p.Done?;
    }

    /** Writes the changes of this state to the disk in one batch. */
    method FlushDisk()
      modifies disk
      ensures disk.data == Apply(memk, old(disk.data))
    {
      var batch: seq<BatchOp> := [];
      var todo := memk.Keys;
      while todo != {}
        invariant todo <= memk.Keys && disk.data == old(disk.data)
        invariant Perform(batch, disk.data) == Apply(Part(memk, memk.Keys - todo), disk.data)
        decreases todo
      {
        var k :| k in todo;
        ApplyOne(memk, memk.Keys - todo, k, disk.data);
        assert memk.Keys - (todo - {k}) == memk.Keys - todo + {k};
        var op := match memk[k] case Deleted => Delete(k) case Value(v) => Put(k, v);
        assert (batch + [op])[..|batch|] == batch;
        batch := batch + [op];
        todo := todo - {k};
      }
      assert memk.Keys - todo == memk.Keys && Part(memk, memk.Keys) == memk;
      disk.Write(batch);
    }
  }

  function Part(mem: map<Bytes, MemItem>, ks: set<Bytes>): map<Bytes, MemItem> {
    map k | k in mem && k in ks :: mem[k]
  }

  lemma ApplyOne(mem: map<Bytes, MemItem>, done: set<Bytes>, k: Bytes, v: View)
    requires k in mem && k !in done
    ensures var before := Apply(Part(mem, done), v);
      Apply(Part(mem, done + {k}), v) == if mem[k].Deleted? then before - {k} else before[k := mem[k].value]
  {
  }

  // ---- reading through weak links -----------------------------------------

  /** `all` is closed under links, every state holds its changes over the one it links to, and the
      disk holds the flat state of `root`. */
  ghost predicate Stack(all: set<State>, root: State, disk: LevelDb)
    reads all, disk
  {
    && root in all
    && disk.data == root.view
    && (forall s :: s in all ==> s.Linked() && s.disk == disk)
    && (forall s {:trigger s.base} :: s in all && s.base != null ==> s.base in all)
    && (forall s :: s in all ==> s.Layered())
  }

  /** `s` is `root` or is linked to it through states that are alive. */
  ghost predicate LinkedTo(s: State, root: State, alive: set<State>)
    requires s.Linked() && forall t :: t in alive ==> t.Linked()
    decreases s.depth
  {
    s == root || (s.base != null && s.base in alive && LinkedTo(s.base, root, alive))
  }

  /** A state whose flat value of `k` is still the root's answers `k` rightly, wherever its links end. */
  lemma {:induction false} ReadAbove(all: set<State>, alive: set<State>, root: State, s: State, k: Bytes)
    requires Stack(all, root, s.disk) && alive <= all && s in all
    requires Lookup(s.view, k) == Lookup(root.view, k)
    ensures s.GetAt(k, alive) == Lookup(s.view, k)
    decreases s.depth
  {
    if k !in s.memk && s.base != null && s.base in alive {
      ReadAbove(all, alive, root, s.base, k);
    }
  }

  /** At and below the root every read is right, whichever links at or above the root upgrade. */
  lemma {:induction false} ReadUnder(all: set<State>, alive: set<State>, root: State, s: State, k: Bytes)
    requires Stack(all, root, s.disk) && alive <= all && s in all && LinkedTo(s, root, alive)
    ensures s.GetAt(k, alive) == Lookup(s.view, k)
    decreases s.depth
  {
    if s == root {
      ReadAbove(all, alive, root, s, k);
    } else if k !in s.memk {
      ReadUnder(all, alive, root, s.base, k);
    }
  }

  /** The roots that follow `root`, one after the other. */
  ghost predicate Path(all: set<State>, root: State, tops: seq<State>) {
    forall j :: 0 <= j < |tops| ==> tops[j] in all && tops[j].base == if j == 0 then root else tops[j - 1]
  }

  /** The root that the disk holds after `j` of them have been flushed. */
  function RootAt(root: State, tops: seq<State>, j: nat): State
    requires j <= |tops|
  {
    if j == 0 then root else tops[j - 1]
  }

  method FlushNext(ghost all: set<State>, root: State, tops: seq<State>, j: nat, disk: LevelDb)
    requires j < |tops| && Path(all, root, tops) && Stack(all, RootAt(root, tops, j), disk)
    modifies disk
    ensures Stack(all, RootAt(root, tops, j + 1), disk)
  {
    assert tops[j].base == RootAt(root, tops, j);
    tops[j].FlushDisk();
  }

  /** At every read, whichever links upgrade, they lead from `s` to the root to be. */
  ghost predicate ReachesRoot(all: set<State>, root: State, tops: seq<State>, aliveAt: (nat, nat) -> set<State>,
    s: State)
    requires forall t :: t in all ==> t.Linked()
    requires s in all
  {
    forall i: nat, j: nat {:trigger aliveAt(i, j)} :: j <= |tops| ==>
      aliveAt(i, j) <= all && s in aliveAt(i, j) && LinkedTo(s, NextTop(root, tops, j), aliveAt(i, j))
  }

  lemma ReadAt(all: set<State>, aliveAt: (nat, nat) -> set<State>, root: State, tops: seq<State>, i: nat, j: nat,
    s: State, k: Bytes)
    requires j <= |tops| && Path(all, root, tops) && Stack(all, RootAt(root, tops, j), s.disk) && s in all
    requires ReachesRoot(all, root, tops, aliveAt, s)
    ensures s in aliveAt(i, j) && forall t :: t in aliveAt(i, j) ==> t.Linked() && t.disk == s.disk
    ensures s.GetAt(k, aliveAt(i, j)) == Lookup(s.view, k)
  {
    assert j < |tops| ==> tops[j].base == RootAt(root, tops, j);
    ReadDuringRoll(all, aliveAt(i, j), RootAt(root, tops, j), NextTop(root, tops, j), s, k);
  }

  /** The root to be after `j` of them have been flushed. */
  function NextTop(root: State, tops: seq<State>, j: nat): State
    requires j <= |tops|
  {
    if j < |tops| then tops[j] else if tops == [] then root else tops[|tops| - 1]
  }

  /** Between the move of the root to `top` and the flush every read below `top` is right, even if nothing
      above `top` is left; the same holds before the move and after the flush. */
  lemma {:induction false} ReadDuringRoll(all: set<State>, alive: set<State>, root: State, top: State, s: State,
    k: Bytes)
    requires Stack(all, root, s.disk) && alive <= all && s in all && top in all && (top == root || top.base == root)
    requires LinkedTo(s, top, alive)
    ensures s.GetAt(k, alive) == Lookup(s.view, k)
    decreases s.depth
  {
    if s == top {
      if k !in s.memk && s != root && root in alive {
        ReadAbove(all, alive, root, root, k);
      } else if s == root {
        ReadAbove(all, alive, root, s, k);
      }
    } else if k !in s.memk {
      ReadDuringRoll(all, alive, root, top, s.base, k);
    }
  }

  // ---- reading wrongly ----------------------------------------------------

  /** The keys that are found in memory on the way along the links that upgrade. */
  ghost function Held(s: State, alive: set<State>): set<Bytes>
    requires s.Linked() && forall t :: t in alive ==> t.Linked()
    reads s, alive
    decreases s.depth
  {
    s.memk.Keys + if s.base != null && s.base in alive then Held(s.base, alive) else {}
  }

  /** Whatever a state links to and wherever its links end: it reads a key rightly exactly when it meets the
      key in memory, or the key has in its flat state the value that it has in the root's. */
  lemma {:induction false} StaleReads(all: set<State>, alive: set<State>, root: State, s: State, k: Bytes)
    requires Stack(all, root, s.disk) && alive <= all && s in all
    ensures s.GetAt(k, alive) == Lookup(s.view, k) <==> k in Held(s, alive) || Lookup(s.view, k) == Lookup(root.view, k)
    ensures k !in Held(s, alive) ==> s.GetAt(k, alive) == Lookup(root.view, k)
    decreases s.depth
  {
    if k !in s.memk && s.base != null && s.base in alive {
      StaleReads(all, alive, root, s.base, k);
    }
  }

  /** So all its reads are right exactly when it differs from the root only in keys that it meets. */
  lemma ReadsTrueExactly(all: set<State>, alive: set<State>, root: State, s: State)
    requires Stack(all, root, s.disk) && alive <= all && s in all
    ensures s.ReadsTrue(alive) <==> forall k :: k !in Held(s, alive) ==> Lookup(s.view, k) == Lookup(root.view, k)
  {
    forall k
      ensures s.GetAt(k, alive) == Lookup(s.view, k) <==>
        k in Held(s, alive) || Lookup(s.view, k) == Lookup(root.view, k)
    {
      StaleReads(all, alive, root, s, k);
    }
  }

  /** It does go wrong: of two forks of one root the first sets a key and becomes the root. The other, and a
      block on top of it, then find that key although they never had it. */
  method WrongReads(key: Bytes, value: Bytes) returns (root: State, stale: State, child: State)
    ensures stale.Linked() && child.Linked() && child.base == stale && stale.base != root && stale.disk == child.disk
    ensures Lookup(stale.view, key) == None == Lookup(child.view, key)
    ensures stale.GetAt(key, {}) == Some(value) == child.GetAt(key, {stale})
  {
    var disk := new LevelDb();
    var base := new State.Open(disk, 0);
    root := new State.Fork(base);
    root.SetAt(key, value);
    stale := new State.Fork(base);
    child := new State.Fork(stale);
    root.FlushDisk();
  }
}
