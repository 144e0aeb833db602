/**
 The node's block engine: a tree of chunks with overlay states, the head and root links, the block
 store and the state disk. `Abs` is the picture of `ChainSpec` that it stands for; every method is
 proved to move that picture as `ChainSpec` says.
 */
module Engine {
  import opened Base
  import opened ChainSpec
  import opened ChainState
  import opened RollTree
  import opened SyncPipeline
  import opened Restart

  // ---- block store --------------------------------------------------------

  class BlockStore {
    var blockptr: map<nat, Hash>
    var blockdata: map<Hash, Block>
    var status: Status

    constructor ()
      ensures blockptr == map[] && blockdata == map[] && status == Status(0, 0)
    {
      blockptr, blockdata, status := map[], map[], Status(0, 0);
    }

    method PutBlockData(hx: Hash, b: Block)
      modifies this`blockdata
      ensures blockdata == old(blockdata)[hx := b]
    {
      blockdata := blockdata[hx := b];
    }

    method PutBlockPtr(hei: nat, hx: Hash)
      modifies this`blockptr
      ensures blockptr == old(blockptr)[hei := hx]
    {
      blockptr := blockptr[hei := hx];
    }

    method PutStatus(s: Status)
      modifies this`status
      ensures status == s
    {
      status := s;
    }
  }

  datatype RollError = RootNotFound | RootHeightWrong

  datatype RollStatus = RollStatus(roll: bool, append: bool, switchfork: bool)

  /** A block on its way: its fork, what is left of its program, and how many accesses it may still make. */
  datatype Run = Run(sub: State, prog: Prog, left: nat) {
    predicate Stopped() {
      prog.Done? || prog.Fail? || left == 0
    }
  }

  /** The three stages of a batch at work: `raw` and `hei` belong to the parser, `parsed` is its
      queue; `base` is what the executor has located and `run` its execution on top of that; `queue`
      holds the executed nodes. */
  datatype Job = Job(
    raw: seq<Block>, hei: nat, parsed: seq<Block>, base: Option<(RollChunk, Block)>, run: Option<Run>,
    queue: seq<RollChunk>, badData: bool, failed: bool, states: set<State>, chunks: set<RollChunk>)
  {
    ghost predicate Look() {
      true
    }

    /** How many accesses are still to come, with starting and ending counted as such. */
    function Ahead(steps: nat): nat {
      if run.Some? then run.value.left else steps + 1
    }
  }

  /** A pipeline on its way through a batch, with the two chains that relate it to single inserts. */
  datatype Way = Way(p: Pipe, s: Chain, d: Chain, c: Chain, hei: nat, blocks: seq<Block>) {
    ghost predicate Look() {
      true
    }

    /** The pipeline is on its way; its relation to single inserts is not looked into further than needed. */
    ghost predicate On(r: Rules) {
      forall w: Way {:trigger w.Look()} :: w == this ==> Running(r, w.p, w.s, w.d, w.c, w.hei, w.blocks)
    }

    lemma Next(r: Rules, stage: Stage) returns (w: Way)
      requires r.Valid() && On(r) && Enabled(p, stage)
      ensures w.p == Step(r, p, stage) && w.Follows(this) && w.On(r)
    {
      assert Look();
      var s1, d1 := RunningStep(r, p, stage, s, d, c, hei, blocks);
      StepUsesWork(r, p, stage);
      w := Way(Step(r, p, stage), s1, d1, c, hei, blocks);
    }

    /** The located block is new, its parent is in the tree if its height is right, and what becomes of it. */
    lemma Located(r: Rules)
      requires r.Valid() && On(r) && p.base.Some?
      ensures var b := p.base.value;
        && (b.height == Height(r, b.prev) + 1 ==> b.prev in p.chain.tree)
        && (forall g :: g in p.queue ==> r.hash(g) != r.hash(b))
        && Step(r, p, Execute) ==
          if b.height == Height(r, b.prev) + 1 && Good(r, r.hash(b)) then
            p.(chain := p.chain.(tree := p.chain.tree + {r.hash(b)}), base := None, queue := p.queue + [b])
          else p.(base := None, failed := true)
    {
      assert Look();
      LocatedInTree(r, p, s, d);
      LocatedIsNew(r, p, s, d);
      ExecuteSimply(r, p);
    }

    /** The first queued node can be rolled. */
    lemma FirstIsReady(r: Rules)
      requires r.Valid() && On(r) && p.queue != []
      ensures var h := r.hash(p.queue[0]);
        && h in p.chain.tree && h != p.chain.root && h != r.Root() && Height(r, h) <= Height(r, p.chain.head) + 1
        && Rollable(r, p.chain)
    {
      assert Look();
      QueuedIsReady(r, p, s, d);
    }

    lemma Ends(r: Rules)
      requires On(r) && Finished(p)
      ensures var (e, ok) := Sync(r, c, InOrder(hei, blocks));
        p.chain == e && (Succeeded(p) <==> ok && InOrder(hei, blocks) == blocks) && Inv(r, p.chain)
    {
      assert Look();
      RunningEnd(r, p, s, d, c, hei, blocks);
    }

    predicate Follows(w: Way) {
      Work(p) < Work(w.p) && c == w.c && hei == w.hei && blocks == w.blocks
    }
  }

  lemma FirstWay(r: Rules, c: Chain, hei: nat, blocks: seq<Block>) returns (w: Way)
    requires r.Valid() && Inv(r, c)
    ensures w == Way(Begin(c, hei, blocks), c, c, c, hei, blocks) && w.On(r)
  {
    w := Way(Begin(c, hei, blocks), c, c, c, hei, blocks);
    RunningStart(r, c, hei, blocks);
  }

  // ---- the engine ---------------------------------------------------------

  class BlockEngine {
    const rules: Rules
    const disk: LevelDb
    const store: BlockStore
    var sroot: RollChunk
    var scusp: RollChunk   // the head; a weak link that upgrades because the head is in the tree
    ghost var t: Tree
    ghost var book: States

    ghost function Abs(): Chain
      reads this, store
    {
      Chain(t.node.Keys, sroot.hash, scusp.hash, store.blockptr - {0}, store.blockdata, store.status)
    }

    ghost predicate Matches()
      reads this
    {
      && t.active && t.rules == rules && t.root == sroot && t.head == scusp
      && book.active && book.disk == disk && Views(rules, t.chunks, book) && sroot.state in book.view
    }

    ghost predicate Listed()
      requires Matches()
      reads this, t.chunks
    {
      forall c :: c in t.chunks ==> t.kids[c] == c.childs
    }

    ghost predicate Valid()
      reads this, t.chunks, book.mem.Keys, disk, store
    {
      && Matches() && Listed() && book.Holds()
      && disk.data == book.view[sroot.state]
      && (0 in store.blockptr ==> store.blockptr[0] == rules.Root())
    }

    /** No executed node is waiting to be rolled. */
    ghost predicate Settled()
      reads this, store
    {
      Inv(rules, Abs())
    }

    // ---- opening ----------------------------------------------------------

    constructor Open(rules: Rules, disk: LevelDb, store: BlockStore, base: Block)
      requires rules.Valid() && Some(disk.data) == StateOf(rules, rules.hash(base))
      requires 0 in store.blockptr ==> store.blockptr[0] == rules.Root()
      ensures Valid() && this.rules == rules && this.disk == disk && this.store == store
      ensures Abs() == Chain({rules.hash(base)}, rules.hash(base), rules.hash(base),
                             store.blockptr - {0}, store.blockdata, store.status)
      ensures fresh(t.chunks) && fresh(book.mem.Keys)
    {
      var state := new State.Open(disk, base.height);
      var chunk := new RollChunk(rules.hash(base), base, state, null);
      this.rules, this.disk, this.store := rules, disk, store;
      sroot, scusp := chunk, chunk;
      SeedOk(rules, chunk);
      t := Seed(rules, chunk);
      OpenBookOk(disk, state, disk.data);
      book := OpenBook(disk, state, disk.data);
      new;
      assert t.node.Keys == {rules.hash(base)} && ViewOk(rules, book, chunk);
    }

    // ---- finding a base chunk ---------------------------------------------

    function SearchChunk(c: RollChunk, hx: Hash): (r: Option<RollChunk>)
      requires Matches() && Listed() && t.Has(c)
      reads this, t.chunks
      ensures r == if Under(t, c, hx) then Some(t.node[hx]) else None
      decreases Descendants(rules, t.node.Keys, c.hash), |c.childs| + 1
    {
      NodeFacts(t, c);
      if c.hash == hx then Some(c)
      else
        UnderSomeChild(t, c, hx);
        SearchChilds(c, 0, hx)
    }

    function SearchChilds(c: RollChunk, i: nat, hx: Hash): (r: Option<RollChunk>)
      requires Matches() && Listed() && t.Has(c) && c in t.chunks && i <= |c.childs|
      reads this, t.chunks
      ensures r == if exists j :: i <= j < |t.kids[c]| && Under(t, t.kids[c][j], hx) then Some(t.node[hx]) else None
      decreases Descendants(rules, t.node.Keys, c.hash), |c.childs| - i
    {
      if i == |c.childs| then None
      else
        ChildIsSmaller(t, c, i);
        var r := SearchChunk(c.childs[i], hx);
        if r.Some? then r else SearchChilds(c, i + 1, hx)
    }

    /** The head is tried first, then the tree is searched from the root. */
    function LocateBaseChunk(hx: Hash): (r: Option<RollChunk>)
      requires Matches() && Listed()
      reads this, t.chunks
      ensures r == if hx in t.node then Some(t.node[hx]) else None
    {
      UnderRoot(t, hx);
      if scusp.hash == hx then Some(scusp) else SearchChunk(sroot, hx)
    }

    // ---- execution --------------------------------------------------------

    lemma NodeReads(c: RollChunk, alive: set<State>)
      requires Valid() && t.Has(c) && TreeStates(t) <= alive <= book.mem.Keys
      ensures c.state in alive && c.state.Linked() && c.state.disk == disk
      ensures forall s :: s in alive ==> s.Linked() && s.disk == disk
      ensures c.state.ReadsTrue(alive) && Some(c.state.view) == StateOf(rules, c.hash)
    {
      HoldsStack(book, sroot.state, disk);
      NodeLinked(t, c, alive);
      NodeFacts(t, c);
      assert ViewOk(rules, book, c);
      forall k
        ensures c.state.GetAt(k, alive) == Lookup(c.state.view, k)
      {
        ReadUnder(book.mem.Keys, alive, sroot.state, c.state, k);
      }
    }

    /** After the root has moved to `top` and before the flush, when only what `top` reaches is left, every
        node below it still reads the flat state of its block. */
    lemma ReadsBeforeFlush(top: RollChunk, c: RollChunk, alive: set<State>)
      requires Valid() && NextRoot(t, scusp, top) && t.Has(c) && Under(t, top, c.hash)
      requires alive <= book.mem.Keys && forall h :: Under(t, top, h) ==> t.node[h].state in alive
      ensures c.state in alive && c.state.Linked() && c.state.disk == disk
      ensures forall s :: s in alive ==> s.Linked() && s.disk == disk
      ensures c.state.ReadsTrue(alive) && Some(c.state.view) == StateOf(rules, c.hash)
    {
      HoldsStack(book, sroot.state, disk);
      MoveOk(t, scusp, top);
      NodeFacts(t, top);
      var u: Tree := t.Move(scusp, top);
      assert forall h :: h in u.node ==> Under(t, top, h) && u.node[h] == t.node[h];
      NodeLinked(u, c, alive);
      NodeFacts(t, c);
      NodeParent(t, top);
      assert ViewOk(rules, book, c) && ViewOk(rules, book, top);
      forall k
        ensures c.state.GetAt(k, alive) == Lookup(c.state.view, k)
      {
        ReadDuringRoll(book.mem.Keys, alive, sroot.state, top.state, c.state, k);
      }
    }

    ghost predicate NewState(s: State, base: RollChunk, b: Block)
      reads this, s, s.base
    {
      && s.base == base.state && s.disk == disk && s.Linked() && s.Layered()
      && Some(s.view) == StateOf(rules, rules.hash(b))
    }

    /** Runs the checks and transactions of `b` on a fork of the base state. `alive` are the states to
        which weak links upgrade: all of the tree's, and any others. */
    method DoCheckInsert(base: RollChunk, b: Block, alive: set<State>) returns (r: Result<State, InsertError>)
      requires Valid() && TreeStates(t) <= alive <= book.mem.Keys && base in t.chunks && base.hash == b.prev
      requires b.height == base.height + 1 ==> t.Has(base)
      ensures b.height != base.height + 1 ==> r == Err(HeightMismatch)
      ensures b.height == base.height + 1 ==> if Good(rules, rules.hash(b)) then r.Ok? else r == Err(ExecFailed)
      ensures r.Ok? ==> NewState(r.value, base, b) && fresh(r.value)
    {
      if b.height != base.height + 1 {
        return Err(HeightMismatch);
      }
      NodeReads(base, alive);
      NodeFacts(t, base);
      ChildState(rules, base, b);
      var sub := new State.Fork(base.state);
      var ok := sub.Execute(rules.program(base.block, b), rules.steps, alive);
      if !ok {
        return Err(ExecFailed);
      }
      r := Ok(sub);
    }

    /** Hangs a prepared node on its base. */
    method PushChunk(base: RollChunk, c: RollChunk, ghost chunks: set<RollChunk>, ghost kids: Kids)
      requires base in chunks && c !in chunks && kids.Keys == chunks && c.childs == []
      requires forall d :: d in chunks ==> kids[d] == d.childs
      modifies base
      ensures forall d :: d in chunks + {c} ==>
        d.childs == if d == base then kids[d] + [c] else if d == c then [] else kids[d]
    {
      base.PushChild(c);
    }

    /** `t1` and `book1` describe the tree with `c` hung below `base`. */
    ghost predicate Grown(base: RollChunk, c: RollChunk, t1: Tree, book1: States)
      requires t.active
      reads this, c, c.state, book1.mem.Keys
    {
      && base in t.kids && base in t.chunks && c !in t.chunks && c.childs == [] && t1 == t.Grow(base, c)
      && t1.chunks == t.chunks + {c} && t1.active && t1.rules == t.rules && t1.root == t.root && t1.head == t.head
      && (forall d :: d in t1.chunks ==>
            t1.kids[d] == if d == base then t.kids[d] + [c] else if d == c then [] else t.kids[d])
      && book1.active && book1.disk == book.disk && Views(rules, t1.chunks, book1) && book1.Holds()
      && sroot.state in book.view && sroot.state in book1.view && book1.view[sroot.state] == book.view[sroot.state]
      && book1.mem.Keys == book.mem.Keys + {c.state}
    }

    method HangChunk(base: RollChunk, c: RollChunk, ghost t1: Tree, ghost book1: States)
      requires Valid() && Grown(base, c, t1, book1)
      modifies this`t, this`book, base
      ensures Valid() && t == t1 && book == book1
    {
      PushChunk(base, c, t.chunks, t.kids);
      Record(t1, book1);
    }

    /** Appends a node for `b` below its base. */
    method AppendChunk(base: RollChunk, b: Block, sub: State) returns (c: RollChunk)
      requires Valid() && t.Has(base) && base.hash == b.prev && b.height == base.height + 1
      requires rules.hash(b) !in t.node && NewState(sub, base, b) && sub !in book.mem
      modifies this`t, this`book, base
      ensures Valid() && fresh(c) && c.hash == rules.hash(b) && c.state == sub && t.chunks == old(t.chunks) + {c}
      ensures base in old(t).kids && t == old(t).Grow(base, c)
      ensures book.mem.Keys == old(book).mem.Keys + {sub}
    {
      c := new RollChunk(rules.hash(b), b, sub, base);
      ghost var t1, book1 := GrowFacts(base, b, sub, c);
      HangChunk(base, c, t1, book1);
    }

    /** A tree and a book may be exchanged for others that describe the same objects. */
    ghost method Record(t1: Tree, book1: States)
      requires 0 in store.blockptr ==> store.blockptr[0] == rules.Root()
      requires t1.active && t1.rules == rules && t1.root == sroot && t1.head == scusp
      requires book1.active && book1.disk == disk && Views(rules, t1.chunks, book1) && book1.Holds()
      requires sroot.state in book1.view && disk.data == book1.view[sroot.state]
      requires forall d :: d in t1.chunks ==> t1.kids[d] == d.childs
      modifies this`t, this`book
      ensures Valid() && t == t1 && book == book1
    {
      t, book := t1, book1;
    }

    lemma GrowFacts(base: RollChunk, b: Block, sub: State, c: RollChunk) returns (t1: Tree, book1: States)
      requires Matches() && book.Holds()
      requires t.Has(base) && base.hash == b.prev && b.height == base.height + 1
      requires rules.hash(b) !in t.node && NewState(sub, base, b) && sub !in book.mem && c !in t.chunks
      requires c.hash == rules.hash(b) && c.block == b && c.height == b.height && c.state == sub && c.parent == base
      requires c.childs == []
      ensures Grown(base, c, t1, book1)
    {
      NodeFacts(t, base);
      assert ViewOk(rules, book, base);
      GrowOk(t, base, c);
      AddOk(book, sub, sub.memk, sub.view);
      ViewsGrow(rules, t.chunks, book, c, sub.memk, sub.view);
      t1, book1 := t.Grow(base, c), book.Add(sub, sub.memk, sub.view);
    }

    /** Finds the chunk that `b` follows and refuses a block that this chunk already has. */
    method Locate(b: Block) returns (r: Result<RollChunk, InsertError>)
      requires Matches() && Listed()
      ensures b.prev !in t.node ==> r == Err(PrevNotFound)
      ensures b.prev in t.node && rules.hash(b) in t.node ==> r == Err(Repetitive)
      ensures b.prev in t.node && rules.hash(b) !in t.node ==> r == Ok(t.node[b.prev])
    {
      var found := LocateBaseChunk(b.prev);
      if found.None? {
        return Err(PrevNotFound);
      }
      var base := found.value;
      RepeatIsListed(t, base, b);
      for i := 0 to |base.childs|
        invariant forall j :: 0 <= j < i ==> base.childs[j].hash != rules.hash(b)
      {
        if base.childs[i].hash == rules.hash(b) {
          return Err(Repetitive);
        }
      }
      r := Ok(base);
    }

    lemma OnlyNew(before: set<RollChunk>, c: RollChunk)
      requires t.chunks == before + {c}
      ensures forall x :: x in t.chunks ==> x in before || x == c
    {
    }

    /** Executes a located block and hangs its node on the tree. */
    method ExecuteOn(base: RollChunk, b: Block, alive: set<State>) returns (r: Result<RollChunk, InsertError>)
      requires Valid() && TreeStates(t) <= alive <= book.mem.Keys && base in t.chunks && base.hash == b.prev
      requires rules.hash(b) !in t.node && (b.height == base.height + 1 ==> t.Has(base))
      modifies this`t, this`book, t.chunks
      ensures Valid()
      ensures b.height != base.height + 1 ==> r == Err(HeightMismatch)
      ensures b.height == base.height + 1 ==> if Good(rules, rules.hash(b)) then r.Ok? else r == Err(ExecFailed)
      ensures r.Err? ==> t == old(t) && book == old(book)
      ensures forall x :: x in t.chunks ==> x in old(t.chunks) || fresh(x)
      ensures r.Ok? ==> r.value.hash == rules.hash(b) && base in old(t).kids
      ensures r.Ok? ==> t == old(t).Grow(base, r.value) && book.mem.Keys == old(book).mem.Keys + {r.value.state}
    {
      var sub := DoCheckInsert(base, b, alive);
      match sub
      case Err(e) => r := Err(e);
      case Ok(s) =>
        ghost var before := t.chunks;
        var c := AppendChunk(base, b, s);
        OnlyNew(before, c);
        r := Ok(c);
    }

    /** Executing a located block is the rest of the first stage. */
    method ExecLocated(base: RollChunk, b: Block, alive: set<State>) returns (r: Result<RollChunk, InsertError>)
      requires Valid() && TreeStates(t) <= alive <= book.mem.Keys
      requires b.prev in t.node && rules.hash(b) !in t.node && base == t.node[b.prev]
      modifies this`t, this`book, t.chunks
      ensures Valid()
      ensures Executed(old(Abs()), old(t), b, r) && old(book.mem).Keys <= book.mem.Keys
      ensures forall x :: x in t.chunks ==> x in old(t.chunks) || fresh(x)
    {
      NodeFacts(t, base);
      r := ExecuteOn(base, b, alive);
      CheckLocated(rules, old(t).node.Keys, b, base);
      if r.Ok? {
        GrowPicture(old(t), base, r.value);
      }
    }

    /** What the first stage makes of the picture `c` and the tree `t0`. */
    ghost predicate Executed(c: Chain, t0: Tree, b: Block, r: Result<RollChunk, InsertError>)
      reads this, store
    {
      match Exec(rules, c, b)
      case Err(e) => r == Err(e) && Abs() == c && t == t0
      case Ok(d) => r.Ok? && Abs() == d && r.value.hash == rules.hash(b) && t.Has(r.value)
                    && t.node.Values <= t0.node.Values + {r.value} && TreeStates(t) <= TreeStates(t0) + {r.value.state}
                    && r.value.state in book.mem
    }

    /** First stage of an insert. */
    method ExecState(b: Block, alive: set<State>) returns (r: Result<RollChunk, InsertError>)
      requires Valid() && TreeStates(t) <= alive <= book.mem.Keys
      modifies this`t, this`book, t.chunks
      ensures Valid()
      ensures Executed(old(Abs()), old(t), b, r) && old(book.mem).Keys <= book.mem.Keys
      ensures forall x :: x in t.chunks ==> x in old(t.chunks) || fresh(x)
    {
      var found := Locate(b);
      match found
      case Err(e) => r := Err(e);
      case Ok(base) => r := ExecLocated(base, b, alive);
    }

    // ---- rolling ----------------------------------------------------------

    /** The root moves to `top`: its changes go to the disk, and what it does not reach is dropped. */
    method RollTo(top: RollChunk)
      requires Valid() && NextRoot(t, scusp, top)
      modifies this`sroot, this`t, disk
      ensures Valid() && sroot == top && t == old(t).Move(scusp, top)
    {
      FlushGives(top);
      sroot := top;
      top.state.FlushDisk();
      FollowRoot(top);
    }

    /** The tree follows the root. */
    ghost method FollowRoot(top: RollChunk)
      requires t.active && NextRoot(t, scusp, top) && sroot == top && t.rules == rules && t.head == scusp
      requires book.active && book.disk == disk && Views(rules, t.chunks, book) && top.state in book.view
      requires (forall c :: c in t.chunks ==> t.kids[c] == c.childs) && book.Holds()
      requires disk.data == book.view[top.state] && (0 in store.blockptr ==> store.blockptr[0] == rules.Root())
      modifies this`t
      ensures Valid() && t == old(t).Move(scusp, top)
    {
      MoveOk(t, scusp, top);
      t := t.Move(scusp, top);
    }

    /** On a disk that holds the root's flat state, the changes of the next root make its own. */
    lemma FlushGives(top: RollChunk)
      requires Valid() && NextRoot(t, scusp, top)
      ensures top.state in book.mem && top.state in book.view && top.state.disk == disk
      ensures Apply(top.state.memk, disk.data) == book.view[top.state]
    {
      NodeFacts(t, top);
      assert ViewOk(rules, book, top);
      assert book.Look();
      assert book.StateOk(top.state);
    }

    method MoveHead(append: RollChunk)
      requires Valid() && t.Has(append)
      modifies this`scusp, this`t
      ensures Valid() && scusp == append && t == old(t).(head := append)
      ensures append.height == Height(rules, append.hash) && sroot.height == Height(rules, sroot.hash)
    {
      NodeFacts(t, append);
      NodeFacts(t, sroot);
      MoveHeadOnly(t, append);
      MoveOk(t, append, sroot);
      assert t.Move(append, sroot) == t.(head := append);
      scusp, t := append, t.Move(append, sroot);
    }

    /** The next root: the only child of the root if there is just one, else the ancestor `unstable`
        parents above the new head. */
    method ChooseRoot(append: RollChunk, alive: set<RollChunk>) returns (r: Result<RollChunk, RollError>)
      requires Matches() && Listed() && t.Has(append) && t.node.Values <= alive
      requires Height(rules, sroot.hash) + rules.unstable < Height(rules, append.hash)
      ensures append.height <= sroot.height + rules.unstable + 1 ==> r.Ok?
      ensures r.Ok? ==> NextRoot(t, append, r.value)
    {
      var newRoot: Option<RollChunk> := None;
      NodeFacts(t, append);
      ChoiceIsAncestor(t, append, rules.unstable, alive);
      if |sroot.childs| == 1 {
        newRoot := Some(sroot.childs[0]);
      }
      if newRoot.None? {
        newRoot := ScanParent(append, rules.unstable, alive);
      }
      if newRoot.None? {
        return Err(RootNotFound);
      }
      if newRoot.value.height != sroot.height + 1 {
        return Err(RootHeightWrong);
      }
      r := Ok(newRoot.value);
    }

    /** Makes `append` the head when it is higher, and then moves the root when it lags too far. */
    method DoRoll(append: RollChunk, alive: set<RollChunk>) returns (r: Result<RollStatus, RollError>)
      requires Valid() && t.Has(append) && t.node.Values <= alive
      modifies this`sroot, this`scusp, this`t, disk
      ensures Valid()
      ensures append.height <= old(scusp).height + 1 && old(scusp).height <= old(sroot).height + rules.unstable ==>
        r.Ok?
      ensures r.Ok? ==> Rolled(old(t), old(sroot), old(scusp), append, r.value)
    {
      var oldhead := scusp;
      if append.height <= oldhead.height {
        return Ok(RollStatus(false, false, false));
      }
      MoveHead(append);
      var switchfork := oldhead.hash != append.block.prev;
      if append.height <= sroot.height + rules.unstable {
        return Ok(RollStatus(false, true, switchfork));
      }
      r := RollRoot(append, alive, switchfork);
      if r.Ok? {
        MoveAfterHead(old(t), old(t).(head := append), append, sroot);
      }
    }

    method RollRoot(append: RollChunk, alive: set<RollChunk>, switchfork: bool)
      returns (r: Result<RollStatus, RollError>)
      requires Valid() && t.Has(append) && scusp == append && t.node.Values <= alive
      requires Height(rules, sroot.hash) + rules.unstable < Height(rules, append.hash)
      modifies this`sroot, this`t, disk
      ensures Valid()
      ensures append.height <= old(sroot).height + rules.unstable + 1 ==> r.Ok?
      ensures r.Ok? ==> r == Ok(RollStatus(true, true, switchfork))
      ensures r.Ok? ==> NextRoot(old(t), append, sroot) && t == old(t).Move(append, sroot)
    {
      var newRoot := ChooseRoot(append, alive);
      if newRoot.Err? {
        return Err(newRoot.error);
      }
      RollTo(newRoot.value);
      r := Ok(RollStatus(true, true, switchfork));
    }

    /** What a roll without an error has done. */
    ghost predicate Rolled(t0: Tree, root: RollChunk, head: RollChunk, append: RollChunk, s: RollStatus)
      reads this
    {
      && s.append == (head.height < append.height)
      && s.roll == (head.height < append.height && root.height + rules.unstable < append.height)
      && s.switchfork == (s.append && head.hash != append.block.prev)
      && scusp == (if s.append then append else head)
      && (if s.roll then NextRoot(t0, append, sroot) && t == t0.Move(append, sroot)
          else sroot == root && t == t0.(head := scusp))
    }

    // ---- storing ----------------------------------------------------------

    /** Where the new path and the index agree already. */
    ghost predicate AgreeBelow(h: Hash, low: nat)
      reads this, store
    {
      forall k :: 1 <= k < low ==> k in store.blockptr && store.blockptr[k] == AncestorAt(rules, h, k)
    }

    lemma StepUp(append: RollChunk, prev: RollChunk, ptr: map<nat, Hash>)
      requires Matches() && t.Has(append) && prev in t.chunks && prev.parent != null && prev.height <= append.height
      requires prev.hash == AncestorAt(rules, append.hash, prev.height)
      requires sroot.height <= prev.height ==> t.Has(prev)
      requires Rewritten(rules, ptr, store.blockptr, append.hash, prev.height, append.height)
      ensures prev.parent in t.chunks && prev.parent.height < prev.height
      ensures prev.parent.hash == AncestorAt(rules, append.hash, prev.parent.height)
      ensures sroot.height <= prev.parent.height ==> t.Has(prev.parent)
      ensures Rewritten(rules, ptr, store.blockptr[prev.parent.height := prev.parent.hash], append.hash,
        prev.parent.height, append.height)
    {
      ChunkFacts(t, prev);
      NodeFacts(t, append);
      AncestorTransitive(rules, append.hash, prev.parent.height, prev.height);
      if sroot.height <= prev.parent.height {
        NodeParent(t, prev);
      }
    }

    lemma StopsAtRoot(prev: RollChunk, alive: set<RollChunk>)
      requires Matches() && prev in t.chunks && t.node.Values <= alive
      requires prev.parent == null || prev.parent !in alive
      requires sroot.height <= prev.height ==> t.Has(prev)
      ensures prev.height <= sroot.height
    {
      NodeFacts(t, sroot);
      if sroot.height < prev.height {
        ParentAlive(t, prev, alive);
      }
    }

    /** Rewrites the pointers of the parents of `append`, as far up as the links upgrade. */
    method RewritePtrs(append: RollChunk, alive: set<RollChunk>)
      requires Valid() && t.Has(append) && t.node.Values <= alive && 0 < append.height &&
        AgreeBelow(append.hash, sroot.height)
      modifies store`blockptr
      ensures Valid()
      ensures store.blockptr - {0} == Repoint(rules, old(store.blockptr) - {0}, Prev(rules, append.hash), sroot.height)
    {
      var prev := append;
      NodeFacts(t, append);
      NodeFacts(t, sroot);
      ghost var ptr := store.blockptr;
      while prev.parent != null && prev.parent in alive
        invariant Matches() && prev in t.chunks && prev.height <= append.height
        invariant prev.hash == AncestorAt(rules, append.hash, prev.height)
        invariant sroot.height <= prev.height ==> t.Has(prev)
        invariant Rewritten(rules, ptr, store.blockptr, append.hash, prev.height, append.height)
        decreases prev.height
      {
        StepUp(append, prev, ptr);
        prev := prev.parent;
        store.PutBlockPtr(prev.height, prev.hash);
      }
      StopsAtRoot(prev, alive);
      RewrittenIsRepoint(rules, ptr, store.blockptr, append.hash, prev.height, sroot.height);
    }

    ghost function StoredPtr(ptr: map<nat, Hash>, append: RollChunk, s: RollStatus, low: nat): map<nat, Hash> {
      if s.switchfork then Repoint(rules, ptr[append.height := append.hash], Prev(rules, append.hash), low)
      else if s.append then ptr[append.height := append.hash]
      else ptr
    }

    method DoStore(append: RollChunk, s: RollStatus, alive: set<RollChunk>)
      requires Valid() && t.Has(append) && t.node.Values <= alive
      requires s.switchfork ==> s.append
      requires s.append ==> 0 < append.height && sroot.height <= append.height && AgreeBelow(append.hash, sroot.height)
      modifies store
      ensures Valid()
      ensures store.blockptr - {0} == StoredPtr(old(store.blockptr) - {0}, append, s, sroot.height)
      ensures store.blockdata == old(store.blockdata)[append.hash := append.block]
      ensures store.status == if s.roll then Status(sroot.height, scusp.height) else old(store.status)
    {
      store.PutBlockData(append.hash, append.block);
      if s.append {
        store.PutBlockPtr(append.height, append.hash);
        assert store.blockptr - {0} == (old(store.blockptr) - {0})[append.height := append.hash];
      }
      if s.roll {
        store.PutStatus(Status(sroot.height, scusp.height));
      }
      if s.switchfork {
        RewritePtrs(append, alive);
      }
    }

    /** What a node of the tree must be to be rolled: at most one above the head. */
    ghost predicate Ready(append: RollChunk)
      reads this, store
    {
      && t.Has(append) && append.hash != rules.Root() && append.hash != sroot.hash
      && Height(rules, append.hash) <= Height(rules, scusp.hash) + 1
      && Rollable(rules, Abs())
    }

    /** Second stage of an insert; neither of its two errors can occur. The roll drops the old root and what
        else the new one does not reach, so fewer links may upgrade for the store than for the roll. */
    method RollStore(append: RollChunk, alive: set<RollChunk>)
      returns (r: Result<RollStatus, RollError>, left: set<RollChunk>)
      requires Valid() && Ready(append) && t.node.Values <= alive
      modifies this`sroot, this`scusp, this`t, disk, store
      ensures Valid() && r.Ok? && t.node.Values <= left <= alive
      ensures Abs() == ChainSpec.RollStore(rules, old(Abs()), append.hash)
      ensures Shrunk(old(t))
    {
      ghost var c := Abs();
      r := RollReady(append, alive);
      left := StoreRolled(c, append, r.value, alive);
    }

    method StoreRolled(ghost c: Chain, append: RollChunk, s: RollStatus, alive: set<RollChunk>)
      returns (left: set<RollChunk>)
      requires Valid() && RolledPicture(c, append, s) && t.node.Values <= alive
      requires append.block == rules.unhash(append.hash) && append.height == Height(rules, append.hash) > 0
      modifies store
      ensures Valid() && Abs() == ChainSpec.RollStore(rules, c, append.hash) && t.node.Values <= left <= alive
    {
      left := DropChunks(alive);
      DoStore(append, s, left);
    }

    method RollReady(append: RollChunk, alive: set<RollChunk>) returns (r: Result<RollStatus, RollError>)
      requires Valid() && Ready(append) && t.node.Values <= alive
      modifies this`sroot, this`scusp, this`t, disk
      ensures Valid() && r.Ok? && RolledPicture(old(Abs()), append, r.value) && Shrunk(old(t))
      ensures append.block == rules.unhash(append.hash) && append.height == Height(rules, append.hash) > 0
    {
      ghost var c := Abs();
      ReadyFacts(append);
      r := DoRoll(append, alive);
      RolledFacts(old(t), c, old(sroot), old(scusp), append, r.value);
    }

    /** Nodes have only gone, and no chunk has been made. */
    ghost predicate Shrunk(t0: Tree)
      reads this
    {
      (forall h :: h in t.node ==> h in t0.node && t.node[h] == t0.node[h]) && t.chunks == t0.chunks
    }

    /** Root, head, tree and flags after the roll of `append` over the picture `c`, before the store. */
    ghost predicate RolledPicture(c: Chain, append: RollChunk, s: RollStatus)
      reads this, store
    {
      RolledPlaces(append, s) && RolledMarks(c, append, s)
    }

    ghost predicate RolledPlaces(append: RollChunk, s: RollStatus)
      reads this, store
    {
      && t.Has(append)
      && (s.switchfork ==> s.append)
      && (s.append ==> sroot.height <= append.height && AgreeBelow(append.hash, sroot.height))
      && sroot.height == Height(rules, sroot.hash) && scusp.height == Height(rules, scusp.hash)
    }

    ghost predicate RolledMarks(c: Chain, append: RollChunk, s: RollStatus)
      reads this, store
    {
      && s.roll == Rolls(rules, c, append.hash) && sroot.hash == NewRoot(rules, c, append.hash)
      && scusp.hash == (if Height(rules, c.head) < Height(rules, append.hash) then append.hash else c.head)
      && t.node.Keys == (if s.roll then Descendants(rules, c.tree, sroot.hash) else c.tree)
      && StoredPtr(c.ptr, append, s, sroot.height) == NewPtr(rules, c, append.hash, sroot.height)
      && c.ptr == store.blockptr - {0} && c.bodies == store.blockdata && c.status == store.status
    }

    lemma ReadyFacts(append: RollChunk)
      requires Matches() && Ready(append)
      ensures append.height == Height(rules, append.hash) && scusp.height == Height(rules, scusp.hash)
      ensures sroot.height == Height(rules, sroot.hash) && append.block == rules.unhash(append.hash)
      ensures append.height <= scusp.height + 1 && sroot.height <= scusp.height <= sroot.height + rules.unstable
      ensures 0 < append.height
    {
      NodeFacts(t, append);
      NodeFacts(t, scusp);
      NodeFacts(t, sroot);
      ChunkFacts(t, append);
      GoodParent(rules, append.hash);
    }

    lemma RolledFacts(t0: Tree, c: Chain, root: RollChunk, head: RollChunk, append: RollChunk, s: RollStatus)
      requires Valid() && Rolled(t0, root, head, append, s)
      requires t0.active && t0.rules == rules && t0.Has(append) && append.hash != rules.Root()
      requires c == Chain(t0.node.Keys, root.hash, head.hash, store.blockptr - {0}, store.blockdata, store.status)
      requires t0.root == root && t0.head == head && append.hash != root.hash
      requires append.height == Height(rules, append.hash) && root.height == Height(rules, root.hash)
      requires head.height == Height(rules, head.hash) && append.block == rules.unhash(append.hash) && 0 < append.height
      requires append.height <= head.height + 1 && root.height <= head.height && Rollable(rules, c)
      ensures RolledPicture(c, append, s) && Shrunk(t0)
    {
      NodeFacts(t, sroot);
      NodeFacts(t, scusp);
      RolledTree(t0, append, s);
      if s.append {
        AgreesBelowRoot(t0, c, append);
      }
      MarksFollow(t0, c, root, head, append, s);
    }

    lemma MarksFollow(t0: Tree, c: Chain, root: RollChunk, head: RollChunk, append: RollChunk, s: RollStatus)
      requires Rolled(t0, root, head, append, s) && t0.rules == rules && t0.root == root
      requires t.node.Keys == if s.roll then Descendants(rules, t0.node.Keys, sroot.hash) else t0.node.Keys
      requires c == Chain(t0.node.Keys, root.hash, head.hash, store.blockptr - {0}, store.blockdata, store.status)
      requires append.height == Height(rules, append.hash) && root.height == Height(rules, root.hash)
      requires head.height == Height(rules, head.hash) && append.block == rules.unhash(append.hash)
      ensures RolledMarks(c, append, s)
    {
    }

    lemma RolledTree(t0: Tree, append: RollChunk, s: RollStatus)
      requires t.active && t0.active && t0.rules == rules && t0.Has(append)
      requires if s.roll then NextRoot(t0, append, sroot) && t == t0.Move(append, sroot)
               else t == t0.(head := scusp)
      ensures Shrunk(t0) && t.Has(append)
      ensures t.node.Keys == if s.roll then Descendants(rules, t0.node.Keys, sroot.hash) else t0.node.Keys
    {
      if s.roll {
        MoveOk(t0, append, sroot);
      }
    }

    lemma AgreesBelowRoot(t0: Tree, c: Chain, append: RollChunk)
      requires t0.active && t0.rules == rules && t0.Has(append) && t0.root.hash == c.root && t0.head.hash == c.head
      requires c.tree == t0.node.Keys && c.ptr == store.blockptr - {0} && Rollable(rules, c)
      requires sroot.height <= Height(rules, c.root) + 1
      ensures AgreeBelow(append.hash, sroot.height)
    {
      assert t0.Look();
      forall k | 1 <= k < sroot.height
        ensures k in store.blockptr && store.blockptr[k] == AncestorAt(rules, append.hash, k)
      {
        SameBelowRoot(rules, c, append.hash, c.head, k);
        assert k in c.ptr;
      }
    }

    // ---- links that upgrade -----------------------------------------------

    /** `states` and `chunks` are those to which weak links upgrade: all that the tree holds, and any
        others that were ever made. */
    ghost predicate Upgrades(states: set<State>, chunks: set<RollChunk>)
      reads this
    {
      TreeStates(t) <= states <= book.mem.Keys && t.node.Values <= chunks
    }

    predicate InTree(c: RollChunk)
      requires Matches() && Listed()
      reads this, t.chunks
      ensures InTree(c) <==> t.Has(c)
    {
      LocateBaseChunk(c.hash) == Some(c)
    }

    /** Any chunks outside the tree may be gone. */
    method DropChunks(chunks: set<RollChunk>) returns (left: set<RollChunk>)
      requires Matches() && Listed() && t.node.Values <= chunks
      ensures t.node.Values <= left <= chunks
    {
      var gone: set<RollChunk> := *;
      left := set c | c in chunks && (c !in gone || InTree(c));
      forall c | c in t.node.Values
        ensures c in left
      {
        NodeIsThere(c);
      }
    }

    /** Any states may be gone but those of chunks in the tree. */
    method DropStates(states: set<State>, chunks: set<RollChunk>) returns (left: set<State>)
      requires Matches() && Listed() && Upgrades(states, chunks)
      ensures left <= states && Upgrades(left, chunks)
    {
      var gone: set<State> := *;
      var held := set c | c in chunks && InTree(c) :: c.state;
      left := set s | s in states && (s !in gone || s in held);
      forall h | h in t.node
        ensures t.node[h].state in held
      {
        NodeIsThere(t.node[h]);
        assert t.node[h] in t.node.Values;
      }
    }

    lemma NodeIsThere(c: RollChunk)
      requires Matches() && c in t.node.Values
      ensures t.Has(c)
    {
      assert t.Look();
    }

    // ---- inserting one block ----------------------------------------------

    /** Inserts a block; `ss` and `cs` are what still upgrades afterwards. */
    method InsertUnsafe(b: Block, states: set<State>, chunks: set<RollChunk>)
      returns (r: Result<RollChunk, InsertError>, ss: set<State>, cs: set<RollChunk>)
      requires Valid() && HeadHighest(rules, Abs()) && Rollable(rules, Abs()) && Upgrades(states, chunks)
      modifies this`t, this`book, this`sroot, this`scusp, t.chunks, disk, store
      ensures Valid()
      ensures match Insert(rules, old(Abs()), b)
        case Err(e) => r == Err(e) && Abs() == old(Abs()) && t == old(t)
        case Ok(c) => r.Ok? && Abs() == c
      ensures Upgrades(ss, cs)
      ensures forall x :: x in t.chunks ==> x in old(t.chunks) || fresh(x)
    {
      ghost var c := Abs();
      assert c.root in c.tree by {
        assert t.Look();
      }
      r, ss, cs := ExecHeld(b, states, chunks);
      if r.Ok? {
        ss, cs := RollInserted(c, b, r.value, ss, cs);
      }
    }

    /** The first stage; its caller keeps hold of the new node and of its state. */
    method ExecHeld(b: Block, states: set<State>, chunks: set<RollChunk>)
      returns (r: Result<RollChunk, InsertError>, ss: set<State>, cs: set<RollChunk>)
      requires Valid() && Upgrades(states, chunks)
      modifies this`t, this`book, t.chunks
      ensures Valid() && Upgrades(ss, cs) && Outcome(old(Abs()), old(t), b, r)
      ensures forall x :: x in t.chunks ==> x in old(t.chunks) || fresh(x)
    {
      r := ExecState(b, states);
      ss, cs := states, chunks;
      if r.Ok? {
        ss, cs := ss + {r.value.state}, cs + {r.value};
      }
      OutcomeOf(old(Abs()), old(t), b, r, states, chunks);
    }

    ghost predicate Outcome(c: Chain, t0: Tree, b: Block, r: Result<RollChunk, InsertError>)
      reads this, store
    {
      match Exec(rules, c, b)
      case Err(e) => r == Err(e) && Abs() == c && t == t0
      case Ok(d) => r.Ok? && Abs() == d && t.Has(r.value) && r.value.hash == rules.hash(b)
    }

    lemma OutcomeOf(c: Chain, t0: Tree, b: Block, r: Result<RollChunk, InsertError>, states: set<State>,
      chunks: set<RollChunk>)
      requires Executed(c, t0, b, r)
      requires TreeStates(t0) <= states <= book.mem.Keys && t0.node.Values <= chunks
      ensures Outcome(c, t0, b, r)
      ensures if r.Ok? then Upgrades(states + {r.value.state}, chunks + {r.value}) else Upgrades(states, chunks)
    {
    }

    /** Second stage of inserting `b`; `c` is the picture before the first. */
    method RollInserted(ghost c: Chain, ghost b: Block, append: RollChunk, states: set<State>, chunks: set<RollChunk>)
      returns (ss: set<State>, cs: set<RollChunk>)
      requires Valid() && HeadHighest(rules, c) && Rollable(rules, c) && c.root in c.tree && Exec(rules, c, b).Ok?
      requires Abs() == Exec(rules, c, b).value && t.Has(append) && append.hash == rules.hash(b)
      requires Upgrades(states, chunks)
      modifies this`sroot, this`scusp, this`t, disk, store
      ensures Valid() && Insert(rules, c, b) == Ok(Abs()) && Upgrades(ss, cs) && t.chunks == old(t.chunks)
    {
      InsertReady(c, b, append);
      ss, cs := RollHeld(append, states, chunks);
    }

    /** A roll drops nodes only, so what is left after it still holds the tree. */
    method RollHeld(append: RollChunk, states: set<State>, chunks: set<RollChunk>)
      returns (ss: set<State>, cs: set<RollChunk>)
      requires Valid() && Ready(append) && Upgrades(states, chunks)
      modifies this`sroot, this`scusp, this`t, disk, store
      ensures Valid() && Upgrades(ss, cs)
      ensures Abs() == ChainSpec.RollStore(rules, old(Abs()), append.hash)
      ensures Shrunk(old(t))
    {
      var r, left := RollStore(append, chunks);
      Shrinks(old(t), t);
      cs := left;
      ss := DropStates(states, cs);
    }

    lemma InsertReady(c: Chain, b: Block, x: RollChunk)
      requires Valid() && HeadHighest(rules, c) && Rollable(rules, c) && Exec(rules, c, b).Ok?
      requires Abs() == Exec(rules, c, b).value && t.Has(x) && x.hash == rules.hash(b)
      requires c.root in c.tree
      ensures Ready(x)
    {
      assert rules.unhash(rules.hash(b)) == b && rules.unhash(rules.Root()) == rules.genesis;
      assert b.prev in c.tree;
    }

    // ---- rebuilding after a restart ---------------------------------------

    /** Inserts the stored blocks above the root one after the other. `c` is the picture that the node
        had when it was closed. */
    method Rebuild(states: set<State>, chunks: set<RollChunk>, ghost c: Chain, ghost low: nat)
      requires Valid() && Upgrades(states, chunks) && Inv(rules, c) && low <= Height(rules, c.root)
      requires Abs() == Replayed(rules, c, low, low)
      modifies this`t, this`book, this`sroot, this`scusp, t.chunks, disk, store
      ensures Valid() && Abs() == Recovered(rules, c)
    {
      var ss, cs := states, chunks;
      var height := sroot.height;
      RootIsLow(c, low);
      while height + 1 in store.blockptr && store.blockptr[height + 1] in store.blockdata
        invariant Valid() && Upgrades(ss, cs) && low <= height <= Height(rules, c.head)
        invariant Abs() == Replayed(rules, c, low, height)
        invariant forall x :: x in t.chunks ==> x in old(t.chunks) || fresh(x)
        decreases Height(rules, c.head) - height
      {
        height, ss, cs := ReplayStep(height, ss, cs, c, low);
      }
      StoreEnds(c, low, height);
    }

    lemma RootIsLow(c: Chain, low: nat)
      requires Matches() && Inv(rules, c) && low <= Height(rules, c.root) && Abs() == Replayed(rules, c, low, low)
      ensures sroot.height == low && Abs() == Replayed(rules, c, low, sroot.height)
    {
      NodeFacts(t, sroot);
      ReplayedRollable(rules, c, low, low);
    }

    /** A rejected block, where the node would panic, does not occur. */
    method ReplayStep(k: nat, states: set<State>, chunks: set<RollChunk>, ghost c: Chain, ghost low: nat)
      returns (k1: nat, ss: set<State>, cs: set<RollChunk>)
      requires Valid() && Upgrades(states, chunks) && Inv(rules, c) && low <= k <= Height(rules, c.head)
      requires Abs() == Replayed(rules, c, low, k)
      requires k + 1 in store.blockptr && store.blockptr[k + 1] in store.blockdata
      modifies this`t, this`book, this`sroot, this`scusp, t.chunks, disk, store
      ensures Valid() && k1 == k + 1 <= Height(rules, c.head) && Abs() == Replayed(rules, c, low, k1)
      ensures Upgrades(ss, cs)
      ensures forall x :: x in t.chunks ==> x in old(t.chunks) || fresh(x)
    {
      assert k + 1 in Abs().ptr;
      ReplayNext(rules, c, low, k);
      var r;
      r, ss, cs := InsertUnsafe(store.blockdata[store.blockptr[k + 1]], states, chunks);
      k1 := k + 1;
    }

    lemma StoreEnds(c: Chain, low: nat, k: nat)
      requires rules.Valid() && Inv(rules, c) && low <= Height(rules, c.root) && low <= k <= Height(rules, c.head)
      requires Abs() == Replayed(rules, c, low, k)
      requires k + 1 !in store.blockptr || store.blockptr[k + 1] !in store.blockdata
      ensures Abs() == Recovered(rules, c)
    {
      assert k + 1 in Abs().ptr ==> k + 1 in store.blockptr;
      ReplayStops(rules, c, low, k);
    }

    // ---- inserting a batch ------------------------------------------------

    /** The objects behind the stages of `p`. */
    ghost predicate Runs(j: Job, p: Pipe)
      reads this, store
    {
      && p.chain == Abs() && SameQueues(j, p)
      && (match j.base
          case None => p.base == None
          case Some(x) => p.base == Some(x.1) && BaseOk(t, x.0, x.1))
      && Queued(rules, t.node, j.queue, p.queue)
    }

    method ParseOne(j: Job, ghost p: Pipe) returns (j1: Job)
      requires Valid() && Runs(j, p) && Upgrades(j.states, j.chunks) && j.raw != []
      ensures j1.run == j.run && (j.base.Some? ==> j1.base == j.base)
      ensures Runs(j1, Step(rules, p, Parse)) && Upgrades(j1.states, j1.chunks)
    {
      if j.raw[0].height != j.hei {
        j1 := j.(raw := [], badData := true);
      } else {
        j1 := j.(raw := j.raw[1..], hei := j.hei + 1, parsed := j.parsed + [j.raw[0]]);
      }
    }

    method LocateOne(j: Job, ghost p: Pipe) returns (j1: Job)
      requires Valid() && Runs(j, p) && Upgrades(j.states, j.chunks) && !j.failed && j.parsed != [] && j.base == None
      ensures j1.run == j.run && (j.base.Some? ==> j1.base == j.base)
      ensures Runs(j1, Step(rules, p, Stage.Locate)) && Upgrades(j1.states, j1.chunks)
    {
      var b := j.parsed[0];
      var found := Locate(b);
      match found
      case Err(_) => j1 := j.(failed := true);
      case Ok(base) =>
        NodeFacts(t, base);
        j1 := j.(parsed := j.parsed[1..], base := Some((base, b)));
    }

    /** Hangs an executed block on its base; the stages keep hold of the new node and of its state. */
    method HangHeld(base: RollChunk, b: Block, sub: State, states: set<State>, chunks: set<RollChunk>)
      returns (c: RollChunk)
      requires Valid() && Upgrades(states, chunks) && BaseOk(t, base, b) && t.Has(base)
      requires b.height == base.height + 1 && NewState(sub, base, b) && sub !in book.mem
      modifies this`t, this`book, t.chunks
      ensures Valid()
      ensures forall x :: x in t.chunks ==> x in old(t.chunks) || fresh(x)
      ensures c.hash == rules.hash(b) && c.state == sub && t.node == old(t).node[rules.hash(b) := c]
      ensures Upgrades(states + {sub}, chunks + {c})
    {
      ghost var before := t.chunks;
      NodeFacts(t, base);
      c := AppendChunk(base, b, sub);
      OnlyNew(before, c);
      GrowPicture(old(t), base, c);
    }

    /** The located block starts on a fork of its base, if its height is right. */
    method StartOne(j: Job) returns (j1: Job)
      requires Valid() && Upgrades(j.states, j.chunks) && j.base.Some? && BaseOk(t, j.base.value.0, j.base.value.1)
      requires var b := j.base.value.1; b.height == Height(rules, b.prev) + 1 ==> b.prev in t.node
      ensures if j.base.value.1.height == j.base.value.0.height + 1
        then j1.run.Some? && j1 == j.(run := j1.run) && fresh(j1.run.value.sub) &&
          j1.run.value.left == rules.steps && Executing(rules, disk, book.view, j1.run, j1.base)
        else j1 == j
      ensures j.base.value.0.height == Height(rules, j.base.value.1.prev)
    {
      var (base, b) := j.base.value;
      ChunkFacts(t, base);
      j1 := j;
      if b.height == base.height + 1 {
        NodeReads(base, j.states);
        ChildState(rules, base, b);
        var sub := new State.Fork(base.state);
        j1 := j.(run := Some(Run(sub, rules.program(base.block, b), rules.steps)));
      }
    }

    /** The execution makes one access, through the links that upgrade now. */
    method AccessOne(j: Job) returns (j1: Job)
      requires Valid() && Upgrades(j.states, j.chunks) && Executing(rules, disk, book.view, j.run, j.base)
      requires j.run.Some? && !j.run.value.Stopped() && t.Has(j.base.value.0)
      modifies j.run.value.sub
      ensures Valid() && Executing(rules, disk, book.view, j1.run, j1.base)
      ensures j1.run.Some? && j1 == j.(run := j1.run)
      ensures j1.run.value.sub == j.run.value.sub && j1.run.value.left == j.run.value.left - 1
    {
      var x := j.run.value;
      NodeReads(j.base.value.0, j.states);
      var q := x.sub.Access(x.prog, j.states);
      j1 := j.(run := Some(Run(x.sub, q, x.left - 1)));
    }

    /** The execution ends: the block is hung on its base, or has failed. */
    method FinishOne(j: Job, ghost p: Pipe) returns (j1: Job)
      requires Valid() && Runs(j, p) && Upgrades(j.states, j.chunks) && Executing(rules, disk, book.view, j.run, j.base)
      requires j.run.Some? && j.run.value.Stopped() && t.Has(j.base.value.0)
      requires forall g :: g in p.queue ==> rules.hash(g) != rules.hash(j.base.value.1)
      modifies this`t, this`book, t.chunks
      ensures Valid() && Upgrades(j1.states, j1.chunks) && j1.run == None
      ensures forall x :: x in t.chunks ==> x in old(t.chunks) || fresh(x)
      ensures var b := j.base.value.1;
        if Good(rules, rules.hash(b)) then
          && Abs() == old(Abs()).(tree := old(Abs()).tree + {rules.hash(b)})
          && Runs(j1, p.(chain := Abs(), base := None, queue := p.queue + [b]))
        else Runs(j1, p.(base := None, failed := true))
    {
      var (base, b) := j.base.value;
      var x := j.run.value;
      if !x.prog.Done? {
        return j.(base := None, run := None, failed := true);
      }
      var c := HangHeld(base, b, x.sub, j.states, j.chunks);
      ExecutedRuns(j, p, old(t).node, c, b);
      j1 := j.(base := None, run := None, queue := j.queue + [c], states := j.states + {c.state},
        chunks := j.chunks + {c});
    }

    lemma ExecutedRuns(j: Job, p: Pipe, node: map<Hash, RollChunk>, c: RollChunk, b: Block)
      requires SameQueues(j, p) && Queued(rules, node, j.queue, p.queue) && p.chain == Abs().(tree := node.Keys)
      requires c.hash == rules.hash(b) && t.node == node[c.hash := c]
      requires forall g :: g in p.queue ==> rules.hash(g) != rules.hash(b)
      ensures Abs() == p.chain.(tree := p.chain.tree + {c.hash})
      ensures Runs(j.(base := None, run := None, queue := j.queue + [c], states := j.states + {c.state},
        chunks := j.chunks + {c}),
                   p.(chain := Abs(), base := None, queue := p.queue + [b]))
    {
      QueuedPush(rules, node, j.queue, p.queue, c, b);
      assert t.node.Keys == node.Keys + {c.hash};
    }

    method RollOne(j: Job, ghost p: Pipe) returns (j1: Job)
      requires Valid() && Runs(j, p) && Upgrades(j.states, j.chunks) && j.queue != []
      requires j.queue[0].hash in t.node && Ready(j.queue[0])
      modifies this`sroot, this`scusp, this`t, disk, store
      ensures j1.run == j.run && j1.base == j.base
      ensures Valid() && Runs(j1, p.(chain := Abs(), queue := p.queue[1..])) && Upgrades(j1.states, j1.chunks)
      ensures Abs() == ChainSpec.RollStore(rules, old(Abs()), rules.hash(p.queue[0]))
      ensures t.chunks == old(t).chunks
    {
      var ss, cs := RollHeld(j.queue[0], j.states, j.chunks);
      QueuedPop(rules, old(t).node, t.node, j.queue, p.queue);
      assert match j.base case None => true case Some(x) => BaseOk(t, x.0, x.1);
      j1 := j.(queue := j.queue[1..], states := ss, chunks := cs);
    }

    /** The stages of `j` are those of a pipeline on its way. */
    ghost predicate Working(j: Job, w: Way)
      reads this, store
    {
      && Runs(j, w.p) && Upgrades(j.states, j.chunks)
      && w.On(rules)
    }

    /** All of this together, looked into only where it is needed. */
    ghost predicate AtWork(j: Job, w: Way)
      reads this, t.chunks, book.mem.Keys, disk, store
    {
      forall x: Job {:trigger x.Look()} :: x == j ==> Valid() && Working(x, w)
    }

    method ParseStage(j: Job, ghost w: Way) returns (j1: Job, ghost w1: Way)
      requires AtWork(j, w) && Executing(rules, disk, book.view, j.run, j.base) && j.raw != []
      ensures j1.run == j.run
      ensures AtWork(j1, w1) && Executing(rules, disk, book.view, j1.run, j1.base) && w1.Follows(w)
    {
      assert j.Look();
      w1 := w.Next(rules, Parse);
      j1 := ParseOne(j, w.p);
      assert Valid() && Working(j1, w1);
    }

    method LocateStage(j: Job, ghost w: Way) returns (j1: Job, ghost w1: Way)
      requires AtWork(j, w) && Executing(rules, disk, book.view, j.run, j.base) && !j.failed && j.parsed != [] &&
        j.base == None
      ensures j1.run == j.run
      ensures AtWork(j1, w1) && Executing(rules, disk, book.view, j1.run, j1.base) && w1.Follows(w)
    {
      assert j.Look();
      w1 := w.Next(rules, Stage.Locate);
      j1 := LocateOne(j, w.p);
      assert Valid() && Working(j1, w1);
    }

    /** Starts the execution of the located block; one of the wrong height ends at once. */
    method StartStage(j: Job, ghost w: Way) returns (j1: Job, ghost w1: Way)
      requires AtWork(j, w) && Executing(rules, disk, book.view, j.run, j.base) && j.base.Some? && j.run.None?
      ensures AtWork(j1, w1) && Executing(rules, disk, book.view, j1.run, j1.base) &&
        (w1.Follows(w) || (w1 == w && j1.Ahead(rules.steps) < j.Ahead(rules.steps)))
      ensures j1.run.Some? ==> fresh(j1.run.value.sub)
    {
      assert j.Look();
      w.Located(rules);
      j1 := StartOne(j);
      w1 := w;
      if j1.run.None? {
        w1 := w.Next(rules, Execute);
        j1 := j.(base := None, failed := true);
      }
      assert Valid() && Working(j1, w1);
    }

    method AccessStage(j: Job, ghost w: Way) returns (j1: Job)
      requires AtWork(j, w) && Executing(rules, disk, book.view, j.run, j.base) && j.run.Some? && !j.run.value.Stopped()
      modifies j.run.value.sub
      ensures AtWork(j1, w) && Executing(rules, disk, book.view, j1.run, j1.base)
      ensures j1.run.Some? && j1.run.value.sub == j.run.value.sub && j1.Ahead(rules.steps) < j.Ahead(rules.steps)
    {
      assert j.Look();
      w.Located(rules);
      ChunkFacts(t, j.base.value.0);
      j1 := AccessOne(j);
      assert Valid() && Working(j1, w);
    }

    method FinishStage(j: Job, ghost w: Way) returns (j1: Job, ghost w1: Way)
      requires AtWork(j, w) && Executing(rules, disk, book.view, j.run, j.base) && j.run.Some? && j.run.value.Stopped()
      modifies this`t, this`book, t.chunks
      ensures j1.run == None
      ensures AtWork(j1, w1) && Executing(rules, disk, book.view, j1.run, j1.base) && w1.Follows(w)
      ensures forall x :: x in t.chunks ==> x in old(t.chunks) || fresh(x)
    {
      assert j.Look();
      w.Located(rules);
      ChunkFacts(t, j.base.value.0);
      w1 := w.Next(rules, Execute);
      j1 := FinishOne(j, w.p);
      assert Valid() && Working(j1, w1);
    }

    method RollStage(j: Job, ghost w: Way) returns (j1: Job, ghost w1: Way)
      requires AtWork(j, w) && Executing(rules, disk, book.view, j.run, j.base) && j.queue != []
      modifies this`sroot, this`scusp, this`t, disk, store
      ensures j1.run == j.run
      ensures AtWork(j1, w1) && Executing(rules, disk, book.view, j1.run, j1.base) && w1.Follows(w)
      ensures t.chunks == old(t).chunks
    {
      j1, w1 := RollFirst(j, w);
    }

    method RollFirst(j: Job, ghost w: Way) returns (j1: Job, ghost w1: Way)
      requires AtWork(j, w) && j.queue != []
      modifies this`sroot, this`scusp, this`t, disk, store
      ensures j1.run == j.run && j1.base == j.base
      ensures AtWork(j1, w1) && w1.Follows(w)
      ensures t.chunks == old(t).chunks
    {
      assert j.Look();
      w.FirstIsReady(rules);
      w1 := w.Next(rules, Roll);
      j1 := RollOne(j, w.p);
      assert Valid() && Working(j1, w1);
    }

    /** Between two turns anything outside the tree may be dropped. */
    method LoseLinks(j: Job, ghost w: Way) returns (j1: Job)
      requires AtWork(j, w) && Executing(rules, disk, book.view, j.run, j.base) && HasWork(j)
      ensures AtWork(j1, w) && Executing(rules, disk, book.view, j1.run, j1.base) && HasWork(j1) &&
        j1 == j.(states := j1.states, chunks := j1.chunks)
      ensures j1.states <= j.states && j1.chunks <= j.chunks
    {
      assert j.Look();
      var cs := DropChunks(j.chunks);
      var ss := DropStates(j.states, cs);
      j1 := j.(states := ss, chunks := cs);
      assert Valid() && Working(j1, w);
    }

    predicate HasWork(j: Job) {
      j.raw != [] || j.base.Some? || j.queue != [] || (!j.failed && j.parsed != [])
    }

    /** One of the stages that have work takes a turn; a turn of the execution is a single access. */
    method TakeTurn(j: Job, ghost w: Way, ghost made: set<State>)
      returns (j1: Job, ghost w1: Way, ghost made1: set<State>)
      requires AtWork(j, w) && Executing(rules, disk, book.view, j.run, j.base) && HasWork(j)
      requires j.run.Some? ==> j.run.value.sub in made
      modifies this`t, this`book, this`sroot, this`scusp, t.chunks, disk, store, made
      ensures AtWork(j1, w1) && Executing(rules, disk, book.view, j1.run, j1.base)
      ensures w1.Follows(w) || (w1 == w && j1.Ahead(rules.steps) < j.Ahead(rules.steps))
      ensures j1.run.Some? ==> j1.run.value.sub in made1
      ensures forall s :: s in made1 ==> s in made || fresh(s)
      ensures forall x :: x in t.chunks ==> x in old(t.chunks) || fresh(x)
    {
      made1 := made;
      if {
        case j.raw != [] => j1, w1 := ParseStage(j, w);
        case !j.failed && j.parsed != [] && j.base.None? => j1, w1 := LocateStage(j, w);
        case j.base.Some? && j.run.None? =>
          j1, w1 := StartStage(j, w);
          made1 := if j1.run.Some? then {j1.run.value.sub} else {};
        case j.run.Some? && !j.run.value.Stopped() =>
          j1 := AccessStage(j, w);
          w1 := w;
        case j.run.Some? && j.run.value.Stopped() => j1, w1 := FinishStage(j, w);
        case j.queue != [] => j1, w1 := RollStage(j, w);
      }
    }

    /** A batch on its way; only the forks in `made` are written to. */
    ghost predicate Busy(j: Job, w: Way, made: set<State>)
      reads this, t.chunks, book.mem.Keys, disk, store, made
    {
      forall x: Job {:trigger x.Look()} :: x == j ==>
        && (x.run.Some? ==> x.run.value.sub in made)
        && AtWork(x, w) && Executing(rules, disk, book.view, x.run, x.base)
    }

    /** Some links are lost, and then a stage takes a turn. */
    method LoseAndTurn(j: Job, ghost w: Way, ghost made: set<State>)
      returns (j1: Job, ghost w1: Way, ghost made1: set<State>)
      requires Busy(j, w, made) && HasWork(j)
      modifies this`t, this`book, this`sroot, this`scusp, t.chunks, disk, store, made
      ensures Busy(j1, w1, made1)
      ensures w1.Follows(w) || (w1 == w && j1.Ahead(rules.steps) < j.Ahead(rules.steps))
      ensures forall s :: s in made1 ==> s in made || fresh(s)
      ensures forall x :: x in t.chunks ==> x in old(t.chunks) || fresh(x)
    {
      assert j.Look();
      var left := LoseLinks(j, w);
      j1, w1, made1 := TakeTurn(left, w, made);
      assert AtWork(j1, w1) && Executing(rules, disk, book.view, j1.run, j1.base);
    }

    /** Parsing, execution and rolling take turns in any order until none of them has work. */
    method InsertSync(startHei: nat, blocks: seq<Block>, states: set<State>, chunks: set<RollChunk>) returns (ok: bool)
      requires Valid() && Settled() && Upgrades(states, chunks)
      modifies this`t, this`book, this`sroot, this`scusp, t.chunks, disk, store
      ensures Valid() && Settled()
      ensures Abs() == Sync(rules, old(Abs()), InOrder(startHei, blocks)).0
      ensures ok <==> Sync(rules, old(Abs()), InOrder(startHei, blocks)).1 && InOrder(startHei, blocks) == blocks
    {
      var j, w := RunSync(startHei, blocks, states, chunks);
      SyncEnds(j, w);
      ok := !j.failed && !j.badData;
    }

    method RunSync(startHei: nat, blocks: seq<Block>, states: set<State>, chunks: set<RollChunk>)
      returns (j: Job, ghost w: Way)
      requires Valid() && Settled() && Upgrades(states, chunks)
      modifies this`t, this`book, this`sroot, this`scusp, t.chunks, disk, store
      ensures AtWork(j, w) && !HasWork(j) && w.c == old(Abs()) && w.hei == startHei && w.blocks == blocks
    {
      ghost var made: set<State> := {};
      j, w := StartSync(startHei, blocks, states, chunks);
      while HasWork(j)
        invariant Busy(j, w, made)
        invariant w.c == old(Abs()) && w.hei == startHei && w.blocks == blocks
        invariant forall x :: x in t.chunks ==> x in old(t.chunks) || fresh(x)
        invariant forall s :: s in made ==> fresh(s)
        decreases Work(w.p), j.Ahead(rules.steps)
      {
        j, w, made := LoseAndTurn(j, w, made);
      }
      assert j.Look();
    }

    method StartSync(startHei: nat, blocks: seq<Block>, states: set<State>, chunks: set<RollChunk>)
      returns (j: Job, ghost w: Way)
      requires Valid() && Settled() && Upgrades(states, chunks)
      ensures Busy(j, w, {}) && AtWork(j, w) && w.c == Abs() && w.hei == startHei && w.blocks == blocks
    {
      j := Job(blocks, startHei, [], None, None, [], false, false, states, chunks);
      w := FirstWay(rules, Abs(), startHei, blocks);
      assert Valid() && Working(j, w);
      assert AtWork(j, w) && Executing(rules, disk, book.view, j.run, j.base);
    }

    lemma SyncEnds(j: Job, w: Way)
      requires AtWork(j, w) && !HasWork(j)
      ensures Valid() && Settled()
      ensures Abs() == Sync(rules, w.c, InOrder(w.hei, w.blocks)).0
      ensures !j.failed && !j.badData <==>
        Sync(rules, w.c, InOrder(w.hei, w.blocks)).1 && InOrder(w.hei, w.blocks) == w.blocks
    {
      assert j.Look();
      w.Ends(rules);
    }
  }

  /** `None` where the node would panic; `c` is the picture that the store holds. In the store that any run
      leaves, the stored height leads to the canonical block of that height, which is the old root. */
  method LoadBaseBlock(rules: Rules, store: BlockStore, ghost c: Chain) returns (base: Option<Block>)
    requires c.ptr == store.blockptr - {0} && c.bodies == store.blockdata && c.status == store.status
    ensures base == BaseBlock(rules, c)
    ensures rules.Valid() && Inv(rules, c) ==>
      && base.Some? && rules.hash(base.value) == c.root == AncestorAt(rules, c.head, store.status.rootHeight)
      && base.value.height == Height(rules, c.root) == store.status.rootHeight
  {
    if rules.Valid() && Inv(rules, c) {
      BaseIsRoot(rules, c);
    }
    var hei := store.status.rootHeight;
    if hei == 0 {
      return Some(rules.genesis);
    }
    if hei !in store.blockptr || store.blockptr[hei] !in store.blockdata {
      return None;
    }
    base := Some(store.blockdata[store.blockptr[hei]]);
  }

  /** Opens a node on a stored chain: at the stored root, or at genesis over an empty state when the
      state has to be built anew. `c` is the picture the node had when it was closed. */
  method Reopen(rules: Rules, disk: LevelDb, store: BlockStore, upgrade: bool, ghost c: Chain) returns (e: BlockEngine)
    requires rules.Valid() && Inv(rules, c)
    requires c.ptr == store.blockptr - {0} && c.bodies == store.blockdata && c.status == store.status
    requires 0 in store.blockptr ==> store.blockptr[0] == rules.Root()
    requires Some(disk.data) == StateOf(rules, if upgrade then rules.Root() else c.root)
    modifies disk, store
    ensures e.Valid() && e.Settled() && e.Abs() == Recovered(rules, c)
  {
    e := OpenAtBase(rules, disk, store, upgrade, c);
    e.Rebuild({e.sroot.state}, {e.sroot}, c, StartHeight(c, upgrade));
    RecoveredInv(rules, c);
  }

  /** The engine before it replays. */
  method OpenAtBase(rules: Rules, disk: LevelDb, store: BlockStore, upgrade: bool, ghost c: Chain)
    returns (e: BlockEngine)
    requires rules.Valid() && Inv(rules, c)
    requires c.ptr == store.blockptr - {0} && c.bodies == store.blockdata && c.status == store.status
    requires 0 in store.blockptr ==> store.blockptr[0] == rules.Root()
    requires Some(disk.data) == StateOf(rules, if upgrade then rules.Root() else c.root)
    ensures fresh(e) && e.Valid() && e.rules == rules && e.disk == disk && e.store == store && fresh(e.t.chunks)
    ensures StartHeight(c, upgrade) <= Height(rules, c.root)
    ensures e.Abs() == Replayed(rules, c, StartHeight(c, upgrade), StartHeight(c, upgrade))
    ensures e.Upgrades({e.sroot.state}, {e.sroot})
  {
    var base: Block;
    StartBase(rules, c, upgrade);
    if upgrade {
      base := rules.genesis;
    } else {
      BaseIsRoot(rules, c);
      var found := LoadBaseBlock(rules, store, c);
      base := found.value;
    }
    e := new BlockEngine.Open(rules, disk, store, base);
  }

  lemma BaseIsRoot(r: Rules, c: Chain)
    requires r.Valid() && Inv(r, c)
    ensures var base := BaseBlock(r, c);
      && base.Some? && r.hash(base.value) == c.root == AncestorAt(r, c.head, c.status.rootHeight)
      && base.value.height == Height(r, c.root) == c.status.rootHeight
  {
    StartBase(r, c, false);
    RootFacts(r, c);
    GoodAncestor(r, c.head, c.status.rootHeight);
  }

  ghost predicate SameQueues(j: Job, p: Pipe) {
    && p.raw == j.raw && p.hei == j.hei && p.parsed == j.parsed
    && p.badData == j.badData && p.failed == j.failed
  }

  /** The execution of the located block so far, on a fork of its base that is none of the known states: on
      one flat map the rest of the program would end as the whole block does. */
  ghost predicate RunOk(r: Rules, disk: LevelDb, views: map<State, View>, x: Run, base: RollChunk, b: Block)
    reads x.sub
  {
    && b.height == base.height + 1
    && x.sub.base == base.state && x.sub.disk == disk && x.sub.Linked()
    && x.sub !in views && base.state in views && x.sub.view == Apply(x.sub.memk, views[base.state])
    && RunFlat(x.prog, x.sub.view, x.left) == StateOf(r, r.hash(b))
  }

  /** The execution that is going on, if there is one, is that of the located block. */
  ghost predicate Executing(r: Rules, disk: LevelDb, views: map<State, View>, run: Option<Run>,
    base: Option<(RollChunk, Block)>)
    reads if run.Some? then {run.value.sub} else {}
  {
    run.Some? ==> base.Some? && RunOk(r, disk, views, run.value, base.value.0, base.value.1)
  }

  ghost predicate BaseOk(t: Tree, base: RollChunk, b: Block) {
    && base in t.chunks && base.hash == b.prev && t.rules.hash(b) !in t.node
    && (b.prev in t.node ==> t.node[b.prev] == base)
  }

  lemma Shrinks(t0: Tree, t1: Tree)
    requires forall h :: h in t1.node ==> h in t0.node && t1.node[h] == t0.node[h]
    ensures TreeStates(t1) <= TreeStates(t0) && t1.node.Values <= t0.node.Values
  {
    forall s | s in TreeStates(t1)
      ensures s in TreeStates(t0)
    {
      var h :| h in t1.node && t1.node[h].state == s;
      assert t0.node[h].state in TreeStates(t0);
    }
  }

  /** The nodes of the queued blocks; a node that was cut off in the meantime is not in the tree. */
  ghost predicate Queued(r: Rules, node: map<Hash, RollChunk>, queue: seq<RollChunk>, blocks: seq<Block>) {
    && |queue| == |blocks|
    && forall i :: 0 <= i < |queue| ==> QueuedAt(r, node, queue[i], blocks[i])
  }

  ghost predicate QueuedAt(r: Rules, node: map<Hash, RollChunk>, c: RollChunk, b: Block) {
    c.hash == r.hash(b) && (c.hash in node ==> node[c.hash] == c)
  }

  lemma QueuedPush(r: Rules, node: map<Hash, RollChunk>, queue: seq<RollChunk>, blocks: seq<Block>, c: RollChunk,
    b: Block)
    requires Queued(r, node, queue, blocks) && c.hash == r.hash(b)
    requires forall g :: g in blocks ==> r.hash(g) != r.hash(b)
    ensures Queued(r, node[c.hash := c], queue + [c], blocks + [b])
  {
    forall i | 0 <= i < |queue|
      ensures QueuedAt(r, node[c.hash := c], queue[i], blocks[i])
    {
      assert QueuedAt(r, node, queue[i], blocks[i]) && blocks[i] in blocks;
    }
  }

  lemma QueuedPop(r: Rules, node: map<Hash, RollChunk>, node1: map<Hash, RollChunk>, queue: seq<RollChunk>,
    blocks: seq<Block>)
    requires Queued(r, node, queue, blocks) && queue != []
    requires forall h :: h in node1 ==> h in node && node1[h] == node[h]
    ensures Queued(r, node1, queue[1..], blocks[1..])
  {
    forall i | 1 <= i < |queue|
      ensures QueuedAt(r, node1, queue[i], blocks[i])
    {
      assert QueuedAt(r, node, queue[i], blocks[i]);
    }
  }

  /** `p1` is `p0` with the pointers of the heights from `lo` below `hi` leading to `h`'s ancestors. */
  ghost predicate Rewritten(r: Rules, p0: map<nat, Hash>, p1: map<nat, Hash>, h: Hash, lo: nat, hi: nat) {
    && (forall k :: k in p1 <==> k in p0 || lo <= k < hi)
    && (forall k :: k in p1 ==> p1[k] == if lo <= k < hi then AncestorAt(r, h, k) else p0[k])
  }

  /** Going further up than the root rewrites only what was right already. */
  lemma RewrittenIsRepoint(r: Rules, p0: map<nat, Hash>, p1: map<nat, Hash>, h: Hash, lo: nat, low: nat)
    requires r.Valid() && Good(r, h) && h != r.Root() && lo <= low <= Height(r, h)
    requires Rewritten(r, p0, p1, h, lo, Height(r, h))
    requires forall k :: 1 <= k < low ==> k in p0 && p0[k] == AncestorAt(r, h, k)
    ensures p1 - {0} == Repoint(r, p0 - {0}, Prev(r, h), low)
    ensures 0 in p1 ==> p1[0] == r.Root() || (0 in p0 && p1[0] == p0[0])
  {
    GoodParent(r, h);
    RepointAt(r, p0 - {0}, Prev(r, h), low);
    GoodAncestor(r, h, 0);
    GoodGround(r, AncestorAt(r, h, 0));
  }

  lemma CheckLocated(r: Rules, tree: set<Hash>, b: Block, base: RollChunk)
    requires r.Valid() && b.prev in tree && r.hash(b) !in tree && base.hash == b.prev &&
      base.height == Height(r, base.hash)
    ensures Check(r, tree, b) ==
      if b.height != base.height + 1 then Some(HeightMismatch)
      else if Good(r, r.hash(b)) then None
      else Some(ExecFailed)
  {
  }

  /** A block one above its parent executes on the parent's state. */
  lemma ChildState(r: Rules, base: RollChunk, b: Block)
    requires r.Valid() && base.hash == r.hash(base.block) == b.prev && base.height == base.block.height
    requires b.height == base.height + 1 && Some(base.state.view) == StateOf(r, base.hash)
    ensures r.hash(b) != r.Root()
    ensures StateOf(r, r.hash(b)) == RunFlat(r.program(base.block, b), base.state.view, r.steps)
  {
    assert r.unhash(r.hash(b)) == b && r.unhash(r.hash(base.block)) == base.block;
    assert r.unhash(r.Root()) == r.genesis;
  }
}
