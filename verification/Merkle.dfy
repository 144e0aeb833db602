/**
 The Merkle root of a block's transaction hashes, and the short path that lets a miner renew the root
 after changing only the coinbase transaction. `hx` is the block hash function, left open.
 */
module Merkle {
  import opened Base

  function Pair(hx: Bytes -> Bytes, l: Bytes, r: Bytes): Bytes {
    hx(l + r)
  }

  /** One level up: neighbours are paired, and a last single entry is paired with itself. */
  function Merge(hx: Bytes -> Bytes, list: seq<Bytes>): seq<Bytes> {
    if list == [] then []
    else if |list| == 1 then [Pair(hx, list[0], list[0])]
    else [Pair(hx, list[0], list[1])] + Merge(hx, list[2..])
  }

  /** Two entries make one of the next level, an odd last one counting twice: the hash of both in order. */
  lemma {:induction false} MergeAt(hx: Bytes -> Bytes, list: seq<Bytes>)
    ensures |Merge(hx, list)| == (|list| + 1) / 2
    ensures forall i :: 0 <= i < |Merge(hx, list)| ==>
      Merge(hx, list)[i] == hx(list[2 * i] + if 2 * i + 1 < |list| then list[2 * i + 1] else list[2 * i])
  {
    if |list| > 1 {
      MergeAt(hx, list[2..]);
      forall i | 0 < i < |Merge(hx, list)|
        ensures Merge(hx, list)[i] == Merge(hx, list[2..])[i - 1]
      {
      }
    }
  }

  function Root(hx: Bytes -> Bytes, list: seq<Bytes>): Bytes
    requires list != []
    decreases |list|
  {
    if |list| == 1 then list[0]
    else
      MergeAt(hx, list);
      Root(hx, Merge(hx, list))
  }

  /** The right neighbours met on the way up from the first entry. */
  function Path(hx: Bytes -> Bytes, list: seq<Bytes>): seq<Bytes>
    requires list != []
    decreases |list|
  {
    if |list| == 1 then []
    else
      MergeAt(hx, list);
      [list[1]] + Path(hx, Merge(hx, list))
  }

  function Climb(hx: Bytes -> Bytes, first: Bytes, path: seq<Bytes>): Bytes
    decreases |path|
  {
    if path == [] then first else Climb(hx, Pair(hx, first, path[0]), path[1..])
  }

  /** `steps` begin at `first` and take in the entries of `path` one by one, each from the right. */
  ghost predicate Climbs(hx: Bytes -> Bytes, first: Bytes, path: seq<Bytes>, steps: seq<Bytes>) {
    && |steps| == |path| + 1 && steps[0] == first
    && forall i {:trigger path[i]} :: 0 <= i < |path| ==> steps[i + 1] == hx(steps[i] + path[i])
  }

  /** A climb ends in the last of its steps. */
  lemma {:induction false} ClimbSteps(hx: Bytes -> Bytes, first: Bytes, path: seq<Bytes>) returns (steps: seq<Bytes>)
    ensures Climbs(hx, first, path, steps) && Climb(hx, first, path) == steps[|path|]
    decreases |path|
  {
    if path == [] {
      steps := [first];
    } else {
      var more := ClimbSteps(hx, hx(first + path[0]), path[1..]);
      steps := [first] + more;
      forall i | 0 <= i < |path|
        ensures steps[i + 1] == hx(steps[i] + path[i])
      {
        if i > 0 {
          assert path[i] == path[1..][i - 1];
        }
      }
    }
  }

  /** `up` is the level above `low`: each entry is the hash of the two below it in order, an odd last one
      counting twice. */
  ghost predicate Pairs(hx: Bytes -> Bytes, low: seq<Bytes>, up: seq<Bytes>) {
    && |up| == (|low| + 1) / 2
    && forall i :: 0 <= i < |up| ==> up[i] == hx(low[2 * i] + if 2 * i + 1 < |low| then low[2 * i + 1] else low[2 * i])
  }

  /** The levels of a tree, up to a single entry. */
  ghost predicate Levels(hx: Bytes -> Bytes, list: seq<Bytes>, levels: seq<seq<Bytes>>) {
    && levels != [] && levels[0] == list && |levels[|levels| - 1]| == 1
    && forall k :: 0 <= k < |levels| - 1 ==> |levels[k]| > 1 && Pairs(hx, levels[k], levels[k + 1])
  }

  lemma OneLevelMore(hx: Bytes -> Bytes, list: seq<Bytes>, above: seq<seq<Bytes>>)
    requires |list| > 1 && above != [] && Pairs(hx, list, above[0]) && Levels(hx, above[0], above)
    ensures Levels(hx, list, [list] + above)
  {
    var levels := [list] + above;
    forall k | 0 <= k < |levels| - 1
      ensures |levels[k]| > 1 && Pairs(hx, levels[k], levels[k + 1])
    {
      if k > 0 {
        assert levels[k] == above[k - 1] && levels[k + 1] == above[k];
      }
    }
  }

  /** The root is the entry at the top. */
  lemma {:induction false} RootLevels(hx: Bytes -> Bytes, list: seq<Bytes>) returns (levels: seq<seq<Bytes>>)
    requires list != []
    ensures Levels(hx, list, levels) && Root(hx, list) == levels[|levels| - 1][0]
    decreases |list|
  {
    if |list| == 1 {
      levels := [list];
    } else {
      MergeAt(hx, list);
      var above := RootLevels(hx, Merge(hx, list));
      OneLevelMore(hx, list, above);
      levels := [list] + above;
    }
  }

  // ---- what a root commits to ---------------------------------------------

  /** All entries are hashes. */
  predicate Hashes(list: seq<Bytes>) {
    forall i :: 0 <= i < |list| ==> |list[i]| == 32
  }

  /** On pairs of hashes `hx` meets no collision. */
  ghost predicate NoCollision(hx: Bytes -> Bytes) {
    && (forall b :: |hx(b)| == 32)
    && (forall b, c :: |b| == 64 == |c| && hx(b) == hx(c) ==> b == c)
  }

  lemma PairsEqual(a: Bytes, b: Bytes, c: Bytes, d: Bytes)
    requires |a| == |c| && a + b == c + d
    ensures a == c && b == d
  {
    assert (a + b)[..|a|] == a && (c + d)[..|c|] == c;
    assert (a + b)[|a|..] == b && (c + d)[|c|..] == d;
  }

  lemma EntriesEqual(hx: Bytes -> Bytes, a: seq<Bytes>, b: seq<Bytes>, up: seq<Bytes>, i: nat)
    requires NoCollision(hx) && Hashes(a) && Hashes(b) && |a| == |b| && Pairs(hx, a, up) && Pairs(hx, b, up)
    requires i < |up|
    ensures a[2 * i] == b[2 * i] && (2 * i + 1 < |a| ==> a[2 * i + 1] == b[2 * i + 1])
  {
    var x := if 2 * i + 1 < |a| then a[2 * i + 1] else a[2 * i];
    var y := if 2 * i + 1 < |b| then b[2 * i + 1] else b[2 * i];
    assert up[i] == hx(a[2 * i] + x) && up[i] == hx(b[2 * i] + y);
    PairsEqual(a[2 * i], x, b[2 * i], y);
  }

  lemma LevelsEqual(hx: Bytes -> Bytes, a: seq<Bytes>, b: seq<Bytes>, up: seq<Bytes>)
    requires NoCollision(hx) && Hashes(a) && Hashes(b) && |a| == |b| && Pairs(hx, a, up) && Pairs(hx, b, up)
    ensures a == b
  {
    forall j | 0 <= j < |a|
      ensures a[j] == b[j]
    {
      EntriesEqual(hx, a, b, up, j / 2);
      assert j == 2 * (j / 2) || j == 2 * (j / 2) + 1;
    }
  }

  /** Lists of one length with the same root are the same list. */
  lemma {:induction false} RootCommits(hx: Bytes -> Bytes, a: seq<Bytes>, b: seq<Bytes>)
    requires NoCollision(hx) && a != [] && |a| == |b| && Hashes(a) && Hashes(b)
    ensures Root(hx, a) == Root(hx, b) <==> a == b
    decreases |a|
  {
    if |a| == 1 {
      assert a == [a[0]] && b == [b[0]];
    } else {
      MergeAt(hx, a);
      MergeAt(hx, b);
      RootCommits(hx, Merge(hx, a), Merge(hx, b));
      if Root(hx, a) == Root(hx, b) {
        LevelsEqual(hx, a, b, Merge(hx, a));
      }
    }
  }

  /** The length has to be known: a last entry that stands alone counts as its own double. */
  lemma OddEnd(hx: Bytes -> Bytes, a: Bytes, b: Bytes, c: Bytes)
    ensures Root(hx, [a, b, c]) == Root(hx, [a, b, c, c]) == hx(hx(a + b) + hx(c + c))
  {
    MergeAt(hx, [a, b, c]);
    MergeAt(hx, [a, b, c, c]);
    var up := [hx(a + b), hx(c + c)];
    assert Merge(hx, [a, b, c]) == up && Merge(hx, [a, b, c, c]) == up;
    MergeAt(hx, up);
    assert Merge(hx, up) == [hx(up[0] + up[1])];
    assert Root(hx, up) == Root(hx, Merge(hx, up));
  }

  /** Changing the first entry changes the first entry one level up, and nothing else there. */
  lemma MergeFirst(hx: Bytes -> Bytes, list: seq<Bytes>, c: Bytes)
    requires |list| > 1
    ensures Merge(hx, list[0 := c]) == Merge(hx, list)[0 := Pair(hx, c, list[1])]
  {
    assert list[0 := c][2..] == list[2..];
  }

  /** Climbing from a new coinbase along the old path gives the root of the whole new list. */
  lemma {:induction false} CoinbaseUpdate(hx: Bytes -> Bytes, list: seq<Bytes>, c: Bytes)
    requires list != []
    ensures Climb(hx, c, Path(hx, list)) == Root(hx, list[0 := c])
    decreases |list|
  {
    if |list| > 1 {
      var up := Merge(hx, list);
      MergeAt(hx, list);
      MergeFirst(hx, list, c);
      CoinbaseUpdate(hx, up, Pair(hx, c, list[1]));
      assert Path(hx, list)[1..] == Path(hx, up);
    }
  }

  /** The path has one entry for each halving of the list: its length is the binary logarithm, rounded up. */
  lemma {:induction false} PathLength(hx: Bytes -> Bytes, list: seq<Bytes>)
    requires list != []
    ensures |list| <= Pow(2, |Path(hx, list)|)
    ensures |list| > 1 ==> Pow(2, |Path(hx, list)| - 1) < |list|
    decreases |list|
  {
    if |list| > 1 {
      var up := Merge(hx, list);
      MergeAt(hx, list);
      PathLength(hx, up);
      assert |Path(hx, list)| == |Path(hx, up)| + 1;
      if |list| > 2 {
        assert Pow(2, |Path(hx, up)|) == 2 * Pow(2, |Path(hx, up)| - 1);
      }
    }
  }

  // ---- the loops ----------------------------------------------------------

  lemma MergeStep(hx: Bytes -> Bytes, list: seq<Bytes>, x: nat, res: seq<Bytes>)
    requires x < |list| && x % 2 == 0 && res + Merge(hx, list[x..]) == Merge(hx, list)
    ensures var more := res + [Pair(hx, list[x], if x + 1 < |list| then list[x + 1] else list[x])];
      if x + 2 < |list| then more + Merge(hx, list[x + 2..]) == Merge(hx, list) else more == Merge(hx, list)
  {
    if x + 1 < |list| {
      assert list[x..][2..] == list[x + 2..];
    }
    Regroup(res, Pair(hx, list[x], if x + 1 < |list| then list[x + 1] else list[x]),
      Merge(hx, if x + 2 < |list| then list[x + 2..] else []));
  }

  lemma Regroup(a: seq<Bytes>, b: Bytes, c: seq<Bytes>)
    ensures a + [b] + c == a + ([b] + c)
  {
  }

  method MrklMerge(hx: Bytes -> Bytes, list: seq<Bytes>) returns (res: seq<Bytes>)
    requires list != []
    ensures res == Merge(hx, list) && Pairs(hx, list, res)
  {
    MergeAt(hx, list);
    var num := |list|;
    res := [];
    var x := 0;
    while true
      invariant x < num && x % 2 == 0
      invariant res + Merge(hx, list[x..]) == Merge(hx, list)
      decreases num - x
    {
      var lh := list[x];
      var rh := if x + 1 < num then list[x + 1] else lh;
      MergeStep(hx, list, x, res);
      res := res + [hx(lh + rh)];
      x := x + 2;
      if x >= num {
        break;
      }
    }
  }

  method CalculateMrklroot(hx: Bytes -> Bytes, list: seq<Bytes>) returns (root: Bytes)
    requires list != []
    ensures root == Root(hx, list)
    ensures exists levels :: Levels(hx, list, levels) && root == levels[|levels| - 1][0]
  {
    ghost var levels := RootLevels(hx, list);
    var reslist := list;
    while |reslist| > 1
      invariant reslist != [] && Root(hx, reslist) == Root(hx, list)
      decreases |reslist|
    {
      MergeAt(hx, reslist);
      reslist := MrklMerge(hx, reslist);
    }
    root := reslist[0];
  }

  lemma PathStep(hx: Bytes -> Bytes, list: seq<Bytes>, res: seq<Bytes>)
    requires |list| > 1
    ensures 0 < |Merge(hx, list)| < |list|
    ensures res + [list[1]] + Path(hx, Merge(hx, list)) == res + Path(hx, list)
  {
    MergeAt(hx, list);
  }

  lemma AnyCoinbase(hx: Bytes -> Bytes, list: seq<Bytes>)
    requires list != []
    ensures forall c: Bytes :: Climb(hx, c, Path(hx, list)) == Root(hx, list[0 := c])
  {
    forall c: Bytes
      ensures Climb(hx, c, Path(hx, list)) == Root(hx, list[0 := c])
    {
      CoinbaseUpdate(hx, list, c);
    }
  }

  /** What a miner keeps of a block template: for any coinbase the new root can be had from it. */
  method CalculateMrklCoinbaseModify(hx: Bytes -> Bytes, list: seq<Bytes>) returns (res: seq<Bytes>)
    requires list != []
    ensures res == Path(hx, list)
    ensures forall c: Bytes :: Climb(hx, c, res) == Root(hx, list[0 := c])
  {
    res := [];
    AnyCoinbase(hx, list);
    if |list| == 1 {
      return;
    }
    if |list| == 2 {
      PathStep(hx, list, []);
      return [list[1]];
    }
    var reslist := list;
    while |reslist| != 1
      invariant reslist != [] && res + Path(hx, reslist) == Path(hx, list)
      decreases |reslist|
    {
      PathStep(hx, reslist, res);
      if |reslist| >= 2 {
        res := res + [reslist[1]];
      }
      reslist := MrklMerge(hx, reslist);
    }
  }

  method CalculateMrklCoinbaseUpdate(hx: Bytes -> Bytes, cbhx: Bytes, list: seq<Bytes>) returns (reshx: Bytes)
    ensures reshx == Climb(hx, cbhx, list)
    ensures exists steps :: Climbs(hx, cbhx, list, steps) && reshx == steps[|list|]
  {
    ghost var steps := ClimbSteps(hx, cbhx, list);
    reshx := cbhx;
    for i := 0 to |list|
      invariant Climb(hx, reshx, list[i..]) == Climb(hx, cbhx, list)
    {
      assert list[i..][0] == list[i] && list[i..][1..] == list[i + 1..];
      reshx := hx(reshx + list[i]);
    }
  }
}
