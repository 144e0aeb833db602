/**
 Blocks as programs that read and write one record at a time, as the overlays of `ChainState` run them. Each
 program is proved to end exactly when the ledger accepts the operation, and to leave a view that holds the
 ledger's result.
 */
module LedgerPrograms {
  import opened Base
  import opened Octets
  import opened Amounts
  import opened Interest
  import opened OwnedForm
  import opened Ledgers
  import opened ChainSpec
  import opened Records

  // ---- how programs end ---------------------------------------------------

  /** With accesses enough, `p` turns the view `v` into `w`. */
  ghost predicate Ends(p: Prog, v: View, w: View) {
    exists n: nat :: RunFlat(p, v, n) == Some(w)
  }

  /** Where a view is looked at, to say what programs make of it. */
  predicate Seen(w: View) {
    true
  }

  /** What `p` still does to `v` is what `q` does to `v1`. */
  ghost predicate Same(p: Prog, v: View, q: Prog, v1: View) {
    forall w {:trigger Seen(w)} :: Ends(p, v, w) <==> Ends(q, v1, w)
  }

  ghost predicate Stuck(p: Prog, v: View) {
    forall w {:trigger Seen(w)} :: !Ends(p, v, w)
  }

  /** `p` is stuck if the ledger refuses, and otherwise goes on as `q` over a view of the ledger's result. */
  ghost predicate Does(c: Codec, p: Prog, v: View, r: Result<Ledger, Error>, q: Prog, v1: View) {
    match r
    case Err(_) => Stuck(p, v)
    case Ok(l1) => Holds(c, v1, l1) && Same(p, v, q, v1)
  }

  lemma ReadGoes(k: Bytes, cont: Option<Bytes> -> Prog, v: View)
    ensures Same(Prog.Read(k, cont), v, cont(Lookup(v, k)), v)
  {
    forall w
      ensures Ends(Prog.Read(k, cont), v, w) <==> Ends(cont(Lookup(v, k)), v, w)
    {
      if Ends(Prog.Read(k, cont), v, w) {
        var n: nat :| RunFlat(Prog.Read(k, cont), v, n) == Some(w);
        assert RunFlat(cont(Lookup(v, k)), v, n - 1) == Some(w);
      }
      if Ends(cont(Lookup(v, k)), v, w) {
        var n: nat :| RunFlat(cont(Lookup(v, k)), v, n) == Some(w);
        assert RunFlat(Prog.Read(k, cont), v, n + 1) == Some(w);
      }
    }
  }

  lemma WriteGoes(k: Bytes, x: Bytes, next: Prog, v: View)
    ensures Same(Write(k, x, next), v, next, v[k := x])
  {
    forall w
      ensures Ends(Write(k, x, next), v, w) <==> Ends(next, v[k := x], w)
    {
      if Ends(Write(k, x, next), v, w) {
        var n: nat :| RunFlat(Write(k, x, next), v, n) == Some(w);
        assert RunFlat(next, v[k := x], n - 1) == Some(w);
      }
      if Ends(next, v[k := x], w) {
        var n: nat :| RunFlat(next, v[k := x], n) == Some(w);
        assert RunFlat(Write(k, x, next), v, n + 1) == Some(w);
      }
    }
  }

  lemma RemoveGoes(k: Bytes, next: Prog, v: View)
    ensures Same(Remove(k, next), v, next, v - {k})
  {
    forall w
      ensures Ends(Remove(k, next), v, w) <==> Ends(next, v - {k}, w)
    {
      if Ends(Remove(k, next), v, w) {
        var n: nat :| RunFlat(Remove(k, next), v, n) == Some(w);
        assert RunFlat(next, v - {k}, n - 1) == Some(w);
      }
      if Ends(next, v - {k}, w) {
        var n: nat :| RunFlat(next, v - {k}, n) == Some(w);
        assert RunFlat(Remove(k, next), v, n + 1) == Some(w);
      }
    }
  }

  lemma FailStuck(v: View)
    ensures Stuck(Fail, v)
  {
    forall w
      ensures !Ends(Fail, v, w)
    {
    }
  }

  lemma SameRefl(p: Prog, v: View)
    ensures Same(p, v, p, v)
  {
  }

  lemma SameJoin(p: Prog, v: View, q: Prog, v1: View, r: Prog, v2: View)
    requires Same(p, v, q, v1) && Same(q, v1, r, v2)
    ensures Same(p, v, r, v2)
  {
    forall w
      ensures Ends(p, v, w) <==> Ends(r, v2, w)
    {
      assert Seen(w);
    }
  }

  lemma StuckLater(p: Prog, v: View, q: Prog, v1: View)
    requires Same(p, v, q, v1) && Stuck(q, v1)
    ensures Stuck(p, v)
  {
    forall w
      ensures !Ends(p, v, w)
    {
      assert Seen(w);
    }
  }

  lemma DoesLater(c: Codec, p: Prog, v: View, q: Prog, v1: View, r: Result<Ledger, Error>, next: Prog, v2: View)
    requires Same(p, v, q, v1) && Does(c, q, v1, r, next, v2)
    ensures Does(c, p, v, r, next, v2)
  {
    if r.Err? {
      StuckLater(p, v, q, v1);
    } else {
      SameJoin(p, v, q, v1, next, v2);
    }
  }

  // ---- records ------------------------------------------------------------

  function Decoded(c: Codec, k: Option<Record> -> Prog): Option<Bytes> -> Prog {
    (b: Option<Bytes>) => k(c.Read(b))
  }

  function Get(c: Codec, key: Key, k: Option<Record> -> Prog): Prog {
    Prog.Read(c.key(key), Decoded(c, k))
  }

  lemma GetRuns(c: Codec, v: View, l: Ledger, key: Key, k: Option<Record> -> Prog)
    requires Holds(c, v, l)
    ensures Same(Get(c, key, k), v, k(RecordIn(c, v, key)), v)
    ensures !Single(key) ==> RecordIn(c, v, key) == RecordOf(l, key)
    ensures key == LatestKey ==> LatestIn(RecordIn(c, v, key)) == l.latest
    ensures key == CountKey ==> CountIn(RecordIn(c, v, key)) == (l.opening, l.minted)
  {
    assert c.Look();
    ReadGoes(c.key(key), Decoded(c, k), v);
  }

  function Put(c: Codec, key: Key, x: Record, next: Prog): Prog {
    Write(c.key(key), c.rec(x), next)
  }

  function After(c: Codec, v: View, key: Key, x: Record): View {
    v[c.key(key) := c.rec(x)]
  }

  lemma PutRuns(c: Codec, v: View, key: Key, x: Record, next: Prog)
    ensures Same(Put(c, key, x, next), v, next, After(c, v, key, x))
  {
    WriteGoes(c.key(key), c.rec(x), next, v);
  }

  function BalanceFrom(r: Option<Record>): Balance {
    if r.Some? && r.value.BalanceRec? then r.value.balance else Balance(EMPTY, 0)
  }

  lemma PutBalanceRuns(c: Codec, v: View, l: Ledger, a: Address, b: Balance, next: Prog) returns (v1: View)
    requires c.Valid() && Holds(c, v, l)
    ensures Holds(c, v1, l.(balances := l.balances[a := b]))
    ensures Same(Put(c, BalanceKey(a), BalanceRec(b), next), v, next, v1)
  {
    v1 := After(c, v, BalanceKey(a), BalanceRec(b));
    WriteBalance(c, v, l, a, b);
    PutRuns(c, v, BalanceKey(a), BalanceRec(b), next);
  }

  // ---- coins --------------------------------------------------------------

  function SaveHacProg(c: Codec, a: Address, b: Balance, amt: Amount, next: Prog): Prog {
    if Size(amt) > 12 then Fail else Put(c, BalanceKey(a), BalanceRec(b.(hacash := amt)), next)
  }

  lemma SaveHacRuns(c: Codec, v: View, l: Ledger, a: Address, amt: Amount, next: Prog) returns (v1: View)
    requires c.Valid() && Holds(c, v, l)
    ensures Does(c, SaveHacProg(c, a, BalanceOf(l, a), amt, next), v, SetHacash(l, a, amt), next, v1)
  {
    v1 := PutBalanceRuns(c, v, l, a, BalanceOf(l, a).(hacash := amt), next);
    FailStuck(v);
  }

  function AddTo(c: Codec, a: Address, amt: Amount, next: Prog): Option<Record> -> Prog {
    (r: Option<Record>) =>
      match Add(BalanceFrom(r).hacash, amt)
      case Err(_) => Fail
      case Ok(sum) => SaveHacProg(c, a, BalanceFrom(r), sum, next)
  }

  function AddHacProg(c: Codec, a: Address, amt: Amount, next: Prog): Prog {
    if !IsPositive(amt) then Fail else Get(c, BalanceKey(a), AddTo(c, a, amt, next))
  }

  lemma AddHacRuns(c: Codec, v: View, l: Ledger, a: Address, amt: Amount, next: Prog) returns (v1: View)
    requires c.Valid() && Holds(c, v, l)
    ensures Does(c, AddHacProg(c, a, amt, next), v, HacAdd(l, a, amt), next, v1)
  {
    v1 := v;
    FailStuck(v);
    if IsPositive(amt) {
      GetRuns(c, v, l, BalanceKey(a), AddTo(c, a, amt, next));
      if Add(BalanceOf(l, a).hacash, amt).Ok? {
        v1 := SaveHacRuns(c, v, l, a, Add(BalanceOf(l, a).hacash, amt).value, next);
      }
      DoesLater(c, AddHacProg(c, a, amt, next), v, AddTo(c, a, amt, next)(RecordIn(c, v, BalanceKey(a))), v,
        HacAdd(l, a, amt), next, v1);
    }
  }

  function SubFrom(c: Codec, a: Address, amt: Amount, next: Prog): Option<Record> -> Prog {
    (r: Option<Record>) =>
      if Cmp(BalanceFrom(r).hacash, amt) == Less then Fail
      else
        match Sub(BalanceFrom(r).hacash, amt)
        case Err(_) => Fail
        case Ok(rest) => SaveHacProg(c, a, BalanceFrom(r), rest, next)
  }

  function SubHacProg(c: Codec, a: Address, amt: Amount, next: Prog): Prog {
    if !IsPositive(amt) then Fail else Get(c, BalanceKey(a), SubFrom(c, a, amt, next))
  }

  lemma SubHacRuns(c: Codec, v: View, l: Ledger, a: Address, amt: Amount, next: Prog) returns (v1: View)
    requires c.Valid() && Holds(c, v, l)
    ensures Does(c, SubHacProg(c, a, amt, next), v, HacSub(l, a, amt), next, v1)
  {
    v1 := v;
    FailStuck(v);
    if IsPositive(amt) {
      GetRuns(c, v, l, BalanceKey(a), SubFrom(c, a, amt, next));
      if Cmp(BalanceOf(l, a).hacash, amt) != Less && Sub(BalanceOf(l, a).hacash, amt).Ok? {
        v1 := SaveHacRuns(c, v, l, a, Sub(BalanceOf(l, a).hacash, amt).value, next);
      }
      DoesLater(c, SubHacProg(c, a, amt, next), v, SubFrom(c, a, amt, next)(RecordIn(c, v, BalanceKey(a))), v,
        HacSub(l, a, amt), next, v1);
    }
  }

  /** One operation after the other. */
  lemma DoesThen(c: Codec, p: Prog, v: View, r1: Result<Ledger, Error>, q: Prog, v1: View, r: Result<Ledger, Error>,
    next: Prog, v2: View)
    requires Does(c, p, v, r1, q, v1)
    requires if r1.Err? then r.Err? else Does(c, q, v1, r, next, v2)
    ensures Does(c, p, v, r, next, v2)
  {
    if r1.Ok? {
      DoesLater(c, p, v, q, v1, r, next, v2);
    }
  }

  function Covered(amt: Amount, next: Prog): Option<Record> -> Prog {
    (r: Option<Record>) => if Cmp(BalanceFrom(r).hacash, amt) == Less then Fail else next
  }

  function MoveHacProg(c: Codec, height: nat, from: Address, to: Address, amt: Amount, next: Prog): Prog {
    if from != to then SubHacProg(c, from, amt, AddHacProg(c, to, amt, next))
    else if height < 20_0000 then next
    else if !IsPositive(amt) then Fail
    else Get(c, BalanceKey(from), Covered(amt, next))
  }

  lemma NothingCovers(amt: Amount)
    requires IsPositive(amt)
    ensures Cmp(EMPTY, amt) == Less
  {
    MulOrder(0, FromBigEndian(amt.byte), Pow(10, amt.unit));
  }

  lemma MoveHacRuns(c: Codec, v: View, l: Ledger, height: nat, from: Address, to: Address, amt: Amount, next: Prog)
    returns (v1: View)
    requires c.Valid() && Holds(c, v, l)
    ensures Does(c, MoveHacProg(c, height, from, to, amt, next), v, HacMove(l, height, from, to, amt), next, v1)
  {
    v1 := v;
    FailStuck(v);
    SameRefl(next, v);
    if from != to {
      v1 := SubHacRuns(c, v, l, from, amt, AddHacProg(c, to, amt, next));
      var v2 := v1;
      if HacSub(l, from, amt).Ok? {
        v2 := AddHacRuns(c, v1, HacSub(l, from, amt).value, to, amt, next);
      }
      DoesThen(c, MoveHacProg(c, height, from, to, amt, next), v, HacSub(l, from, amt), AddHacProg(c, to, amt, next),
        v1,
        HacMove(l, height, from, to, amt), next, v2);
      v1 := v2;
    } else if height >= 20_0000 && IsPositive(amt) {
      NothingCovers(amt);
      GetRuns(c, v, l, BalanceKey(from), Covered(amt, next));
      DoesLater(c, MoveHacProg(c, height, from, to, amt, next), v,
        Covered(amt, next)(RecordIn(c, v, BalanceKey(from))), v,
        HacMove(l, height, from, to, amt), next, v);
    }
  }

  // ---- diamonds -----------------------------------------------------------

  function CountTo(c: Codec, a: Address, n: nat, next: Prog): Option<Record> -> Prog {
    (r: Option<Record>) =>
      var b := BalanceFrom(r);
      Put(c, BalanceKey(a), BalanceRec(b.(diamond := b.diamond + n)), next)
  }

  function AddHacdProg(c: Codec, a: Address, n: nat, next: Prog): Prog {
    Get(c, BalanceKey(a), CountTo(c, a, n, next))
  }

  lemma AddHacdRuns(c: Codec, v: View, l: Ledger, a: Address, n: nat, next: Prog) returns (v1: View)
    requires c.Valid() && Holds(c, v, l)
    ensures Does(c, AddHacdProg(c, a, n, next), v, Ok(HacdAdd(l, a, n)), next, v1)
  {
    var b := BalanceOf(l, a);
    var k := CountTo(c, a, n, next);
    GetRuns(c, v, l, BalanceKey(a), k);
    v1 := PutBalanceRuns(c, v, l, a, b.(diamond := b.diamond + n), next);
    SameJoin(AddHacdProg(c, a, n, next), v, k(RecordIn(c, v, BalanceKey(a))), v, next, v1);
  }

  function CountFrom(c: Codec, a: Address, n: nat, next: Prog): Option<Record> -> Prog {
    (r: Option<Record>) =>
      var b := BalanceFrom(r);
      if b.diamond < n then Fail else Put(c, BalanceKey(a), BalanceRec(b.(diamond := b.diamond - n)), next)
  }

  function SubHacdProg(c: Codec, a: Address, n: nat, next: Prog): Prog {
    Get(c, BalanceKey(a), CountFrom(c, a, n, next))
  }

  lemma SubHacdRuns(c: Codec, v: View, l: Ledger, a: Address, n: nat, next: Prog) returns (v1: View)
    requires c.Valid() && Holds(c, v, l)
    ensures Does(c, SubHacdProg(c, a, n, next), v, HacdSub(l, a, n), next, v1)
  {
    var b := BalanceOf(l, a);
    v1 := v;
    FailStuck(v);
    GetRuns(c, v, l, BalanceKey(a), CountFrom(c, a, n, next));
    if b.diamond >= n {
      v1 := PutBalanceRuns(c, v, l, a, b.(diamond := b.diamond - n), next);
    }
    DoesLater(c, SubHacdProg(c, a, n, next), v, CountFrom(c, a, n, next)(RecordIn(c, v, BalanceKey(a))), v,
      HacdSub(l, a, n), next, v1);
  }

  function MoveHacdProg(c: Codec, from: Address, to: Address, n: nat, next: Prog): Prog {
    if from == to then Fail else SubHacdProg(c, from, n, AddHacdProg(c, to, n, next))
  }

  lemma MoveHacdRuns(c: Codec, v: View, l: Ledger, from: Address, to: Address, n: nat, next: Prog) returns (v1: View)
    requires c.Valid() && Holds(c, v, l)
    ensures Does(c, MoveHacdProg(c, from, to, n, next), v, HacdMove(l, from, to, n), next, v1)
  {
    v1 := v;
    FailStuck(v);
    if from != to {
      var v0 := SubHacdRuns(c, v, l, from, n, AddHacdProg(c, to, n, next));
      if HacdSub(l, from, n).Ok? {
        v1 := AddHacdRuns(c, v0, HacdSub(l, from, n).value, to, n, next);
      }
      DoesThen(c, MoveHacdProg(c, from, to, n, next), v, HacdSub(l, from, n), AddHacdProg(c, to, n, next), v0,
        HacdMove(l, from, to, n), next, v1);
    }
  }

  /** Goes on with the diamond when it is there, not mortgaged and owned by `from`. */
  function IfOwned(from: Address, k: Diamond -> Prog): Option<Record> -> Prog {
    (r: Option<Record>) =>
      if r.None? || !r.value.DiamondRec? then Fail
      else if r.value.diamond.status != Normal || r.value.diamond.owner != from then Fail
      else k(r.value.diamond)
  }

  function CheckDiamondProg(c: Codec, from: Address, name: Name, k: Diamond -> Prog): Prog {
    Get(c, DiamondKey(name), IfOwned(from, k))
  }

  lemma CheckDiamondRuns(c: Codec, v: View, l: Ledger, from: Address, name: Name, k: Diamond -> Prog)
    requires Holds(c, v, l)
    ensures match CheckDiamond(l, from, name)
      case Err(_) => Stuck(CheckDiamondProg(c, from, name, k), v)
      case Ok(d) => Same(CheckDiamondProg(c, from, name, k), v, k(d), v)
  {
    FailStuck(v);
    GetRuns(c, v, l, DiamondKey(name), IfOwned(from, k));
    var q := IfOwned(from, k)(RecordIn(c, v, DiamondKey(name)));
    if CheckDiamond(l, from, name).Err? {
      StuckLater(CheckDiamondProg(c, from, name, k), v, q, v);
    }
  }

  lemma PutDiamondRuns(c: Codec, v: View, l: Ledger, name: Name, d: Diamond, next: Prog) returns (v1: View)
    requires c.Valid() && Holds(c, v, l)
    ensures Holds(c, v1, l.(diamonds := l.diamonds[name := d]))
    ensures Same(Put(c, DiamondKey(name), DiamondRec(d), next), v, next, v1)
  {
    v1 := After(c, v, DiamondKey(name), DiamondRec(d));
    WriteDiamond(c, v, l, name, d);
    PutRuns(c, v, DiamondKey(name), DiamondRec(d), next);
  }

  function GiveTo(c: Codec, to: Address, name: Name, next: Prog): Diamond -> Prog {
    (d: Diamond) => Put(c, DiamondKey(name), DiamondRec(d.(owner := to)), next)
  }

  function MoveOneProg(c: Codec, from: Address, to: Address, name: Name, next: Prog): Prog {
    if from == to then Fail else CheckDiamondProg(c, from, name, GiveTo(c, to, name, next))
  }

  lemma MoveOneRuns(c: Codec, v: View, l: Ledger, from: Address, to: Address, name: Name, next: Prog) returns (v1: View)
    requires c.Valid() && Holds(c, v, l)
    ensures Does(c, MoveOneProg(c, from, to, name, next), v, MoveOne(l, from, to, name), next, v1)
  {
    v1 := v;
    FailStuck(v);
    if from != to {
      CheckDiamondRuns(c, v, l, from, name, GiveTo(c, to, name, next));
      if CheckDiamond(l, from, name).Ok? {
        var d := CheckDiamond(l, from, name).value;
        v1 := PutDiamondRuns(c, v, l, name, d.(owner := to), next);
        SameJoin(MoveOneProg(c, from, to, name, next), v, GiveTo(c, to, name, next)(d), v, next, v1);
      }
    }
  }

  function MoveEachProg(c: Codec, from: Address, to: Address, names: seq<Name>, next: Prog): Prog
    decreases |names|
  {
    if names == [] then next
    else MoveEachProg(c, from, to, names[..|names| - 1], MoveOneProg(c, from, to, names[|names| - 1], next))
  }

  lemma {:induction false} MoveEachRuns(c: Codec, v: View, l: Ledger, from: Address, to: Address, names: seq<Name>,
    next: Prog)
    returns (v1: View)
    requires c.Valid() && Holds(c, v, l)
    ensures Does(c, MoveEachProg(c, from, to, names, next), v, MoveEach(l, from, to, names), next, v1)
    decreases |names|
  {
    v1 := v;
    SameRefl(next, v);
    if names != [] {
      var before, name := names[..|names| - 1], names[|names| - 1];
      var q := MoveOneProg(c, from, to, name, next);
      var v0 := MoveEachRuns(c, v, l, from, to, before, q);
      if MoveEach(l, from, to, before).Ok? {
        v1 := MoveOneRuns(c, v0, MoveEach(l, from, to, before).value, from, to, name, next);
      }
      DoesThen(c, MoveEachProg(c, from, to, names, next), v, MoveEach(l, from, to, before), q, v0,
        MoveEach(l, from, to, names), next, v1);
    }
  }

  // ---- lists of diamonds --------------------------------------------------

  function NamesFrom(r: Option<Record>): seq<Name> {
    if r.Some? && r.value.OwnedRec? then r.value.names else []
  }

  lemma PutOwnedRuns(c: Codec, v: View, l: Ledger, a: Address, names: seq<Name>, next: Prog) returns (v1: View)
    requires c.Valid() && Holds(c, v, l)
    ensures Holds(c, v1, l.(owned := l.owned[a := names]))
    ensures Same(Put(c, OwnedKey(a), OwnedRec(names), next), v, next, v1)
  {
    v1 := After(c, v, OwnedKey(a), OwnedRec(names));
    WriteOwned(c, v, l, a, names);
    PutRuns(c, v, OwnedKey(a), OwnedRec(names), next);
  }

  function Appended(c: Codec, a: Address, names: seq<Name>, next: Prog): Option<Record> -> Prog {
    (r: Option<Record>) => Put(c, OwnedKey(a), OwnedRec(NamesFrom(r) + names), next)
  }

  function PushOwnedProg(c: Codec, a: Address, names: seq<Name>, next: Prog): Prog {
    Get(c, OwnedKey(a), Appended(c, a, names, next))
  }

  lemma PushOwnedRuns(c: Codec, v: View, l: Ledger, a: Address, names: seq<Name>, next: Prog) returns (v1: View)
    requires c.Valid() && Holds(c, v, l)
    ensures Holds(c, v1, OwnedPush(l, a, names)) && Same(PushOwnedProg(c, a, names, next), v, next, v1)
  {
    GetRuns(c, v, l, OwnedKey(a), Appended(c, a, names, next));
    v1 := PutOwnedRuns(c, v, l, a, OwnedOf(l, a) + names, next);
    SameJoin(PushOwnedProg(c, a, names, next), v, Appended(c, a, names, next)(RecordIn(c, v, OwnedKey(a))), v, next,
      v1);
  }

  /** The sender's list without the names; an empty list is removed. */
  function LeaveOwned(c: Codec, a: Address, rest: seq<Name>, next: Prog): Prog {
    if rest == [] then Remove(c.key(OwnedKey(a)), next) else Put(c, OwnedKey(a), OwnedRec(rest), next)
  }

  lemma LeaveOwnedRuns(c: Codec, v: View, l: Ledger, a: Address, rest: seq<Name>, next: Prog) returns (v1: View)
    requires c.Valid() && Holds(c, v, l)
    ensures Holds(c, v1, l.(owned := if rest == [] then l.owned - {a} else l.owned[a := rest]))
    ensures Same(LeaveOwned(c, a, rest, next), v, next, v1)
  {
    if rest == [] {
      v1 := v - {c.key(OwnedKey(a))};
      RemoveOwned(c, v, l, a);
      RemoveGoes(c.key(OwnedKey(a)), next, v);
    } else {
      v1 := PutOwnedRuns(c, v, l, a, rest, next);
    }
  }

  function Dropped(c: Codec, from: Address, to: Address, names: seq<Name>, next: Prog): Option<Record> -> Prog {
    (r: Option<Record>) =>
      if r.None? then Fail
      else
        match Without(NamesFrom(r), names)
        case None => Fail
        case Some(rest) => LeaveOwned(c, from, rest, PushOwnedProg(c, to, names, next))
  }

  function MoveOwnedProg(c: Codec, from: Address, to: Address, names: seq<Name>, next: Prog): Prog {
    Get(c, OwnedKey(from), Dropped(c, from, to, names, next))
  }

  lemma MoveOwnedRuns(c: Codec, v: View, l: Ledger, from: Address, to: Address, names: seq<Name>, next: Prog)
    returns (v1: View)
    requires c.Valid() && Holds(c, v, l)
    ensures Does(c, MoveOwnedProg(c, from, to, names, next), v, OwnedMove(l, from, to, names), next, v1)
  {
    v1 := v;
    FailStuck(v);
    GetRuns(c, v, l, OwnedKey(from), Dropped(c, from, to, names, next));
    var q := Dropped(c, from, to, names, next)(RecordIn(c, v, OwnedKey(from)));
    if from in l.owned && Without(l.owned[from], names).Some? {
      var rest := Without(l.owned[from], names).value;
      var push := PushOwnedProg(c, to, names, next);
      var v0 := LeaveOwnedRuns(c, v, l, from, rest, push);
      v1 := PushOwnedRuns(c, v0, l.(owned := if rest == [] then l.owned - {from} else l.owned[from := rest]), to,
        names, next);
      SameJoin(q, v, push, v0, next, v1);
    }
    DoesLater(c, MoveOwnedProg(c, from, to, names, next), v, q, v, OwnedMove(l, from, to, names), next, v1);
  }

  function MoveDiamondsProg(c: Codec, from: Address, to: Address, names: seq<Name>, next: Prog): Prog {
    if !ValidList(names) then Fail
    else MoveEachProg(c, from, to, names, MoveOwnedProg(c, from, to, names, MoveHacdProg(c, from, to, |names|, next)))
  }

  lemma MoveDiamondsRuns(c: Codec, v: View, l: Ledger, from: Address, to: Address, names: seq<Name>, next: Prog)
    returns (v1: View)
    requires c.Valid() && Holds(c, v, l)
    ensures Does(c, MoveDiamondsProg(c, from, to, names, next), v, DiamondsMove(l, from, to, names), next, v1)
  {
    v1 := v;
    FailStuck(v);
    if ValidList(names) {
      var last := MoveHacdProg(c, from, to, |names|, next);
      var lists := MoveOwnedProg(c, from, to, names, last);
      var va := MoveEachRuns(c, v, l, from, to, names, lists);
      if MoveEach(l, from, to, names).Ok? {
        v1 := MoveListsRuns(c, va, MoveEach(l, from, to, names).value, from, to, names, next);
      }
      DoesThen(c, MoveDiamondsProg(c, from, to, names, next), v, MoveEach(l, from, to, names), lists, va,
        DiamondsMove(l, from, to, names), next, v1);
    }
  }

  function MoveLists(l: Ledger, from: Address, to: Address, names: seq<Name>): Result<Ledger, Error> {
    var l2 :- OwnedMove(l, from, to, names);
    HacdMove(l2, from, to, |names|)
  }

  lemma MoveListsRuns(c: Codec, v: View, l: Ledger, from: Address, to: Address, names: seq<Name>, next: Prog)
    returns (v1: View)
    requires c.Valid() && Holds(c, v, l)
    ensures Does(c, MoveOwnedProg(c, from, to, names, MoveHacdProg(c, from, to, |names|, next)), v,
      MoveLists(l, from, to, names), next, v1)
  {
    v1 := v;
    var last := MoveHacdProg(c, from, to, |names|, next);
    var v0 := MoveOwnedRuns(c, v, l, from, to, names, last);
    if OwnedMove(l, from, to, names).Ok? {
      v1 := MoveHacdRuns(c, v0, OwnedMove(l, from, to, names).value, from, to, |names|, next);
    }
    DoesThen(c, MoveOwnedProg(c, from, to, names, last), v, OwnedMove(l, from, to, names), last, v0,
      MoveLists(l, from, to, names), next, v1);
  }

  // ---- minting ------------------------------------------------------------

  lemma PutCountRuns(c: Codec, v: View, l: Ledger, opening: nat, minted: nat, next: Prog) returns (v1: View)
    requires c.Valid() && Holds(c, v, l)
    ensures Holds(c, v1, l.(opening := opening, minted := minted))
    ensures Same(Put(c, CountKey, CountRec(opening, minted), next), v, next, v1)
  {
    v1 := After(c, v, CountKey, CountRec(opening, minted));
    WriteCount(c, v, l, opening, minted);
    PutRuns(c, v, CountKey, CountRec(opening, minted), next);
  }

  function MintIndexProg(c: Codec, blockHash: Bytes, m: MintRecord, next: Prog): Prog {
    Put(c, LatestKey, LatestRec(Latest(m.number, blockHash)),
      Put(c, DiamondKey(m.name), DiamondRec(Diamond(Normal, m.address, 0, [])),
        Put(c, NumberKey(m.number), NumberRec(m.name), next)))
  }

  function MintOwnerProg(c: Codec, opening: nat, minted: nat, m: MintRecord, next: Prog): Prog {
    Put(c, CountKey, CountRec(opening, minted + 1),
      PushOwnedProg(c, m.address, [m.name], AddHacdProg(c, m.address, 1, next)))
  }

  /** The writes of a mint, once its checks have passed. */
  function RecordMintProg(c: Codec, blockHash: Bytes, m: MintRecord, next: Prog): Option<Record> -> Prog {
    (r: Option<Record>) =>
      MintIndexProg(c, blockHash, m, MintOwnerProg(c, CountIn(r).0, CountIn(r).1, m, next))
  }

  lemma MintIndexRuns(c: Codec, v: View, l: Ledger, blockHash: Bytes, m: MintRecord, next: Prog, l1: Ledger)
    returns (v1: View)
    requires c.Valid() && Holds(c, v, l)
    requires l1 == l.(latest := Latest(m.number, blockHash),
      diamonds := l.diamonds[m.name := Diamond(Normal, m.address, 0, [])], byNumber := l.byNumber[m.number := m.name])
    ensures Holds(c, v1, l1) && Same(MintIndexProg(c, blockHash, m, next), v, next, v1)
  {
    var d := Diamond(Normal, m.address, 0, []);
    var q2 := Put(c, NumberKey(m.number), NumberRec(m.name), next);
    var q1 := Put(c, DiamondKey(m.name), DiamondRec(d), q2);
    var q0 := Put(c, LatestKey, LatestRec(Latest(m.number, blockHash)), q1);
    var va := After(c, v, LatestKey, LatestRec(Latest(m.number, blockHash)));
    WriteLatest(c, v, l, Latest(m.number, blockHash));
    PutRuns(c, v, LatestKey, LatestRec(Latest(m.number, blockHash)), q1);
    var la := l.(latest := Latest(m.number, blockHash));
    var vb := PutDiamondRuns(c, va, la, m.name, d, q2);
    var lb := la.(diamonds := la.diamonds[m.name := d]);
    v1 := After(c, vb, NumberKey(m.number), NumberRec(m.name));
    WriteNumber(c, vb, lb, m.number, m.name);
    PutRuns(c, vb, NumberKey(m.number), NumberRec(m.name), next);
    SameJoin(q0, v, q1, va, q2, vb);
    SameJoin(q0, v, q2, vb, next, v1);
  }

  lemma MintOwnerRuns(c: Codec, v: View, l: Ledger, m: MintRecord, next: Prog) returns (v1: View)
    requires c.Valid() && Holds(c, v, l)
    ensures Holds(c, v1, HacdAdd(OwnedPush(l.(minted := l.minted + 1), m.address, [m.name]), m.address, 1))
    ensures Same(MintOwnerProg(c, l.opening, l.minted, m, next), v, next, v1)
  {
    var q2 := AddHacdProg(c, m.address, 1, next);
    var q1 := PushOwnedProg(c, m.address, [m.name], q2);
    var q0 := Put(c, CountKey, CountRec(l.opening, l.minted + 1), q1);
    var va := PutCountRuns(c, v, l, l.opening, l.minted + 1, q1);
    var la := l.(minted := l.minted + 1);
    var vb := PushOwnedRuns(c, va, la, m.address, [m.name], q2);
    v1 := AddHacdRuns(c, vb, OwnedPush(la, m.address, [m.name]), m.address, 1, next);
    SameJoin(q0, v, q1, va, q2, vb);
    SameJoin(q0, v, q2, vb, next, v1);
  }

  lemma MintWritesRun(c: Codec, v: View, l: Ledger, blockHash: Bytes, m: MintRecord, next: Prog, r: Option<Record>,
    la: Ledger)
    returns (v1: View)
    requires c.Valid() && Holds(c, v, l) && CountIn(r) == (l.opening, l.minted)
    requires la == l.(latest := Latest(m.number, blockHash),
      diamonds := l.diamonds[m.name := Diamond(Normal, m.address, 0, [])], byNumber := l.byNumber[m.number := m.name])
    ensures Holds(c, v1, HacdAdd(OwnedPush(la.(minted := la.minted + 1), m.address, [m.name]), m.address, 1))
    ensures Same(RecordMintProg(c, blockHash, m, next)(r), v, next, v1)
  {
    var owner := MintOwnerProg(c, l.opening, l.minted, m, next);
    var va := MintIndexRuns(c, v, l, blockHash, m, owner, la);
    v1 := MintOwnerRuns(c, va, la, m, next);
    SameJoin(RecordMintProg(c, blockHash, m, next)(r), v, owner, va, next, v1);
  }

  lemma RecordMintIs(l: Ledger, blockHash: Bytes, m: MintRecord, la: Ledger)
    requires la == l.(latest := Latest(m.number, blockHash),
      diamonds := l.diamonds[m.name := Diamond(Normal, m.address, 0, [])], byNumber := l.byNumber[m.number := m.name])
    ensures RecordMint(l, blockHash, m) == HacdAdd(OwnedPush(la.(minted := la.minted + 1), m.address, [m.name]),
      m.address, 1)
  {
  }

  lemma RecordMintRuns(c: Codec, v: View, l: Ledger, blockHash: Bytes, m: MintRecord, next: Prog) returns (v1: View)
    requires c.Valid() && Holds(c, v, l)
    ensures Holds(c, v1, RecordMint(l, blockHash, m))
    ensures Same(Get(c, CountKey, RecordMintProg(c, blockHash, m, next)), v, next, v1)
  {
    var k := RecordMintProg(c, blockHash, m, next);
    GetRuns(c, v, l, CountKey, k);
    var la := l.(latest := Latest(m.number, blockHash),
      diamonds := l.diamonds[m.name := Diamond(Normal, m.address, 0, [])], byNumber := l.byNumber[m.number := m.name]);
    v1 := MintWritesRun(c, v, l, blockHash, m, next, RecordIn(c, v, CountKey), la);
    RecordMintIs(l, blockHash, m, la);
    SameJoin(Get(c, CountKey, k), v, k(RecordIn(c, v, CountKey)), v, next, v1);
  }

  function IfNew(c: Codec, env: Env, m: MintRecord, next: Prog): Option<Record> -> Prog {
    (r: Option<Record>) =>
      if r.Some? then Fail
      else if m.number > BURN_FEES_ABOVE && Sub(env.fee, TenthOf(env.fee)).Err? then Fail
      else Get(c, CountKey, RecordMintProg(c, env.blockHash, m, next))
  }

  function IfNext(c: Codec, env: Env, m: MintRecord, next: Prog): Option<Record> -> Prog {
    (r: Option<Record>) =>
      if m.number != LatestIn(r).number + 1 then Fail
      else if m.number > 1 && LatestIn(r).bornHash != m.prevHash then Fail
      else if env.world.mined(m) != Some(m.name) then Fail
      else Get(c, DiamondKey(m.name), IfNew(c, env, m, next))
  }

  function MintProg(c: Codec, env: Env, m: MintRecord, next: Prog): Prog {
    if m.address.version != PRIVAKEY then Fail
    else if IsNotZero(env.blockHash) && env.height % 5 != 0 then Fail
    else Get(c, LatestKey, IfNext(c, env, m, next))
  }

  lemma IfNewRuns(c: Codec, v: View, l: Ledger, env: Env, m: MintRecord, next: Prog) returns (v1: View)
    requires c.Valid() && Holds(c, v, l) && (m.name !in l.diamonds ==> CheckMint(l, env, m) == None)
    requires m.name in l.diamonds ==> CheckMint(l, env, m).Some?
    ensures Does(c, Get(c, DiamondKey(m.name), IfNew(c, env, m, next)), v, Mint(l, env, m), next, v1)
  {
    v1 := v;
    FailStuck(v);
    GetRuns(c, v, l, DiamondKey(m.name), IfNew(c, env, m, next));
    var q := IfNew(c, env, m, next)(RecordIn(c, v, DiamondKey(m.name)));
    if m.name !in l.diamonds && !(m.number > BURN_FEES_ABOVE && Sub(env.fee, TenthOf(env.fee)).Err?) {
      v1 := RecordMintRuns(c, v, l, env.blockHash, m, next);
    }
    DoesLater(c, Get(c, DiamondKey(m.name), IfNew(c, env, m, next)), v, q, v, Mint(l, env, m), next, v1);
  }

  lemma MintRuns(c: Codec, v: View, l: Ledger, env: Env, m: MintRecord, next: Prog) returns (v1: View)
    requires c.Valid() && Holds(c, v, l)
    ensures Does(c, MintProg(c, env, m, next), v, Mint(l, env, m), next, v1)
  {
    v1 := v;
    FailStuck(v);
    if m.address.version == PRIVAKEY && !(IsNotZero(env.blockHash) && env.height % 5 != 0) {
      GetRuns(c, v, l, LatestKey, IfNext(c, env, m, next));
      var q := IfNext(c, env, m, next)(RecordIn(c, v, LatestKey));
      if m.number == l.latest.number + 1 && !(m.number > 1 && l.latest.bornHash != m.prevHash) &&
        env.world.mined(m) == Some(m.name) {
        v1 := IfNewRuns(c, v, l, env, m, next);
      }
      DoesLater(c, MintProg(c, env, m, next), v, q, v, Mint(l, env, m), next, v1);
    }
  }

  // ---- inscriptions -------------------------------------------------------

  /** What an operation with a cost does, going on with that cost. */
  ghost predicate DoesFor(c: Codec, p: Prog, v: View, r: Result<(Ledger, Amount), Error>, k: Amount -> Prog, v1: View) {
    match r
    case Err(_) => Stuck(p, v)
    case Ok(x) => Holds(c, v1, x.0) && Same(p, v, k(x.1), v1)
  }

  function Inscribed(c: Codec, env: Env, name: Name, content: Bytes, k: Amount -> Prog): Diamond -> Prog {
    (d: Diamond) =>
      if d.engravedHeight + 1000 > env.height || |d.inscripts| >= 200 || env.world.averageBid(name).None? then Fail
      else
        var cost := if |d.inscripts| >= 10 then FromUnits(env.world.averageBid(name).value, 247) else Ok(EMPTY);
        if cost.Err? then Fail
        else
          var d1 := d.(engravedHeight := env.height, inscripts := d.inscripts + [content]);
          Put(c, DiamondKey(name), DiamondRec(d1), k(cost.value))
  }

  function Cleaned(c: Codec, env: Env, name: Name, k: Amount -> Prog): Diamond -> Prog {
    (d: Diamond) =>
      if env.world.averageBid(name).None? || d.inscripts == [] then Fail
      else
        var cost := FromUnits(env.world.averageBid(name).value, 248);
        if cost.Err? then Fail
        else Put(c, DiamondKey(name), DiamondRec(d.(engravedHeight := 0, inscripts := [])), k(cost.value))
  }

  function EngraveProg(c: Codec, env: Env, name: Name, content: Option<Bytes>, k: Amount -> Prog): Prog {
    CheckDiamondProg(c, env.main, name,
      match content case Some(x) => Inscribed(c, env, name, x, k) case None => Cleaned(c, env, name, k))
  }

  lemma InscribedRuns(c: Codec, v: View, l: Ledger, env: Env, name: Name, content: Bytes, k: Amount -> Prog, d: Diamond)
    returns (v1: View)
    requires c.Valid() && Holds(c, v, l) && CheckDiamond(l, env.main, name) == Ok(d)
    ensures DoesFor(c, Inscribed(c, env, name, content, k)(d), v, Engrave(l, env, name, content), k, v1)
  {
    v1 := v;
    FailStuck(v);
    if Engrave(l, env, name, content).Ok? {
      var d1 := d.(engravedHeight := env.height, inscripts := d.inscripts + [content]);
      v1 := PutDiamondRuns(c, v, l, name, d1, k(Engrave(l, env, name, content).value.1));
    }
  }

  lemma CleanedRuns(c: Codec, v: View, l: Ledger, env: Env, name: Name, k: Amount -> Prog, d: Diamond)
    returns (v1: View)
    requires c.Valid() && Holds(c, v, l) && CheckDiamond(l, env.main, name) == Ok(d)
    ensures DoesFor(c, Cleaned(c, env, name, k)(d), v, Clean(l, env, name), k, v1)
  {
    v1 := v;
    FailStuck(v);
    if Clean(l, env, name).Ok? {
      v1 := PutDiamondRuns(c, v, l, name, d.(engravedHeight := 0, inscripts := []), k(Clean(l, env, name).value.1));
    }
  }

  lemma DoesForLater(c: Codec, p: Prog, v: View, q: Prog, v1: View, r: Result<(Ledger, Amount), Error>,
    k: Amount -> Prog, v2: View)
    requires Same(p, v, q, v1) && DoesFor(c, q, v1, r, k, v2)
    ensures DoesFor(c, p, v, r, k, v2)
  {
    if r.Err? {
      StuckLater(p, v, q, v1);
    } else {
      SameJoin(p, v, q, v1, k(r.value.1), v2);
    }
  }

  lemma EngraveRuns(c: Codec, v: View, l: Ledger, env: Env, name: Name, content: Option<Bytes>, k: Amount -> Prog)
    returns (v1: View)
    requires c.Valid() && Holds(c, v, l)
    ensures DoesFor(c, EngraveProg(c, env, name, content, k), v, EngraveOne(l, env, name, content), k, v1)
  {
    v1 := v;
    var kd := match content case Some(x) => Inscribed(c, env, name, x, k) case None => Cleaned(c, env, name, k);
    CheckDiamondRuns(c, v, l, env.main, name, kd);
    if CheckDiamond(l, env.main, name).Ok? {
      var d := CheckDiamond(l, env.main, name).value;
      if content.Some? {
        v1 := InscribedRuns(c, v, l, env, name, content.value, k, d);
      } else {
        v1 := CleanedRuns(c, v, l, env, name, k, d);
      }
      DoesForLater(c, EngraveProg(c, env, name, content, k), v, kd(d), v, EngraveOne(l, env, name, content), k, v1);
    }
  }

  /** Adds a cost to `sum` and goes on. */
  function Sum(sum: Amount, k: Amount -> Prog): Amount -> Prog {
    (cost: Amount) => match Add(sum, cost) case Err(_) => Fail case Ok(more) => k(more)
  }

  function EngraveLast(c: Codec, env: Env, name: Name, content: Option<Bytes>, k: Amount -> Prog): Amount -> Prog {
    (sum: Amount) => EngraveProg(c, env, name, content, Sum(sum, k))
  }

  function EngraveEachProg(c: Codec, env: Env, names: seq<Name>, content: Option<Bytes>, k: Amount -> Prog): Prog
    decreases |names|
  {
    if names == [] then k(EMPTY)
    else EngraveEachProg(c, env, names[..|names| - 1], content, EngraveLast(c, env, names[|names| - 1], content, k))
  }

  /** One more of several: engraves, and adds the cost. */
  function EngraveNext(l: Ledger, sum: Amount, env: Env, name: Name, content: Option<Bytes>)
    : Result<(Ledger, Amount), Error>
  {
    var one :- EngraveOne(l, env, name, content);
    var cost :- Width(Add(sum, one.1));
    Ok((one.0, cost))
  }

  lemma EngraveNextRuns(c: Codec, v: View, l: Ledger, sum: Amount, env: Env, name: Name, content: Option<Bytes>,
    k: Amount -> Prog)
    returns (v1: View)
    requires c.Valid() && Holds(c, v, l)
    ensures DoesFor(c, EngraveProg(c, env, name, content, Sum(sum, k)), v, EngraveNext(l, sum, env, name, content),
      k, v1)
  {
    v1 := EngraveRuns(c, v, l, env, name, content, Sum(sum, k));
    FailStuck(v1);
    if EngraveOne(l, env, name, content).Ok? && Add(sum, EngraveOne(l, env, name, content).value.1).Err? {
      StuckLater(EngraveProg(c, env, name, content, Sum(sum, k)), v, Fail, v1);
    }
  }

  lemma {:induction false} EngraveEachRuns(c: Codec, v: View, l: Ledger, env: Env, names: seq<Name>,
    content: Option<Bytes>, k: Amount -> Prog)
    returns (v1: View)
    requires c.Valid() && Holds(c, v, l)
    ensures DoesFor(c, EngraveEachProg(c, env, names, content, k), v, EngraveEach(l, env, names, content), k, v1)
    decreases |names|
  {
    v1 := v;
    if names == [] {
      SameRefl(k(EMPTY), v);
    } else {
      var before, name := names[..|names| - 1], names[|names| - 1];
      var last := EngraveLast(c, env, name, content, k);
      var v0 := EngraveEachRuns(c, v, l, env, before, content, last);
      if EngraveEach(l, env, before, content).Ok? {
        var (l1, sum) := EngraveEach(l, env, before, content).value;
        v1 := EngraveNextRuns(c, v0, l1, sum, env, name, content, k);
        DoesForLater(c, EngraveEachProg(c, env, names, content, k), v, last(sum), v0,
          EngraveNext(l1, sum, env, name, content), k, v1);
      }
    }
  }

  function BurnCost(c: Codec, env: Env, cost: Amount, next: Prog): Amount -> Prog {
    (needed: Amount) =>
      if LessThan(cost, needed) then Fail
      else if IsPositive(cost) then SubHacProg(c, env.main, cost, next)
      else next
  }

  function InscribeProg(c: Codec, env: Env, names: seq<Name>, cost: Amount, content: Option<Bytes>, next: Prog): Prog {
    if !ValidList(names) || Size(cost) > 4 then Fail
    else EngraveEachProg(c, env, names, content, BurnCost(c, env, cost, next))
  }

  /** Covers the needed cost. */
  function Burn(l: Ledger, env: Env, cost: Amount, needed: Amount): Result<Ledger, Error> {
    if LessThan(cost, needed) then Err(CostTooLow)
    else if IsPositive(cost) then HacSub(l, env.main, cost)
    else Ok(l)
  }

  lemma BurnRuns(c: Codec, v: View, l: Ledger, env: Env, cost: Amount, needed: Amount, next: Prog) returns (v1: View)
    requires c.Valid() && Holds(c, v, l)
    ensures Does(c, BurnCost(c, env, cost, next)(needed), v, Burn(l, env, cost, needed), next, v1)
  {
    v1 := v;
    FailStuck(v);
    SameRefl(next, v);
    if !LessThan(cost, needed) && IsPositive(cost) {
      v1 := SubHacRuns(c, v, l, env.main, cost, next);
    }
  }

  lemma InscribeRuns(c: Codec, v: View, l: Ledger, env: Env, names: seq<Name>, cost: Amount, content: Option<Bytes>,
    next: Prog)
    returns (v1: View)
    requires c.Valid() && Holds(c, v, l)
    ensures Does(c, InscribeProg(c, env, names, cost, content, next), v, Inscribe(l, env, names, cost, content),
      next, v1)
  {
    v1 := v;
    FailStuck(v);
    if ValidList(names) && Size(cost) <= 4 {
      var k := BurnCost(c, env, cost, next);
      var v0 := EngraveEachRuns(c, v, l, env, names, content, k);
      if EngraveEach(l, env, names, content).Ok? {
        var (l1, needed) := EngraveEach(l, env, names, content).value;
        v1 := BurnRuns(c, v0, l1, env, cost, needed, next);
        DoesLater(c, InscribeProg(c, env, names, cost, content, next), v, k(needed), v0, Burn(l1, env, cost, needed),
          next, v1);
      }
    }
  }

  // ---- channels -----------------------------------------------------------

  function TakeIfAnyProg(c: Codec, a: Address, amt: Amount, next: Prog): Prog {
    if IsEmpty(amt) then next else SubHacProg(c, a, amt, next)
  }

  lemma TakeIfAnyRuns(c: Codec, v: View, l: Ledger, a: Address, amt: Amount, next: Prog) returns (v1: View)
    requires c.Valid() && Holds(c, v, l)
    ensures Does(c, TakeIfAnyProg(c, a, amt, next), v, SubIfAny(l, a, amt), next, v1)
  {
    v1 := v;
    SameRefl(next, v);
    if !IsEmpty(amt) {
      v1 := SubHacRuns(c, v, l, a, amt, next);
    }
  }

  function GiveIfPositiveProg(c: Codec, a: Address, amt: Amount, next: Prog): Prog {
    if IsPositive(amt) then AddHacProg(c, a, amt, next) else next
  }

  lemma GiveIfPositiveRuns(c: Codec, v: View, l: Ledger, a: Address, amt: Amount, next: Prog) returns (v1: View)
    requires c.Valid() && Holds(c, v, l)
    ensures Does(c, GiveIfPositiveProg(c, a, amt, next), v, AddIfPositive(l, a, amt), next, v1)
  {
    v1 := v;
    SameRefl(next, v);
    if IsPositive(amt) {
      v1 := AddHacRuns(c, v, l, a, amt, next);
    }
  }

  function ChannelFrom(r: Option<Record>): Option<Channel> {
    if r.Some? && r.value.ChannelRec? then Some(r.value.channel) else None
  }

  /** Writes a channel and the count of open ones. */
  function PutOpening(c: Codec, id: ChannelId, x: Channel, opening: nat, minted: nat, next: Prog): Prog {
    Put(c, ChannelKey(id), ChannelRec(x), Put(c, CountKey, CountRec(opening, minted), next))
  }

  lemma PutOpeningRuns(c: Codec, v: View, l: Ledger, id: ChannelId, x: Channel, opening: nat, next: Prog)
    returns (v1: View)
    requires c.Valid() && Holds(c, v, l)
    ensures Holds(c, v1, l.(channels := l.channels[id := x], opening := opening))
    ensures Same(PutOpening(c, id, x, opening, l.minted, next), v, next, v1)
  {
    var q := Put(c, CountKey, CountRec(opening, l.minted), next);
    var va := After(c, v, ChannelKey(id), ChannelRec(x));
    WriteChannel(c, v, l, id, x);
    PutRuns(c, v, ChannelKey(id), ChannelRec(x), q);
    v1 := PutCountRuns(c, va, l.(channels := l.channels[id := x]), opening, l.minted, next);
    SameJoin(PutOpening(c, id, x, opening, l.minted, next), v, q, va, next, v1);
  }

  function OneMore(c: Codec, id: ChannelId, x: Channel, next: Prog): Option<Record> -> Prog {
    (r: Option<Record>) => PutOpening(c, id, x, CountIn(r).0 + 1, CountIn(r).1, next)
  }

  function IfFree(c: Codec, height: nat, id: ChannelId, left: Address, leftAmt: Amount, right: Address,
    rightAmt: Amount, next: Prog): Option<Record> -> Prog {
    (r: Option<Record>) =>
      var was := ChannelFrom(r);
      if was.Some?
        && (was.value.left != left || was.value.right != right || was.value.status != AgreementClosed) then Fail
      else if Add(leftAmt, rightAmt).Err? then Fail
      else
        var reuse := if was.Some? then was.value.reuse + 1 else 1;
        Get(c, CountKey,
          OneMore(c, id, Channel(Opening, reuse, height, ByShare, left, leftAmt, right, rightAmt, None), next))
  }

  /** The checks that need no record. */
  predicate OpeningFits(id: ChannelId, left: Address, leftAmt: Amount, right: Address, rightAmt: Amount) {
    && ValidId(id) && left != right && Size(leftAmt) <= 6 && Size(rightAmt) <= 6
    && !IsNegative(leftAmt) && !IsNegative(rightAmt) && !(IsEmpty(leftAmt) && IsEmpty(rightAmt))
  }

  function RecordOpeningProg(c: Codec, height: nat, id: ChannelId, left: Address, leftAmt: Amount, right: Address,
    rightAmt: Amount, next: Prog): Prog {
    if !OpeningFits(id, left, leftAmt, right, rightAmt) then Fail
    else Get(c, ChannelKey(id), IfFree(c, height, id, left, leftAmt, right, rightAmt, next))
  }

  lemma OneMoreRuns(c: Codec, v: View, l: Ledger, id: ChannelId, x: Channel, next: Prog) returns (v1: View)
    requires c.Valid() && Holds(c, v, l)
    ensures Holds(c, v1, l.(channels := l.channels[id := x], opening := l.opening + 1))
    ensures Same(Get(c, CountKey, OneMore(c, id, x, next)), v, next, v1)
  {
    GetRuns(c, v, l, CountKey, OneMore(c, id, x, next));
    v1 := PutOpeningRuns(c, v, l, id, x, l.opening + 1, next);
    SameJoin(Get(c, CountKey, OneMore(c, id, x, next)), v, OneMore(c, id, x, next)(RecordIn(c, v, CountKey)), v,
      next, v1);
  }

  lemma RecordOpeningRuns(c: Codec, v: View, l: Ledger, height: nat, id: ChannelId, left: Address, leftAmt: Amount,
    right: Address, rightAmt: Amount, next: Prog)
    returns (v1: View)
    requires c.Valid() && Holds(c, v, l)
    ensures Does(c, RecordOpeningProg(c, height, id, left, leftAmt, right, rightAmt, next), v,
      RecordOpening(l, height, id, left, leftAmt, right, rightAmt), next, v1)
  {
    v1 := v;
    FailStuck(v);
    if OpeningFits(id, left, leftAmt, right, rightAmt) {
      var k := IfFree(c, height, id, left, leftAmt, right, rightAmt, next);
      GetRuns(c, v, l, ChannelKey(id), k);
      v1 := IfFreeRuns(c, v, l, height, id, left, leftAmt, right, rightAmt, next, RecordIn(c, v, ChannelKey(id)));
      DoesLater(c, RecordOpeningProg(c, height, id, left, leftAmt, right, rightAmt, next), v,
        k(RecordIn(c, v, ChannelKey(id))), v,
        RecordOpening(l, height, id, left, leftAmt, right, rightAmt), next, v1);
    }
  }

  lemma IfFreeRuns(c: Codec, v: View, l: Ledger, height: nat, id: ChannelId, left: Address, leftAmt: Amount,
    right: Address, rightAmt: Amount, next: Prog, r: Option<Record>)
    returns (v1: View)
    requires c.Valid() && Holds(c, v, l) && r == RecordOf(l, ChannelKey(id)) &&
      OpeningFits(id, left, leftAmt, right, rightAmt)
    ensures Does(c, IfFree(c, height, id, left, leftAmt, right, rightAmt, next)(r), v,
      RecordOpening(l, height, id, left, leftAmt, right, rightAmt), next, v1)
  {
    v1 := v;
    FailStuck(v);
    if RecordOpening(l, height, id, left, leftAmt, right, rightAmt).Ok? {
      var reuse := if id in l.channels then l.channels[id].reuse + 1 else 1;
      v1 := OneMoreRuns(c, v, l, id, Channel(Opening, reuse, height, ByShare, left, leftAmt, right, rightAmt, None),
        next);
    }
  }

  function OpenProg(c: Codec, height: nat, id: ChannelId, left: Address, leftAmt: Amount, right: Address,
    rightAmt: Amount, next: Prog): Prog {
    if left.version != PRIVAKEY || right.version != PRIVAKEY then Fail
    else TakeIfAnyProg(c, left, leftAmt, TakeIfAnyProg(c, right, rightAmt,
      RecordOpeningProg(c, height, id, left, leftAmt, right, rightAmt, next)))
  }

  /** The second half of opening. */
  function TakeAndRecord(l: Ledger, height: nat, id: ChannelId, left: Address, leftAmt: Amount, right: Address,
    rightAmt: Amount): Result<Ledger, Error> {
    var l2 :- SubIfAny(l, right, rightAmt);
    RecordOpening(l2, height, id, left, leftAmt, right, rightAmt)
  }

  lemma TakeAndRecordRuns(c: Codec, v: View, l: Ledger, height: nat, id: ChannelId, left: Address, leftAmt: Amount,
    right: Address, rightAmt: Amount, next: Prog)
    returns (v1: View)
    requires c.Valid() && Holds(c, v, l)
    ensures Does(c,
      TakeIfAnyProg(c, right, rightAmt, RecordOpeningProg(c, height, id, left, leftAmt, right, rightAmt, next)), v,
      TakeAndRecord(l, height, id, left, leftAmt, right, rightAmt), next, v1)
  {
    v1 := v;
    var q := RecordOpeningProg(c, height, id, left, leftAmt, right, rightAmt, next);
    var v0 := TakeIfAnyRuns(c, v, l, right, rightAmt, q);
    if SubIfAny(l, right, rightAmt).Ok? {
      v1 := RecordOpeningRuns(c, v0, SubIfAny(l, right, rightAmt).value, height, id, left, leftAmt, right, rightAmt,
        next);
    }
    DoesThen(c, TakeIfAnyProg(c, right, rightAmt, q), v, SubIfAny(l, right, rightAmt), q, v0,
      TakeAndRecord(l, height, id, left, leftAmt, right, rightAmt), next, v1);
  }

  lemma OpenRuns(c: Codec, v: View, l: Ledger, height: nat, id: ChannelId, left: Address, leftAmt: Amount,
    right: Address, rightAmt: Amount, next: Prog)
    returns (v1: View)
    requires c.Valid() && Holds(c, v, l)
    ensures Does(c, OpenProg(c, height, id, left, leftAmt, right, rightAmt, next), v,
      OpenChannel(l, height, id, left, leftAmt, right, rightAmt), next, v1)
  {
    v1 := v;
    FailStuck(v);
    if left.version == PRIVAKEY && right.version == PRIVAKEY {
      var q := TakeIfAnyProg(c, right, rightAmt,
        RecordOpeningProg(c, height, id, left, leftAmt, right, rightAmt, next));
      var v0 := TakeIfAnyRuns(c, v, l, left, leftAmt, q);
      if SubIfAny(l, left, leftAmt).Ok? {
        v1 := TakeAndRecordRuns(c, v0, SubIfAny(l, left, leftAmt).value, height, id, left, leftAmt, right, rightAmt,
          next);
      }
      DoesThen(c, OpenProg(c, height, id, left, leftAmt, right, rightAmt, next), v, SubIfAny(l, left, leftAmt), q, v0,
        OpenChannel(l, height, id, left, leftAmt, right, rightAmt), next, v1);
    }
  }

  function PayOutProg(c: Codec, height: nat, ch: Channel, x: Amount, y: Amount, total: Amount, next: Prog): Prog {
    if !IsPositive(total) then next
    else
      match InterestOfHeight(height, ch.openHeight, ch.interestTo, x, y)
      case Err(_) => Fail
      case Ok(pay) =>
        match Add(pay.0, pay.1)
        case Err(_) => Fail
        case Ok(sum) =>
          if LessThan(sum, total) || Sub(sum, total).Err? then Fail
          else GiveIfPositiveProg(c, ch.left, pay.0, GiveIfPositiveProg(c, ch.right, pay.1, next))
  }

  function GiveBoth(l: Ledger, ch: Channel, x: Amount, y: Amount): Result<Ledger, Error> {
    var l1 :- AddIfPositive(l, ch.left, x);
    AddIfPositive(l1, ch.right, y)
  }

  lemma GiveBothRuns(c: Codec, v: View, l: Ledger, ch: Channel, x: Amount, y: Amount, next: Prog) returns (v1: View)
    requires c.Valid() && Holds(c, v, l)
    ensures Does(c, GiveIfPositiveProg(c, ch.left, x, GiveIfPositiveProg(c, ch.right, y, next)), v,
      GiveBoth(l, ch, x, y), next, v1)
  {
    v1 := v;
    var q := GiveIfPositiveProg(c, ch.right, y, next);
    var v0 := GiveIfPositiveRuns(c, v, l, ch.left, x, q);
    if AddIfPositive(l, ch.left, x).Ok? {
      v1 := GiveIfPositiveRuns(c, v0, AddIfPositive(l, ch.left, x).value, ch.right, y, next);
    }
    DoesThen(c, GiveIfPositiveProg(c, ch.left, x, q), v, AddIfPositive(l, ch.left, x), q, v0, GiveBoth(l, ch, x, y),
      next, v1);
  }

  lemma PayOutRuns(c: Codec, v: View, l: Ledger, height: nat, ch: Channel, x: Amount, y: Amount, total: Amount,
    next: Prog)
    returns (v1: View)
    requires c.Valid() && Holds(c, v, l)
    ensures Does(c, PayOutProg(c, height, ch, x, y, total, next), v, PayOut(l, height, ch, x, y, total), next, v1)
  {
    v1 := v;
    FailStuck(v);
    SameRefl(next, v);
    if IsPositive(total) && InterestOfHeight(height, ch.openHeight, ch.interestTo, x, y).Ok? {
      var pay := InterestOfHeight(height, ch.openHeight, ch.interestTo, x, y).value;
      v1 := GiveBothRuns(c, v, l, ch, pay.0, pay.1, next);
    }
  }

  function OneLess(c: Codec, height: nat, id: ChannelId, ch: Channel, x: Amount, y: Amount, final: bool,
    total: Amount, next: Prog): Option<Record> -> Prog {
    (r: Option<Record>) =>
      var (opening, minted) := CountIn(r);
      if opening == 0 then Fail
      else
        var status := if final then FinalArbitrationClosed else AgreementClosed;
        PayOutProg(c, height, ch, x, y, total,
          PutOpening(c, id, ch.(status := status, closedLeft := Some(x)), opening - 1, minted, next))
  }

  predicate ClosingFits(ch: Channel, x: Amount, y: Amount) {
    && ch.status == Opening && !IsNegative(x) && !IsNegative(y)
    && Add(ch.leftAmt, ch.rightAmt).Ok? && Add(x, y) == Add(ch.leftAmt, ch.rightAmt)
  }

  function CloseWithProg(c: Codec, height: nat, id: ChannelId, ch: Channel, x: Amount, y: Amount, final: bool,
    next: Prog): Prog {
    if !ClosingFits(ch, x, y) then Fail
    else Get(c, CountKey, OneLess(c, height, id, ch, x, y, final, Add(ch.leftAmt, ch.rightAmt).value, next))
  }

  lemma AddKeepsCount(l: Ledger, a: Address, amt: Amount)
    requires AddIfPositive(l, a, amt).Ok?
    ensures AddIfPositive(l, a, amt).value.minted == l.minted
  {
  }

  lemma PayKeepsCount(l: Ledger, height: nat, ch: Channel, x: Amount, y: Amount, total: Amount)
    requires PayOut(l, height, ch, x, y, total).Ok?
    ensures PayOut(l, height, ch, x, y, total).value.minted == l.minted
  {
    if IsPositive(total) {
      var pay := InterestOfHeight(height, ch.openHeight, ch.interestTo, x, y).value;
      AddKeepsCount(l, ch.left, pay.0);
      AddKeepsCount(AddIfPositive(l, ch.left, pay.0).value, ch.right, pay.1);
    }
  }

  lemma CloseWithIs(l: Ledger, height: nat, id: ChannelId, ch: Channel, x: Amount, y: Amount, final: bool,
    done: Channel, paid: Result<Ledger, Error>)
    requires ClosingFits(ch, x, y) && l.opening > 0
    requires done == ch.(status := if final then FinalArbitrationClosed else AgreementClosed, closedLeft := Some(x))
    requires paid == PayOut(l, height, ch, x, y, Add(ch.leftAmt, ch.rightAmt).value)
    ensures CloseWith(l, height, id, ch, x, y, final).Ok? == paid.Ok?
    ensures paid.Ok? ==>
      CloseWith(l, height, id, ch, x, y, final).value ==
      paid.value.(channels := paid.value.channels[id := done], opening := l.opening - 1)
  {
  }

  /** Recording a close after its payment. */
  lemma PaidRuns(c: Codec, p: Prog, v: View, paid: Result<Ledger, Error>, q: Prog, v0: View, id: ChannelId,
    done: Channel, opening: nat, minted: nat, closed: Result<Ledger, Error>, next: Prog) returns (v1: View)
    requires c.Valid() && Does(c, p, v, paid, q, v0) && q == PutOpening(c, id, done, opening, minted, next)
    requires closed.Ok? == paid.Ok?
    requires paid.Ok? ==> paid.value.minted == minted
    requires paid.Ok? ==> closed.value == paid.value.(channels := paid.value.channels[id := done], opening := opening)
    ensures Does(c, p, v, closed, next, v1)
  {
    v1 := v;
    if paid.Ok? {
      v1 := PutOpeningRuns(c, v0, paid.value, id, done, opening, next);
    }
    DoesThen(c, p, v, paid, q, v0, closed, next, v1);
  }

  lemma PaidAndClosedRuns(c: Codec, v: View, l: Ledger, height: nat, id: ChannelId, ch: Channel, x: Amount,
    y: Amount, final: bool, next: Prog, total: Amount, done: Channel, q: Prog) returns (v1: View)
    requires c.Valid() && Holds(c, v, l) && ClosingFits(ch, x, y) && l.opening > 0
    requires total == Add(ch.leftAmt, ch.rightAmt).value
    requires done == ch.(status := if final then FinalArbitrationClosed else AgreementClosed, closedLeft := Some(x))
    requires q == PutOpening(c, id, done, l.opening - 1, l.minted, next)
    ensures Does(c, PayOutProg(c, height, ch, x, y, total, q), v, CloseWith(l, height, id, ch, x, y, final), next, v1)
  {
    var paid := PayOut(l, height, ch, x, y, total);
    var v0 := PayOutRuns(c, v, l, height, ch, x, y, total, q);
    CloseWithIs(l, height, id, ch, x, y, final, done, paid);
    if paid.Ok? {
      PayKeepsCount(l, height, ch, x, y, total);
    }
    v1 := PaidRuns(c, PayOutProg(c, height, ch, x, y, total, q), v, paid, q, v0, id, done, l.opening - 1, l.minted,
      CloseWith(l, height, id, ch, x, y, final), next);
  }

  lemma OneLessNone(c: Codec, l: Ledger, height: nat, id: ChannelId, ch: Channel, x: Amount, y: Amount, final: bool,
    total: Amount, next: Prog, r: Option<Record>)
    requires CountIn(r).0 == l.opening == 0
    ensures OneLess(c, height, id, ch, x, y, final, total, next)(r) == Fail
    ensures CloseWith(l, height, id, ch, x, y, final).Err?
  {
  }

  lemma OneLessRuns(c: Codec, v: View, l: Ledger, height: nat, id: ChannelId, ch: Channel, x: Amount, y: Amount,
    final: bool, next: Prog, r: Option<Record>)
    returns (v1: View)
    requires c.Valid() && Holds(c, v, l) && CountIn(r) == (l.opening, l.minted) && ClosingFits(ch, x, y)
    ensures Does(c, OneLess(c, height, id, ch, x, y, final, Add(ch.leftAmt, ch.rightAmt).value, next)(r), v,
      CloseWith(l, height, id, ch, x, y, final), next, v1)
  {
    v1 := v;
    FailStuck(v);
    if l.opening > 0 {
      var done := ch.(status := if final then FinalArbitrationClosed else AgreementClosed, closedLeft := Some(x));
      v1 := PaidAndClosedRuns(c, v, l, height, id, ch, x, y, final, next, Add(ch.leftAmt, ch.rightAmt).value, done,
        PutOpening(c, id, done, l.opening - 1, l.minted, next));
    } else {
      OneLessNone(c, l, height, id, ch, x, y, final, Add(ch.leftAmt, ch.rightAmt).value, next, r);
    }
  }

  lemma CloseWithRuns(c: Codec, v: View, l: Ledger, height: nat, id: ChannelId, ch: Channel, x: Amount, y: Amount,
    final: bool, next: Prog)
    returns (v1: View)
    requires c.Valid() && Holds(c, v, l)
    ensures Does(c, CloseWithProg(c, height, id, ch, x, y, final, next), v,
      CloseWith(l, height, id, ch, x, y, final), next, v1)
  {
    v1 := v;
    FailStuck(v);
    if ClosingFits(ch, x, y) {
      var k := OneLess(c, height, id, ch, x, y, final, Add(ch.leftAmt, ch.rightAmt).value, next);
      GetRuns(c, v, l, CountKey, k);
      v1 := OneLessRuns(c, v, l, height, id, ch, x, y, final, next, RecordIn(c, v, CountKey));
      DoesLater(c, CloseWithProg(c, height, id, ch, x, y, final, next), v, k(RecordIn(c, v, CountKey)), v,
        CloseWith(l, height, id, ch, x, y, final), next, v1);
    }
  }

  function IfOpen(c: Codec, env: Env, id: ChannelId, next: Prog): Option<Record> -> Prog {
    (r: Option<Record>) =>
      match ChannelFrom(r)
      case None => Fail
      case Some(ch) =>
        if ch.left.version != PRIVAKEY || ch.right.version != PRIVAKEY then Fail
        else if ch.left !in env.signed || ch.right !in env.signed then Fail
        else CloseWithProg(c, env.height, id, ch, ch.leftAmt, ch.rightAmt, false, next)
  }

  function CloseProg(c: Codec, env: Env, id: ChannelId, next: Prog): Prog {
    if !ValidId(id) then Fail else Get(c, ChannelKey(id), IfOpen(c, env, id, next))
  }

  lemma CloseRuns(c: Codec, v: View, l: Ledger, env: Env, id: ChannelId, next: Prog) returns (v1: View)
    requires c.Valid() && Holds(c, v, l)
    ensures Does(c, CloseProg(c, env, id, next), v, CloseChannel(l, env, id), next, v1)
  {
    v1 := v;
    FailStuck(v);
    if ValidId(id) {
      var k := IfOpen(c, env, id, next);
      GetRuns(c, v, l, ChannelKey(id), k);
      if id in l.channels {
        var ch := l.channels[id];
        v1 := CloseWithRuns(c, v, l, env.height, id, ch, ch.leftAmt, ch.rightAmt, false, next);
      }
      DoesLater(c, CloseProg(c, env, id, next), v, k(RecordIn(c, v, ChannelKey(id))), v, CloseChannel(l, env, id),
        next, v1);
    }
  }

  // ---- actions, transactions, blocks --------------------------------------

  function ActProg(c: Codec, env: Env, a: Action, next: Prog): Prog {
    match a
    case HacTransfer(from, to, amt) => MoveHacProg(c, env.height, from, to, amt, next)
    case ChannelOpen(id, left, leftAmt, right, rightAmt) =>
      OpenProg(c, env.height, id, left, leftAmt, right, rightAmt, next)
    case ChannelClose(id) => CloseProg(c, env, id, next)
    case DiamondMint(m) => MintProg(c, env, m, next)
    case DiamondTransfer(from, to, names) => MoveDiamondsProg(c, from, to, names, next)
    case DiamondInscription(names, cost, kind, content) =>
      if !ContentOk(env, kind, content) then Fail else InscribeProg(c, env, names, cost, Some(content), next)
    case DiamondInscriptionClear(names, cost) => InscribeProg(c, env, names, cost, None, next)
    case SubmitHeightLimit(start, end) => if Limit(env, start, end).Some? then Fail else next
    case SubChainID(id) => if id != env.world.chainId then Fail else next
  }

  lemma ActRuns(c: Codec, v: View, l: Ledger, env: Env, a: Action, next: Prog) returns (v1: View)
    requires c.Valid() && Holds(c, v, l)
    ensures Does(c, ActProg(c, env, a, next), v, Act(l, env, a), next, v1)
  {
    v1 := v;
    FailStuck(v);
    SameRefl(next, v);
    match a
    case HacTransfer(from, to, amt) => v1 := MoveHacRuns(c, v, l, env.height, from, to, amt, next);
    case ChannelOpen(id, left, leftAmt, right, rightAmt) =>
      v1 := OpenRuns(c, v, l, env.height, id, left, leftAmt, right, rightAmt, next);
    case ChannelClose(id) => v1 := CloseRuns(c, v, l, env, id, next);
    case DiamondMint(m) => v1 := MintRuns(c, v, l, env, m, next);
    case DiamondTransfer(from, to, names) => v1 := MoveDiamondsRuns(c, v, l, from, to, names, next);
    case DiamondInscription(names, cost, kind, content) =>
      if ContentOk(env, kind, content) {
        v1 := InscribeRuns(c, v, l, env, names, cost, Some(content), next);
      }
    case DiamondInscriptionClear(names, cost) => v1 := InscribeRuns(c, v, l, env, names, cost, None, next);
    case SubmitHeightLimit(_, _) =>
    case SubChainID(_) =>
  }

  function ActAtProg(c: Codec, env: Env, a: Action, all: seq<Action>, next: Prog): Prog {
    if !LevelOk(a, all) then Fail else ActProg(c, env, a, next)
  }

  function ActEachProg(c: Codec, env: Env, acts: seq<Action>, all: seq<Action>, next: Prog): Prog
    decreases |acts|
  {
    if acts == [] then next
    else ActEachProg(c, env, acts[..|acts| - 1], all, ActAtProg(c, env, acts[|acts| - 1], all, next))
  }

  function ActAt(l: Ledger, env: Env, a: Action, all: seq<Action>): Result<Ledger, Error> {
    if !LevelOk(a, all) then Err(NotUnique) else Act(l, env, a)
  }

  lemma ActAtRuns(c: Codec, v: View, l: Ledger, env: Env, a: Action, all: seq<Action>, next: Prog) returns (v1: View)
    requires c.Valid() && Holds(c, v, l)
    ensures Does(c, ActAtProg(c, env, a, all, next), v, ActAt(l, env, a, all), next, v1)
  {
    v1 := v;
    FailStuck(v);
    if LevelOk(a, all) {
      v1 := ActRuns(c, v, l, env, a, next);
    }
  }

  lemma {:induction false} ActEachRuns(c: Codec, v: View, l: Ledger, env: Env, acts: seq<Action>, all: seq<Action>,
    next: Prog)
    returns (v1: View)
    requires c.Valid() && Holds(c, v, l)
    ensures Does(c, ActEachProg(c, env, acts, all, next), v, ActEach(l, env, acts, all), next, v1)
    decreases |acts|
  {
    v1 := v;
    SameRefl(next, v);
    if acts != [] {
      var before, a := acts[..|acts| - 1], acts[|acts| - 1];
      var q := ActAtProg(c, env, a, all, next);
      var v0 := ActEachRuns(c, v, l, env, before, all, q);
      if ActEach(l, env, before, all).Ok? {
        v1 := ActAtRuns(c, v0, ActEach(l, env, before, all).value, env, a, all, next);
      }
      DoesThen(c, ActEachProg(c, env, acts, all, next), v, ActEach(l, env, before, all), q, v0,
        ActEach(l, env, acts, all), next, v1);
    }
  }

  function RunActionsProg(c: Codec, w: World, height: nat, blockHash: Bytes, tx: Tx, next: Prog): Prog {
    if tx.actions == [] || |tx.actions| > 0xFFFF || (tx.ty >= 3 && tx.gasMax > 0) then Fail
    else ActEachProg(c, TxEnv(w, height, blockHash, tx), tx.actions, tx.actions, next)
  }

  lemma RunActionsRuns(c: Codec, v: View, l: Ledger, w: World, height: nat, blockHash: Bytes, tx: Tx, next: Prog)
    returns (v1: View)
    requires c.Valid() && Holds(c, v, l)
    ensures Does(c, RunActionsProg(c, w, height, blockHash, tx, next), v, RunActions(l, w, height, blockHash, tx),
      next, v1)
  {
    v1 := v;
    FailStuck(v);
    if !(tx.actions == [] || |tx.actions| > 0xFFFF || (tx.ty >= 3 && tx.gasMax > 0)) {
      v1 := ActEachRuns(c, v, l, TxEnv(w, height, blockHash, tx), tx.actions, tx.actions, next);
    }
  }

  predicate FeeFits(height: nat, tx: Tx) {
    && !(height > 20_0000 && Size(tx.fee) > 6) && tx.main.version == PRIVAKEY
    && !(tx.ty <= 3 && tx.anoMark != 0) && !(tx.ty <= 2 && tx.gasMax != 0)
  }

  function IfUnmarked(c: Codec, height: nat, tx: Tx, next: Prog): Option<Record> -> Prog {
    (r: Option<Record>) =>
      if r.Some? && r.value.TxRec? && r.value.height > 0 then Fail
      else
        Put(c, TxKey(tx.hash), TxRec(height),
          if FeeFits(height, tx) then SubHacProg(c, tx.main, tx.fee, next) else Fail)
  }

  function PayFeeProg(c: Codec, height: nat, tx: Tx, next: Prog): Prog {
    if height > 20_0000 && Size(tx.fee) > 6 then Fail else Get(c, TxKey(tx.hash), IfUnmarked(c, height, tx, next))
  }

  lemma IfUnmarkedRuns(c: Codec, v: View, l: Ledger, height: nat, tx: Tx, next: Prog, r: Option<Record>)
    returns (v1: View)
    requires c.Valid() && Holds(c, v, l) && r == RecordOf(l, TxKey(tx.hash)) && !(height > 20_0000 && Size(tx.fee) > 6)
    ensures Does(c, IfUnmarked(c, height, tx, next)(r), v, PayFee(l, height, tx), next, v1)
  {
    v1 := v;
    FailStuck(v);
    if !(tx.hash in l.txexist && l.txexist[tx.hash] > 0) {
      var q := if FeeFits(height, tx) then SubHacProg(c, tx.main, tx.fee, next) else Fail;
      var va := After(c, v, TxKey(tx.hash), TxRec(height));
      WriteTx(c, v, l, tx.hash, height);
      PutRuns(c, v, TxKey(tx.hash), TxRec(height), q);
      FailStuck(va);
      if FeeFits(height, tx) {
        v1 := SubHacRuns(c, va, l.(txexist := l.txexist[tx.hash := height]), tx.main, tx.fee, next);
      }
      DoesLater(c, IfUnmarked(c, height, tx, next)(r), v, q, va, PayFee(l, height, tx), next, v1);
    }
  }

  lemma PayFeeRuns(c: Codec, v: View, l: Ledger, height: nat, tx: Tx, next: Prog) returns (v1: View)
    requires c.Valid() && Holds(c, v, l)
    ensures Does(c, PayFeeProg(c, height, tx, next), v, PayFee(l, height, tx), next, v1)
  {
    v1 := v;
    FailStuck(v);
    if !(height > 20_0000 && Size(tx.fee) > 6) {
      var k := IfUnmarked(c, height, tx, next);
      GetRuns(c, v, l, TxKey(tx.hash), k);
      v1 := IfUnmarkedRuns(c, v, l, height, tx, next, RecordIn(c, v, TxKey(tx.hash)));
      DoesLater(c, PayFeeProg(c, height, tx, next), v, k(RecordIn(c, v, TxKey(tx.hash))), v, PayFee(l, height, tx),
        next, v1);
    }
  }

  /** A transaction after others that have left `fees` for the miner. */
  function OneTxProg(c: Codec, w: World, height: nat, blockHash: Bytes, tx: Tx, k: Amount -> Prog): Amount -> Prog {
    (fees: Amount) =>
      RunActionsProg(c, w, height, blockHash, tx,
        match Add(fees, FeeGot(tx)) case Err(_) => Fail case Ok(sum) => PayFeeProg(c, height, tx, k(sum)))
  }

  function RunTxsProg(c: Codec, w: World, height: nat, blockHash: Bytes, txs: seq<Tx>, k: Amount -> Prog): Prog
    decreases |txs|
  {
    if txs == [] then k(EMPTY)
    else RunTxsProg(c, w, height, blockHash, txs[..|txs| - 1], OneTxProg(c, w, height, blockHash, txs[|txs| - 1], k))
  }

  function OneTx(l: Ledger, fees: Amount, w: World, height: nat, blockHash: Bytes, tx: Tx)
    : Result<(Ledger, Amount), Error>
  {
    var l1 :- RunActions(l, w, height, blockHash, tx);
    var sum :- Width(Add(fees, FeeGot(tx)));
    var l2 :- PayFee(l1, height, tx);
    Ok((l2, sum))
  }

  lemma OneTxRuns(c: Codec, v: View, l: Ledger, fees: Amount, w: World, height: nat, blockHash: Bytes, tx: Tx,
    k: Amount -> Prog)
    returns (v1: View)
    requires c.Valid() && Holds(c, v, l)
    ensures DoesFor(c, OneTxProg(c, w, height, blockHash, tx, k)(fees), v, OneTx(l, fees, w, height, blockHash, tx),
      k, v1)
  {
    v1 := v;
    var q := match Add(fees, FeeGot(tx)) case Err(_) => Fail case Ok(sum) => PayFeeProg(c, height, tx, k(sum));
    var v0 := RunActionsRuns(c, v, l, w, height, blockHash, tx, q);
    FailStuck(v0);
    if RunActions(l, w, height, blockHash, tx).Ok? {
      if Add(fees, FeeGot(tx)).Ok? {
        v1 := PayFeeRuns(c, v0, RunActions(l, w, height, blockHash, tx).value, height, tx,
          k(Add(fees, FeeGot(tx)).value));
      }
      DoesForLater(c, OneTxProg(c, w, height, blockHash, tx, k)(fees), v, q, v0,
        OneTx(l, fees, w, height, blockHash, tx), k, v1);
    }
  }

  lemma {:induction false} RunTxsRuns(c: Codec, v: View, l: Ledger, w: World, height: nat, blockHash: Bytes,
    txs: seq<Tx>, k: Amount -> Prog)
    returns (v1: View)
    requires c.Valid() && Holds(c, v, l)
    ensures DoesFor(c, RunTxsProg(c, w, height, blockHash, txs, k), v, RunTxs(l, w, height, blockHash, txs), k, v1)
    decreases |txs|
  {
    v1 := v;
    if txs == [] {
      SameRefl(k(EMPTY), v);
    } else {
      var before, tx := txs[..|txs| - 1], txs[|txs| - 1];
      var last := OneTxProg(c, w, height, blockHash, tx, k);
      var v0 := RunTxsRuns(c, v, l, w, height, blockHash, before, last);
      if RunTxs(l, w, height, blockHash, before).Ok? {
        var (l1, fees) := RunTxs(l, w, height, blockHash, before).value;
        v1 := OneTxRuns(c, v0, l1, fees, w, height, blockHash, tx, k);
        DoesForLater(c, RunTxsProg(c, w, height, blockHash, txs, k), v, last(fees), v0,
          OneTx(l1, fees, w, height, blockHash, tx), k, v1);
      }
    }
  }

  function InitializeProg(c: Codec, w: World, next: Prog): Prog {
    Put(c, BalanceKey(w.first.0.0), BalanceRec(Balance(w.first.0.1, 0)),
      Put(c, BalanceKey(w.first.1.0), BalanceRec(Balance(w.first.1.1, 0)),
        Put(c, BalanceKey(w.first.2.0), BalanceRec(Balance(w.first.2.1, 0)), next)))
  }

  lemma InitializeRuns(c: Codec, v: View, l: Ledger, w: World, next: Prog) returns (v1: View)
    requires c.Valid() && Holds(c, v, l)
    ensures Holds(c, v1, Initialize(l, w)) && Same(InitializeProg(c, w, next), v, next, v1)
  {
    var (x, y, z) := w.first;
    var q2 := Put(c, BalanceKey(z.0), BalanceRec(Balance(z.1, 0)), next);
    var q1 := Put(c, BalanceKey(y.0), BalanceRec(Balance(y.1, 0)), q2);
    var va := PutBalanceRuns(c, v, l, x.0, Balance(x.1, 0), q1);
    var la := l.(balances := l.balances[x.0 := Balance(x.1, 0)]);
    var vb := PutBalanceRuns(c, va, la, y.0, Balance(y.1, 0), q2);
    v1 := PutBalanceRuns(c, vb, la.(balances := la.balances[y.0 := Balance(y.1, 0)]), z.0, Balance(z.1, 0), next);
    SameJoin(InitializeProg(c, w, next), v, q1, va, q2, vb);
    SameJoin(InitializeProg(c, w, next), v, q2, vb, next, v1);
  }

  function PayMiner(c: Codec, miner: Address): Amount -> Prog {
    (fees: Amount) => GiveIfPositiveProg(c, miner, fees, Done)
  }

  function RewardProg(c: Codec, w: World, b: BlockTxs): Prog {
    AddHacProg(c, b.miner, b.reward, RunTxsProg(c, w, b.height, b.hash, b.txs, PayMiner(c, b.miner)))
  }

  /** A whole block. */
  function BlockProg(c: Codec, w: World, b: BlockTxs): Prog {
    if b.reward != CoinReward(w, b.height) then Fail
    else if b.height == 1 then InitializeProg(c, w, RewardProg(c, w, b))
    else RewardProg(c, w, b)
  }

  function TxsAndFees(l: Ledger, w: World, b: BlockTxs): Result<Ledger, Error> {
    var done :- RunTxs(l, w, b.height, b.hash, b.txs);
    AddIfPositive(done.0, b.miner, done.1)
  }

  lemma TxsAndFeesRuns(c: Codec, v: View, l: Ledger, w: World, b: BlockTxs) returns (v1: View)
    requires c.Valid() && Holds(c, v, l)
    ensures Does(c, RunTxsProg(c, w, b.height, b.hash, b.txs, PayMiner(c, b.miner)), v, TxsAndFees(l, w, b), Done, v1)
  {
    v1 := v;
    var k := PayMiner(c, b.miner);
    var v0 := RunTxsRuns(c, v, l, w, b.height, b.hash, b.txs, k);
    if RunTxs(l, w, b.height, b.hash, b.txs).Ok? {
      var (l1, fees) := RunTxs(l, w, b.height, b.hash, b.txs).value;
      v1 := GiveIfPositiveRuns(c, v0, l1, b.miner, fees, Done);
      DoesLater(c, RunTxsProg(c, w, b.height, b.hash, b.txs, k), v, k(fees), v0, AddIfPositive(l1, b.miner, fees),
        Done, v1);
    }
  }

  function RewardAndTxs(l: Ledger, w: World, b: BlockTxs): Result<Ledger, Error> {
    var l1 :- HacAdd(l, b.miner, b.reward);
    TxsAndFees(l1, w, b)
  }

  lemma RewardRuns(c: Codec, v: View, l: Ledger, w: World, b: BlockTxs) returns (v1: View)
    requires c.Valid() && Holds(c, v, l)
    ensures Does(c, RewardProg(c, w, b), v, RewardAndTxs(l, w, b), Done, v1)
  {
    v1 := v;
    var q := RunTxsProg(c, w, b.height, b.hash, b.txs, PayMiner(c, b.miner));
    var v0 := AddHacRuns(c, v, l, b.miner, b.reward, q);
    if HacAdd(l, b.miner, b.reward).Ok? {
      v1 := TxsAndFeesRuns(c, v0, HacAdd(l, b.miner, b.reward).value, w, b);
    }
    DoesThen(c, RewardProg(c, w, b), v, HacAdd(l, b.miner, b.reward), q, v0, RewardAndTxs(l, w, b), Done, v1);
  }

  /** The program of a block ends exactly when the ledger accepts the block, and then in a view that holds
      the ledger's result. */
  lemma BlockRuns(c: Codec, v: View, l: Ledger, w: World, b: BlockTxs) returns (v1: View)
    requires c.Valid() && Holds(c, v, l)
    ensures Does(c, BlockProg(c, w, b), v, RunBlock(l, w, b), Done, v1)
  {
    v1 := v;
    FailStuck(v);
    if b.reward == CoinReward(w, b.height) {
      if b.height == 1 {
        var q := RewardProg(c, w, b);
        var v0 := InitializeRuns(c, v, l, w, q);
        v1 := RewardRuns(c, v0, Initialize(l, w), w, b);
        DoesLater(c, BlockProg(c, w, b), v, q, v0, RewardAndTxs(Initialize(l, w), w, b), Done, v1);
      } else {
        v1 := RewardRuns(c, v, l, w, b);
      }
    }
  }

  lemma DoneEnds(v: View, w: View)
    ensures Ends(Done, v, w) <==> v == w
  {
    assert RunFlat(Done, v, 0) == Some(v);
  }

  /** Put shortly: what a block's program makes of a view of `l` is a view of what the ledger makes of `l`. */
  lemma BlockEnds(c: Codec, v: View, l: Ledger, w: World, b: BlockTxs, v1: View)
    requires c.Valid() && Holds(c, v, l) && Ends(BlockProg(c, w, b), v, v1)
    ensures RunBlock(l, w, b).Ok? && Holds(c, v1, RunBlock(l, w, b).value)
  {
    var v2 := BlockRuns(c, v, l, w, b);
    assert Seen(v1);
    DoneEnds(v2, v1);
  }

  /** And a block that the ledger accepts does end, given accesses enough. */
  lemma BlockAccepted(c: Codec, v: View, l: Ledger, w: World, b: BlockTxs) returns (v1: View)
    requires c.Valid() && Holds(c, v, l) && RunBlock(l, w, b).Ok?
    ensures Ends(BlockProg(c, w, b), v, v1) && Holds(c, v1, RunBlock(l, w, b).value)
  {
    v1 := BlockRuns(c, v, l, w, b);
    assert Seen(v1);
    DoneEnds(v1, v1);
  }
}
