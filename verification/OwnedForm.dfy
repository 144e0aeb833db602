/**
 The list of an owner's diamonds, packed as six bytes a name. Dropping names compacts the bytes in
 place: a hole in the middle is filled with the first record that is still kept, and what has become
 free on the left is cut off at the end.
 */
module OwnedForm {
  import opened Base

  const WIDTH: nat := 6

  type Name = b: Bytes | |b| == 6 witness [0, 0, 0, 0, 0, 0]

  // ---- records ------------------------------------------------------------

  function Records(b: Bytes): (rs: seq<Name>)
    requires |b| % 6 == 0
    ensures |rs| == |b| / 6
  {
    if b == [] then [] else [b[..6]] + Records(b[6..])
  }

  function Form(names: seq<Name>): (b: Bytes)
    ensures |b| == 6 * |names|
  {
    if names == [] then [] else names[0] + Form(names[1..])
  }

  lemma {:induction false} RecordsAt(b: Bytes, i: nat)
    requires |b| % 6 == 0 && i < |b| / 6
    ensures Records(b)[i] == b[6 * i..6 * i + 6]
  {
    if i > 0 {
      RecordsAt(b[6..], i - 1);
      assert b[6..][6 * (i - 1)..6 * (i - 1) + 6] == b[6 * i..6 * i + 6];
    }
  }

  lemma {:induction false} RecordsFrom(b: Bytes, k: nat)
    requires |b| % 6 == 0 && k <= |b| / 6
    ensures Records(b[6 * k..]) == Records(b)[k..]
  {
    if k > 0 {
      RecordsFrom(b[6..], k - 1);
      DropTwice(b, 6, 6 * (k - 1));
    }
  }

  lemma DropTwice(b: Bytes, i: nat, j: nat)
    requires i + j <= |b|
    ensures b[i..][j..] == b[i + j..]
  {
  }

  lemma {:induction false} FormRecords(names: seq<Name>)
    ensures Records(Form(names)) == names
  {
    if names != [] {
      FormRecords(names[1..]);
      assert Form(names)[..6] == names[0] && Form(names)[6..] == Form(names[1..]);
    }
  }

  lemma {:induction false} RecordsAppend(a: Bytes, b: Bytes)
    requires |a| % 6 == 0 && |b| % 6 == 0
    ensures Records(a + b) == Records(a) + Records(b)
  {
    if a == [] {
      assert a + b == b;
    } else {
      RecordsAppend(a[6..], b);
      assert (a + b)[..6] == a[..6] && (a + b)[6..] == a[6..] + b;
    }
  }

  /** Bytes that differ in one record only. */
  lemma RecordsWrite(b: Bytes, c: Bytes, i: nat, name: Name)
    requires |b| % 6 == 0 && |c| == |b| && i < |b| / 6 && c[6 * i..6 * i + 6] == name
    requires forall j :: 0 <= j < |b| && !(6 * i <= j < 6 * i + 6) ==> c[j] == b[j]
    ensures Records(c) == Records(b)[i := name]
  {
    forall k: nat | k < |b| / 6
      ensures Records(c)[k] == Records(b)[i := name][k]
    {
      RecordsAt(b, k);
      RecordsAt(c, k);
      assert k != i ==> c[6 * k..6 * k + 6] == b[6 * k..6 * k + 6];
    }
  }

  // ---- dropping names -----------------------------------------------------

  predicate Distinct(names: seq<Name>) {
    forall i, j :: 0 <= i < j < |names| ==> names[i] != names[j]
  }

  /** The scan from record `i` on: `k` records are free on the left, `todo` is still to be found. */
  function Scan(rs: seq<Name>, todo: set<Name>, i: nat, k: nat): (r: (seq<Name>, nat))
    requires k <= i <= |rs|
    ensures |r.0| == |rs| && r.1 <= |rs|
    decreases |rs| - i
  {
    if i == |rs| then (rs, k)
    else if rs[i] in todo then
      var rest := todo - {rs[i]};
      var next := if i == k then rs else rs[i := rs[k]];
      if rest == {} then (next, k + 1) else Scan(next, rest, i + 1, k + 1)
    else if todo == {} then (rs, k)
    else Scan(rs, todo, i + 1, k)
  }

  function NameSet(names: seq<Name>): set<Name> {
    set n | n in names
  }

  /** The records that are left when `names` are dropped; `None` when they do not match. */
  function Without(rs: seq<Name>, names: seq<Name>): Option<seq<Name>> {
    var (moved, k) := Scan(rs, NameSet(names), 0, 0);
    if k != |names| then None else Some(moved[k..])
  }

  function Found(todo: set<Name>, rs: seq<Name>): set<Name> {
    set n | n in todo && n in rs
  }

  lemma FoundFirst(todo: set<Name>, rs: seq<Name>, i: nat)
    requires i < |rs|
    ensures rs[i] in todo ==> Found(todo, rs[i..]) == Found(todo - {rs[i]}, rs[i + 1..]) + {rs[i]}
    ensures rs[i] !in todo ==> Found(todo, rs[i..]) == Found(todo, rs[i + 1..])
  {
    assert rs[i..] == [rs[i]] + rs[i + 1..];
  }

  lemma AddNew(s: set<Name>, n: Name)
    requires n !in s
    ensures |s + {n}| == |s| + 1 && multiset(s + {n}) == multiset(s) + multiset{n}
  {
  }

  /** Of a scan: what it kept, what it found, and that it missed nothing. */
  lemma {:induction false} ScanResult(rs: seq<Name>, todo: set<Name>, i: nat, k: nat)
    requires k <= i <= |rs|
    ensures var (moved, m) := Scan(rs, todo, i, k);
      && m == k + |Found(todo, rs[i..])|
      && multiset(moved[m..]) + multiset(Found(todo, rs[i..])) == multiset(rs[k..])
    decreases |rs| - i
  {
    if i == |rs| {
      assert Found(todo, rs[i..]) == {};
    } else {
      FoundFirst(todo, rs, i);
      if rs[i] in todo {
        ScanHit(rs, todo, i, k);
      } else if todo == {} {
        assert Found(todo, rs[i..]) == {};
      } else {
        ScanResult(rs, todo, i + 1, k);
      }
    }
  }

  /** A record that is found goes to the front, and the scan goes on behind it. */
  lemma {:induction false} ScanHit(rs: seq<Name>, todo: set<Name>, i: nat, k: nat)
    requires k <= i < |rs| && rs[i] in todo
    ensures var (moved, m) := Scan(rs, todo, i, k);
      && m == k + |Found(todo, rs[i..])|
      && multiset(moved[m..]) + multiset(Found(todo, rs[i..])) == multiset(rs[k..])
    decreases |rs| - i, 0
  {
    var rest := todo - {rs[i]};
    var next := if i == k then rs else rs[i := rs[k]];
    assert next[i + 1..] == rs[i + 1..];
    var found := Found(rest, rs[i + 1..]);
    if rest == {} {
      assert found == {};
    } else {
      ScanResult(next, rest, i + 1, k + 1);
    }
    HitCount(rs, todo, i);
    FillHole(rs, i, k);
    var (moved, m) := Scan(rs, todo, i, k);
    OneMore(multiset(moved[m..]), multiset(found), multiset{rs[i]}, multiset(next[k + 1..]), multiset(rs[k..]));
  }

  lemma HitCount(rs: seq<Name>, todo: set<Name>, i: nat)
    requires i < |rs| && rs[i] in todo
    ensures var found := Found(todo - {rs[i]}, rs[i + 1..]);
      && |Found(todo, rs[i..])| == |found| + 1
      && multiset(Found(todo, rs[i..])) == multiset(found) + multiset{rs[i]}
  {
    FoundFirst(todo, rs, i);
    AddNew(Found(todo - {rs[i]}, rs[i + 1..]), rs[i]);
  }

  lemma OneMore(kept: multiset<Name>, found: multiset<Name>, one: multiset<Name>, next: multiset<Name>,
    all: multiset<Name>)
    requires kept + found == next && next + one == all
    ensures kept + (found + one) == all
  {
  }

  /** Filling the hole with the first kept record loses only the hole's own record. */
  lemma FillHole(rs: seq<Name>, i: nat, k: nat)
    requires k <= i < |rs|
    ensures var next := if i == k then rs else rs[i := rs[k]];
      multiset(next[k + 1..]) + multiset{rs[i]} == multiset(rs[k..])
  {
    assert rs[k..] == [rs[k]] + rs[k + 1..];
    if k < i {
      var j := i - k - 1;
      assert rs[i := rs[k]][k + 1..] == rs[k + 1..][j := rs[k]];
      assert rs[k + 1..][j] == rs[i];
    }
  }

  lemma {:induction false} SetSize(names: seq<Name>)
    ensures |NameSet(names)| <= |names|
    ensures |NameSet(names)| == |names| <==> Distinct(names)
    ensures Distinct(names) ==> multiset(NameSet(names)) == multiset(names)
  {
    if names == [] {
      assert NameSet(names) == {};
    } else {
      var rest := names[..|names| - 1];
      var last := names[|names| - 1];
      SetSize(rest);
      assert names == rest + [last];
      assert NameSet(names) == NameSet(rest) + {last};
      DistinctLast(rest, last);
      if last in rest {
        assert NameSet(names) == NameSet(rest);
      } else {
        AddNew(NameSet(rest), last);
      }
    }
  }

  lemma DistinctLast(rest: seq<Name>, last: Name)
    ensures Distinct(rest + [last]) <==> Distinct(rest) && last !in rest
  {
    var names := rest + [last];
    if Distinct(names) {
      forall i, j | 0 <= i < j < |rest|
        ensures rest[i] != rest[j]
      {
        assert names[i] != names[j];
      }
      forall i | 0 <= i < |rest|
        ensures rest[i] != last
      {
        assert names[i] != names[|rest|];
      }
    }
    if Distinct(rest) && last !in rest {
      forall i, j | 0 <= i < j < |names|
        ensures names[i] != names[j]
      {
        assert names[i] == rest[i];
        assert j < |rest| ==> names[j] == rest[j];
      }
    }
  }

  lemma SubsetSize(a: set<Name>, b: set<Name>)
    requires a <= b
    ensures |a| <= |b| && (|a| == |b| ==> a == b)
  {
    assert b == a + (b - a);
    assert |b| == |a| + |b - a|;
  }

  /** Dropping succeeds exactly when the names are distinct and all present, and takes away just them. */
  lemma WithoutExact(rs: seq<Name>, names: seq<Name>)
    ensures Without(rs, names).Some? <==> Distinct(names) && forall n :: n in names ==> n in rs
    ensures Without(rs, names).Some? ==> multiset(Without(rs, names).value) + multiset(names) == multiset(rs)
  {
    var todo := NameSet(names);
    var found := Found(todo, rs);
    assert rs[0..] == rs;
    ScanResult(rs, todo, 0, 0);
    SetSize(names);
    SubsetSize(found, todo);
    if Without(rs, names).Some? {
      assert found == todo;
      forall n | n in names
        ensures n in rs
      {
        assert n in todo;
      }
    }
    if Distinct(names) && forall n :: n in names ==> n in rs {
      assert found == todo;
    }
  }

  // ---- the packed form ----------------------------------------------------

  class DiamondOwnedForm {
    var count: nat
    var bytes: array<Byte>

    ghost predicate Valid()
      reads this, bytes
    {
      count == bytes.Length && count % 6 == 0
    }

    ghost function Names(): seq<Name>
      requires Valid()
      reads this, bytes
    {
      Records(bytes[..])
    }

    constructor ()
      ensures Valid() && Names() == [] && fresh(bytes)
    {
      count := 0;
      bytes := new Byte[0];
    }

    /** The form as the state stores it, and as it reads it. */
    constructor Stored(names: seq<Name>)
      ensures Valid() && Names() == names && fresh(bytes)
    {
      var form := Form(names);
      var a := new Byte[|form|](i requires 0 <= i < |form| => form[i]);
      count, bytes := a.Length, a;
      new;
      FormRecords(names);
      assert bytes[..] == form;
    }

    method Append(tail: Bytes)
      requires Valid() && |tail| % 6 == 0
      modifies this
      ensures Valid() && fresh(bytes) && Names() == old(Names()) + Records(tail)
    {
      var a := bytes[..] + tail;
      RecordsAppend(bytes[..], tail);
      bytes := new Byte[|a|](i requires 0 <= i < |a| => a[i]);
      count := count + |tail|;
      assert bytes[..] == a;
    }

    method PushOne(name: Name)
      requires Valid()
      modifies this
      ensures Valid() && fresh(bytes) && Names() == old(Names()) + [name]
    {
      assert name[..6] == name && name[6..] == [] && Records(name) == [name];
      Append(name);
    }

    method Push(names: seq<Name>)
      requires Valid()
      modifies this
      ensures Valid() && fresh(bytes) && Names() == old(Names()) + names
    {
      FormRecords(names);
      Append(Form(names));
    }

    /** Copies one record over another. */
    method CopyWithin(from: nat, to: nat)
      requires Valid() && from % 6 == 0 && to % 6 == 0 && from + 6 <= bytes.Length && to + 6 <= bytes.Length
      modifies bytes
      ensures Names() == old(Names())[to / 6 := old(Names())[from / 6]]
    {
      ghost var b := bytes[..];
      forall j | 0 <= j < 6 {
        bytes[to + j] := bytes[from + j];
      }
      RecordsAt(b, from / 6);
      RecordsWrite(b, bytes[..], to / 6, b[from..from + 6]);
    }

    /** Drops the names and returns the length that is left; after an error the form is not used any more. */
    method Drop(names: seq<Name>) returns (r: Option<nat>)
      requires Valid()
      modifies this, bytes
      ensures Valid() && (bytes == old(bytes) || fresh(bytes))
      ensures match Without(old(Names()), names)
        case None => r == None
        case Some(left) => Names() == left && r == Some(bytes.Length) && bytes.Length == old(bytes.Length) - 6 * |names|
    {
      var srclen := |names|;
      var rmleft := Sweep(set n | n in names);
      if rmleft / WIDTH != srclen {
        return None;
      }
      SplitOff(rmleft);
      r := Some(count);
    }

    /** Scans the records once and copies the first kept one over each that is in the set. */
    method Sweep(names: set<Name>) returns (rmleft: nat)
      requires Valid()
      modifies bytes
      ensures var (moved, k) := Scan(old(Names()), names, 0, 0); Names() == moved && rmleft == 6 * k
    {
      var l := WIDTH;
      var dianset := names;
      var dstlen := count / l;
      rmleft := 0;
      var i := 0;
      ghost var k := 0;
      ghost var result := Scan(Names(), names, 0, 0);
      while i < dstlen
        invariant Valid() && k <= i <= dstlen == |Names()| && rmleft == 6 * k
        invariant Scan(Names(), dianset, i, k) == result
      {
        var x := i * l;
        RecordsAt(bytes[..], i);
        var dia: Name := bytes[x..x + l];
        if dia in dianset {
          dianset := dianset - {dia};
          if x != rmleft {
            CopyWithin(rmleft, x);
          }
          rmleft := rmleft + l;
          k := k + 1;
        }
        if dianset == {} {
          break;
        }
        i := i + 1;
      }
    }

    method SplitOff(at: nat)
      requires Valid() && at % 6 == 0 && at <= bytes.Length
      modifies this
      ensures Valid() && fresh(bytes) && Names() == old(Names())[at / 6..] && bytes.Length == old(bytes.Length) - at
    {
      var a := bytes[at..];
      RecordsFrom(bytes[..], at / 6);
      assert bytes[..][at..] == a;
      bytes := new Byte[|a|](i requires 0 <= i < |a| => a[i]);
      count := count - at;
      assert bytes[..] == a;
    }
  }
}
