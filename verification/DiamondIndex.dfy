/**
 The three indexes of diamonds agree: the record of a diamond names its owner, the owner's list holds
 it, and the owner's counter is the length of that list; numbers and names go one to one.
 */
module DiamondIndex {
  import opened Base
  import opened Amounts
  import opened OwnedForm
  import opened Ledgers

  /** An owner's list is not empty and holds no name twice. */
  ghost predicate ListsClean(owned: map<Address, seq<Name>>) {
    forall a :: a in owned ==> owned[a] != [] && Distinct(owned[a])
  }

  /** A list holds just the diamonds whose record names its owner. */
  ghost predicate Members(diamonds: map<Name, Diamond>, owned: map<Address, seq<Name>>) {
    forall a, n :: n in ListOf(owned, a) <==> n in diamonds && diamonds[n].owner == a
  }

  ghost predicate Listed(diamonds: map<Name, Diamond>, owned: map<Address, seq<Name>>) {
    ListsClean(owned) && Members(diamonds, owned)
  }

  /** A counter is the length of the list. */
  ghost predicate Tallied(balances: map<Address, Balance>, owned: map<Address, seq<Name>>) {
    forall a :: BalanceIn(balances, a).diamond == |ListOf(owned, a)|
  }

  ghost predicate AllNormal(diamonds: map<Name, Diamond>) {
    forall n :: n in diamonds ==> diamonds[n].status == Normal
  }

  /** Each number up to `count` has a name of its own, and no name is without a number. */
  ghost predicate Numbered(byNumber: map<nat, Name>, names: set<Name>, count: nat) {
    && (forall k :: k in byNumber <==> 1 <= k <= count)
    && (forall j, k :: j in byNumber && k in byNumber && j != k ==> byNumber[j] != byNumber[k])
    && byNumber.Values == names
  }

  ghost predicate DiamondsOk(l: Ledger) {
    && Listed(l.diamonds, l.owned) && Tallied(l.balances, l.owned) && AllNormal(l.diamonds)
    && Numbered(l.byNumber, l.diamonds.Keys, l.latest.number) && l.minted == l.latest.number
  }

  lemma NewLedgerOk(l: Ledger)
    requires IsNew(l)
    ensures DiamondsOk(l)
  {
  }

  // ---- what other operations leave alone ----------------------------------

  ghost predicate SameCounts(l: Ledger, l1: Ledger) {
    forall a :: BalanceIn(l1.balances, a).diamond == BalanceIn(l.balances, a).diamond
  }

  ghost predicate SameDiamonds(l: Ledger, l1: Ledger) {
    && l1.diamonds == l.diamonds && l1.byNumber == l.byNumber && l1.owned == l.owned && l1.latest == l.latest
    && l1.minted == l.minted && SameCounts(l, l1)
  }

  lemma SameDiamondsOk(l: Ledger, l1: Ledger)
    requires DiamondsOk(l) && SameDiamonds(l, l1)
    ensures DiamondsOk(l1)
  {
  }

  // ---- distinct lists as multisets ----------------------------------------

  lemma {:induction false} DistinctCounts(s: seq<Name>)
    ensures Distinct(s) <==> forall n :: multiset(s)[n] <= 1
  {
    if s != [] {
      var rest, last := s[..|s| - 1], s[|s| - 1];
      assert s == rest + [last];
      DistinctCounts(rest);
      DistinctLast(rest, last);
      assert multiset(s) == multiset(rest) + multiset{last};
      if Distinct(s) {
        assert multiset(rest)[last] == 0;
      } else if last in rest {
        assert multiset(s)[last] >= 2;
      } else {
        var n :| multiset(rest)[n] > 1;
        assert multiset(s)[n] > 1;
      }
    }
  }

  /** What is left of a list of distinct names after some of them are dropped. */
  lemma DropLeaves(rs: seq<Name>, names: seq<Name>, rest: seq<Name>)
    requires Distinct(rs) && multiset(rest) + multiset(names) == multiset(rs)
    ensures Distinct(rest) && |rest| + |names| == |rs|
    ensures forall n :: n in rest <==> n in rs && n !in names
  {
    DistinctCounts(rs);
    DistinctCounts(rest);
    assert |multiset(rest) + multiset(names)| == |rest| + |names|;
    forall n
      ensures multiset(rest)[n] + multiset(names)[n] == multiset(rs)[n] <= 1
    {
    }
    forall n
      ensures n in rest <==> n in rs && n !in names
    {
      assert n in rest <==> multiset(rest)[n] > 0;
      assert n in names <==> multiset(names)[n] > 0;
      assert n in rs <==> multiset(rs)[n] > 0;
    }
  }

  lemma JoinDistinct(a: seq<Name>, b: seq<Name>)
    requires Distinct(a) && Distinct(b) && forall n :: n in b ==> n !in a
    ensures Distinct(a + b)
  {
    forall i, j | 0 <= i < j < |a + b|
      ensures (a + b)[i] != (a + b)[j]
    {
      if i < |a| <= j {
        assert (a + b)[j] == b[j - |a|] && (a + b)[j] in b;
      }
    }
  }

  // ---- moving diamonds ----------------------------------------------------

  function Reowned(ds: map<Name, Diamond>, names: seq<Name>, to: Address): map<Name, Diamond> {
    map n | n in ds :: if n in names then ds[n].(owner := to) else ds[n]
  }

  predicate AllOwned(l: Ledger, from: Address, names: seq<Name>) {
    forall n :: n in names ==> n in l.diamonds && l.diamonds[n].status == Normal && l.diamonds[n].owner == from
  }

  /** The loop over the names succeeds exactly on distinct diamonds that `from` may move, and only
      changes their owner. */
  lemma {:induction false} MoveEachResult(l: Ledger, from: Address, to: Address, names: seq<Name>)
    ensures MoveEach(l, from, to, names).Ok? <==>
      names == [] || (from != to && Distinct(names) && AllOwned(l, from, names))
    ensures MoveEach(l, from, to, names).Ok? ==>
      MoveEach(l, from, to, names).value == l.(diamonds := Reowned(l.diamonds, names, to))
    decreases |names|
  {
    if names == [] {
      assert Reowned(l.diamonds, names, to) == l.diamonds;
    } else {
      var rest, last := names[..|names| - 1], names[|names| - 1];
      assert names == rest + [last];
      MoveEachResult(l, from, to, rest);
      MoveEachLast(l, from, to, rest, last);
      DistinctLast(rest, last);
      if MoveEach(l, from, to, rest).Ok? {
        MoveOneResult(l, from, to, rest, last);
      }
    }
  }

  lemma MoveEachLast(l: Ledger, from: Address, to: Address, rest: seq<Name>, last: Name)
    ensures MoveEach(l, from, to, rest).Err? ==> MoveEach(l, from, to, rest + [last]).Err?
    ensures MoveEach(l, from, to, rest).Ok? ==>
      MoveEach(l, from, to, rest + [last]) == MoveOne(MoveEach(l, from, to, rest).value, from, to, last)
    ensures AllOwned(l, from, rest + [last]) ==> AllOwned(l, from, rest)
  {
    assert (rest + [last])[..|rest|] == rest;
  }

  lemma MoveOneResult(l: Ledger, from: Address, to: Address, rest: seq<Name>, last: Name)
    requires rest == [] || (from != to && AllOwned(l, from, rest))
    ensures var l1 := l.(diamonds := Reowned(l.diamonds, rest, to));
      && (MoveOne(l1, from, to, last).Ok? <==> from != to && last !in rest && AllOwned(l, from, rest + [last]))
      && (MoveOne(l1, from, to, last).Ok? ==>
            MoveOne(l1, from, to, last).value == l.(diamonds := Reowned(l.diamonds, rest + [last], to)))
  {
    var l1 := l.(diamonds := Reowned(l.diamonds, rest, to));
    assert last in rest + [last];
    if MoveOne(l1, from, to, last).Ok? {
      assert last !in rest;
      assert l1.diamonds[last := l1.diamonds[last].(owner := to)] == Reowned(l.diamonds, rest + [last], to);
    }
  }

  ghost predicate Movable(l: Ledger, from: Address, to: Address, names: seq<Name>) {
    names != [] && from != to && Distinct(names) && AllOwned(l, from, names)
  }

  lemma OwnedContains(l: Ledger, from: Address, to: Address, names: seq<Name>)
    requires Listed(l.diamonds, l.owned) && Movable(l, from, to, names)
    ensures from in l.owned && forall n :: n in names ==> n in l.owned[from]
  {
    forall n | n in names
      ensures n in ListOf(l.owned, from)
    {
    }
    assert names[0] in ListOf(l.owned, from);
  }

  /** The lists after names have moved from one owner's to the other's. */
  ghost predicate ListsMoved(owned: map<Address, seq<Name>>, owned1: map<Address, seq<Name>>, from: Address,
    to: Address, names: seq<Name>) {
    && (forall a :: a != from && a != to ==> ListOf(owned1, a) == ListOf(owned, a))
    && ListOf(owned1, to) == ListOf(owned, to) + names
    && multiset(ListOf(owned1, from)) + multiset(names) == multiset(ListOf(owned, from))
    && (forall a :: a in owned1 ==> owned1[a] != [])
  }

  /** Once the loop over the names has succeeded, moving them between the lists cannot fail. */
  lemma OwnedMoveSucceeds(l: Ledger, from: Address, to: Address, names: seq<Name>)
    requires Listed(l.diamonds, l.owned) && Movable(l, from, to, names)
    ensures var l1 := l.(diamonds := Reowned(l.diamonds, names, to));
      && OwnedMove(l1, from, to, names).Ok?
      && OwnedMove(l1, from, to, names).value == l1.(owned := OwnedMove(l1, from, to, names).value.owned)
      && ListsMoved(l.owned, OwnedMove(l1, from, to, names).value.owned, from, to, names)
  {
    OwnedContains(l, from, to, names);
    WithoutExact(l.owned[from], names);
    var rest := Without(l.owned[from], names).value;
    var l1 := l.(diamonds := Reowned(l.diamonds, names, to));
    var l2 := OwnedMove(l1, from, to, names).value;
    assert ListOf(l2.owned, from) == rest;
    assert ListOf(l2.owned, to) == ListOf(l.owned, to) + names;
  }

  lemma MovedMembers(l: Ledger, owned1: map<Address, seq<Name>>, from: Address, to: Address, names: seq<Name>)
    requires Members(l.diamonds, l.owned) && from != to && AllOwned(l, from, names)
    requires ListsMoved(l.owned, owned1, from, to, names)
    requires forall n :: n in ListOf(owned1, from) <==> n in ListOf(l.owned, from) && n !in names
    ensures Members(Reowned(l.diamonds, names, to), owned1)
  {
    forall a, n
      ensures n in ListOf(owned1, a) <==> n in l.diamonds && Reowned(l.diamonds, names, to)[n].owner == a
    {
      assert n in ListOf(l.owned, a) <==> n in l.diamonds && l.diamonds[n].owner == a;
    }
  }

  lemma MovedClean(owned: map<Address, seq<Name>>, owned1: map<Address, seq<Name>>, from: Address, to: Address,
    names: seq<Name>)
    requires ListsClean(owned) && ListsMoved(owned, owned1, from, to, names)
    requires Distinct(ListOf(owned1, from)) && Distinct(ListOf(owned1, to))
    ensures ListsClean(owned1)
  {
    forall a | a in owned1
      ensures Distinct(owned1[a])
    {
      assert owned1[a] == ListOf(owned1, a);
      assert a != from && a != to ==> ListOf(owned1, a) == ListOf(owned, a);
    }
  }

  lemma MovedListsOk(l: Ledger, owned1: map<Address, seq<Name>>, from: Address, to: Address, names: seq<Name>)
    requires Listed(l.diamonds, l.owned) && Movable(l, from, to, names) && ListsMoved(l.owned, owned1, from, to, names)
    ensures Listed(Reowned(l.diamonds, names, to), owned1)
    ensures |ListOf(owned1, from)| + |names| == |ListOf(l.owned, from)|
  {
    OwnedContains(l, from, to, names);
    DropLeaves(ListOf(l.owned, from), names, ListOf(owned1, from));
    assert Distinct(ListOf(l.owned, to));
    forall n | n in names
      ensures n !in ListOf(l.owned, to)
    {
      assert n in l.diamonds && l.diamonds[n].owner == from;
    }
    JoinDistinct(ListOf(l.owned, to), names);
    MovedMembers(l, owned1, from, to, names);
    MovedClean(l.owned, owned1, from, to, names);
  }

  /** The counters follow the lists, and taking from the sender's cannot fail. */
  lemma CountersFollow(l: Ledger, owned1: map<Address, seq<Name>>, from: Address, to: Address, names: seq<Name>)
    requires Tallied(l.balances, l.owned) && from != to && ListsMoved(l.owned, owned1, from, to, names)
    requires |ListOf(owned1, from)| + |names| == |ListOf(l.owned, from)|
    ensures HacdMove(l, from, to, |names|).Ok?
    ensures Tallied(HacdMove(l, from, to, |names|).value.balances, owned1)
    ensures HacdMove(l, from, to, |names|).value == l.(balances := HacdMove(l, from, to, |names|).value.balances)
  {
  }

  lemma HacdMoveFrame(l: Ledger, l1: Ledger, from: Address, to: Address, n: nat)
    requires l1 == l.(diamonds := l1.diamonds, owned := l1.owned) && HacdMove(l, from, to, n).Ok?
    ensures HacdMove(l1, from, to, n) == Ok(l1.(balances := HacdMove(l, from, to, n).value.balances))
  {
  }

  /** A transfer succeeds exactly when the list is well formed, the two addresses differ, and the names
      are distinct diamonds of the sender: nothing after the loop over the names can fail. All three
      indexes then agree again. */
  lemma TransferExact(l: Ledger, from: Address, to: Address, names: seq<Name>)
    requires DiamondsOk(l)
    ensures DiamondsMove(l, from, to, names).Ok? <==> ValidList(names) && MoveEach(l, from, to, names).Ok?
    ensures DiamondsMove(l, from, to, names).Ok? <==> ValidList(names) && Movable(l, from, to, names)
    ensures DiamondsMove(l, from, to, names).Ok? ==>
      var l1 := DiamondsMove(l, from, to, names).value;
      && HacdMove(l, from, to, |names|).Ok?
      && DiamondsOk(l1) && l1.diamonds == Reowned(l.diamonds, names, to)
      && ListsMoved(l.owned, l1.owned, from, to, names)
      && l1 == l.(diamonds := l1.diamonds, owned := l1.owned, balances := HacdMove(l, from, to, |names|).value.balances)
  {
    MoveEachResult(l, from, to, names);
    if ValidList(names) && Movable(l, from, to, names) {
      TransferSucceeds(l, from, to, names);
    }
  }

  lemma TransferSucceeds(l: Ledger, from: Address, to: Address, names: seq<Name>)
    requires DiamondsOk(l) && ValidList(names) && Movable(l, from, to, names)
    requires MoveEach(l, from, to, names) == Ok(l.(diamonds := Reowned(l.diamonds, names, to)))
    ensures DiamondsMove(l, from, to, names).Ok? && HacdMove(l, from, to, |names|).Ok?
    ensures var l1 := DiamondsMove(l, from, to, names).value;
      && DiamondsOk(l1) && l1.diamonds == Reowned(l.diamonds, names, to)
      && ListsMoved(l.owned, l1.owned, from, to, names)
      && l1 == l.(diamonds := l1.diamonds, owned := l1.owned, balances := HacdMove(l, from, to, |names|).value.balances)
  {
    OwnedMoveSucceeds(l, from, to, names);
    var l1 := l.(diamonds := Reowned(l.diamonds, names, to));
    var l2 := OwnedMove(l1, from, to, names).value;
    MovedListsOk(l, l2.owned, from, to, names);
    CountersFollow(l, l2.owned, from, to, names);
    HacdMoveFrame(l, l2, from, to, |names|);
    assert Reowned(l.diamonds, names, to).Keys == l.diamonds.Keys;
  }

  // ---- minting ------------------------------------------------------------

  /** A new diamond takes the next number and joins all three indexes. */
  lemma MintKeeps(l: Ledger, env: Env, m: MintRecord)
    requires DiamondsOk(l) && Mint(l, env, m).Ok?
    ensures DiamondsOk(Mint(l, env, m).value)
  {
    var d := Diamond(Normal, m.address, 0, []);
    MintIs(l, env, m, d);
    JoinsIndexes(l, Mint(l, env, m).value, m, d);
  }

  lemma JoinsIndexes(l: Ledger, l1: Ledger, m: MintRecord, d: Diamond)
    requires DiamondsOk(l) && m.name !in l.diamonds && m.number == l.latest.number + 1
    requires d.owner == m.address && d.status == Normal
    requires l1.diamonds == l.diamonds[m.name := d] && l1.diamonds.Keys == l.diamonds.Keys + {m.name}
    requires l1.owned == l.owned[m.address := ListOf(l.owned, m.address) + [m.name]]
    requires var b := BalanceIn(l.balances, m.address);
      l1.balances == l.balances[m.address := b.(diamond := b.diamond + 1)]
    requires l1.byNumber == l.byNumber[m.number := m.name] && l1.latest.number == m.number && l1.minted == l.minted + 1
    ensures DiamondsOk(l1)
  {
    MintLists(l.diamonds, l.owned, m.name, d);
    NextNumber(l.byNumber, l.diamonds.Keys, l.latest.number, m.name);
    MintTally(l.balances, l.owned, m.address, 1, [m.name]);
  }

  lemma MintIs(l: Ledger, env: Env, m: MintRecord, d: Diamond)
    requires Mint(l, env, m).Ok? && d == Diamond(Normal, m.address, 0, [])
    ensures m.name !in l.diamonds && m.number == l.latest.number + 1
    ensures var l1 := Mint(l, env, m).value; var b := BalanceIn(l.balances, m.address);
      && l1.diamonds == l.diamonds[m.name := d] && l1.diamonds.Keys == l.diamonds.Keys + {m.name}
      && l1.owned == l.owned[m.address := ListOf(l.owned, m.address) + [m.name]]
      && l1.balances == l.balances[m.address := b.(diamond := b.diamond + 1)]
      && l1.byNumber == l.byNumber[m.number := m.name]
      && l1.latest.number == m.number && l1.minted == l.minted + 1
      && l1.txexist == l.txexist && l1.channels == l.channels && l1.opening == l.opening
  {
  }

  lemma MintTally(balances: map<Address, Balance>, owned: map<Address, seq<Name>>, a: Address, n: nat, names: seq<Name>)
    requires Tallied(balances, owned) && n == |names|
    ensures var b := BalanceIn(balances, a);
      Tallied(balances[a := b.(diamond := b.diamond + n)], owned[a := ListOf(owned, a) + names])
  {
    var b := BalanceIn(balances, a);
    var balances1, owned1 := balances[a := b.(diamond := b.diamond + n)], owned[a := ListOf(owned, a) + names];
    forall x
      ensures BalanceIn(balances1, x).diamond == |ListOf(owned1, x)|
    {
      assert BalanceIn(balances, x).diamond == |ListOf(owned, x)|;
    }
  }

  lemma MintMembers(diamonds: map<Name, Diamond>, owned: map<Address, seq<Name>>, name: Name, d: Diamond)
    requires Members(diamonds, owned) && name !in diamonds
    ensures Members(diamonds[name := d], owned[d.owner := ListOf(owned, d.owner) + [name]])
  {
    var owned1 := owned[d.owner := ListOf(owned, d.owner) + [name]];
    forall a, n
      ensures n in ListOf(owned1, a) <==> n in diamonds[name := d] && diamonds[name := d][n].owner == a
    {
      assert n in ListOf(owned, a) <==> n in diamonds && diamonds[n].owner == a;
    }
  }

  lemma MintLists(diamonds: map<Name, Diamond>, owned: map<Address, seq<Name>>, name: Name, d: Diamond)
    requires Listed(diamonds, owned) && name !in diamonds
    ensures Listed(diamonds[name := d], owned[d.owner := ListOf(owned, d.owner) + [name]])
  {
    MintMembers(diamonds, owned, name, d);
    assert name !in ListOf(owned, d.owner);
    DistinctLast(ListOf(owned, d.owner), name);
  }

  lemma NextNumber(byNumber: map<nat, Name>, names: set<Name>, count: nat, name: Name)
    requires Numbered(byNumber, names, count) && name !in names
    ensures Numbered(byNumber[count + 1 := name], names + {name}, count + 1)
  {
    var next := byNumber[count + 1 := name];
    forall j, k | j in next && k in next && j != k
      ensures next[j] != next[k]
    {
      assert j in byNumber ==> byNumber[j] in byNumber.Values;
      assert k in byNumber ==> byNumber[k] in byNumber.Values;
    }
    forall n | n in names + {name}
      ensures n in next.Values
    {
      if n == name {
        assert next[count + 1] == n;
      } else {
        var k :| k in byNumber && byNumber[k] == n;
        assert next[k] == n;
      }
    }
  }

  // ---- inscriptions -------------------------------------------------------

  /** Records that keep their owner and status. */
  ghost predicate SameOwners(ds: map<Name, Diamond>, ds1: map<Name, Diamond>) {
    && ds1.Keys == ds.Keys
    && forall n :: n in ds ==> n in ds1 && ds1[n].owner == ds[n].owner && ds1[n].status == ds[n].status
  }

  lemma SameOwnersMembers(ds: map<Name, Diamond>, ds1: map<Name, Diamond>, owned: map<Address, seq<Name>>)
    requires Members(ds, owned) && SameOwners(ds, ds1)
    ensures Members(ds1, owned)
  {
    forall a, n
      ensures n in ListOf(owned, a) <==> n in ds1 && ds1[n].owner == a
    {
      assert n in ListOf(owned, a) <==> n in ds && ds[n].owner == a;
    }
  }

  lemma {:induction false} EngraveEachOwners(l: Ledger, env: Env, names: seq<Name>, content: Option<Bytes>)
    requires EngraveEach(l, env, names, content).Ok?
    ensures var l1 := EngraveEach(l, env, names, content).value.0;
      l1 == l.(diamonds := l1.diamonds) && SameOwners(l.diamonds, l1.diamonds)
    decreases |names|
  {
    if names != [] {
      var before := names[..|names| - 1];
      EngraveEachOwners(l, env, before, content);
      var l1 := EngraveEach(l, env, before, content).value.0;
      EngraveOneOwners(l1, env, names[|names| - 1], content);
      SameOwnersJoin(l.diamonds, l1.diamonds, EngraveEach(l, env, names, content).value.0.diamonds);
    }
  }

  lemma EngraveOneOwners(l: Ledger, env: Env, name: Name, content: Option<Bytes>)
    requires EngraveOne(l, env, name, content).Ok?
    ensures var l1 := EngraveOne(l, env, name, content).value.0;
      l1 == l.(diamonds := l1.diamonds) && SameOwners(l.diamonds, l1.diamonds)
  {
  }

  lemma SameOwnersJoin(ds: map<Name, Diamond>, ds1: map<Name, Diamond>, ds2: map<Name, Diamond>)
    requires SameOwners(ds, ds1) && SameOwners(ds1, ds2)
    ensures SameOwners(ds, ds2)
  {
  }
}
