/**
 Inscriptions in full: which diamonds an accepted action writes on or cleans, what it leaves on them, what
 it has to cost and who pays.
 */
module Inscriptions {
  import opened Base
  import opened Amounts
  import opened OwnedForm
  import opened Ledgers
  import opened DiamondIndex
  import opened CoinTotals

  /** A diamond that `main` may write `content` on, or clean when there is none to write. */
  predicate Ready(env: Env, name: Name, content: Option<Bytes>, d: Diamond) {
    && d.status == Normal && d.owner == env.main && env.world.averageBid(name).Some?
    && match content
       case Some(_) => d.engravedHeight + 1000 <= env.height && |d.inscripts| < 200
       case None => d.inscripts != []
  }

  ghost predicate AllReady(l: Ledger, env: Env, names: seq<Name>, content: Option<Bytes>) {
    forall n :: n in names ==> n in l.diamonds && Ready(env, n, content, l.diamonds[n])
  }

  /** The diamond afterwards. */
  function Written(d: Diamond, height: nat, content: Option<Bytes>): Diamond {
    match content
    case Some(c) => Diamond(d.status, d.owner, height, d.inscripts + [c])
    case None => Diamond(d.status, d.owner, 0, [])
  }

  /** All diamonds afterwards. */
  function WrittenAll(diamonds: map<Name, Diamond>, height: nat, names: seq<Name>, content: Option<Bytes>)
    : map<Name, Diamond>
  {
    map n | n in diamonds :: if n in names then Written(diamonds[n], height, content) else diamonds[n]
  }

  /** A tenth of the average bid for an eleventh and later inscription, and the whole of it for cleaning. */
  function CostOf(d: Diamond, bid: nat, content: Option<Bytes>): nat {
    if content.None? then bid * Pow(10, 248) else if |d.inscripts| >= 10 then bid * Pow(10, 247) else 0
  }

  function CostsOf(diamonds: map<Name, Diamond>, env: Env, names: seq<Name>, content: Option<Bytes>): nat {
    if names == [] then 0
    else
      var n := names[|names| - 1];
      CostsOf(diamonds, env, names[..|names| - 1], content)
      + if n in diamonds && env.world.averageBid(n).Some?
        then CostOf(diamonds[n], env.world.averageBid(n).value, content) else 0
  }

  // ---- one diamond --------------------------------------------------------

  lemma OneWritten(l: Ledger, env: Env, name: Name, content: Option<Bytes>)
    requires EngraveOne(l, env, name, content).Ok?
    ensures name in l.diamonds && Ready(env, name, content, l.diamonds[name])
    ensures var (l1, cost) := EngraveOne(l, env, name, content).value; var d := l.diamonds[name];
      && l1 == l.(diamonds := l.diamonds[name := Written(d, env.height, content)])
      && ToBigint(cost) == CostOf(d, env.world.averageBid(name).value, content)
  {
    var bid := env.world.averageBid(name).value;
    if content.None? {
      FromUnitsValue(bid, 248);
    } else if |l.diamonds[name].inscripts| >= 10 {
      FromUnitsValue(bid, 247);
    }
  }

  lemma OneRefused(l: Ledger, env: Env, name: Name, content: Option<Bytes>)
    requires name in l.diamonds && Ready(env, name, content, l.diamonds[name])
    ensures EngraveOne(l, env, name, content).Err? ==> EngraveOne(l, env, name, content).error.AmountWidth?
  {
  }

  // ---- all of them --------------------------------------------------------

  lemma WrittenOneMore(diamonds: map<Name, Diamond>, height: nat, names: seq<Name>, content: Option<Bytes>, last: Name)
    requires last !in names && last in diamonds
    ensures last in WrittenAll(diamonds, height, names, content)
    ensures WrittenAll(diamonds, height, names, content)[last] == diamonds[last]
    ensures WrittenAll(diamonds, height, names, content)[last := Written(diamonds[last], height, content)]
      == WrittenAll(diamonds, height, names + [last], content)
  {
  }

  /** No diamond is written on or cleaned twice in a block. */
  lemma NotTwice(env: Env, name: Name, content: Option<Bytes>, d: Diamond)
    ensures !Ready(env, name, content, Written(d, env.height, content))
  {
  }

  /** The loop over the names has written each of them once, and added up what each costs. */
  ghost predicate EachDone(l: Ledger, env: Env, names: seq<Name>, content: Option<Bytes>, l1: Ledger, cost: Amount) {
    && Distinct(names) && AllReady(l, env, names, content)
    && l1 == l.(diamonds := WrittenAll(l.diamonds, env.height, names, content))
    && ToBigint(cost) == CostsOf(l.diamonds, env, names, content)
  }

  lemma {:induction false} EachWritten(l: Ledger, env: Env, names: seq<Name>, content: Option<Bytes>)
    requires EngraveEach(l, env, names, content).Ok?
    ensures EachDone(l, env, names, content, EngraveEach(l, env, names, content).value.0,
      EngraveEach(l, env, names, content).value.1)
    decreases |names|
  {
    if names == [] {
      assert WrittenAll(l.diamonds, env.height, names, content) == l.diamonds;
    } else {
      var rest, last := names[..|names| - 1], names[|names| - 1];
      var l0, cost0, cost1 := LastOne(l, env, names, content);
      EachWritten(l, env, rest, content);
      LastWritten(l, env, names, rest, last, content, l0, cost0, cost1);
    }
  }

  lemma LastOne(l: Ledger, env: Env, names: seq<Name>, content: Option<Bytes>)
    returns (l0: Ledger, cost0: Amount, cost1: Amount)
    requires names != [] && EngraveEach(l, env, names, content).Ok?
    ensures EngraveEach(l, env, names[..|names| - 1], content) == Ok((l0, cost0))
    ensures EngraveOne(l0, env, names[|names| - 1], content) == Ok((EngraveEach(l, env, names, content).value.0, cost1))
    ensures Add(cost0, cost1) == Ok(EngraveEach(l, env, names, content).value.1)
  {
    l0, cost0 := EngraveEach(l, env, names[..|names| - 1], content).value.0,
      EngraveEach(l, env, names[..|names| - 1], content).value.1;
    cost1 := EngraveOne(l0, env, names[|names| - 1], content).value.1;
  }

  lemma LastWritten(l: Ledger, env: Env, names: seq<Name>, rest: seq<Name>, last: Name, content: Option<Bytes>,
    l0: Ledger, cost0: Amount, cost1: Amount)
    requires names != [] && rest == names[..|names| - 1] && last == names[|names| - 1]
    requires EachDone(l, env, rest, content, l0, cost0)
    requires EngraveOne(l0, env, last, content).Ok? && EngraveOne(l0, env, last, content).value.1 == cost1
    requires Add(cost0, cost1).Ok?
    ensures EachDone(l, env, names, content, EngraveOne(l0, env, last, content).value.0, Add(cost0, cost1).value)
  {
    assert names == rest + [last];
    OneWritten(l0, env, last, content);
    if last in rest {
      NotTwice(env, last, content, l.diamonds[last]);
    }
    WrittenOneMore(l.diamonds, env.height, rest, content, last);
    SumIsExact(cost0, cost1);
  }

  lemma {:induction false} DistinctPrefix(names: seq<Name>)
    requires names != [] && Distinct(names)
    ensures Distinct(names[..|names| - 1]) && names[|names| - 1] !in names[..|names| - 1]
  {
  }

  /** Nothing else can stop the loop but costs that no amount can hold. */
  lemma {:induction false} EachRefused(l: Ledger, env: Env, names: seq<Name>, content: Option<Bytes>)
    requires Distinct(names) && AllReady(l, env, names, content)
    ensures EngraveEach(l, env, names, content).Err? ==> EngraveEach(l, env, names, content).error.AmountWidth?
    decreases |names|
  {
    if names != [] {
      var rest, last := names[..|names| - 1], names[|names| - 1];
      DistinctPrefix(names);
      EachRefused(l, env, rest, content);
      if EngraveEach(l, env, rest, content).Ok? {
        EachWritten(l, env, rest, content);
        var l0 := EngraveEach(l, env, rest, content).value.0;
        assert l0.diamonds[last] == l.diamonds[last];
        OneRefused(l0, env, last, content);
      }
    }
  }

  // ---- the whole action ---------------------------------------------------

  /** The coins of `main` pay `cost`, and nobody else's change. */
  ghost predicate Pays(l: Ledger, l1: Ledger, main: Address, cost: Amount) {
    && SameCounts(l, l1) && Coins(l1, main) == Coins(l, main) - ToBigint(cost)
    && forall a :: a != main ==> Coins(l1, a) == Coins(l, a)
  }

  /** What writing on or cleaning the listed diamonds comes to. */
  ghost predicate Inscribed(l: Ledger, l1: Ledger, env: Env, names: seq<Name>, cost: Amount, content: Option<Bytes>) {
    && Distinct(names) && l1.diamonds.Keys == l.diamonds.Keys
    && (forall n :: n in names ==> n in l.diamonds)
    && (forall n :: n in names && content.Some? ==>
          l1.diamonds[n] == Diamond(Normal, env.main, env.height, l.diamonds[n].inscripts + [content.value]))
    && (forall n :: n in names && content.None? ==> l1.diamonds[n] == Diamond(Normal, env.main, 0, []))
    && (forall n :: n in l.diamonds && n !in names ==> l1.diamonds[n] == l.diamonds[n])
    && CostsOf(l.diamonds, env, names, content) <= ToBigint(cost) && Pays(l, l1, env.main, cost)
  }

  lemma InscribedSo(l: Ledger, env: Env, names: seq<Name>, cost: Amount, content: Option<Bytes>, l1: Ledger)
    requires Inscribe(l, env, names, cost, content) == Ok(l1)
    ensures Inscribed(l, l1, env, names, cost, content)
  {
    AllDone(l, env, names, cost, content, l1);
  }

  lemma AllDone(l: Ledger, env: Env, names: seq<Name>, cost: Amount, content: Option<Bytes>, l1: Ledger)
    requires Inscribe(l, env, names, cost, content) == Ok(l1)
    ensures ValidList(names) && Distinct(names) && Size(cost) <= 4 && AllReady(l, env, names, content)
    ensures l1 == l.(diamonds := WrittenAll(l.diamonds, env.height, names, content), balances := l1.balances)
    ensures CostsOf(l.diamonds, env, names, content) <= ToBigint(cost) && Pays(l, l1, env.main, cost)
  {
    EachWritten(l, env, names, content);
    var (l0, needed) := EngraveEach(l, env, names, content).value;
    ComparesByValue(cost, needed);
    if IsPositive(cost) {
      HacSubEffect(l0, env.main, cost);
    } else {
      NotPositiveValue(cost);
    }
    assert forall a :: Coins(l0, a) == Coins(l, a);
    assert SameCounts(l, l0);
  }

  /** An accepted inscription: every listed diamond, each listed once, was `main`'s and had not been written on
      for a thousand blocks nor two hundred times. Each now has `content` at the end of its list, and this
      height; no other diamond has changed. The stated cost is at least what the list costs, and `main` has
      paid it. */
  lemma InscriptionDone(l: Ledger, env: Env, names: seq<Name>, cost: Amount, kind: nat, content: Bytes, l1: Ledger)
    requires Act(l, env, DiamondInscription(names, cost, kind, content)) == Ok(l1)
    ensures 0 < |names| <= 200 && Distinct(names) && |cost.byte| <= 2 && 0 < |content| <= 64
    ensures kind <= 50 ==> env.world.readable(content)
    ensures forall n :: n in names ==>
      && n in l.diamonds && l.diamonds[n].status == Normal && l.diamonds[n].owner == env.main
      && l.diamonds[n].engravedHeight + 1000 <= env.height && |l.diamonds[n].inscripts| < 200
    ensures l1.diamonds.Keys == l.diamonds.Keys
    ensures forall n :: n in names ==>
      l1.diamonds[n] == Diamond(Normal, env.main, env.height, l.diamonds[n].inscripts + [content])
    ensures forall n :: n in l.diamonds && n !in names ==> l1.diamonds[n] == l.diamonds[n]
    ensures l1 == l.(diamonds := l1.diamonds, balances := l1.balances)
    ensures CostsOf(l.diamonds, env, names, Some(content)) <= ToBigint(cost) && Pays(l, l1, env.main, cost)
  {
    AllDone(l, env, names, cost, Some(content), l1);
  }

  /** An accepted clear: every listed diamond, each listed once, was `main`'s and had inscriptions. Each now has
      none and may be written on at once; no other diamond has changed. */
  lemma ClearDone(l: Ledger, env: Env, names: seq<Name>, cost: Amount, l1: Ledger)
    requires Act(l, env, DiamondInscriptionClear(names, cost)) == Ok(l1)
    ensures 0 < |names| <= 200 && Distinct(names) && |cost.byte| <= 2
    ensures forall n :: n in names ==>
      && n in l.diamonds && l.diamonds[n].status == Normal && l.diamonds[n].owner == env.main
      && l.diamonds[n].inscripts != []
    ensures l1.diamonds.Keys == l.diamonds.Keys
    ensures forall n :: n in names ==> l1.diamonds[n] == Diamond(Normal, env.main, 0, [])
    ensures forall n :: n in l.diamonds && n !in names ==> l1.diamonds[n] == l.diamonds[n]
    ensures l1 == l.(diamonds := l1.diamonds, balances := l1.balances)
    ensures CostsOf(l.diamonds, env, names, None) <= ToBigint(cost) && Pays(l, l1, env.main, cost)
  {
    AllDone(l, env, names, cost, None, l1);
  }

  /** Each diamond costs by itself: the average bid in unit 247 from the eleventh inscription on, in unit 248
      for cleaning. */
  lemma CostOfOne(l: Ledger, env: Env, n: Name)
    requires n in l.diamonds && env.world.averageBid(n).Some?
    ensures var bid := env.world.averageBid(n).value;
      && CostsOf(l.diamonds, env, [n], None) == bid * Pow(10, 248)
      && forall c :: CostsOf(l.diamonds, env, [n], Some(c)) ==
           if |l.diamonds[n].inscripts| < 10 then 0 else bid * Pow(10, 247)
  {
    assert [n][..0] == [];
    assert forall c :: CostsOf(l.diamonds, env, [], c) == 0;
  }

  /** Costs of several add up. */
  lemma {:induction false} CostsAdd(diamonds: map<Name, Diamond>, env: Env, a: seq<Name>, b: seq<Name>,
    content: Option<Bytes>)
    ensures CostsOf(diamonds, env, a + b, content) ==
      CostsOf(diamonds, env, a, content) + CostsOf(diamonds, env, b, content)
    decreases |b|
  {
    if b == [] {
      assert a + b == a;
    } else {
      assert (a + b)[..|a + b| - 1] == a + b[..|b| - 1];
      CostsAdd(diamonds, env, a, b[..|b| - 1], content);
    }
  }

  /** An inscription that meets all of that is refused only when an amount does not fit or the balance does not
      cover the cost. */
  lemma InscriptionRefused(l: Ledger, env: Env, names: seq<Name>, cost: Amount, kind: nat, content: Bytes)
    requires ValidList(names) && Distinct(names) && |cost.byte| <= 2 && 0 < |content| <= 64
    requires kind <= 50 ==> env.world.readable(content)
    requires AllReady(l, env, names, Some(content)) && CostsOf(l.diamonds, env, names, Some(content)) <= ToBigint(cost)
    ensures var r := Act(l, env, DiamondInscription(names, cost, kind, content));
      r.Err? ==> r.error.AmountWidth? || r.error == NotEnough || r.error == BalanceTooLarge
  {
    CostOnly(l, env, names, cost, Some(content));
  }

  lemma ClearRefused(l: Ledger, env: Env, names: seq<Name>, cost: Amount)
    requires ValidList(names) && Distinct(names) && |cost.byte| <= 2
    requires AllReady(l, env, names, None) && CostsOf(l.diamonds, env, names, None) <= ToBigint(cost)
    ensures var r := Act(l, env, DiamondInscriptionClear(names, cost));
      r.Err? ==> r.error.AmountWidth? || r.error == NotEnough || r.error == BalanceTooLarge
  {
    CostOnly(l, env, names, cost, None);
  }

  lemma CostOnly(l: Ledger, env: Env, names: seq<Name>, cost: Amount, content: Option<Bytes>)
    requires ValidList(names) && Distinct(names) && |cost.byte| <= 2
    requires AllReady(l, env, names, content) && CostsOf(l.diamonds, env, names, content) <= ToBigint(cost)
    ensures var r := Inscribe(l, env, names, cost, content);
      r.Err? ==> r.error.AmountWidth? || r.error == NotEnough || r.error == BalanceTooLarge
  {
    EachRefused(l, env, names, content);
    if EngraveEach(l, env, names, content).Ok? {
      EachWritten(l, env, names, content);
      ComparesByValue(cost, EngraveEach(l, env, names, content).value.1);
    }
  }
}
