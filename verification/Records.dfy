/**
 The ledger as records under keys. How keys and records are written as bytes is left open, as long as they
 can be read back; a view holds a ledger when every record of the ledger is found under its key.
 */
module Records {
  import opened Base
  import opened Amounts
  import opened OwnedForm
  import opened Ledgers
  import opened ChainSpec

  datatype Key =
    | BalanceKey(a: Address) | TxKey(hash: TxHash) | DiamondKey(name: Name) | NumberKey(number: nat)
    | OwnedKey(a: Address) | ChannelKey(id: ChannelId) | LatestKey | CountKey

  datatype Record =
    | BalanceRec(balance: Balance) | TxRec(height: nat) | DiamondRec(diamond: Diamond) | NumberRec(name: Name)
    | OwnedRec(names: seq<Name>) | ChannelRec(channel: Channel) | LatestRec(latest: Latest)
    | CountRec(opening: nat, minted: nat)

  /** Keys and records as bytes, and back. */
  datatype Codec = Codec(key: Key -> Bytes, unkey: Bytes -> Key, rec: Record -> Bytes, unrec: Bytes -> Record) {
    ghost predicate Valid() {
      (forall k: Key {:trigger key(k)} :: unkey(key(k)) == k) &&
        (forall x: Record {:trigger rec(x)} :: unrec(rec(x)) == x)
    }

    predicate Look() {
      true
    }

    function Read(b: Option<Bytes>): Option<Record> {
      match b case None => None case Some(x) => Some(unrec(x))
    }
  }

  /** The record that a ledger has under a key; the latest diamond and the counts have a default, and are
      left out here. */
  function RecordOf(l: Ledger, k: Key): Option<Record> {
    match k
    case BalanceKey(a) => if a in l.balances then Some(BalanceRec(l.balances[a])) else None
    case TxKey(h) => if h in l.txexist then Some(TxRec(l.txexist[h])) else None
    case DiamondKey(n) => if n in l.diamonds then Some(DiamondRec(l.diamonds[n])) else None
    case NumberKey(n) => if n in l.byNumber then Some(NumberRec(l.byNumber[n])) else None
    case OwnedKey(a) => if a in l.owned then Some(OwnedRec(l.owned[a])) else None
    case ChannelKey(id) => if id in l.channels then Some(ChannelRec(l.channels[id])) else None
    case LatestKey => None
    case CountKey => None
  }

  function LatestIn(r: Option<Record>): Latest {
    if r.Some? && r.value.LatestRec? then r.value.latest else Latest(0, [])
  }

  function CountIn(r: Option<Record>): (nat, nat) {
    if r.Some? && r.value.CountRec? then (r.value.opening, r.value.minted) else (0, 0)
  }

  predicate Single(k: Key) {
    k.LatestKey? || k.CountKey?
  }

  function RecordIn(c: Codec, v: View, k: Key): Option<Record> {
    c.Read(Lookup(v, c.key(k)))
  }

  ghost predicate Agrees(c: Codec, v: View, l: Ledger) {
    && (forall k: Key {:trigger RecordIn(c, v, k)} :: !Single(k) ==> RecordIn(c, v, k) == RecordOf(l, k))
    && LatestIn(RecordIn(c, v, LatestKey)) == l.latest
    && CountIn(RecordIn(c, v, CountKey)) == (l.opening, l.minted)
  }

  /** The view holds the ledger. What that says is to be looked at through the codec. */
  ghost predicate Holds(c: Codec, v: View, l: Ledger) {
    forall d: Codec {:trigger d.Look()} :: d == c ==> Agrees(d, v, l)
  }

  lemma EmptyHolds(c: Codec, l: Ledger)
    requires IsNew(l)
    ensures Holds(c, map[], l)
  {
    forall k: Key | !Single(k)
      ensures RecordIn(c, map[], k) == RecordOf(l, k)
    {
    }
    assert Agrees(c, map[], l);
  }

  lemma FoundAfterWrite(c: Codec, v: View, k: Key, x: Record, other: Key)
    requires c.Valid()
    ensures RecordIn(c, v[c.key(k) := c.rec(x)], other) == if other == k then Some(x) else RecordIn(c, v, other)
  {
    assert c.unkey(c.key(k)) == k && c.unkey(c.key(other)) == other;
    assert c.unrec(c.rec(x)) == x;
  }

  lemma FoundAfterRemove(c: Codec, v: View, k: Key, other: Key)
    requires c.Valid()
    ensures RecordIn(c, v - {c.key(k)}, other) == if other == k then None else RecordIn(c, v, other)
  {
    assert c.unkey(c.key(k)) == k && c.unkey(c.key(other)) == other;
  }

  /** Writing one record changes one entry of the ledger. */
  lemma WriteHolds(c: Codec, v: View, l: Ledger, k: Key, x: Record, l1: Ledger)
    requires c.Valid() && Holds(c, v, l)
    requires forall o: Key {:trigger RecordOf(l1, o)} :: !Single(o) ==>
      RecordOf(l1, o) == if o == k then Some(x) else RecordOf(l, o)
    requires if k == LatestKey then x == LatestRec(l1.latest) else l1.latest == l.latest
    requires if k == CountKey then x == CountRec(l1.opening, l1.minted)
      else l1.opening == l.opening && l1.minted == l.minted
    ensures Holds(c, v[c.key(k) := c.rec(x)], l1)
  {
    assert c.Look();
    var v1 := v[c.key(k) := c.rec(x)];
    forall o: Key | !Single(o)
      ensures RecordIn(c, v1, o) == RecordOf(l1, o)
    {
      FoundAfterWrite(c, v, k, x, o);
      assert RecordIn(c, v, o) == RecordOf(l, o);
    }
    FoundAfterWrite(c, v, k, x, LatestKey);
    FoundAfterWrite(c, v, k, x, CountKey);
  }

  lemma RemoveHolds(c: Codec, v: View, l: Ledger, k: Key, l1: Ledger)
    requires c.Valid() && Holds(c, v, l) && !Single(k)
    requires forall o: Key {:trigger RecordOf(l1, o)} :: !Single(o) ==>
      RecordOf(l1, o) == if o == k then None else RecordOf(l, o)
    requires l1.latest == l.latest && l1.opening == l.opening && l1.minted == l.minted
    ensures Holds(c, v - {c.key(k)}, l1)
  {
    assert c.Look();
    var v1 := v - {c.key(k)};
    forall o: Key | !Single(o)
      ensures RecordIn(c, v1, o) == RecordOf(l1, o)
    {
      FoundAfterRemove(c, v, k, o);
      assert RecordIn(c, v, o) == RecordOf(l, o);
    }
    FoundAfterRemove(c, v, k, LatestKey);
    FoundAfterRemove(c, v, k, CountKey);
  }

  // ---- single writes ------------------------------------------------------

  lemma WriteBalance(c: Codec, v: View, l: Ledger, a: Address, b: Balance)
    requires c.Valid() && Holds(c, v, l)
    ensures Holds(c, v[c.key(BalanceKey(a)) := c.rec(BalanceRec(b))], l.(balances := l.balances[a := b]))
  {
    WriteHolds(c, v, l, BalanceKey(a), BalanceRec(b), l.(balances := l.balances[a := b]));
  }

  lemma WriteTx(c: Codec, v: View, l: Ledger, h: TxHash, height: nat)
    requires c.Valid() && Holds(c, v, l)
    ensures Holds(c, v[c.key(TxKey(h)) := c.rec(TxRec(height))], l.(txexist := l.txexist[h := height]))
  {
    WriteHolds(c, v, l, TxKey(h), TxRec(height), l.(txexist := l.txexist[h := height]));
  }

  lemma WriteDiamond(c: Codec, v: View, l: Ledger, n: Name, d: Diamond)
    requires c.Valid() && Holds(c, v, l)
    ensures Holds(c, v[c.key(DiamondKey(n)) := c.rec(DiamondRec(d))], l.(diamonds := l.diamonds[n := d]))
  {
    WriteHolds(c, v, l, DiamondKey(n), DiamondRec(d), l.(diamonds := l.diamonds[n := d]));
  }

  lemma WriteNumber(c: Codec, v: View, l: Ledger, number: nat, n: Name)
    requires c.Valid() && Holds(c, v, l)
    ensures Holds(c, v[c.key(NumberKey(number)) := c.rec(NumberRec(n))], l.(byNumber := l.byNumber[number := n]))
  {
    WriteHolds(c, v, l, NumberKey(number), NumberRec(n), l.(byNumber := l.byNumber[number := n]));
  }

  lemma WriteOwned(c: Codec, v: View, l: Ledger, a: Address, names: seq<Name>)
    requires c.Valid() && Holds(c, v, l)
    ensures Holds(c, v[c.key(OwnedKey(a)) := c.rec(OwnedRec(names))], l.(owned := l.owned[a := names]))
  {
    WriteHolds(c, v, l, OwnedKey(a), OwnedRec(names), l.(owned := l.owned[a := names]));
  }

  lemma RemoveOwned(c: Codec, v: View, l: Ledger, a: Address)
    requires c.Valid() && Holds(c, v, l)
    ensures Holds(c, v - {c.key(OwnedKey(a))}, l.(owned := l.owned - {a}))
  {
    RemoveHolds(c, v, l, OwnedKey(a), l.(owned := l.owned - {a}));
  }

  lemma WriteChannel(c: Codec, v: View, l: Ledger, id: ChannelId, x: Channel)
    requires c.Valid() && Holds(c, v, l)
    ensures Holds(c, v[c.key(ChannelKey(id)) := c.rec(ChannelRec(x))], l.(channels := l.channels[id := x]))
  {
    WriteHolds(c, v, l, ChannelKey(id), ChannelRec(x), l.(channels := l.channels[id := x]));
  }

  lemma WriteLatest(c: Codec, v: View, l: Ledger, x: Latest)
    requires c.Valid() && Holds(c, v, l)
    ensures Holds(c, v[c.key(LatestKey) := c.rec(LatestRec(x))], l.(latest := x))
  {
    WriteHolds(c, v, l, LatestKey, LatestRec(x), l.(latest := x));
  }

  lemma WriteCount(c: Codec, v: View, l: Ledger, opening: nat, minted: nat)
    requires c.Valid() && Holds(c, v, l)
    ensures Holds(c, v[c.key(CountKey) := c.rec(CountRec(opening, minted))], l.(opening := opening, minted := minted))
  {
    WriteHolds(c, v, l, CountKey, CountRec(opening, minted), l.(opening := opening, minted := minted));
  }
}
