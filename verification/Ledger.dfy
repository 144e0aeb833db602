/**
 The ledger as one value, and what each operation of a transaction makes of it: balances with their
 fees, payment channels, and diamonds in three indexes (by name, by owner's list, by counter).
 */
module Ledgers {
  import opened Base
  import opened Amounts
  import opened Interest
  import opened OwnedForm
  import Supply

  const PRIVAKEY: nat := 0

  datatype Address = Address(version: nat, body: Bytes)

  type TxHash = Bytes
  type ChannelId = Bytes

  datatype Balance = Balance(hacash: Amount, diamond: nat)

  datatype DiamondStatus = Normal | LendingToSystem | LendingToUser

  datatype Diamond = Diamond(status: DiamondStatus, owner: Address, engravedHeight: nat, inscripts: seq<Bytes>)

  datatype Latest = Latest(number: nat, bornHash: Bytes)

  datatype ChannelStatus = Opening | Challenging | AgreementClosed | FinalArbitrationClosed

  datatype Channel = Channel(
    status: ChannelStatus, reuse: nat, openHeight: nat, interestTo: Attribution,
    left: Address, leftAmt: Amount, right: Address, rightAmt: Amount, closedLeft: Option<Amount>)

  /** `opening` counts the open channels, `minted` the diamonds. */
  datatype Ledger = Ledger(
    balances: map<Address, Balance>, txexist: map<TxHash, nat>,
    diamonds: map<Name, Diamond>, byNumber: map<nat, Name>, owned: map<Address, seq<Name>>, latest: Latest,
    channels: map<ChannelId, Channel>, opening: nat, minted: nat)

  /** The ledger that genesis leaves. */
  predicate IsNew(l: Ledger) {
    && l.balances == map[] && l.txexist == map[] && l.diamonds == map[] && l.byNumber == map[] && l.owned == map[]
    && l.latest == Latest(0, []) && l.channels == map[] && l.opening == 0 && l.minted == 0
  }

  datatype Error =
    | NotPositive | AmountWidth(error: TooWide) | BalanceTooLarge | NotEnough | SelfTransfer
    | NoDiamond | Mortgaged | NotOwner | BadNameList | NoOwnedForm | DropMismatch
    | BadMintHeight | BadDiamondNumber | BadPrevHash | BadDiamond | DiamondExists
    | EngravedTooSoon | TooManyInscriptions | NoSmelt | NothingEngraved | BadContent | CostTooWide | CostTooLow
    | NotPrivateKey | BadChannelId | SameSides | BadChannelAmounts | ChannelInUse | NoChannel | NotSigned
    | NotOpening | NegativeShare | SharesDiffer | BadInterest(cause: InterestError) | InterestTooLow | CountUnderflow
    | OutOfHeights | WrongChain | NotUnique | NoActions | NeedsMachine | FeeTooWide | TxExists | BadExtendData
    | BadReward

  // ---- the surroundings of an action --------------------------------------

  datatype MintRecord = MintRecord(name: Name, number: nat, prevHash: Bytes, seed: Bytes, address: Address)

  datatype Action =
    | HacTransfer(from: Address, to: Address, amt: Amount)
    | ChannelOpen(id: ChannelId, left: Address, leftAmt: Amount, right: Address, rightAmt: Amount)
    | ChannelClose(id: ChannelId)
    | DiamondMint(record: MintRecord)
    | DiamondTransfer(from: Address, to: Address, names: seq<Name>)
    | DiamondInscription(names: seq<Name>, cost: Amount, kind: nat, content: Bytes)
    | DiamondInscriptionClear(names: seq<Name>, cost: Amount)
    | SubmitHeightLimit(start: nat, end: nat)
    | SubChainID(chainId: nat)

  /** What lies outside the ledger: the name that mining a record yields, if it meets the difficulty;
      the average bid stored with a diamond; which bytes are readable; the three balances that stand at
      the beginning; the table of block rewards and the unit they are paid in. */
  datatype World = World(
    chainId: nat, mined: MintRecord -> Option<Name>, averageBid: Name -> Option<nat>, readable: Bytes -> bool,
    first: ((Address, Amount), (Address, Amount), (Address, Amount)), rewards: seq<nat>, coinUnit: nat)
  {
    ghost predicate Valid() {
      && first.0.0 != first.1.0 && first.0.0 != first.2.0 && first.1.0 != first.2.0
      && !IsNegative(first.0.1) && !IsNegative(first.1.1) && !IsNegative(first.2.1)
      && (forall i :: 0 <= i < |rewards| ==> 0 < rewards[i] < 256)
      && 0 < coinUnit <= 255
    }
  }

  /** The main network's constants. */
  function MainNet(mined: MintRecord -> Option<Name>, averageBid: Name -> Option<nat>, readable: Bytes -> bool,
                   a: Address, b: Address, c: Address): World
  {
    World(0, mined, averageBid, readable,
          ((a, Raw(244, 1, [12])), (b, Raw(244, 1, [1])), (c, Raw(244, 1, [1]))), Supply.REWARDS, 248)
  }

  /** The transaction and block that an action runs in. */
  datatype Env = Env(world: World, height: nat, blockHash: Bytes, main: Address, fee: Amount, signed: set<Address>)

  function Width<T>(r: Result<T, TooWide>): Result<T, Error> {
    match r
    case Err(e) => Err(AmountWidth(e))
    case Ok(x) => Ok(x)
  }

  // ---- coins --------------------------------------------------------------

  function BalanceIn(balances: map<Address, Balance>, a: Address): Balance {
    if a in balances then balances[a] else Balance(EMPTY, 0)
  }

  function BalanceOf(l: Ledger, a: Address): Balance {
    BalanceIn(l.balances, a)
  }

  function SetHacash(l: Ledger, a: Address, amt: Amount): Result<Ledger, Error> {
    if Size(amt) > 12 then Err(BalanceTooLarge)
    else Ok(l.(balances := l.balances[a := BalanceOf(l, a).(hacash := amt)]))
  }

  function HacAdd(l: Ledger, a: Address, amt: Amount): Result<Ledger, Error> {
    if !IsPositive(amt) then Err(NotPositive)
    else
      var sum :- Width(Add(BalanceOf(l, a).hacash, amt));
      SetHacash(l, a, sum)
  }

  function HacSub(l: Ledger, a: Address, amt: Amount): Result<Ledger, Error> {
    if !IsPositive(amt) then Err(NotPositive)
    else if Cmp(BalanceOf(l, a).hacash, amt) == Less then Err(NotEnough)
    else
      var rest :- Width(Sub(BalanceOf(l, a).hacash, amt));
      SetHacash(l, a, rest)
  }

  function HacCheck(l: Ledger, a: Address, amt: Amount): Result<Amount, Error> {
    if !IsPositive(amt) then Err(NotPositive)
    else if a in l.balances && Cmp(l.balances[a].hacash, amt) != Less then Ok(l.balances[a].hacash)
    else Err(NotEnough)
  }

  function HacMove(l: Ledger, height: nat, from: Address, to: Address, amt: Amount): Result<Ledger, Error> {
    if from == to then
      if height >= 20_0000 then
        var _ :- HacCheck(l, from, amt);
        Ok(l)
      else Ok(l)
    else
      var l1 :- HacSub(l, from, amt);
      HacAdd(l1, to, amt)
  }

  // ---- diamonds -----------------------------------------------------------

  function SetCount(l: Ledger, a: Address, n: nat): Ledger {
    l.(balances := l.balances[a := BalanceOf(l, a).(diamond := n)])
  }

  function HacdAdd(l: Ledger, a: Address, n: nat): Ledger {
    SetCount(l, a, BalanceOf(l, a).diamond + n)
  }

  function HacdSub(l: Ledger, a: Address, n: nat): Result<Ledger, Error> {
    if BalanceOf(l, a).diamond < n then Err(NotEnough) else Ok(SetCount(l, a, BalanceOf(l, a).diamond - n))
  }

  function HacdMove(l: Ledger, from: Address, to: Address, n: nat): Result<Ledger, Error> {
    if from == to then Err(SelfTransfer)
    else
      var l1 :- HacdSub(l, from, n);
      Ok(HacdAdd(l1, to, n))
  }

  function CheckDiamond(l: Ledger, from: Address, name: Name): Result<Diamond, Error> {
    if name !in l.diamonds then Err(NoDiamond)
    else if l.diamonds[name].status != Normal then Err(Mortgaged)
    else if l.diamonds[name].owner != from then Err(NotOwner)
    else Ok(l.diamonds[name])
  }

  function MoveOne(l: Ledger, from: Address, to: Address, name: Name): Result<Ledger, Error> {
    if from == to then Err(SelfTransfer)
    else
      var d :- CheckDiamond(l, from, name);
      Ok(l.(diamonds := l.diamonds[name := d.(owner := to)]))
  }

  function MoveEach(l: Ledger, from: Address, to: Address, names: seq<Name>): Result<Ledger, Error>
    decreases |names|
  {
    if names == [] then Ok(l)
    else
      var l1 :- MoveEach(l, from, to, names[..|names| - 1]);
      MoveOne(l1, from, to, names[|names| - 1])
  }

  function ListOf(owned: map<Address, seq<Name>>, a: Address): seq<Name> {
    if a in owned then owned[a] else []
  }

  function OwnedOf(l: Ledger, a: Address): seq<Name> {
    ListOf(l.owned, a)
  }

  function OwnedPush(l: Ledger, a: Address, names: seq<Name>): Ledger {
    l.(owned := l.owned[a := OwnedOf(l, a) + names])
  }

  /** An owner without diamonds has no list. */
  function OwnedMove(l: Ledger, from: Address, to: Address, names: seq<Name>): Result<Ledger, Error> {
    if from !in l.owned then Err(NoOwnedForm)
    else
      match Without(l.owned[from], names)
      case None => Err(DropMismatch)
      case Some(rest) =>
        var l1 := l.(owned := if rest == [] then l.owned - {from} else l.owned[from := rest]);
        Ok(OwnedPush(l1, to, names))
  }

  const NAME_CHARS: set<Byte> := {87, 84, 89, 85, 73, 65, 72, 88, 86, 77, 69, 75, 66, 83, 90, 78}

  predicate ValidName(name: Name) {
    forall i :: 0 <= i < 6 ==> name[i] in NAME_CHARS
  }

  predicate ValidList(names: seq<Name>) {
    0 < |names| <= 200 && forall n :: n in names ==> ValidName(n)
  }

  function DiamondsMove(l: Ledger, from: Address, to: Address, names: seq<Name>): Result<Ledger, Error> {
    if !ValidList(names) then Err(BadNameList)
    else
      var l1 :- MoveEach(l, from, to, names);
      var l2 :- OwnedMove(l1, from, to, names);
      HacdMove(l2, from, to, |names|)
  }

  const BURN_FEES_ABOVE: nat := 3_0000

  function CheckMint(l: Ledger, env: Env, m: MintRecord): Option<Error> {
    if m.address.version != PRIVAKEY then Some(NotPrivateKey)
    else if IsNotZero(env.blockHash) && env.height % 5 != 0 then Some(BadMintHeight)
    else if m.number != l.latest.number + 1 then Some(BadDiamondNumber)
    else if m.number > 1 && l.latest.bornHash != m.prevHash then Some(BadPrevHash)
    else if env.world.mined(m) != Some(m.name) then Some(BadDiamond)
    else if m.name in l.diamonds then Some(DiamondExists)
    else None
  }

  predicate IsNotZero(hash: Bytes) {
    exists i :: 0 <= i < |hash| && hash[i] != 0
  }

  /** The miner's part of a fee of which nine tenths are burned. */
  function TenthOf(fee: Amount): Amount {
    if fee.unit > 1 then fee.(unit := fee.unit - 1) else fee
  }

  function Mint(l: Ledger, env: Env, m: MintRecord): Result<Ledger, Error> {
    match CheckMint(l, env, m)
    case Some(e) => Err(e)
    case None =>
      var _ :- if m.number > BURN_FEES_ABOVE then Width(Sub(env.fee, TenthOf(env.fee))) else Ok(EMPTY);
      Ok(RecordMint(l, env.blockHash, m))
  }

  function RecordMint(l: Ledger, blockHash: Bytes, m: MintRecord): Ledger {
    var l1 := l.(latest := Latest(m.number, blockHash), minted := l.minted + 1,
                 diamonds := l.diamonds[m.name := Diamond(Normal, m.address, 0, [])],
                 byNumber := l.byNumber[m.number := m.name]);
    HacdAdd(OwnedPush(l1, m.address, [m.name]), m.address, 1)
  }

  // ---- inscriptions -------------------------------------------------------

  /** One inscription and what it costs: nothing for the first ten of a diamond. */
  function Engrave(l: Ledger, env: Env, name: Name, content: Bytes): Result<(Ledger, Amount), Error> {
    var d :- CheckDiamond(l, env.main, name);
    if d.engravedHeight + 1000 > env.height then Err(EngravedTooSoon)
    else if |d.inscripts| >= 200 then Err(TooManyInscriptions)
    else if env.world.averageBid(name).None? then Err(NoSmelt)
    else
      var cost :- if |d.inscripts| >= 10 then Width(FromUnits(env.world.averageBid(name).value, 247)) else Ok(EMPTY);
      Ok((l.(diamonds := l.diamonds[name := d.(engravedHeight := env.height, inscripts := d.inscripts + [content])]),
        cost))
  }

  function Clean(l: Ledger, env: Env, name: Name): Result<(Ledger, Amount), Error> {
    var d :- CheckDiamond(l, env.main, name);
    if env.world.averageBid(name).None? then Err(NoSmelt)
    else if d.inscripts == [] then Err(NothingEngraved)
    else
      var cost :- Width(FromUnits(env.world.averageBid(name).value, 248));
      Ok((l.(diamonds := l.diamonds[name := d.(engravedHeight := 0, inscripts := [])]), cost))
  }

  function EngraveOne(l: Ledger, env: Env, name: Name, content: Option<Bytes>): Result<(Ledger, Amount), Error> {
    match content case Some(c) => Engrave(l, env, name, c) case None => Clean(l, env, name)
  }

  /** Engraves (`content` given) or cleans every name, and adds up the costs. */
  function EngraveEach(l: Ledger, env: Env, names: seq<Name>, content: Option<Bytes>): Result<(Ledger, Amount), Error>
    decreases |names|
  {
    if names == [] then Ok((l, EMPTY))
    else
      var before :- EngraveEach(l, env, names[..|names| - 1], content);
      var name := names[|names| - 1];
      var one :- EngraveOne(before.0, env, name, content);
      var cost :- Width(Add(before.1, one.1));
      Ok((one.0, cost))
  }

  /** The stated cost must cover the sum, and all of it is burned. */
  function Inscribe(l: Ledger, env: Env, names: seq<Name>, cost: Amount, content: Option<Bytes>)
    : Result<Ledger, Error>
  {
    if !ValidList(names) then Err(BadNameList)
    else if Size(cost) > 4 then Err(CostTooWide)
    else
      var done :- EngraveEach(l, env, names, content);
      if LessThan(cost, done.1) then Err(CostTooLow)
      else if IsPositive(cost) then HacSub(done.0, env.main, cost)
      else Ok(done.0)
  }

  predicate ContentOk(env: Env, kind: nat, content: Bytes) {
    0 < |content| <= 64 && (kind <= 50 ==> env.world.readable(content))
  }

  // ---- channels -----------------------------------------------------------

  predicate ValidId(id: ChannelId) {
    |id| == 16 && id[0] != 0 && id[15] != 0
  }

  function SubIfAny(l: Ledger, a: Address, amt: Amount): Result<Ledger, Error> {
    if IsEmpty(amt) then Ok(l) else HacSub(l, a, amt)
  }

  function AddIfPositive(l: Ledger, a: Address, amt: Amount): Result<Ledger, Error> {
    if IsPositive(amt) then HacAdd(l, a, amt) else Ok(l)
  }

  function CheckOpen(l: Ledger, id: ChannelId, left: Address, leftAmt: Amount, right: Address,
    rightAmt: Amount): Option<Error> {
    if !ValidId(id) then Some(BadChannelId)
    else if left == right then Some(SameSides)
    else if Size(leftAmt) > 6 || Size(rightAmt) > 6 then Some(BadChannelAmounts)
    else if IsNegative(leftAmt) || IsNegative(rightAmt) || (IsEmpty(leftAmt) && IsEmpty(rightAmt)) then
      Some(BadChannelAmounts)
    else if id in l.channels &&
      (l.channels[id].left != left || l.channels[id].right != right || l.channels[id].status != AgreementClosed) then
      Some(ChannelInUse)
    else None
  }

  function OpenChannel(l: Ledger, height: nat, id: ChannelId, left: Address, leftAmt: Amount, right: Address,
    rightAmt: Amount): Result<Ledger, Error> {
    if left.version != PRIVAKEY || right.version != PRIVAKEY then Err(NotPrivateKey)
    else
      var l1 :- SubIfAny(l, left, leftAmt);
      var l2 :- SubIfAny(l1, right, rightAmt);
      RecordOpening(l2, height, id, left, leftAmt, right, rightAmt)
  }

  /** Checks and records an opening whose coins have been taken. */
  function RecordOpening(l: Ledger, height: nat, id: ChannelId, left: Address, leftAmt: Amount, right: Address,
    rightAmt: Amount): Result<Ledger, Error> {
    match CheckOpen(l, id, left, leftAmt, right, rightAmt)
    case Some(e) => Err(e)
    case None =>
      var reuse := if id in l.channels then l.channels[id].reuse + 1 else 1;
      var channel := Channel(Opening, reuse, height, ByShare, left, leftAmt, right, rightAmt, None);
      var _ :- Width(Add(leftAmt, rightAmt));
      Ok(l.(channels := l.channels[id := channel], opening := l.opening + 1))
  }

  /** Pays the shares with their interest. */
  function PayOut(l: Ledger, height: nat, c: Channel, leftAmt: Amount, rightAmt: Amount,
    total: Amount): Result<Ledger, Error> {
    if !IsPositive(total) then Ok(l)
    else
      match InterestOfHeight(height, c.openHeight, c.interestTo, leftAmt, rightAmt)
      case Err(e) => Err(BadInterest(e))
      case Ok(pay) =>
        var sum :- Width(Add(pay.0, pay.1));
        if LessThan(sum, total) then Err(InterestTooLow)
        else
          var _ :- Width(Sub(sum, total));
          var l1 :- AddIfPositive(l, c.left, pay.0);
          AddIfPositive(l1, c.right, pay.1)
  }

  function CloseWith(l: Ledger, height: nat, id: ChannelId, c: Channel, leftAmt: Amount, rightAmt: Amount,
    final: bool): Result<Ledger, Error> {
    if c.status != Opening then Err(NotOpening)
    else if IsNegative(leftAmt) || IsNegative(rightAmt) then Err(NegativeShare)
    else
      var total :- Width(Add(c.leftAmt, c.rightAmt));
      var shares :- Width(Add(leftAmt, rightAmt));
      if shares != total then Err(SharesDiffer)
      else if l.opening == 0 then Err(CountUnderflow)
      else
        var l1 :- PayOut(l, height, c, leftAmt, rightAmt, total);
        var status := if final then FinalArbitrationClosed else AgreementClosed;
        Ok(l1.(channels := l1.channels[id := c.(status := status, closedLeft := Some(leftAmt))],
          opening := l.opening - 1))
  }

  function CloseChannel(l: Ledger, env: Env, id: ChannelId): Result<Ledger, Error> {
    if !ValidId(id) then Err(BadChannelId)
    else if id !in l.channels then Err(NoChannel)
    else
      var c := l.channels[id];
      if c.left.version != PRIVAKEY || c.right.version != PRIVAKEY then Err(NotPrivateKey)
      else if c.left !in env.signed || c.right !in env.signed then Err(NotSigned)
      else CloseWith(l, env.height, id, c, c.leftAmt, c.rightAmt, false)
  }

  // ---- actions ------------------------------------------------------------

  function Limit(env: Env, start: nat, end: nat): Option<Error> {
    if start == 0 && end == 0 then Some(OutOfHeights)
    else if end > 0 && start > end then Some(OutOfHeights)
    else if (start > 0 && env.height < start) || (end > 0 && env.height > end) then Some(OutOfHeights)
    else None
  }

  function Act(l: Ledger, env: Env, a: Action): Result<Ledger, Error> {
    match a
    case HacTransfer(from, to, amt) => HacMove(l, env.height, from, to, amt)
    case ChannelOpen(id, left, leftAmt, right, rightAmt) =>
      OpenChannel(l, env.height, id, left, leftAmt, right, rightAmt)
    case ChannelClose(id) => CloseChannel(l, env, id)
    case DiamondMint(m) => Mint(l, env, m)
    case DiamondTransfer(from, to, names) => DiamondsMove(l, from, to, names)
    case DiamondInscription(names, cost, kind, content) =>
      if !ValidList(names) then Err(BadNameList)
      else if Size(cost) > 4 then Err(CostTooWide)
      else if !ContentOk(env, kind, content) then Err(BadContent)
      else Inscribe(l, env, names, cost, Some(content))
    case DiamondInscriptionClear(names, cost) => Inscribe(l, env, names, cost, None)
    case SubmitHeightLimit(start, end) => (match Limit(env, start, end) case Some(e) => Err(e) case None => Ok(l))
    case SubChainID(id) => if id != env.world.chainId then Err(WrongChain) else Ok(l)
  }

  predicate TopUnique(a: Action) {
    a.DiamondMint? || a.DiamondInscription? || a.DiamondInscriptionClear? || a.SubmitHeightLimit? || a.SubChainID?
  }

  predicate SameKind(a: Action, b: Action) {
    || (a.DiamondMint? && b.DiamondMint?) || (a.DiamondInscription? && b.DiamondInscription?)
    || (a.DiamondInscriptionClear? && b.DiamondInscriptionClear?)
    || (a.SubmitHeightLimit? && b.SubmitHeightLimit?) || (a.SubChainID? && b.SubChainID?)
  }

  /** At most one action of such a kind in a transaction. */
  predicate LevelOk(a: Action, all: seq<Action>) {
    TopUnique(a) ==> forall i, j :: 0 <= i < j < |all| && SameKind(a, all[i]) ==> !SameKind(a, all[j])
  }

  function ActEach(l: Ledger, env: Env, acts: seq<Action>, all: seq<Action>): Result<Ledger, Error>
    decreases |acts|
  {
    if acts == [] then Ok(l)
    else
      var l1 :- ActEach(l, env, acts[..|acts| - 1], all);
      var a := acts[|acts| - 1];
      if !LevelOk(a, all) then Err(NotUnique) else Act(l1, env, a)
  }

  // ---- transactions and blocks --------------------------------------------

  datatype Tx = Tx(hash: TxHash, ty: nat, main: Address, fee: Amount, gasMax: nat, anoMark: nat,
    actions: seq<Action>, signed: set<Address>)

  predicate Burns(a: Action) {
    match a
    case DiamondMint(m) => m.number > BURN_FEES_ABOVE
    case DiamondInscription(_, _, _, _) => true
    case DiamondInscriptionClear(_, _) => true
    case _ => false
  }

  predicate Burns90(tx: Tx) {
    exists i :: 0 <= i < |tx.actions| && Burns(tx.actions[i])
  }

  function FeeGot(tx: Tx): Amount {
    if Burns90(tx) then TenthOf(tx.fee) else tx.fee
  }

  function TxEnv(w: World, height: nat, blockHash: Bytes, tx: Tx): Env {
    Env(w, height, blockHash, tx.main, tx.fee, tx.signed)
  }

  function RunActions(l: Ledger, w: World, height: nat, blockHash: Bytes, tx: Tx): Result<Ledger, Error> {
    if tx.actions == [] || |tx.actions| > 0xFFFF then Err(NoActions)
    else if tx.ty >= 3 && tx.gasMax > 0 then Err(NeedsMachine)
    else ActEach(l, TxEnv(w, height, blockHash, tx), tx.actions, tx.actions)
  }

  /** Marks the transaction as done and takes its fee. */
  function PayFee(l: Ledger, height: nat, tx: Tx): Result<Ledger, Error> {
    if height > 20_0000 && Size(tx.fee) > 6 then Err(FeeTooWide)
    else if tx.hash in l.txexist && l.txexist[tx.hash] > 0 then Err(TxExists)
    else if tx.main.version != PRIVAKEY then Err(NotPrivateKey)
    else if tx.ty <= 3 && tx.anoMark != 0 then Err(BadExtendData)
    else if tx.ty <= 2 && tx.gasMax != 0 then Err(BadExtendData)
    else HacSub(l.(txexist := l.txexist[tx.hash := height]), tx.main, tx.fee)
  }

  /** The ledger after the transactions and the fees they leave for the miner. */
  function RunTxs(l: Ledger, w: World, height: nat, blockHash: Bytes, txs: seq<Tx>): Result<(Ledger, Amount), Error>
    decreases |txs|
  {
    if txs == [] then Ok((l, EMPTY))
    else
      var before :- RunTxs(l, w, height, blockHash, txs[..|txs| - 1]);
      var tx := txs[|txs| - 1];
      var l1 :- RunActions(before.0, w, height, blockHash, tx);
      var fees :- Width(Add(before.1, FeeGot(tx)));
      var l2 :- PayFee(l1, height, tx);
      Ok((l2, fees))
  }

  datatype BlockTxs = BlockTxs(height: nat, hash: Bytes, miner: Address, reward: Amount, txs: seq<Tx>)

  /** The allocation of the first block. */
  function Initialize(l: Ledger, w: World): Ledger {
    l.(balances := l.balances[w.first.0.0 := Balance(w.first.0.1, 0)]
      [w.first.1.0 := Balance(w.first.1.1, 0)][w.first.2.0 := Balance(w.first.2.1, 0)])
  }

  function CoinReward(w: World, height: nat): Amount {
    var n := Supply.RewardIn(w.rewards, height);
    if n < 256 && w.coinUnit <= 255 then Raw(w.coinUnit, 1, [n]) else EMPTY
  }

  function RunBlock(l: Ledger, w: World, b: BlockTxs): Result<Ledger, Error> {
    if b.reward != CoinReward(w, b.height) then Err(BadReward)
    else
      var l0 := if b.height == 1 then Initialize(l, w) else l;
      var l1 :- HacAdd(l0, b.miner, b.reward);
      var done :- RunTxs(l1, w, b.height, b.hash, b.txs);
      AddIfPositive(done.0, b.miner, done.1)
  }
}
