/**
 * The tables the games share: accounts and their ledger, seeds and the rows
 * rolled from them, vouchers, cases, battles and inventories. Rows are
 * identified by their position in their table.
 */
module Site {
  import opened Battle
  import opened Rolls
  import opened Tickets
  import opened Wrappers

  datatype User = User(balance: int, banned: bool, lastBonusAt: Option<int>, clientSeed: Option<nat>)

  datatype Kind = CaseOpen | BonusCredit | BattleEntry | BattleRefund | AdminAdjustment

  /** `battle` is the battle an entry or a refund belongs to. */
  datatype Entry = Entry(user: nat, amount: int, balanceAfter: int, kind: Kind, battle: Option<nat>)

  datatype Seed = Seed(user: nat, nonce: nat, active: bool)

  /** What a recorded roll was for. */
  datatype Purpose =
    | Opening(caseId: nat, itemId: nat, casePrice: int, itemPrice: int, battle: Option<BattleRound>)
    | Spin(bonus: nat)
    | ContractRun(stakeValue: int, rewardItem: nat, rewardPrice: int)

  datatype BattleRound = BattleRound(battleId: nat, round: nat)

  /** A row of the openings, spins or contracts: every one records its seed pair, nonce and roll. */
  datatype Row = Row(user: nat, seed: nat, client: nat, nonce: nat, roll: nat, purpose: Purpose)

  datatype BonusKind = Balance | Discount | FreeCase | FreeItem

  datatype Bonus = Bonus(user: nat, kind: BonusKind, value: int, consumed: bool)

  datatype CaseItem = CaseItem(itemId: nat, range: Range, price: int)

  /** A case as read, with the items' prices at that moment. */
  datatype Case = Case(price: int, isFree: bool, isActive: bool, items: seq<CaseItem>)

  datatype Status = Waiting | Running | Finished | Cancelled

  datatype Seat = Seat(user: nat, slot: nat, total: int, isWinner: bool)

  datatype BattleRow = BattleRow(
    host: nat, mode: Mode, slots: nat, rounds: nat, entryPrice: int, lines: seq<Line>,
    status: Status, filledSlots: nat, seats: seq<Seat>, createdAt: int, totalValue: int, winner: Option<nat>)

  datatype ItemStatus = Available | Contracted

  datatype InventoryItem = InventoryItem(owner: nat, itemId: nat, price: int, status: ItemStatus, source: nat)

  datatype State = State(
    now: int,
    users: seq<User>,
    ledger: seq<Entry>,
    seeds: seq<Seed>,
    rows: seq<Row>,
    bonuses: seq<Bonus>,
    cases: seq<Case>,
    battles: seq<BattleRow>,
    inventory: seq<InventoryItem>)

  datatype SiteError =
    | BatchSizeInvalid
    | CaseUnavailable
    | CaseIsEmpty
    | AccountBanned
    | InsufficientFunds
    | NoActiveSeed
    | BonusOnCooldown
    | BattleSizeInvalid
    | BattleUnavailable
    | BattleAlreadyJoined
    | BattleIsFull
    | BattleNotCancellable
    | ItemUnavailable
    | ContractSizeInvalid
    | ContractPoolEmpty
    | NegativeBalance
    | RangesCorrupted

  // ----- rolls

  /** The digests of the seed pairs: `HMAC(serverSeed, clientSeed:nonce)`, as hex digits. */
  type Digest = (nat, nat, nat) -> seq<nat>

  predicate IsHexDigest(digits: seq<nat>) {
    HexDigits(digits) && |digits| >= 8
  }

  ghost predicate IsDigest(digest: Digest) {
    forall seed, client, nonce :: IsHexDigest(digest(seed, client, nonce))
  }

  function ComputeRoll(digest: Digest, seed: nat, client: nat, nonce: nat): (roll: nat)
    requires IsDigest(digest)
    ensures roll < TICKET_SPACE
  {
    assert IsHexDigest(digest(seed, client, nonce));
    RollFromHmac(digest(seed, client, nonce))
  }

  lemma DigestIsHex(digest: Digest, seed: nat, client: nat, nonce: nat)
    requires IsDigest(digest)
    ensures IsHexDigest(digest(seed, client, nonce))
    ensures ComputeRoll(digest, seed, client, nonce) == RollFromHmac(digest(seed, client, nonce))
  {
    assert IsHexDigest(digest(seed, client, nonce));
  }

  function RangesOf(items: seq<CaseItem>): (s: seq<Range>)
    ensures |s| == |items|
  {
    seq(|items|, i requires 0 <= i < |items| => items[i].range)
  }

  /** What the gate lets through: a table that owns every ticket once. */
  ghost predicate ValidCase(c: Case) {
    c.price >= 0 && AllInSpace(RangesOf(c.items)) && ExactCover(RangesOf(c.items))
  }

  /** The item a roll wins. */
  function Won(c: Case, roll: nat): (k: nat)
    requires ValidCase(c) && roll < TICKET_SPACE
    ensures k < |c.items| && Covers(c.items[k].range, roll)
    ensures PickByRoll(RangesOf(c.items), roll) == Some(k)
  {
    PickNeverThrows(RangesOf(c.items), roll);
    PickByRoll(RangesOf(c.items), roll).value
  }

  // ----- money

  function LedgerSum(ledger: seq<Entry>, user: nat): int {
    if ledger == [] then 0
    else LedgerSum(ledger[..|ledger| - 1], user)
         + (if ledger[|ledger| - 1].user == user then ledger[|ledger| - 1].amount else 0)
  }

  lemma LedgerGrows(ledger: seq<Entry>, e: Entry, user: nat)
    ensures LedgerSum(ledger + [e], user) == LedgerSum(ledger, user) + (if e.user == user then e.amount else 0)
  {
    assert (ledger + [e])[..|ledger|] == ledger;
  }

  function SetBalance(users: seq<User>, u: nat, balance: int): (r: seq<User>)
    requires u < |users|
    ensures |r| == |users|
  {
    users[u := users[u].(balance := balance)]
  }

  /** A balance change and the ledger row that goes with it. */
  function Pay(s: State, u: nat, amount: int, kind: Kind, battle: Option<nat>): State
    requires u < |s.users|
  {
    var balance := s.users[u].balance + amount;
    s.(users := SetBalance(s.users, u, balance), ledger := s.ledger + [Entry(u, amount, balance, kind, battle)])
  }

  /** Every balance is the sum of its ledger rows and not negative; every row records the balance it left. */
  ghost predicate MoneyOk(users: seq<User>, ledger: seq<Entry>) {
    && (forall u :: 0 <= u < |users| ==> users[u].balance >= 0 && users[u].balance == LedgerSum(ledger, u))
    && (forall k :: 0 <= k < |ledger| ==> ledger[k].user < |users|)
    && (forall k :: 0 <= k < |ledger| ==> ledger[k].balanceAfter == LedgerSum(ledger[..k + 1], ledger[k].user))
  }

  lemma PayKeepsBalances(users: seq<User>, ledger: seq<Entry>, u: nat, e: Entry)
    requires u < |users| && e.user == u && users[u].balance + e.amount >= 0
    requires forall v :: 0 <= v < |users| ==> users[v].balance >= 0 && users[v].balance == LedgerSum(ledger, v)
    ensures var later := SetBalance(users, u, users[u].balance + e.amount);
            forall v :: 0 <= v < |later| ==> later[v].balance >= 0 && later[v].balance == LedgerSum(ledger + [e], v)
  {
    hide LedgerSum;
    forall v | 0 <= v < |users| ensures LedgerSum(ledger + [e], v) == LedgerSum(ledger, v) + (if v == u then e.amount else 0) {
      LedgerGrows(ledger, e, v);
    }
  }

  lemma PayKeepsRecords(ledger: seq<Entry>, e: Entry)
    requires forall k :: 0 <= k < |ledger| ==> ledger[k].balanceAfter == LedgerSum(ledger[..k + 1], ledger[k].user)
    requires e.balanceAfter == LedgerSum(ledger + [e], e.user)
    ensures var later := ledger + [e];
            forall k :: 0 <= k < |later| ==> later[k].balanceAfter == LedgerSum(later[..k + 1], later[k].user)
  {
    hide LedgerSum;
    var later := ledger + [e];
    forall k | 0 <= k < |later| ensures later[k].balanceAfter == LedgerSum(later[..k + 1], later[k].user) {
      assert later[..k + 1] == if k < |ledger| then ledger[..k + 1] else later;
    }
  }

  lemma PayKeepsMoney(s: State, u: nat, amount: int, kind: Kind, battle: Option<nat>)
    requires MoneyOk(s.users, s.ledger) && u < |s.users| && s.users[u].balance + amount >= 0
    ensures var s' := Pay(s, u, amount, kind, battle); MoneyOk(s'.users, s'.ledger)
  {
    hide LedgerSum;
    var e := Entry(u, amount, s.users[u].balance + amount, kind, battle);
    PayKeepsBalances(s.users, s.ledger, u, e);
    LedgerGrows(s.ledger, e, u);
    PayKeepsRecords(s.ledger, e);
  }

  // ----- nonces

  function NoncesOf(rows: seq<Row>, seed: nat): seq<nat> {
    if rows == [] then []
    else NoncesOf(rows[..|rows| - 1], seed) + (if rows[|rows| - 1].seed == seed then [rows[|rows| - 1].nonce] else [])
  }

  function UpTo(n: nat): (s: seq<nat>)
    ensures |s| == n
  {
    seq(n, i => i + 1)
  }

  /** The nonces rolled on a seed are 1 to its counter, each once, in order. */
  ghost predicate NoncesOk(seeds: seq<Seed>, rows: seq<Row>) {
    && (forall k :: 0 <= k < |seeds| ==> NoncesOf(rows, k) == UpTo(seeds[k].nonce))
    && (forall i :: 0 <= i < |rows| ==> rows[i].seed < |seeds|)
  }

  predicate SameActiveUser(a: Seed, b: Seed) {
    a.active && b.active && a.user == b.user
  }

  /** One active seed per user at most, as the unique index has it. */
  ghost predicate SeedsOk(users: nat, seeds: seq<Seed>) {
    && (forall k :: 0 <= k < |seeds| ==> seeds[k].user < users)
    && (forall j, k :: 0 <= j < k < |seeds| ==> !SameActiveUser(seeds[j], seeds[k]))
  }

  /** A recorded roll can be recomputed from the seed pair and nonce beside it, and the seed is the roller's. */
  predicate RowOk(r: Row, seeds: seq<Seed>, digest: Digest)
    requires IsDigest(digest)
  {
    && r.seed < |seeds| && r.user == seeds[r.seed].user
    && IsHexDigest(digest(r.seed, r.client, r.nonce)) && r.roll == RollFromHmac(digest(r.seed, r.client, r.nonce))
  }

  ghost predicate RowsOk(seeds: seq<Seed>, rows: seq<Row>, digest: Digest)
    requires IsDigest(digest)
  {
    forall i :: 0 <= i < |rows| ==> RowOk(rows[i], seeds, digest)
  }

  function ActiveSeed(seeds: seq<Seed>, u: nat): (k: Option<nat>)
    ensures k.Some? ==> k.value < |seeds| && seeds[k.value].active && seeds[k.value].user == u
    ensures k.None? ==> forall j :: 0 <= j < |seeds| ==> !(seeds[j].active && seeds[j].user == u)
  {
    if seeds == [] then None
    else
      var n := |seeds| - 1;
      if seeds[n].active && seeds[n].user == u then Some(n) else ActiveSeed(seeds[..n], u)
  }

  /** `UPDATE server_seeds SET nonce = nonce + n`. */
  function Reserved(seeds: seq<Seed>, seed: nat, n: nat): (r: seq<Seed>)
    requires seed < |seeds|
    ensures |r| == |seeds|
  {
    seeds[seed := seeds[seed].(nonce := seeds[seed].nonce + n)]
  }

  /** Rows of one seed with consecutive nonces. */
  ghost predicate Block(rows: seq<Row>, seed: nat, first: nat) {
    forall i :: 0 <= i < |rows| ==> rows[i].seed == seed && rows[i].nonce == first + i
  }

  lemma {:induction false} NoncesOfBlock(rows: seq<Row>, block: seq<Row>, seed: nat, first: nat, k: nat)
    requires Block(block, seed, first)
    ensures NoncesOf(rows + block, k) == NoncesOf(rows, k) + (if k == seed then seq(|block|, i => first + i) else [])
  {
    if block == [] {
      assert rows + block == rows;
    } else {
      var n := |block| - 1;
      NoncesOfBlock(rows, block[..n], seed, first, k);
      assert (rows + block)[..|rows + block| - 1] == rows + block[..n];
    }
  }

  /** Reserving a block and recording as many rows keeps every counter exact. */
  lemma BlockKeepsNonces(seeds: seq<Seed>, rows: seq<Row>, seed: nat, block: seq<Row>)
    requires NoncesOk(seeds, rows) && seed < |seeds| && Block(block, seed, seeds[seed].nonce + 1)
    ensures NoncesOk(Reserved(seeds, seed, |block|), rows + block)
  {
    var seeds' := Reserved(seeds, seed, |block|);
    var n := seeds[seed].nonce;
    forall k | 0 <= k < |seeds'| ensures NoncesOf(rows + block, k) == UpTo(seeds'[k].nonce) {
      NoncesOfBlock(rows, block, seed, n + 1, k);
      if k == seed {
        assert UpTo(n + |block|) == UpTo(n) + seq(|block|, i => n + 1 + i);
      }
    }
  }

  lemma BlockKeepsRows(seeds: seq<Seed>, rows: seq<Row>, seed: nat, block: seq<Row>, digest: Digest)
    requires IsDigest(digest) && RowsOk(seeds, rows, digest) && seed < |seeds|
    requires forall i :: 0 <= i < |block| ==> RowOk(block[i], seeds, digest)
    ensures RowsOk(Reserved(seeds, seed, |block|), rows + block, digest)
  {
    hide ComputeRoll;
  }

  lemma ReservedKeepsSeeds(users: nat, seeds: seq<Seed>, seed: nat, n: nat)
    requires SeedsOk(users, seeds) && seed < |seeds|
    ensures SeedsOk(users, Reserved(seeds, seed, n))
  {
    var r := Reserved(seeds, seed, n);
    forall j, k | 0 <= j < k < |r| ensures !SameActiveUser(r[j], r[k]) {
      assert !SameActiveUser(seeds[j], seeds[k]);
    }
  }

  lemma {:induction false} NonceIsCounted(rows: seq<Row>, i: nat, j: nat)
    requires i < j < |rows| && rows[i].seed == rows[j].seed
    ensures exists a, b :: 0 <= a < b < |NoncesOf(rows, rows[i].seed)|
              && NoncesOf(rows, rows[i].seed)[a] == rows[i].nonce && NoncesOf(rows, rows[i].seed)[b] == rows[j].nonce
  {
    var n := |rows| - 1;
    var seed := rows[i].seed;
    var before, all := NoncesOf(rows[..n], seed), NoncesOf(rows, seed);
    if j < n {
      NonceIsCounted(rows[..n], i, j);
      var a, b :| 0 <= a < b < |before| && before[a] == rows[i].nonce && before[b] == rows[j].nonce;
      assert all[a] == rows[i].nonce && all[b] == rows[j].nonce;
    } else {
      NonceIsThere(rows[..n], i);
      var a :| 0 <= a < |before| && before[a] == rows[i].nonce;
      assert all[a] == rows[i].nonce && all[|before|] == rows[j].nonce;
    }
  }

  lemma {:induction false} NonceIsThere(rows: seq<Row>, i: nat)
    requires i < |rows|
    ensures exists a :: 0 <= a < |NoncesOf(rows, rows[i].seed)| && NoncesOf(rows, rows[i].seed)[a] == rows[i].nonce
  {
    var n := |rows| - 1;
    var seed := rows[i].seed;
    if i < n {
      NonceIsThere(rows[..n], i);
      var a :| 0 <= a < |NoncesOf(rows[..n], seed)| && NoncesOf(rows[..n], seed)[a] == rows[i].nonce;
      assert NoncesOf(rows, seed)[a] == rows[i].nonce;
    } else {
      assert NoncesOf(rows, seed)[|NoncesOf(rows[..n], seed)|] == rows[i].nonce;
    }
  }

  /** No pair of server seed and nonce is ever rolled twice. */
  lemma NoNonceTwice(seeds: seq<Seed>, rows: seq<Row>, i: nat, j: nat)
    requires NoncesOk(seeds, rows) && i < j < |rows| && rows[i].seed == rows[j].seed
    ensures rows[i].nonce < rows[j].nonce <= seeds[rows[i].seed].nonce
  {
    NonceIsCounted(rows, i, j);
    var seed := rows[i].seed;
    var a, b :| 0 <= a < b < |NoncesOf(rows, seed)|
      && NoncesOf(rows, seed)[a] == rows[i].nonce && NoncesOf(rows, seed)[b] == rows[j].nonce;
    assert NoncesOf(rows, seed) == UpTo(seeds[seed].nonce);
  }

  // ----- drops and the items they become

  function DropRow(digest: Digest, u: nat, seed: nat, client: nat, nonce: nat, caseId: nat, c: Case, battle: Option<BattleRound>): (r: Row)
    requires IsDigest(digest) && ValidCase(c)
    ensures r.purpose.Opening? && r.purpose.battle == battle && r.user == u && r.seed == seed && r.nonce == nonce
    ensures r.roll == ComputeRoll(digest, seed, r.client, nonce)
  {
    var roll := ComputeRoll(digest, seed, client, nonce);
    var item := c.items[Won(c, roll)];
    Row(u, seed, client, nonce, roll, Opening(caseId, item.itemId, c.price, item.price, battle))
  }

  ghost predicate ValidCases(views: seq<Case>) {
    forall i :: 0 <= i < |views| ==> ValidCase(views[i])
  }

  function RoundOf(battle: Option<nat>, round: nat): Option<BattleRound> {
    if battle.None? then None else Some(BattleRound(battle.value, round))
  }

  /** One roll per case, on consecutive nonces from `first`. */
  function RollAll(digest: Digest, u: nat, seed: nat, client: nat, first: nat,
                   ids: seq<nat>, views: seq<Case>, battle: Option<nat>): (rows: seq<Row>)
    requires IsDigest(digest) && ValidCases(views) && |ids| == |views|
    ensures |rows| == |ids|
  {
    if ids == [] then []
    else
      var n := |ids| - 1;
      RollAll(digest, u, seed, client, first, ids[..n], views[..n], battle)
      + [DropRow(digest, u, seed, client, first + n, ids[n], views[n], RoundOf(battle, n + 1))]
  }

  lemma {:induction false} RollAllIs(digest: Digest, u: nat, seed: nat, client: nat, first: nat,
                                     ids: seq<nat>, views: seq<Case>, battle: Option<nat>)
    requires IsDigest(digest) && ValidCases(views) && |ids| == |views|
    ensures var rows := RollAll(digest, u, seed, client, first, ids, views, battle);
            && Block(rows, seed, first)
            && forall i :: 0 <= i < |rows| ==>
                 rows[i] == DropRow(digest, u, seed, client, first + i, ids[i], views[i], RoundOf(battle, i + 1))
  {
    hide DropRow, IsDigest, ValidCase;
    if ids != [] {
      var n := |ids| - 1;
      RollAllIs(digest, u, seed, client, first, ids[..n], views[..n], battle);
    }
  }

  /** The item a row puts into an inventory. */
  function ItemOf(r: Row, owner: nat, source: nat): Option<InventoryItem> {
    match r.purpose
    case Opening(_, itemId, _, itemPrice, _) => Some(InventoryItem(owner, itemId, itemPrice, Available, source))
    case ContractRun(_, itemId, price) => Some(InventoryItem(owner, itemId, price, Available, source))
    case Spin(_) => None
  }

  function ItemsOf(rows: seq<Row>, owner: nat, base: nat): (items: seq<InventoryItem>)
    requires forall i :: 0 <= i < |rows| ==> rows[i].purpose.Opening?
    ensures |items| == |rows|
  {
    seq(|rows|, i requires 0 <= i < |rows| => ItemOf(rows[i], owner, base + i).value)
  }

  /** Who owns what a row produced: the winner of its battle, or whoever rolled it. */
  predicate OwnerOk(r: Row, owner: nat, battles: seq<BattleRow>) {
    match r.purpose
    case Opening(_, _, _, _, Some(round)) =>
      round.battleId < |battles| && battles[round.battleId].status == Finished
      && battles[round.battleId].winner == Some(owner)
    case _ => r.user == owner
  }

  predicate ItemMatches(item: InventoryItem, r: Row, battles: seq<BattleRow>) {
    && (match r.purpose
        case Opening(_, itemId, _, itemPrice, _) => item.itemId == itemId && item.price == itemPrice
        case ContractRun(_, itemId, price) => item.itemId == itemId && item.price == price
        case Spin(_) => true)
    && OwnerOk(r, item.owner, battles)
  }

  predicate Traced(item: InventoryItem, rows: seq<Row>, battles: seq<BattleRow>) {
    item.source < |rows| && ItemMatches(item, rows[item.source], battles)
  }

  /** Items follow the rows they came from, at most one each, and openings and contracts have theirs. */
  ghost predicate ItemsOk(rows: seq<Row>, inventory: seq<InventoryItem>, battles: seq<BattleRow>) {
    && (forall k :: 0 <= k < |inventory| ==> Traced(inventory[k], rows, battles))
    && (forall j, k :: 0 <= j < k < |inventory| ==> inventory[j].source < inventory[k].source)
    && (forall i :: 0 <= i < |rows| && !rows[i].purpose.Spin? ==> HasItem(inventory, i))
  }

  predicate HasItem(inventory: seq<InventoryItem>, row: nat) {
    exists k :: 0 <= k < |inventory| && inventory[k].source == row
  }

  lemma OpeningsAreTraced(rows: seq<Row>, block: seq<Row>, inventory: seq<InventoryItem>, battles: seq<BattleRow>, owner: nat)
    requires forall k :: 0 <= k < |inventory| ==> Traced(inventory[k], rows, battles)
    requires forall i :: 0 <= i < |block| ==> block[i].purpose.Opening? && OwnerOk(block[i], owner, battles)
    ensures var items := inventory + ItemsOf(block, owner, |rows|);
            forall k :: 0 <= k < |items| ==> Traced(items[k], rows + block, battles)
  {
    hide OwnerOk;
    var items := inventory + ItemsOf(block, owner, |rows|);
    forall k | 0 <= k < |items| ensures Traced(items[k], rows + block, battles) {
      if k < |inventory| {
        assert Traced(inventory[k], rows, battles);
        assert (rows + block)[inventory[k].source] == rows[inventory[k].source];
      } else {
        assert (rows + block)[items[k].source] == block[k - |inventory|];
      }
    }
  }

  lemma OpeningsHaveItems(rows: seq<Row>, block: seq<Row>, inventory: seq<InventoryItem>, owner: nat)
    requires forall i :: 0 <= i < |block| ==> block[i].purpose.Opening?
    requires forall i :: 0 <= i < |rows| && !rows[i].purpose.Spin? ==> HasItem(inventory, i)
    ensures var all := rows + block;
            forall i :: 0 <= i < |all| && !all[i].purpose.Spin? ==> HasItem(inventory + ItemsOf(block, owner, |rows|), i)
  {
    var all, items := rows + block, inventory + ItemsOf(block, owner, |rows|);
    forall i | 0 <= i < |all| && !all[i].purpose.Spin? ensures HasItem(items, i) {
      if i < |rows| {
        assert HasItem(inventory, i);
        var k :| 0 <= k < |inventory| && inventory[k].source == i;
        assert items[k].source == i;
      } else {
        assert items[|inventory| + (i - |rows|)].source == i;
      }
    }
  }

  lemma OpeningsAscend(rows: seq<Row>, block: seq<Row>, inventory: seq<InventoryItem>, battles: seq<BattleRow>, owner: nat)
    requires forall i :: 0 <= i < |block| ==> block[i].purpose.Opening?
    requires forall k :: 0 <= k < |inventory| ==> Traced(inventory[k], rows, battles)
    requires forall j, k :: 0 <= j < k < |inventory| ==> inventory[j].source < inventory[k].source
    ensures var items := inventory + ItemsOf(block, owner, |rows|);
            forall j, k :: 0 <= j < k < |items| ==> items[j].source < items[k].source
  {
    hide ItemMatches;
    var items := inventory + ItemsOf(block, owner, |rows|);
    forall j, k | 0 <= j < k < |items| ensures items[j].source < items[k].source {
      if j < |inventory| {
        assert Traced(inventory[j], rows, battles);
      }
    }
  }

  /** Recording openings together with their items. */
  lemma OpeningsKeepItems(rows: seq<Row>, block: seq<Row>, inventory: seq<InventoryItem>, battles: seq<BattleRow>, owner: nat)
    requires ItemsOk(rows, inventory, battles)
    requires forall i :: 0 <= i < |block| ==> block[i].purpose.Opening? && OwnerOk(block[i], owner, battles)
    ensures ItemsOk(rows + block, inventory + ItemsOf(block, owner, |rows|), battles)
  {
    hide ItemsOf, Traced, HasItem, OwnerOk;
    OpeningsAreTraced(rows, block, inventory, battles, owner);
    OpeningsHaveItems(rows, block, inventory, owner);
    OpeningsAscend(rows, block, inventory, battles, owner);
  }

  /** One more row whose roller owns what it produced. */
  lemma OneMoreItem(rows: seq<Row>, row: Row, inventory: seq<InventoryItem>, battles: seq<BattleRow>, item: InventoryItem)
    requires ItemsOk(rows, inventory, battles) && item.source == |rows| && ItemMatches(item, row, battles)
    ensures ItemsOk(rows + [row], inventory + [item], battles)
  {
    var all, items := rows + [row], inventory + [item];
    forall k | 0 <= k < |items| ensures Traced(items[k], all, battles) {
      if k < |inventory| {
        assert Traced(inventory[k], rows, battles);
      }
    }
    forall j, k | 0 <= j < k < |items| ensures items[j].source < items[k].source {
      assert Traced(inventory[j], rows, battles);
    }
    forall i | 0 <= i < |all| && !all[i].purpose.Spin? ensures HasItem(items, i) {
      if i < |rows| {
        assert HasItem(inventory, i);
        var k :| 0 <= k < |inventory| && inventory[k].source == i;
        assert items[k].source == i;
      } else {
        assert items[|inventory|].source == i;
      }
    }
  }

  /** A spin that granted nothing. */
  lemma NoItemForSpin(rows: seq<Row>, row: Row, inventory: seq<InventoryItem>, battles: seq<BattleRow>)
    requires ItemsOk(rows, inventory, battles) && row.purpose.Spin?
    ensures ItemsOk(rows + [row], inventory, battles)
  {
    forall k | 0 <= k < |inventory| ensures Traced(inventory[k], rows + [row], battles) {
      assert Traced(inventory[k], rows, battles);
    }
  }

  /** Claiming stakes changes no owner and no origin. */
  lemma SameItems(rows: seq<Row>, inventory: seq<InventoryItem>, changed: seq<InventoryItem>, battles: seq<BattleRow>)
    requires ItemsOk(rows, inventory, battles) && |changed| == |inventory|
    requires forall k :: 0 <= k < |inventory| ==> changed[k].(status := Available) == inventory[k].(status := Available)
    ensures ItemsOk(rows, changed, battles)
  {
    forall k | 0 <= k < |inventory|
      ensures Traced(changed[k], rows, battles) && changed[k].source == inventory[k].source
    {
      assert Traced(inventory[k], rows, battles);
      assert changed[k].(status := Available) == inventory[k].(status := Available);
    }
    forall i | 0 <= i < |rows| && !rows[i].purpose.Spin? ensures HasItem(changed, i) {
      assert HasItem(inventory, i);
      var k :| 0 <= k < |inventory| && inventory[k].source == i;
      assert changed[k].source == i;
    }
  }

  /** Finished battles stay as they are, so what their drops became stays explained. */
  lemma LaterBattlesKeepItems(rows: seq<Row>, inventory: seq<InventoryItem>, battles: seq<BattleRow>, battles': seq<BattleRow>)
    requires ItemsOk(rows, inventory, battles) && |battles| <= |battles'|
    requires forall b :: 0 <= b < |battles| && battles[b].status == Finished ==> battles'[b] == battles[b]
    ensures ItemsOk(rows, inventory, battles')
  {
    forall k | 0 <= k < |inventory| ensures Traced(inventory[k], rows, battles') {
      assert Traced(inventory[k], rows, battles);
    }
  }
}
