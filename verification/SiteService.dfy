/**
 * The services' own steps. A transaction works on a copy of the tables and
 * commits it at the end; an error on the way leaves the database as it was.
 */
module SiteService {
  import opened ContractOdds
  import opened ContractPool
  import opened ContractTable
  import opened Exponential
  import opened Site
  import opened SiteOpenings
  import opened Tickets
  import opened Wrappers

  lemma RollOneMore(digest: Digest, u: nat, seed: nat, client: nat, first: nat,
                                       ids: seq<nat>, views: seq<Case>, battle: Option<nat>, n: nat)
    requires IsDigest(digest) && ValidCases(views) && |ids| == |views| && n < |ids|
    ensures RollAll(digest, u, seed, client, first, ids[..n + 1], views[..n + 1], battle)
            == RollAll(digest, u, seed, client, first, ids[..n], views[..n], battle)
               + [DropRow(digest, u, seed, client, first + n, ids[n], views[n], RoundOf(battle, n + 1))]
  {
    assert ids[..n + 1][..n] == ids[..n] && views[..n + 1][..n] == views[..n];
  }

  lemma ItemsOneMore(rows: seq<Row>, row: Row, owner: nat, base: nat)
    requires row.purpose.Opening? && forall i :: 0 <= i < |rows| ==> rows[i].purpose.Opening?
    ensures ItemsOf(rows + [row], owner, base) == ItemsOf(rows, owner, base) + [Site.ItemOf(row, owner, base + |rows|).value]
  {
  }

  /** One roll per case, each recorded with the item it won. */
  method RollCases(digest: Digest, u: nat, seed: nat, client: nat, first: nat, ids: seq<nat>, views: seq<Case>, battle: Option<nat>)
    returns (drops: seq<Row>)
    requires IsDigest(digest) && ValidCases(views) && |ids| == |views|
    ensures drops == RollAll(digest, u, seed, client, first, ids, views, battle)
  {
    hide IsDigest, ValidCase, ComputeRoll;
    drops := [];
    for i := 0 to |ids|
      invariant drops == RollAll(digest, u, seed, client, first, ids[..i], views[..i], battle)
    {
      RollOneMore(digest, u, seed, client, first, ids, views, battle, i);
      var c := views[i];
      var roll := ComputeRoll(digest, seed, client, first + i);
      var won := c.items[Won(c, roll)];
      drops := drops + [Row(u, seed, client, first + i, roll, Opening(ids[i], won.itemId, c.price, won.price, RoundOf(battle, i + 1)))];
    }
    assert ids[..|ids|] == ids && views[..|ids|] == views;
  }

  /** The items the drops become, one each. */
  method GrantItems(drops: seq<Row>, owner: nat, base: nat) returns (items: seq<InventoryItem>)
    requires forall i :: 0 <= i < |drops| ==> drops[i].purpose.Opening?
    ensures items == ItemsOf(drops, owner, base)
  {
    items := [];
    for i := 0 to |drops|
      invariant items == ItemsOf(drops[..i], owner, base)
    {
      assert drops[..i + 1] == drops[..i] + [drops[i]];
      ItemsOneMore(drops[..i], drops[i], owner, base);
      items := items + [InventoryItem(owner, drops[i].purpose.itemId, drops[i].purpose.itemPrice, Available, base + i)];
    }
    assert drops[..|drops|] == drops;
  }

  /** The tables; a committed transaction replaces them. */
  class Database {
    var tables: State

    constructor (tables: State)
      ensures this.tables == tables
    {
      this.tables := tables;
    }
  }

  /** The daily wheel and the vouchers it pays. */
  class BonusService {
    const database: Database
    const digest: Digest

    constructor (database: Database, digest: Digest)
      ensures this.database == database && this.digest == digest
    {
      this.database := database;
      this.digest := digest;
    }

    /** The voucher worth most, claimed only if it is still unspent. */
    method ApplyBest(bonuses: seq<Bonus>, u: nat, casePrice: int, count: int, seen: set<nat>)
      returns (after: seq<Bonus>, used: Option<nat>)
      ensures used == Applied(bonuses, u, casePrice, count, seen) && after == Consumed(bonuses, used)
    {
      hide VoucherSaving;
      var best: Option<nat> := None;
      for i := 0 to |bonuses|
        invariant best == BestVoucher(bonuses, i, u, casePrice, count, seen)
      {
        if bonuses[i].user == u && i in seen {
          var saving := VoucherSaving(bonuses[i].kind, bonuses[i].value, casePrice, count);
          if saving > 0 && (best.None? || saving > SavingAt(bonuses, best.value, casePrice, count)) {
            best := Some(i);
          }
        }
      }
      if best.None? || bonuses[best.value].consumed {
        return bonuses, None;
      }
      return bonuses[best.value := bonuses[best.value].(consumed := true)], best;
    }

    method SpinWheel(u: nat, wheel: seq<Slice>, cooldown: int, catalogue: seq<Grant>) returns (r: Result<Spun, SiteError>)
      requires IsDigest(digest) && ValidWheel(wheel)
      modifies database
      ensures r == TxSpin(old(database.tables), digest, u, wheel, cooldown, catalogue)
      ensures database.tables == if r.Ok? then r.value.state else old(database.tables)
    {
      hide IsDigest, ValidWheel, ComputeRoll, PickGrant;
      var tx := database.tables;
      if u >= |tx.users| || tx.users[u].banned {
        return Err(AccountBanned);
      }
      if tx.users[u].lastBonusAt.Some? && tx.users[u].lastBonusAt.value > tx.now - cooldown {
        return Err(BonusOnCooldown);
      }
      var seed := ActiveSeed(tx.seeds, u);
      if seed.None? || tx.users[u].clientSeed.None? {
        return Err(NoActiveSeed);
      }
      tx := tx.(users := tx.users[u := tx.users[u].(lastBonusAt := Some(tx.now))], seeds := Reserved(tx.seeds, seed.value, 1));
      var client, nonce := tx.users[u].clientSeed.value, tx.seeds[seed.value].nonce;
      var roll := ComputeRoll(digest, seed.value, client, nonce);
      var slice := wheel[SliceAt(wheel, roll)];
      var item := PickGrant(catalogue, slice, roll);
      var row := |tx.rows|;
      tx := tx.(rows := tx.rows + [Row(u, seed.value, client, nonce, roll, Spin(|tx.bonuses|))],
                bonuses := tx.bonuses + [Bonus(u, slice.kind, slice.value, !IsVoucher(slice.kind))]);
      var credited := 0;
      if slice.kind == Balance || (slice.kind == FreeItem && item.None?) {
        assert slice.value > 0 by { SliceIsPositive(wheel, SliceAt(wheel, roll)); }
        credited := slice.value;
        tx := Pay(tx, u, credited, BonusCredit, None);
      }
      if item.Some? {
        tx := tx.(inventory := tx.inventory + [InventoryItem(u, item.value.itemId, item.value.price, Available, row)]);
      }
      database.tables := tx;
      return Ok(Spun(tx, slice, roll, item, credited));
    }
  }

  /** Openings. */
  class CasesService {
    const database: Database
    const digest: Digest
    const bonus: BonusService

    constructor (database: Database, digest: Digest, bonus: BonusService)
      ensures this.database == database && this.digest == digest && this.bonus == bonus
    {
      this.database := database;
      this.digest := digest;
      this.bonus := bonus;
    }

    method OpenCase(u: nat, caseId: nat, read: Case, count: int, seen: set<nat>) returns (r: Result<Opened, SiteError>)
      requires IsDigest(digest) && (read.items != [] ==> ValidCase(read))
      modifies database
      ensures r == TxOpenCase(old(database.tables), digest, u, caseId, read, count, seen)
      ensures database.tables == if r.Ok? then r.value.state else old(database.tables)
    {
      hide IsDigest, ValidCase, Applied, RollAll;
      if !(1 <= count <= MAX_CASES_PER_OPEN) {
        return Err(BatchSizeInvalid);
      }
      if !read.isActive {
        return Err(CaseUnavailable);
      }
      if read.items == [] {
        return Err(CaseIsEmpty);
      }
      var tx := database.tables;
      if u >= |tx.users| || tx.users[u].banned {
        return Err(AccountBanned);
      }
      var bonuses, used := bonus.ApplyBest(tx.bonuses, u, read.price, count, seen);
      var saving := AppliedSaving(tx.bonuses, used, read.price, count);
      var total := NonNegative(read.price * count - saving);
      if tx.users[u].balance < total {
        return Err(InsufficientFunds);
      }
      var seed := ActiveSeed(tx.seeds, u);
      if seed.None? || tx.users[u].clientSeed.None? {
        return Err(NoActiveSeed);
      }
      var seeds := Reserved(tx.seeds, seed.value, count);
      var first := seeds[seed.value].nonce - count + 1;
      var drops := RollCases(digest, u, seed.value, tx.users[u].clientSeed.value, first,
                             seq(count, _ => caseId), seq(count, _ => read), None);
      assert drops == OpenRows(digest, u, seed.value, tx.users[u].clientSeed.value, first, count, caseId, read);
      var items := GrantItems(drops, u, |tx.rows|);
      tx := Pay(tx, u, -total, CaseOpen, None);
      tx := tx.(bonuses := bonuses, seeds := seeds, rows := tx.rows + drops, inventory := tx.inventory + items);
      database.tables := tx;
      return Ok(Opened(tx, used, saving, total, drops));
    }
  }

  /** Contracts. */
  class ContractsService {
    const database: Database
    const digest: Digest
    const maths: Maths

    constructor (database: Database, digest: Digest, maths: Maths)
      ensures this.database == database && this.digest == digest && this.maths == maths
    {
      this.database := database;
      this.digest := digest;
      this.maths := maths;
    }

    method RunContract(u: nat, ids: seq<nat>, catalogue: seq<Candidate>) returns (r: Result<Contract, SiteError>)
      requires IsDigest(digest) && maths.Valid()
      modifies database
      ensures r == TxContract(old(database.tables), digest, maths, u, ids, catalogue)
      ensures database.tables == if r.Ok? then r.value.state else old(database.tables)
    {
      hide IsDigest, ComputeRoll, BuiltPool, IsExp, IsLog, SoundTable, StakeValue, Claimed, TilesFrom, Covers;
      var tx := database.tables;
      if u >= |tx.users| || tx.users[u].banned {
        return Err(AccountBanned);
      }
      if !(CONTRACT_MIN_ITEMS <= |ids| <= CONTRACT_MAX_ITEMS) {
        return Err(ContractSizeInvalid);
      }
      if !StakesFound(tx.inventory, u, ids) {
        return Err(ItemUnavailable);
      }
      var stake := StakeValue(tx.inventory, ids);
      var pool := BuildContractPool(maths, catalogue, stake);
      if pool.Rejected? {
        return Err(ContractPoolEmpty);
      }
      var seed := ActiveSeed(tx.seeds, u);
      if seed.None? || tx.users[u].clientSeed.None? {
        return Err(NoActiveSeed);
      }
      var claimed := Claimed(tx.inventory, ids);
      tx := tx.(inventory := claimed, seeds := Reserved(tx.seeds, seed.value, 1));
      var client, nonce := tx.users[u].clientSeed.value, tx.seeds[seed.value].nonce;
      var roll := ComputeRoll(digest, seed.value, client, nonce);
      assert TilesFrom(ContractTable.RangesOf(pool.outcomes), 0) by { AcceptedTiles(maths, catalogue, stake); }
      var reward := pool.outcomes[OutcomeAt(pool.outcomes, roll)];
      tx := tx.(rows := tx.rows + [Row(u, seed.value, client, nonce, roll, ContractRun(stake, reward.itemId, reward.price))],
                inventory := tx.inventory + [InventoryItem(u, reward.itemId, reward.price, Available, |tx.rows|)]);
      database.tables := tx;
      return Ok(Contract(tx, pool, roll, reward));
    }
  }

  /** Manual adjustments. */
  class AdminService {
    const database: Database

    constructor (database: Database)
      ensures this.database == database
    {
      this.database := database;
    }

    method AdjustBalance(u: nat, amount: int) returns (r: Result<(int, int), SiteError>)
      modifies database
      ensures match TxAdjust(old(database.tables), u, amount)
              case Ok(s) => database.tables == s && r == Ok((old(database.tables).users[u].balance, s.users[u].balance))
              case Err(e) => database.tables == old(database.tables) && r == Err(e)
    {
      var tx := database.tables;
      if u >= |tx.users| {
        return Err(AccountBanned);
      }
      var before := tx.users[u].balance;
      if before + amount < 0 {
        return Err(NegativeBalance);
      }
      tx := tx.(users := SetBalance(tx.users, u, before + amount));
      tx := tx.(ledger := tx.ledger + [Entry(u, amount, tx.users[u].balance, AdminAdjustment, None)]);
      database.tables := tx;
      return Ok((before, tx.users[u].balance));
    }
  }

  lemma SliceIsPositive(wheel: seq<Slice>, k: nat)
    requires ValidWheel(wheel) && k < |wheel|
    ensures wheel[k].value > 0
  {
  }

  lemma AcceptedTiles(m: Maths, catalogue: seq<Candidate>, stake: int)
    requires m.Valid() && BuiltPool(m, catalogue, stake).Accepted?
    ensures TilesFrom(ContractTable.RangesOf(BuiltPool(m, catalogue, stake).outcomes), 0)
  {
    AcceptedTableIsSound(m, catalogue, stake);
  }
}
