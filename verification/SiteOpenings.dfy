/** Openings with their vouchers, wheel spins, contracts and manual adjustments. */
module SiteOpenings {
  import opened ContractOdds
  import opened ContractPool
  import opened ContractTable
  import opened Rolls
  import opened Site
  import opened Tickets
  import opened Wrappers

  const MAX_CASES_PER_OPEN := 10
  const CONTRACT_MIN_ITEMS := 3
  const CONTRACT_MAX_ITEMS := 10

  // ----- vouchers

  predicate IsVoucher(kind: BonusKind) {
    kind == Discount || kind == FreeCase
  }

  /** Vouchers come from the wheel: positive values, discounts below 100%; anything else is born consumed. */
  predicate BonusOk(b: Bonus, users: nat) {
    b.user < users && b.value > 0 && (b.kind == Discount ==> b.value < 10_000) && (IsVoucher(b.kind) || b.consumed)
  }

  ghost predicate BonusesOk(users: nat, bonuses: seq<Bonus>) {
    forall i :: 0 <= i < |bonuses| ==> BonusOk(bonuses[i], users)
  }

  function VoucherSaving(kind: BonusKind, value: int, casePrice: int, count: int): int {
    match kind
    case FreeCase => if casePrice <= value then casePrice else 0
    case Discount => (casePrice * count * value) / 10_000
    case _ => 0
  }

  /** A voucher never saves more than the list price, nor a negative amount. */
  lemma SavingIsAtMostListPrice(b: Bonus, users: nat, casePrice: int, count: int)
    requires BonusOk(b, users) && casePrice >= 0 && count >= 1
    ensures 0 <= VoucherSaving(b.kind, b.value, casePrice, count) <= casePrice * count
  {
    var list := casePrice * count;
    ListAtLeastOne(casePrice, count);
    if b.kind == Discount {
      ShareOf(list, b.value);
    }
  }

  lemma ListAtLeastOne(casePrice: int, count: int)
    requires casePrice >= 0 && count >= 1
    ensures 0 <= casePrice <= casePrice * count
  {
  }

  lemma ShareOf(list: int, value: int)
    requires list >= 0 && 0 < value < 10_000
    ensures 0 <= (list * value) / 10_000 <= list
  {
    assert 0 <= list * value <= list * 10_000;
  }

  /** A row the voucher query returned: the player's, and unconsumed when it was read. */
  predicate Listed(bonuses: seq<Bonus>, u: nat, seen: set<nat>, i: nat)
    requires i < |bonuses|
  {
    bonuses[i].user == u && i in seen
  }

  function SavingAt(bonuses: seq<Bonus>, i: nat, casePrice: int, count: int): int
    requires i < |bonuses|
  {
    VoucherSaving(bonuses[i].kind, bonuses[i].value, casePrice, count)
  }

  /** The best of the `n` oldest vouchers: a larger saving, and the older on a tie. */
  function BestVoucher(bonuses: seq<Bonus>, n: nat, u: nat, casePrice: int, count: int, seen: set<nat>): (best: Option<nat>)
    requires n <= |bonuses|
    ensures best.Some? ==> best.value < n && Listed(bonuses, u, seen, best.value)
  {
    if n == 0 then None
    else
      var best := BestVoucher(bonuses, n - 1, u, casePrice, count, seen);
      if !Listed(bonuses, u, seen, n - 1) || SavingAt(bonuses, n - 1, casePrice, count) <= 0 then best
      else if best.None? || SavingAt(bonuses, n - 1, casePrice, count) > SavingAt(bonuses, best.value, casePrice, count)
      then Some(n - 1)
      else best
  }

  /** It saves something, nothing saves more, and nothing older saves as much; without it nothing saves at all. */
  lemma {:induction false} BestVoucherIsBest(bonuses: seq<Bonus>, n: nat, u: nat, casePrice: int, count: int, seen: set<nat>)
    requires n <= |bonuses|
    ensures var best := BestVoucher(bonuses, n, u, casePrice, count, seen);
            forall i :: 0 <= i < n && Listed(bonuses, u, seen, i) ==>
              if best.None? then SavingAt(bonuses, i, casePrice, count) <= 0
              else
                && SavingAt(bonuses, best.value, casePrice, count) >= SavingAt(bonuses, i, casePrice, count)
                && (i < best.value ==>
                      SavingAt(bonuses, i, casePrice, count) < SavingAt(bonuses, best.value, casePrice, count))
    ensures var best := BestVoucher(bonuses, n, u, casePrice, count, seen);
            best.Some? ==> SavingAt(bonuses, best.value, casePrice, count) > 0
  {
    hide VoucherSaving;
    if n > 0 {
      BestVoucherIsBest(bonuses, n - 1, u, casePrice, count, seen);
    }
  }

  /** The voucher an opening spends: the best one, unless somebody spent it since it was read. */
  function Applied(bonuses: seq<Bonus>, u: nat, casePrice: int, count: int, seen: set<nat>): (used: Option<nat>)
    ensures used.Some? ==> used.value < |bonuses| && !bonuses[used.value].consumed && Listed(bonuses, u, seen, used.value)
  {
    var best := BestVoucher(bonuses, |bonuses|, u, casePrice, count, seen);
    if best.Some? && !bonuses[best.value].consumed then best else None
  }

  function Consumed(bonuses: seq<Bonus>, used: Option<nat>): (r: seq<Bonus>)
    requires used.Some? ==> used.value < |bonuses|
    ensures |r| == |bonuses|
  {
    if used.None? then bonuses else bonuses[used.value := bonuses[used.value].(consumed := true)]
  }

  function AppliedSaving(bonuses: seq<Bonus>, used: Option<nat>, casePrice: int, count: int): int
    requires used.Some? ==> used.value < |bonuses|
  {
    if used.None? then 0 else SavingAt(bonuses, used.value, casePrice, count)
  }

  // ----- openings

  /** `count` openings of the same case. */
  function OpenRows(digest: Digest, u: nat, seed: nat, client: nat, first: nat, count: nat, caseId: nat, c: Case): (rows: seq<Row>)
    requires IsDigest(digest) && ValidCase(c)
    ensures |rows| == count && forall i :: 0 <= i < count ==> rows[i].purpose.Opening?
  {
    var ids, views := seq(count, _ => caseId), seq(count, _ => c);
    RollAllIs(digest, u, seed, client, first, ids, views, None);
    RollAll(digest, u, seed, client, first, ids, views, None)
  }

  datatype Opened = Opened(state: State, bonus: Option<nat>, saving: int, totalPrice: int, drops: seq<Row>)

  function NonNegative(x: int): int {
    if x > 0 then x else 0
  }

  /** The opening as one committed transaction. `read` is the case as read before it, `seen` the vouchers it listed. */
  function TxOpenCase(s: State, digest: Digest, u: nat, caseId: nat, read: Case, count: int, seen: set<nat>): Result<Opened, SiteError>
    requires IsDigest(digest) && (read.items != [] ==> ValidCase(read))
  {
    if !(1 <= count <= MAX_CASES_PER_OPEN) then Err(BatchSizeInvalid)
    else if !read.isActive then Err(CaseUnavailable)
    else if read.items == [] then Err(CaseIsEmpty)
    else if u >= |s.users| || s.users[u].banned then Err(AccountBanned)
    else
      var used := Applied(s.bonuses, u, read.price, count, seen);
      var saving := AppliedSaving(s.bonuses, used, read.price, count);
      var total := NonNegative(read.price * count - saving);
      var seed := ActiveSeed(s.seeds, u);
      if s.users[u].balance < total then Err(InsufficientFunds)
      else if seed.None? || s.users[u].clientSeed.None? then Err(NoActiveSeed)
      else
        var first := s.seeds[seed.value].nonce + 1;
        var drops := OpenRows(digest, u, seed.value, s.users[u].clientSeed.value, first, count, caseId, read);
        var paid := Pay(s, u, -total, CaseOpen, None);
        Ok(Opened(
             paid.(bonuses := Consumed(s.bonuses, used), seeds := Reserved(s.seeds, seed.value, count),
                   rows := s.rows + drops, inventory := s.inventory + ItemsOf(drops, u, |s.rows|)),
             used, saving, total, drops))
  }

  // ----- spins

  datatype Slice = Slice(kind: BonusKind, value: int, range: Range)

  function SliceRanges(wheel: seq<Slice>): (s: seq<Range>)
    ensures |s| == |wheel|
  {
    seq(|wheel|, i requires 0 <= i < |wheel| => wheel[i].range)
  }

  /** What `buildWheel` makes of the settings: slices that tile the ticket space. */
  ghost predicate ValidWheel(wheel: seq<Slice>) {
    && TilesFrom(SliceRanges(wheel), 0)
    && forall i :: 0 <= i < |wheel| ==> wheel[i].value > 0 && (wheel[i].kind == Discount ==> wheel[i].value < 10_000)
  }

  function SliceAt(wheel: seq<Slice>, roll: nat): (k: nat)
    requires ValidWheel(wheel) && roll < TICKET_SPACE
    ensures k < |wheel| && Covers(wheel[k].range, roll) && PickByRoll(SliceRanges(wheel), roll) == Some(k)
  {
    TilesCoverOnce(SliceRanges(wheel), 0);
    PickNeverThrows(SliceRanges(wheel), roll);
    PickByRoll(SliceRanges(wheel), roll).value
  }

  /** An active catalogue item, with the market price it is filtered by and the price it counts at. */
  datatype Grant = Grant(itemId: nat, marketPrice: int, price: int)

  function Eligible(catalogue: seq<Grant>, ceiling: int): seq<Grant> {
    if catalogue == [] then []
    else
      var rest := Eligible(catalogue[..|catalogue| - 1], ceiling);
      var g := catalogue[|catalogue| - 1];
      if 0 < g.marketPrice <= ceiling && 0 < g.price <= ceiling then rest + [g] else rest
  }

  /** The skin a slice turns into: chosen by the roll that picked the slice. */
  function PickGrant(catalogue: seq<Grant>, slice: Slice, roll: nat): Option<Grant> {
    var eligible := Eligible(catalogue, slice.value);
    if slice.kind != FreeItem || eligible == [] then None else Some(eligible[roll % |eligible|])
  }

  datatype Spun = Spun(state: State, slice: Slice, roll: nat, item: Option<Grant>, credited: int)

  function TxSpin(s: State, digest: Digest, u: nat, wheel: seq<Slice>, cooldown: int, catalogue: seq<Grant>): Result<Spun, SiteError>
    requires IsDigest(digest) && ValidWheel(wheel)
  {
    if u >= |s.users| || s.users[u].banned then Err(AccountBanned)
    else if s.users[u].lastBonusAt.Some? && s.users[u].lastBonusAt.value > s.now - cooldown then Err(BonusOnCooldown)
    else
      var seed := ActiveSeed(s.seeds, u);
      if seed.None? || s.users[u].clientSeed.None? then Err(NoActiveSeed)
      else
        var client := s.users[u].clientSeed.value;
        var nonce := s.seeds[seed.value].nonce + 1;
        var roll := ComputeRoll(digest, seed.value, client, nonce);
        var slice := wheel[SliceAt(wheel, roll)];
        var item := PickGrant(catalogue, slice, roll);
        var credited := if slice.kind == Balance || (slice.kind == FreeItem && item.None?) then slice.value else 0;
        var claimed := s.(users := s.users[u := s.users[u].(lastBonusAt := Some(s.now))],
                          seeds := Reserved(s.seeds, seed.value, 1),
                          rows := s.rows + [Row(u, seed.value, client, nonce, roll, Spin(|s.bonuses|))],
                          bonuses := s.bonuses + [Bonus(u, slice.kind, slice.value, !IsVoucher(slice.kind))]);
        var paid := if credited > 0 then Pay(claimed, u, credited, BonusCredit, None) else claimed;
        var granted := if item.None? then paid
                       else paid.(inventory := s.inventory + [InventoryItem(u, item.value.itemId, item.value.price, Available, |s.rows|)]);
        Ok(Spun(granted, slice, roll, item, credited))
  }

  // ----- contracts

  /** The stakes the query finds: the player's own items that are still available. */
  predicate Stakable(inventory: seq<InventoryItem>, u: nat, i: nat) {
    i < |inventory| && inventory[i].owner == u && inventory[i].status == Available
  }

  /** Every id names a different item of the player's that is still available. */
  predicate StakesFound(inventory: seq<InventoryItem>, u: nat, ids: seq<nat>) {
    && (forall k :: 0 <= k < |ids| ==> Stakable(inventory, u, ids[k]))
    && (forall j, k :: 0 <= j < k < |ids| ==> ids[j] != ids[k])
  }

  function StakeValue(inventory: seq<InventoryItem>, ids: seq<nat>): int
    requires forall k :: 0 <= k < |ids| ==> ids[k] < |inventory|
  {
    if ids == [] then 0 else StakeValue(inventory, ids[..|ids| - 1]) + inventory[ids[|ids| - 1]].price
  }

  function Claimed(inventory: seq<InventoryItem>, ids: seq<nat>): (r: seq<InventoryItem>)
    ensures |r| == |inventory|
  {
    seq(|inventory|, i requires 0 <= i < |inventory| =>
      if i in ids then inventory[i].(status := Contracted) else inventory[i])
  }

  function OutcomeAt(outcomes: seq<Outcome>, roll: nat): (k: nat)
    requires TilesFrom(ContractTable.RangesOf(outcomes), 0) && roll < TICKET_SPACE
    ensures k < |outcomes| && Covers(outcomes[k].range, roll)
  {
    TilesCoverOnce(ContractTable.RangesOf(outcomes), 0);
    PickNeverThrows(ContractTable.RangesOf(outcomes), roll);
    PickByRoll(ContractTable.RangesOf(outcomes), roll).value
  }

  datatype Contract = Contract(state: State, pool: PoolResult, roll: nat, reward: Outcome)

  function TxContract(s: State, digest: Digest, m: Maths, u: nat, ids: seq<nat>, catalogue: seq<Candidate>): Result<Contract, SiteError>
    requires IsDigest(digest) && m.Valid()
  {
    if u >= |s.users| || s.users[u].banned then Err(AccountBanned)
    else if !(CONTRACT_MIN_ITEMS <= |ids| <= CONTRACT_MAX_ITEMS) then Err(ContractSizeInvalid)
    else if !StakesFound(s.inventory, u, ids) then Err(ItemUnavailable)
    else
      var stake := StakeValue(s.inventory, ids);
      var pool := BuiltPool(m, catalogue, stake);
      if pool.Rejected? then Err(ContractPoolEmpty)
      else
        var seed := ActiveSeed(s.seeds, u);
        if seed.None? || s.users[u].clientSeed.None? then Err(NoActiveSeed)
        else
          var client := s.users[u].clientSeed.value;
          var nonce := s.seeds[seed.value].nonce + 1;
          var roll := ComputeRoll(digest, seed.value, client, nonce);
          AcceptedTableIsSound(m, catalogue, stake);
          var reward := pool.outcomes[OutcomeAt(pool.outcomes, roll)];
          var row := Row(u, seed.value, client, nonce, roll, ContractRun(stake, reward.itemId, reward.price));
          Ok(Contract(
               s.(seeds := Reserved(s.seeds, seed.value, 1), rows := s.rows + [row],
                  inventory := Claimed(s.inventory, ids)
                               + [InventoryItem(u, reward.itemId, reward.price, Available, |s.rows|)]),
               pool, roll, reward))
  }

  // ----- adjustments

  function TxAdjust(s: State, u: nat, amount: int): Result<State, SiteError> {
    if u >= |s.users| then Err(AccountBanned)
    else if s.users[u].balance + amount < 0 then Err(NegativeBalance)
    else Ok(Pay(s, u, amount, AdminAdjustment, None))
  }
}
