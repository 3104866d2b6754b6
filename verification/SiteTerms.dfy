/** When each transaction goes through, and the amounts it moves, without the functions that compute them. */
module SiteTerms {
  import opened Battle
  import opened ContractOdds
  import opened ContractPool
  import opened ContractTable
  import opened Site
  import opened SiteBattles
  import opened SiteCases
  import opened SiteCommits
  import opened SiteInvariant
  import opened SiteOpenings
  import Sorting
  import opened Tickets
  import opened Wrappers

  lemma ActiveSeedExists(s: State, u: nat)
    ensures ActiveSeed(s.seeds, u).Some? <==> exists k :: 0 <= k < |s.seeds| && s.seeds[k].active && s.seeds[k].user == u
  {
  }

  // ----- vouchers

  /**
   * A free case saves one case it covers; a discount of `value` ten-thousandths
   * saves the largest whole amount within its share of the list price of all
   * cases; nothing else saves anything.
   */
  lemma SavingIsExact(kind: BonusKind, value: int, casePrice: int, count: int, x: int)
    ensures var saving := VoucherSaving(kind, value, casePrice, count);
            && (kind == FreeCase ==> saving == if casePrice <= value then casePrice else 0)
            && (kind == Discount ==> (x <= saving <==> x * 10_000 <= casePrice * count * value))
            && (kind == Balance || kind == FreeItem ==> saving == 0)
  {
    if kind == Discount {
      FloorIsLargest(casePrice * count * value, x);
    }
  }

  lemma FloorIsLargest(a: int, x: int)
    ensures x <= a / 10_000 <==> x * 10_000 <= a
  {
  }

  /** Among the vouchers read: it saves something, none saves more, and none older saves as much. */
  ghost predicate SavesMost(bonuses: seq<Bonus>, u: nat, casePrice: int, count: int, seen: set<nat>, i: nat) {
    && i < |bonuses| && bonuses[i].user == u && i in seen && SavingAt(bonuses, i, casePrice, count) > 0
    && (forall j :: 0 <= j < |bonuses| && bonuses[j].user == u && j in seen ==>
          && SavingAt(bonuses, j, casePrice, count) <= SavingAt(bonuses, i, casePrice, count)
          && (j < i ==> SavingAt(bonuses, j, casePrice, count) < SavingAt(bonuses, i, casePrice, count)))
  }

  /** A voucher is applied exactly when it saves most of those read and is still unspent. */
  lemma AppliedExactlyWhen(bonuses: seq<Bonus>, u: nat, casePrice: int, count: int, seen: set<nat>, i: nat)
    ensures Applied(bonuses, u, casePrice, count, seen) == Some(i)
            <==> SavesMost(bonuses, u, casePrice, count, seen, i) && !bonuses[i].consumed
  {
    hide BestVoucher, VoucherSaving, SavingAt;
    BestVoucherIsBest(bonuses, |bonuses|, u, casePrice, count, seen);
    var best := BestVoucher(bonuses, |bonuses|, u, casePrice, count, seen);
    if SavesMost(bonuses, u, casePrice, count, seen, i) {
      assert Listed(bonuses, u, seen, i);
      assert best.Some? && Listed(bonuses, u, seen, best.value);
    }
    if best == Some(i) {
      forall j | 0 <= j < |bonuses| && bonuses[j].user == u && j in seen
        ensures SavingAt(bonuses, j, casePrice, count) <= SavingAt(bonuses, i, casePrice, count)
        ensures j < i ==> SavingAt(bonuses, j, casePrice, count) < SavingAt(bonuses, i, casePrice, count)
      {
        assert Listed(bonuses, u, seen, j);
      }
    }
  }

  // ----- openings

  /** What an opening costs once this voucher is taken off. */
  function Cost(s: State, casePrice: int, count: int, used: Option<nat>): int
    requires used.Some? ==> used.value < |s.bonuses|
  {
    casePrice * count - (if used.Some? then SavingAt(s.bonuses, used.value, casePrice, count) else 0)
  }

  /** An opening goes through exactly on these terms. */
  lemma OpensExactlyWhen(s: State, digest: Digest, u: nat, caseId: nat, read: Case, count: int, seen: set<nat>)
    requires IsDigest(digest) && BonusesOk(|s.users|, s.bonuses) && (read.items != [] ==> ValidCase(read))
    ensures TxOpenCase(s, digest, u, caseId, read, count, seen).Ok?
            <==> && 1 <= count <= 10 && read.isActive && read.items != [] && CanRoll(s, u)
                 && s.users[u].balance >= Cost(s, read.price, count, Applied(s.bonuses, u, read.price, count, seen))
    ensures TxOpenCase(s, digest, u, caseId, read, count, seen).Ok? ==>
              var o := TxOpenCase(s, digest, u, caseId, read, count, seen).value;
              && o.bonus == Applied(s.bonuses, u, read.price, count, seen) && o.totalPrice == Cost(s, read.price, count, o.bonus)
              && o.state.users == s.users[u := s.users[u].(balance := s.users[u].balance - o.totalPrice)]
              && o.state.bonuses
                 == if o.bonus.None? then s.bonuses
                    else s.bonuses[o.bonus.value := s.bonuses[o.bonus.value].(consumed := true)]
  {
    hide IsDigest, OpenRows, Applied, VoucherSaving;
    ActiveSeedExists(s, u);
    if read.items != [] && 1 <= count {
      var used := Applied(s.bonuses, u, read.price, count, seen);
      ListAtLeastOne(read.price, count);
      if used.Some? {
        SavingIsAtMostListPrice(s.bonuses[used.value], |s.users|, read.price, count);
      }
    }
  }

  // ----- spins

  /** A skin the prize can turn into: priced, and within the value of the slice on both prices. */
  predicate Fits(g: Grant, value: int) {
    0 < g.marketPrice <= value && 0 < g.price <= value
  }

  lemma {:induction false} EligibleIs(catalogue: seq<Grant>, value: int)
    ensures forall g :: g in Eligible(catalogue, value) <==> g in catalogue && Fits(g, value)
  {
    if catalogue != [] {
      var n := |catalogue| - 1;
      assert catalogue == catalogue[..n] + [catalogue[n]];
      EligibleIs(catalogue[..n], value);
    }
  }

  function FittingCount(catalogue: seq<Grant>, value: int): nat {
    if catalogue == [] then 0
    else FittingCount(catalogue[..|catalogue| - 1], value) + (if Fits(catalogue[|catalogue| - 1], value) then 1 else 0)
  }

  /** The fitting skins are counted through in catalogue order, as far as the roll goes modulo their number. */
  predicate IsDrawn(catalogue: seq<Grant>, value: int, roll: nat, g: Grant) {
    FittingCount(catalogue, value) > 0 &&
    exists k :: 0 <= k < |catalogue| && catalogue[k] == g && Fits(catalogue[k], value)
                && FittingCount(catalogue[..k], value) == roll % FittingCount(catalogue, value)
  }

  lemma {:induction false} EligibleAt(catalogue: seq<Grant>, value: int, j: nat)
    ensures |Eligible(catalogue, value)| == FittingCount(catalogue, value)
    ensures j < |Eligible(catalogue, value)| ==>
              exists k :: 0 <= k < |catalogue| && catalogue[k] == Eligible(catalogue, value)[j] && Fits(catalogue[k], value)
                          && FittingCount(catalogue[..k], value) == j
  {
    if catalogue != [] {
      var n := |catalogue| - 1;
      EligibleAt(catalogue[..n], value, j);
      if j < |Eligible(catalogue[..n], value)| {
        var k :| 0 <= k < n && catalogue[..n][k] == Eligible(catalogue[..n], value)[j] && Fits(catalogue[..n][k], value)
                 && FittingCount(catalogue[..n][..k], value) == j;
        assert catalogue[..n][..k] == catalogue[..k];
        assert catalogue[k] == Eligible(catalogue, value)[j];
      } else if j < |Eligible(catalogue, value)| {
        assert catalogue[n] == Eligible(catalogue, value)[j];
      }
    }
  }

  lemma EligibleOne(catalogue: seq<Grant>, value: int, roll: nat)
    ensures Eligible(catalogue, value) != [] ==>
              IsDrawn(catalogue, value, roll, Eligible(catalogue, value)[roll % |Eligible(catalogue, value)|])
    ensures Eligible(catalogue, value) != [] <==> exists g :: g in catalogue && Fits(g, value)
  {
    EligibleIs(catalogue, value);
    var e := Eligible(catalogue, value);
    if e != [] {
      assert e[0] in e;
      EligibleAt(catalogue, value, roll % |e|);
    } else {
      forall g | g in catalogue ensures !Fits(g, value) {
        assert g !in e;
      }
    }
  }

  /** A spin goes through exactly for a player who can roll and has not spun within the cooldown. */
  lemma SpinsExactlyWhen(s: State, digest: Digest, u: nat, wheel: seq<Slice>, cooldown: int, catalogue: seq<Grant>)
    requires IsDigest(digest) && ValidWheel(wheel)
    ensures TxSpin(s, digest, u, wheel, cooldown, catalogue).Ok?
            <==> CanRoll(s, u) && (s.users[u].lastBonusAt.Some? ==> s.users[u].lastBonusAt.value + cooldown <= s.now)
  {
    hide IsDigest, ValidWheel, PickGrant, ComputeRoll;
    ActiveSeedExists(s, u);
  }

  /**
   * What a spin pays: the slice that holds the roll. Its value is credited if
   * it is a balance, or a skin nothing in the catalogue fits; a skin that fits
   * is granted at its price; a voucher is left to be spent.
   */
  lemma SpinPaysItsSlice(s: State, digest: Digest, u: nat, wheel: seq<Slice>, cooldown: int, catalogue: seq<Grant>)
    requires IsDigest(digest) && ValidWheel(wheel) && TxSpin(s, digest, u, wheel, cooldown, catalogue).Ok?
    ensures u < |s.users|
    ensures var o := TxSpin(s, digest, u, wheel, cooldown, catalogue).value;
            var fitting := exists g :: g in catalogue && Fits(g, o.slice.value);
            && o.slice in wheel && o.slice.range.rangeFrom <= o.roll <= o.slice.range.rangeTo
            && |o.state.rows| == |s.rows| + 1 && s.rows <= o.state.rows
            && o.state.rows[|s.rows|].roll == o.roll && RolledBy(s, digest, u, o.state.rows[|s.rows|], 1)
            && o.credited == (if o.slice.kind == Balance || (o.slice.kind == FreeItem && !fitting) then o.slice.value else 0)
            && |o.state.users| == |s.users| && o.state.users[u].balance == s.users[u].balance + o.credited
            && o.state.users[u].lastBonusAt == Some(s.now)
            && o.state.bonuses == s.bonuses + [Bonus(u, o.slice.kind, o.slice.value, o.slice.kind == Balance || o.slice.kind == FreeItem)]
            && (o.item.Some? <==> o.slice.kind == FreeItem && fitting)
            && (o.item.Some? ==> IsDrawn(catalogue, o.slice.value, o.roll, o.item.value))
            && o.state.inventory == s.inventory
                 + (if o.item.Some? then [InventoryItem(u, o.item.value.itemId, o.item.value.price, Available, |s.rows|)] else [])
  {
    hide IsDigest, SliceRanges;
    var o := TxSpin(s, digest, u, wheel, cooldown, catalogue).value;
    var seed, client := ActiveSeed(s.seeds, u).value, s.users[u].clientSeed.value;
    DigestIsHex(digest, seed, client, s.seeds[seed].nonce + 1);
    EligibleOne(catalogue, o.slice.value, o.roll);
    assert o.slice == wheel[SliceAt(wheel, o.roll)];
    hide Eligible, Fits, IsDrawn, ComputeRoll;
  }

  // ----- contracts

  /** The prices of these positions of an inventory, added up along the inventory. */
  function PriceOfPositions(inventory: seq<InventoryItem>, ids: seq<nat>): int {
    if inventory == [] then 0
    else
      var n := |inventory| - 1;
      PriceOfPositions(inventory[..n], ids) + (if n in ids then inventory[n].price else 0)
  }

  lemma {:induction false} OnePositionMore(inventory: seq<InventoryItem>, ids: seq<nat>, id: nat)
    requires id !in ids
    ensures PriceOfPositions(inventory, ids + [id])
            == PriceOfPositions(inventory, ids) + (if id < |inventory| then inventory[id].price else 0)
  {
    if inventory != [] {
      var n := |inventory| - 1;
      OnePositionMore(inventory[..n], ids, id);
    }
  }

  lemma {:induction false} NoPositions(inventory: seq<InventoryItem>)
    ensures PriceOfPositions(inventory, []) == 0
  {
    if inventory != [] {
      NoPositions(inventory[..|inventory| - 1]);
    }
  }

  /** The stake is worth the staked items, each counted once. */
  lemma {:induction false} StakeIsStakedItems(inventory: seq<InventoryItem>, ids: seq<nat>)
    requires forall k :: 0 <= k < |ids| ==> ids[k] < |inventory|
    requires forall j, k :: 0 <= j < k < |ids| ==> ids[j] != ids[k]
    ensures StakeValue(inventory, ids) == PriceOfPositions(inventory, ids)
  {
    if ids == [] {
      NoPositions(inventory);
    } else {
      var n := |ids| - 1;
      StakeIsStakedItems(inventory, ids[..n]);
      assert ids == ids[..n] + [ids[n]];
      OnePositionMore(inventory, ids[..n], ids[n]);
    }
  }

  /** Three to ten different items of the player's, all still available. */
  predicate MayStake(inventory: seq<InventoryItem>, u: nat, ids: seq<nat>) {
    && 3 <= |ids| <= 10 && (forall j, k :: 0 <= j < k < |ids| ==> ids[j] != ids[k])
    && forall k :: 0 <= k < |ids| ==> ids[k] < |inventory| && inventory[ids[k]].owner == u && inventory[ids[k]].status == Available
  }

  /** A contract goes through exactly for a player who can roll, on stakes like these, if their value gets a table. */
  lemma ContractsExactlyWhen(s: State, digest: Digest, m: Maths, u: nat, ids: seq<nat>, catalogue: seq<Candidate>)
    requires IsDigest(digest) && m.Valid()
    ensures TxContract(s, digest, m, u, ids, catalogue).Ok?
            <==> && CanRoll(s, u) && MayStake(s.inventory, u, ids)
                 && BuiltPool(m, catalogue, PriceOfPositions(s.inventory, ids)).Accepted?
  {
    hide IsDigest, BuiltPool, OutcomeAt, SoundTable, ComputeRoll, PriceOfPositions, StakeValue, Claimed;
    ActiveSeedExists(s, u);
    if MayStake(s.inventory, u, ids) {
      StakeIsStakedItems(s.inventory, ids);
    }
    assert StakesFound(s.inventory, u, ids) && 3 <= |ids| <= 10 <==> MayStake(s.inventory, u, ids) by {
      if StakesFound(s.inventory, u, ids) {
        assert forall k :: 0 <= k < |ids| ==> Stakable(s.inventory, u, ids[k]);
      }
    }
  }

  /** What it records: the value of the stakes, the reward and its price, and the roll behind it. */
  lemma ContractRecordsItsRoll(s: State, digest: Digest, m: Maths, u: nat, ids: seq<nat>, catalogue: seq<Candidate>)
    requires IsDigest(digest) && m.Valid() && TxContract(s, digest, m, u, ids, catalogue).Ok?
    ensures var o := TxContract(s, digest, m, u, ids, catalogue).value;
            && o.pool == BuiltPool(m, catalogue, PriceOfPositions(s.inventory, ids)) && o.pool.Accepted? && o.reward in o.pool.outcomes
            && |o.state.rows| == |s.rows| + 1 && s.rows <= o.state.rows && RolledBy(s, digest, u, o.state.rows[|s.rows|], 1)
            && o.state.rows[|s.rows|].roll == o.roll
            && o.state.rows[|s.rows|].purpose
               == ContractRun(PriceOfPositions(s.inventory, ids), o.reward.itemId, o.reward.price)
  {
    hide IsDigest, BuiltPool, PriceOfPositions, StakeValue, Claimed, TilesFrom;
    assert forall k :: 0 <= k < |ids| ==> Stakable(s.inventory, u, ids[k]);
    StakeIsStakedItems(s.inventory, ids);
    var o := TxContract(s, digest, m, u, ids, catalogue).value;
    AcceptedTableIsSound(m, catalogue, StakeValue(s.inventory, ids));
    var seed, client := ActiveSeed(s.seeds, u).value, s.users[u].clientSeed.value;
    DigestIsHex(digest, seed, client, s.seeds[seed].nonce + 1);
    assert o.reward == o.pool.outcomes[OutcomeAt(o.pool.outcomes, o.roll)];
    hide ComputeRoll;
  }

  // ----- adjustments

  /** An adjustment goes through exactly when it leaves the account at nothing or more. */
  lemma AdjustsExactlyWhen(s: State, u: nat, amount: int)
    ensures TxAdjust(s, u, amount).Ok? <==> u < |s.users| && s.users[u].balance + amount >= 0
    ensures TxAdjust(s, u, amount).Ok? ==>
              var s' := TxAdjust(s, u, amount).value; var left := s.users[u].balance + amount;
              s' == s.(users := s.users[u := s.users[u].(balance := left)],
                       ledger := s.ledger + [Entry(u, amount, left, AdminAdjustment, None)])
  {
  }

  // ----- saving a case

  /** A saved case is the input: its terms, and its items in order with the tickets and prices they were given. */
  lemma StoredCaseIsInput(input: CaseInput, catalogue: map<nat, int>, i: nat, ticket: int)
    requires PriceAgrees(input) && GateAccepts(input, catalogue) && i < |input.items|
    ensures var c := StoredCase(input, catalogue);
            && c.price == input.price && c.isFree == input.isFree && c.isActive == input.isActive && |c.items| == |input.items|
            && c.items[i].itemId == input.items[i].itemId && c.items[i].itemId in catalogue
            && c.items[i].price == catalogue[c.items[i].itemId]
            && (Covers(c.items[i].range, ticket)
                <==> input.items[i].bounds.rangeFrom <= ticket as real <= input.items[i].bounds.rangeTo)
  {
    assert WellFormed(BoundsOf(input.items)[i]);
  }

  // ----- battles

  /** The list price of every line, added up. */
  function LinesTotal(lines: seq<Line>, chosen: seq<Option<Case>>): int
    requires |chosen| == |lines| && forall i :: 0 <= i < |chosen| ==> chosen[i].Some?
  {
    if lines == [] then 0
    else
      var n := |lines| - 1;
      LinesTotal(lines[..n], chosen[..n]) + chosen[n].value.price * lines[n].count
  }

  /** Lines of the same case were shown the same case. */
  predicate SameCaseSamePrice(lines: seq<Line>, chosen: seq<Option<Case>>)
    requires |chosen| == |lines|
  {
    forall i, j :: 0 <= i < |lines| && 0 <= j < |lines| && lines[i].caseId == lines[j].caseId ==> chosen[i] == chosen[j]
  }

  lemma {:induction false} PriceIsFound(lines: seq<Line>, chosen: seq<Option<Case>>, i: nat)
    requires |chosen| == |lines| && SameCaseSamePrice(lines, chosen) && i < |lines| && chosen[i].Some?
    ensures PriceById(lines, chosen, lines[i].caseId) == chosen[i].value.price
  {
    var n := |lines| - 1;
    if i < n && lines[n].caseId != lines[i].caseId {
      PriceIsFound(lines[..n], chosen[..n], i);
    }
  }

  lemma {:induction false} PricedUpTo(lines: seq<Line>, chosen: seq<Option<Case>>, n: nat)
    requires |chosen| == |lines| && SameCaseSamePrice(lines, chosen) && (forall i :: 0 <= i < |chosen| ==> chosen[i].Some?)
    requires n <= |lines|
    ensures EntryPrice(lines[..n], PriceLookup(lines, chosen)) == LinesTotal(lines[..n], chosen[..n])
  {
    if n > 0 {
      PricedUpTo(lines, chosen, n - 1);
      assert lines[..n][..n - 1] == lines[..n - 1] && chosen[..n][..n - 1] == chosen[..n - 1];
      PriceIsFound(lines, chosen, n - 1);
    }
  }

  /** The terms a battle is created on. */
  predicate MayCreate(s: State, u: nat, input: BattleInput, chosen: seq<Option<Case>>, maxPlayers: nat, maxRounds: nat)
    requires |chosen| == |input.lines|
  {
    && input.slots <= maxPlayers && TotalRounds(input.lines) <= maxRounds
    && (forall i :: 0 <= i < |chosen| ==> chosen[i].Some? && chosen[i].value.isActive && chosen[i].value.items != [])
    && u < |s.users| && !s.users[u].banned
  }

  /** A battle is created exactly on those terms, by a host who can pay the list price of every round. */
  lemma CreatesExactlyWhen(s: State, u: nat, input: BattleInput, chosen: seq<Option<Case>>, maxPlayers: nat, maxRounds: nat)
    requires |chosen| == |input.lines| && SameCaseSamePrice(input.lines, chosen) && input.slots >= 1
    ensures TxCreate(s, u, input, chosen, maxPlayers, maxRounds).Ok?
            <==> && MayCreate(s, u, input, chosen, maxPlayers, maxRounds)
                 && s.users[u].balance >= LinesTotal(input.lines, chosen)
    ensures TxCreate(s, u, input, chosen, maxPlayers, maxRounds).Ok? ==>
              var s' := TxCreate(s, u, input, chosen, maxPlayers, maxRounds).value; var price := LinesTotal(input.lines, chosen);
              && s'.battles == s.battles
                   + [BattleRow(u, input.mode, input.slots, TotalRounds(input.lines), price, input.lines, Waiting, 1,
                                [Seat(u, 1, 0, false)], s.now, 0, None)]
              && s'.users == s.users[u := s.users[u].(balance := s.users[u].balance - price)]
  {
    hide LinesTotal, EntryPrice, TotalRounds;
    if MayCreate(s, u, input, chosen, maxPlayers, maxRounds) {
      PricedUpTo(input.lines, chosen, |input.lines|);
      assert input.lines[..|input.lines|] == input.lines && chosen[..|chosen|] == chosen;
      var b := NewBattle(s, u, input, chosen);
      assert b.seats + [Seat(u, 1, 0, false)] == [Seat(u, 1, 0, false)];
      assert (s.battles + [b])[|s.battles| := WithSeat(b, u)] == s.battles + [WithSeat(b, u)];
    }
  }

  /** A seat short of the last is taken exactly by a player who may, is not seated yet, and can pay. */
  lemma JoinsExactlyWhen(s: State, digest: Digest, u: nat, k: nat)
    requires IsDigest(digest) && Inv(s, digest) && k < |s.battles| && s.battles[k].filledSlots + 1 < s.battles[k].slots
    ensures TxJoin(s, digest, u, k).Ok?
            <==> && s.battles[k].status == Waiting && u < |s.users| && !s.users[u].banned
                 && (forall i :: 0 <= i < |s.battles[k].seats| ==> s.battles[k].seats[i].user != u)
                 && s.users[u].balance >= s.battles[k].entryPrice
    ensures TxJoin(s, digest, u, k).Ok? ==>
              var b, s' := s.battles[k], TxJoin(s, digest, u, k).value;
              && s'.battles == s.battles[k := b.(filledSlots := b.filledSlots + 1,
                                                 seats := b.seats + [Seat(u, b.filledSlots + 1, 0, false)])]
              && s'.users == s.users[u := s.users[u].(balance := s.users[u].balance - b.entryPrice)]
  {
    hide IsDigest, Inv, Settle;
  }

  /** The last seat, and the settlement with it, goes through exactly when the seat may be taken and the battle can be played. */
  lemma LastJoinExactlyWhen(s: State, digest: Digest, u: nat, k: nat)
    requires IsDigest(digest) && Inv(s, digest) && k < |s.battles| && s.battles[k].filledSlots + 1 >= s.battles[k].slots
    ensures TxJoin(s, digest, u, k).Ok?
            <==> && s.battles[k].status == Waiting && u < |s.users| && !s.users[u].banned && !Seated(s.battles[k], u)
                 && s.users[u].balance >= s.battles[k].entryPrice
                 && (forall i :: 0 <= i < |s.battles[k].seats| ==> CanPlay(s, k, s.battles[k].seats[i].user)) && CanPlay(s, k, u)
  {
    assert BattleOk(s.battles[k], |s.users|, |s.cases|);
    if s.battles[k].status == Waiting && u < |s.users| && !s.users[u].banned && !Seated(s.battles[k], u)
       && s.users[u].balance >= s.battles[k].entryPrice {
      var t := TakeSeat(s, k, u).value;
      SeatTaken(s, k, u);
      CanSettleSeated(s, t, k, u);
      hide IsDigest, Inv, BattleOk, Seated, PlayClaimed, Played;
      SettlesExactlyWhen(t, digest, k);
      SameSeats(s, t, k, u);
    } else {
      hide IsDigest, Inv, BattleOk, Settle;
    }
  }

  lemma SameSeats(s: State, t: State, k: nat, u: nat)
    requires k < |s.battles| && t.seeds == s.seeds && t.cases == s.cases && |t.users| == |s.users| && u < |s.users|
    requires t.battles == s.battles[k := WithSeat(s.battles[k], u)]
    requires forall v :: 0 <= v < |s.users| ==> t.users[v].clientSeed == s.users[v].clientSeed
    ensures (forall i :: 0 <= i < |t.battles[k].seats| ==> CanPlay(t, k, t.battles[k].seats[i].user))
            <==> (forall i :: 0 <= i < |s.battles[k].seats| ==> CanPlay(s, k, s.battles[k].seats[i].user)) && CanPlay(s, k, u)
  {
    hide Expanded;
    var a, b := s.battles[k].seats, t.battles[k].seats;
    assert b[|a|].user == u;
    forall v: nat ensures CanPlay(t, k, v) <==> CanPlay(s, k, v) {
    }
    if forall i :: 0 <= i < |b| ==> CanPlay(t, k, b[i].user) {
      forall i | 0 <= i < |a| ensures CanPlay(s, k, a[i].user) {
        assert b[i] == a[i];
      }
    }
  }

  /** Both seeds are there, and every case of the battle has items left. */
  predicate CanPlay(s: State, k: nat, u: nat)
    requires k < |s.battles|
  {
    && u < |s.users| && s.users[u].clientSeed.Some?
    && (exists j :: 0 <= j < |s.seeds| && s.seeds[j].active && s.seeds[j].user == u)
    && forall i :: 0 <= i < |Expanded(s.battles[k].lines)| && Expanded(s.battles[k].lines)[i] < |s.cases| ==>
         s.cases[Expanded(s.battles[k].lines)[i]].items != []
  }

  lemma {:induction false} PlaysExactlyWhen(s: State, digest: Digest, k: nat, seats: seq<Seat>, ids: seq<nat>, views: seq<Case>)
    requires IsDigest(digest) && ValidCases(views) && |ids| == |views| && k < |s.battles|
    requires forall i :: 0 <= i < |seats| ==> seats[i].user < |s.users|
    ensures PlaySeats(s, digest, k, seats, ids, views).Ok?
            <==> forall i :: 0 <= i < |seats| ==>
                   && s.users[seats[i].user].clientSeed.Some? && ActiveSeed(s.seeds, seats[i].user).Some?
                   && forall j :: 0 <= j < |views| ==> views[j].items != []
    decreases |seats|
  {
    if seats != [] {
      var u := seats[0].user;
      var seed := ActiveSeed(s.seeds, u);
      if seed.Some? && s.users[u].clientSeed.Some? && forall j :: 0 <= j < |views| ==> views[j].items != [] {
        var next := PlayOne(s, digest, k, u, seed.value, ids, views);
        assert PlaySeats(s, digest, k, seats, ids, views) == PlaySeats(next, digest, k, seats[1..], ids, views);
        assert next.users == s.users && next.seeds == Reserved(s.seeds, seed.value, s.battles[k].rounds);
        forall v: nat ensures ActiveSeed(next.seeds, v).Some? <==> ActiveSeed(s.seeds, v).Some? {
          SameActiveSeeds(s.seeds, seed.value, s.battles[k].rounds, v);
        }
        hide IsDigest, ValidCases, PlayOne, PlaySeats, ActiveSeed, Reserved;
        PlaysExactlyWhen(next, digest, k, seats[1..], ids, views);
        assert forall i :: 0 < i < |seats| ==> seats[i] == seats[1..][i - 1];
      }
    }
  }

  lemma {:induction false} SameActiveSeeds(seeds: seq<Seed>, seed: nat, n: nat, v: nat)
    requires seed < |seeds|
    ensures ActiveSeed(Reserved(seeds, seed, n), v).Some? <==> ActiveSeed(seeds, v).Some?
  {
    var after := Reserved(seeds, seed, n);
    if ActiveSeed(seeds, v).Some? {
      assert after[ActiveSeed(seeds, v).value].active;
    }
    if ActiveSeed(after, v).Some? {
      assert seeds[ActiveSeed(after, v).value].active;
    }
  }

  /** A waiting battle is settled exactly when every player in it can play. */
  lemma SettlesExactlyWhen(s: State, digest: Digest, k: nat)
    requires IsDigest(digest) && CanSettle(s, k) && s.battles[k].status == Waiting
    ensures Settle(s, digest, k).Ok? <==> forall i :: 0 <= i < |s.battles[k].seats| ==> CanPlay(s, k, s.battles[k].seats[i].user)
  {
    hide IsDigest, ValidCase, PlaySeats, WinningSeat, Seated, FinishedRow;
    ClaimRuns(s, k);
    var t := Claim(s, k).value;
    var b := t.battles[k];
    RoundsExist(b, |s.cases|);
    SeatingIs(b, |s.users|);
    var ids := Expanded(b.lines);
    PlaysExactlyWhen(t, digest, k, Seating(b), ids, ViewsOf(t.cases, ids));
    SeatingMembers(b);
    hide Seating, Expanded, ActiveSeed;
    var views := ViewsOf(t.cases, ids);
    assert (forall j :: 0 <= j < |views| ==> views[j].items != []) <==> forall j :: 0 <= j < |ids| ==> s.cases[ids[j]].items != [] by {
      assert forall j :: 0 <= j < |ids| ==> views[j] == s.cases[ids[j]];
    }
    forall i | 0 <= i < |Seating(b)|
      ensures CanPlay(s, k, Seating(b)[i].user)
              <==> && t.users[Seating(b)[i].user].clientSeed.Some? && ActiveSeed(t.seeds, Seating(b)[i].user).Some?
                   && forall j :: 0 <= j < |views| ==> views[j].items != []
    {
      ActiveSeedExists(s, Seating(b)[i].user);
    }
    SameForMembers(s, k, b.seats, Seating(b));
  }

  lemma SameForMembers(s: State, k: nat, a: seq<Seat>, b: seq<Seat>)
    requires k < |s.battles| && forall x :: x in a <==> x in b
    ensures (forall i :: 0 <= i < |a| ==> CanPlay(s, k, a[i].user)) <==> (forall i :: 0 <= i < |b| ==> CanPlay(s, k, b[i].user))
  {
    hide CanPlay;
    assert forall i :: 0 <= i < |a| ==> a[i] in b;
    assert forall i :: 0 <= i < |b| ==> b[i] in a;
  }

  lemma SeatingMembers(b: BattleRow)
    ensures forall x :: x in b.seats <==> x in Seating(b)
  {
    assert Sorting.TotalPreorder(ByUser);
    Sorting.SortBySorts(b.seats, ByUser);
    Sorting.SameMembers(b.seats, Seating(b));
  }

  /** Only the host cancels, and only while the battle waits. */
  lemma CancelsExactlyWhen(s: State, u: nat, k: nat)
    requires BattlesOk(|s.users|, |s.cases|, s.battles)
    ensures TxCancel(s, u, k).Ok? <==> k < |s.battles| && s.battles[k].host == u && s.battles[k].status == Waiting
  {
    if k < |s.battles| {
      assert BattleOk(s.battles[k], |s.users|, |s.cases|);
    }
  }
}
