/** What every committed state satisfies, and that every transaction keeps it. */
module SiteInvariant {
  import opened Battle
  import opened ContractOdds
  import opened ContractPool
  import opened ContractTable
  import opened Site
  import opened SiteBattles
  import opened SiteOpenings
  import opened SiteSettlement
  import opened Tickets
  import opened Wrappers

  ghost predicate Inv(s: State, digest: Digest)
    requires IsDigest(digest)
  {
    && MoneyOk(s.users, s.ledger)
    && SeedsOk(|s.users|, s.seeds) && NoncesOk(s.seeds, s.rows) && RowsOk(s.seeds, s.rows, digest)
    && ItemsOk(s.rows, s.inventory, s.battles)
    && BonusesOk(|s.users|, s.bonuses)
    && ValidCases(s.cases)
    && BattlesOk(|s.users|, |s.cases|, s.battles) && BattleLedgerOk(s.ledger, s.battles)
  }

  // ----- openings, spins, contracts, adjustments

  lemma OpenRowsAre(s: State, digest: Digest, u: nat, seed: nat, client: nat, count: nat, caseId: nat, c: Case)
    requires IsDigest(digest) && ValidCase(c) && seed < |s.seeds| && s.seeds[seed].user == u
    ensures var rows := OpenRows(digest, u, seed, client, s.seeds[seed].nonce + 1, count, caseId, c);
            && Block(rows, seed, s.seeds[seed].nonce + 1)
            && (forall i :: 0 <= i < |rows| ==> RowOk(rows[i], s.seeds, digest) && OwnerOk(rows[i], u, s.battles))
  {
    hide IsDigest, ValidCase, RollAll, DropRow, ComputeRoll;
    var first := s.seeds[seed].nonce + 1;
    var ids, views := seq(count, _ => caseId), seq(count, _ => c);
    RollAllIs(digest, u, seed, client, first, ids, views, None);
    var rows := OpenRows(digest, u, seed, client, first, count, caseId, c);
    forall i | 0 <= i < |rows| ensures RowOk(rows[i], s.seeds, digest) && OwnerOk(rows[i], u, s.battles) {
      DropRowOk(digest, u, seed, client, first + i, caseId, c, None, s.seeds);
    }
  }

  /** What a committed opening changed. */
  lemma OpeningChanges(s: State, digest: Digest, u: nat, caseId: nat, read: Case, count: int, seen: set<nat>)
    requires IsDigest(digest) && (read.items != [] ==> ValidCase(read))
    requires TxOpenCase(s, digest, u, caseId, read, count, seen).Ok?
    ensures var o := TxOpenCase(s, digest, u, caseId, read, count, seen).value;
            var seed := ActiveSeed(s.seeds, u);
            && u < |s.users| && count >= 1 && seed.Some? && s.users[u].clientSeed.Some? && ValidCase(read)
            && s.users[u].balance >= o.totalPrice
            && o.drops == OpenRows(digest, u, seed.value, s.users[u].clientSeed.value, s.seeds[seed.value].nonce + 1, count, caseId, read)
            && (o.bonus.Some? ==> o.bonus.value < |s.bonuses|)
            && o.state == Pay(s, u, -o.totalPrice, CaseOpen, None).(
                 bonuses := Consumed(s.bonuses, o.bonus), seeds := Reserved(s.seeds, seed.value, count),
                 rows := s.rows + o.drops, inventory := s.inventory + ItemsOf(o.drops, u, |s.rows|))
  {
    hide IsDigest, ValidCase, OpenRows, BestVoucher;
  }

  lemma ConsumedKeepsBonuses(users: nat, bonuses: seq<Bonus>, used: Option<nat>)
    requires BonusesOk(users, bonuses) && (used.Some? ==> used.value < |bonuses|)
    ensures BonusesOk(users, Consumed(bonuses, used))
  {
  }

  lemma OpenCaseKeeps(s: State, digest: Digest, u: nat, caseId: nat, read: Case, count: int, seen: set<nat>)
    requires IsDigest(digest) && (read.items != [] ==> ValidCase(read)) && Inv(s, digest)
    requires TxOpenCase(s, digest, u, caseId, read, count, seen).Ok?
    ensures Inv(TxOpenCase(s, digest, u, caseId, read, count, seen).value.state, digest)
  {
    hide IsDigest, ValidCase, OpenRows, TxOpenCase, MoneyOk, SeedsOk, NoncesOk, RowsOk, ItemsOk, BattlesOk, BattleLedgerOk, BonusesOk,
         ValidCases, Consumed, ItemsOf, Block, RowOk, OwnerOk;
    OpeningChanges(s, digest, u, caseId, read, count, seen);
    var o := TxOpenCase(s, digest, u, caseId, read, count, seen).value;
    var seed := ActiveSeed(s.seeds, u).value;
    OpenRowsAre(s, digest, u, seed, s.users[u].clientSeed.value, count, caseId, read);
    PayKeepsMoney(s, u, -o.totalPrice, CaseOpen, None);
    OtherEntriesKeep(s.ledger, o.state.ledger[|s.ledger|], s.battles);
    ReservedKeepsSeeds(|s.users|, s.seeds, seed, count);
    BlockKeepsNonces(s.seeds, s.rows, seed, o.drops);
    BlockKeepsRows(s.seeds, s.rows, seed, o.drops, digest);
    OpeningsKeepItems(s.rows, o.drops, s.inventory, s.battles, u);
    ConsumedKeepsBonuses(|s.users|, s.bonuses, o.bonus);
  }

  /** A bonus-time stamp changes no balance. */
  lemma StampKeepsMoney(users: seq<User>, ledger: seq<Entry>, u: nat, at: int)
    requires MoneyOk(users, ledger) && u < |users|
    ensures MoneyOk(users[u := users[u].(lastBonusAt := Some(at))], ledger)
  {
    var stamped := users[u := users[u].(lastBonusAt := Some(at))];
    forall v | 0 <= v < |stamped| ensures stamped[v].balance == users[v].balance {
    }
  }

  lemma OneRowKeeps(s: State, digest: Digest, seed: nat, row: Row)
    requires IsDigest(digest) && SeedsOk(|s.users|, s.seeds) && NoncesOk(s.seeds, s.rows) && RowsOk(s.seeds, s.rows, digest)
    requires seed < |s.seeds| && row.seed == seed && row.nonce == s.seeds[seed].nonce + 1 && RowOk(row, s.seeds, digest)
    ensures SeedsOk(|s.users|, Reserved(s.seeds, seed, 1)) && NoncesOk(Reserved(s.seeds, seed, 1), s.rows + [row])
    ensures RowsOk(Reserved(s.seeds, seed, 1), s.rows + [row], digest)
  {
    hide IsDigest, ComputeRoll, NoncesOk, SeedsOk, RowsOk;
    ReservedKeepsSeeds(|s.users|, s.seeds, seed, 1);
    BlockKeepsNonces(s.seeds, s.rows, seed, [row]);
    BlockKeepsRows(s.seeds, s.rows, seed, [row], digest);
  }

  /** The stamp, and the credit if the slice pays one. */
  lemma SpinPays(s: State, u: nat, credited: int, after: State)
    requires MoneyOk(s.users, s.ledger) && BattleLedgerOk(s.ledger, s.battles) && u < |s.users|
    requires var stamped := s.(users := s.users[u := s.users[u].(lastBonusAt := Some(s.now))]);
             var paid := if credited > 0 then Pay(stamped, u, credited, BonusCredit, None) else stamped;
             after.users == paid.users && after.ledger == paid.ledger
    ensures MoneyOk(after.users, after.ledger) && BattleLedgerOk(after.ledger, s.battles) && |after.users| == |s.users|
  {
    BalancesAreNotNegative(s.users, s.ledger, u);
    StampKeepsMoney(s.users, s.ledger, u, s.now);
    hide MoneyOk, BattleLedgerOk;
    var stamped := s.(users := s.users[u := s.users[u].(lastBonusAt := Some(s.now))]);
    if credited > 0 {
      PayKeepsMoney(stamped, u, credited, BonusCredit, None);
      OtherEntriesKeep(s.ledger, after.ledger[|s.ledger|], s.battles);
    }
  }

  /** The row of a spin, with or without an item. */
  lemma SpinGrants(s: State, u: nat, row: Row, item: Option<Grant>)
    requires ItemsOk(s.rows, s.inventory, s.battles) && row.purpose.Spin? && row.user == u
    ensures ItemsOk(s.rows + [row],
                    if item.None? then s.inventory
                    else s.inventory + [InventoryItem(u, item.value.itemId, item.value.price, Available, |s.rows|)],
                    s.battles)
  {
    hide ItemsOk;
    if item.None? {
      NoItemForSpin(s.rows, row, s.inventory, s.battles);
    } else {
      OneMoreItem(s.rows, row, s.inventory, s.battles,
                  InventoryItem(u, item.value.itemId, item.value.price, Available, |s.rows|));
    }
  }

  /** What a committed spin changed. */
  lemma SpinChanges(s: State, digest: Digest, u: nat, wheel: seq<Slice>, cooldown: int, catalogue: seq<Grant>)
    requires IsDigest(digest) && ValidWheel(wheel) && TxSpin(s, digest, u, wheel, cooldown, catalogue).Ok?
    ensures var o, after := TxSpin(s, digest, u, wheel, cooldown, catalogue).value, TxSpin(s, digest, u, wheel, cooldown, catalogue).value.state;
            && u < |s.users| && ActiveSeed(s.seeds, u).Some?
            && after == s.(users := after.users, ledger := after.ledger, seeds := Reserved(s.seeds, ActiveSeed(s.seeds, u).value, 1),
                           rows := s.rows + [after.rows[|s.rows|]], bonuses := after.bonuses, inventory := after.inventory)
            && (var stamped := s.(users := s.users[u := s.users[u].(lastBonusAt := Some(s.now))]);
                var paid := if o.credited > 0 then Pay(stamped, u, o.credited, BonusCredit, None) else stamped;
                after.users == paid.users && after.ledger == paid.ledger)
            && o.roll < TICKET_SPACE && after.bonuses == s.bonuses + [WonBonus(wheel, SliceAt(wheel, o.roll), u)]
            && after.inventory == (if o.item.None? then s.inventory
                 else s.inventory + [InventoryItem(u, o.item.value.itemId, o.item.value.price, Available, |s.rows|)])
    ensures var row := TxSpin(s, digest, u, wheel, cooldown, catalogue).value.state.rows[|s.rows|];
            var seed := ActiveSeed(s.seeds, u).value;
            && row.purpose.Spin? && row.user == u && row.seed == seed && row.nonce == s.seeds[seed].nonce + 1
            && row.roll == ComputeRoll(digest, seed, row.client, row.nonce)
  {
    hide IsDigest, ValidWheel, ComputeRoll, PickGrant;
  }

  function WonBonus(wheel: seq<Slice>, k: nat, u: nat): Bonus
    requires k < |wheel|
  {
    Bonus(u, wheel[k].kind, wheel[k].value, !IsVoucher(wheel[k].kind))
  }

  lemma SpinKeeps(s: State, digest: Digest, u: nat, wheel: seq<Slice>, cooldown: int, catalogue: seq<Grant>)
    requires IsDigest(digest) && ValidWheel(wheel) && Inv(s, digest)
    requires TxSpin(s, digest, u, wheel, cooldown, catalogue).Ok?
    ensures Inv(TxSpin(s, digest, u, wheel, cooldown, catalogue).value.state, digest)
  {
    hide IsDigest, ComputeRoll, ValidWheel, PickGrant, MoneyOk, SeedsOk, NoncesOk, RowsOk, ItemsOk, BattlesOk,
         BattleLedgerOk, BonusesOk, ValidCases, TxSpin, WonBonus;
    SpinChanges(s, digest, u, wheel, cooldown, catalogue);
    var o := TxSpin(s, digest, u, wheel, cooldown, catalogue).value;
    var row := o.state.rows[|s.rows|];
    DigestIsHex(digest, row.seed, row.client, row.nonce);
    WheelBonusOk(wheel, SliceAt(wheel, o.roll), u, |s.users|, s.bonuses);
    OneRowKeeps(s, digest, ActiveSeed(s.seeds, u).value, row);
    SpinPays(s, u, o.credited, o.state);
    SpinGrants(s, u, row, o.item);
  }

  lemma BalancesAreNotNegative(users: seq<User>, ledger: seq<Entry>, u: nat)
    requires MoneyOk(users, ledger) && u < |users|
    ensures users[u].balance >= 0
  {
  }

  lemma WheelBonusOk(wheel: seq<Slice>, k: nat, u: nat, users: nat, bonuses: seq<Bonus>)
    requires ValidWheel(wheel) && k < |wheel| && u < users && BonusesOk(users, bonuses)
    ensures BonusesOk(users, bonuses + [WonBonus(wheel, k, u)])
  {
  }

  lemma ContractKeeps(s: State, digest: Digest, m: Maths, u: nat, ids: seq<nat>, catalogue: seq<Candidate>)
    requires IsDigest(digest) && m.Valid() && Inv(s, digest) && TxContract(s, digest, m, u, ids, catalogue).Ok?
    ensures Inv(TxContract(s, digest, m, u, ids, catalogue).value.state, digest)
  {
    hide BuiltPool, StakeValue, SoundTable;
    var o := TxContract(s, digest, m, u, ids, catalogue).value;
    var seed := ActiveSeed(s.seeds, u).value;
    var row := o.state.rows[|s.rows|];
    assert RowOk(row, s.seeds, digest);
    hide IsDigest, ComputeRoll, OutcomeAt, MoneyOk, SeedsOk, NoncesOk, RowsOk, ItemsOk, BattlesOk, BattleLedgerOk;
    OneRowKeeps(s, digest, seed, row);
    SameItems(s.rows, s.inventory, Claimed(s.inventory, ids), s.battles);
    OneMoreItem(s.rows, row, Claimed(s.inventory, ids), s.battles, o.state.inventory[|s.inventory|]);
  }

  lemma AdjustKeeps(s: State, digest: Digest, u: nat, amount: int)
    requires IsDigest(digest) && Inv(s, digest) && TxAdjust(s, u, amount).Ok?
    ensures Inv(TxAdjust(s, u, amount).value, digest)
  {
    hide IsDigest, MoneyOk, SeedsOk, NoncesOk, RowsOk, ItemsOk, BattlesOk, BattleLedgerOk;
    PayKeepsMoney(s, u, amount, AdminAdjustment, None);
    OtherEntriesKeep(s.ledger, TxAdjust(s, u, amount).value.ledger[|s.ledger|], s.battles);
  }

  // ----- battles

  datatype BattleInput = BattleInput(mode: Mode, slots: nat, lines: seq<Line>)

  /** The cases of a battle as they were read before it was created. */
  predicate ReadFrom(s: State, lines: seq<Line>, chosen: seq<Option<Case>>) {
    && |chosen| == |lines|
    && forall i :: 0 <= i < |lines| ==>
         chosen[i].Some? ==> lines[i].caseId < |s.cases| && chosen[i].value.price >= 0
  }

  /** `priceById.get(id) ?? 0`. */
  function PriceById(lines: seq<Line>, chosen: seq<Option<Case>>, id: nat): int
    requires |chosen| == |lines|
  {
    if lines == [] then 0
    else
      var n := |lines| - 1;
      if lines[n].caseId == id && chosen[n].Some? then chosen[n].value.price else PriceById(lines[..n], chosen[..n], id)
  }

  function PriceLookup(lines: seq<Line>, chosen: seq<Option<Case>>): nat -> int
    requires |chosen| == |lines|
  {
    (id: nat) => PriceById(lines, chosen, id)
  }

  lemma {:induction false} PricesAreNotNegative(s: State, lines: seq<Line>, chosen: seq<Option<Case>>, id: nat)
    requires ReadFrom(s, lines, chosen)
    ensures PriceById(lines, chosen, id) >= 0
  {
    if lines != [] {
      PricesAreNotNegative(s, lines[..|lines| - 1], chosen[..|lines| - 1], id);
    }
  }

  lemma {:induction false} EntryPriceIsNotNegative(lines: seq<Line>, priceOf: nat -> int)
    requires forall id :: priceOf(id) >= 0
    ensures EntryPrice(lines, priceOf) >= 0
  {
    if lines != [] {
      EntryPriceIsNotNegative(lines[..|lines| - 1], priceOf);
      NotNegative(priceOf(lines[|lines| - 1].caseId), lines[|lines| - 1].count);
    }
  }

  lemma NotNegative(price: int, count: nat)
    requires price >= 0
    ensures price * count >= 0
  {
  }

  function NewBattle(s: State, u: nat, input: BattleInput, chosen: seq<Option<Case>>): BattleRow
    requires |chosen| == |input.lines|
  {
    BattleRow(u, input.mode, input.slots, TotalRounds(input.lines),
              EntryPrice(input.lines, PriceLookup(input.lines, chosen)),
              input.lines, Waiting, 0, [], s.now, 0, None)
  }

  function TxCreate(s: State, u: nat, input: BattleInput, chosen: seq<Option<Case>>, maxPlayers: nat, maxRounds: nat): Result<State, SiteError>
    requires |chosen| == |input.lines|
  {
    if input.slots > maxPlayers || TotalRounds(input.lines) > maxRounds then Err(BattleSizeInvalid)
    else if exists i :: 0 <= i < |chosen| && (chosen[i].None? || !chosen[i].value.isActive) then Err(CaseUnavailable)
    else if exists i :: 0 <= i < |chosen| && chosen[i].Some? && chosen[i].value.items == [] then Err(CaseIsEmpty)
    else if u >= |s.users| || s.users[u].banned then Err(AccountBanned)
    else TakeSeat(s.(battles := s.battles + [NewBattle(s, u, input, chosen)]), |s.battles|, u)
  }

  function TxJoin(s: State, digest: Digest, u: nat, k: nat): Result<State, SiteError>
    requires IsDigest(digest) && Inv(s, digest)
  {
    if k >= |s.battles| || s.battles[k].status != Waiting then Err(BattleUnavailable)
    else if u >= |s.users| || s.users[u].banned then Err(AccountBanned)
    else if Seated(s.battles[k], u) then Err(BattleAlreadyJoined)
    else
      var seated := TakeSeat(s, k, u);
      if seated.Err? || seated.value.battles[k].filledSlots < s.battles[k].slots then seated
      else
        SeatKeepsSeats(s.battles[k], u, |s.users|);
        match Settle(seated.value, digest, k)
        case Err(e) => Err(e)
        case Ok(None) => seated
        case Ok(Some(finished)) => Ok(finished)
  }

  function TxCancel(s: State, u: nat, k: nat): Result<State, SiteError>
    requires BattlesOk(|s.users|, |s.cases|, s.battles)
  {
    if k >= |s.battles| then Err(BattleUnavailable)
    else if s.battles[k].host != u then Err(BattleNotCancellable)
    else
      var cancelled := CancelAndRefund(s, k);
      if cancelled.None? then Err(BattleNotCancellable) else Ok(cancelled.value)
  }

  /** One battle of a sweep; a battle that is no longer waiting is left alone. */
  function TxSweepOne(s: State, k: nat): State
    requires BattlesOk(|s.users|, |s.cases|, s.battles)
  {
    if k >= |s.battles| then s
    else
      var cancelled := CancelAndRefund(s, k);
      if cancelled.None? then s else cancelled.value
  }

  // ----- creating

  lemma NewBattleKeepsLedger(ledger: seq<Entry>, battles: seq<BattleRow>, b: BattleRow)
    requires BattleLedgerOk(ledger, battles) && b.seats == []
    ensures BattleLedgerOk(ledger, battles + [b])
  {
    hide CountOf;
    var more := battles + [b];
    forall i | 0 <= i < |ledger| ensures EntryOk(ledger[i], more) {
      assert EntryOk(ledger[i], battles);
    }
    forall k, u: nat | 0 <= k < |more| ensures PaidOnce(ledger, more, k, u) {
      if k < |battles| {
        assert PaidOnce(ledger, battles, k, u);
      } else {
        NoEntryForLaterBattles(ledger, battles, BattleEntry, k, u);
        NoEntryForLaterBattles(ledger, battles, BattleRefund, k, u);
      }
    }
  }

  lemma NewBattleIsOk(s: State, u: nat, input: BattleInput, chosen: seq<Option<Case>>)
    requires ReadFrom(s, input.lines, chosen) && input.slots >= 2 && u < |s.users|
    requires forall i :: 0 <= i < |chosen| ==> chosen[i].Some?
    ensures BattleOk(WithSeat(NewBattle(s, u, input, chosen), u), |s.users|, |s.cases|)
    ensures Held(NewBattle(s, u, input, chosen)) == 0
  {
    forall id: nat ensures PriceById(input.lines, chosen, id) >= 0 {
      PricesAreNotNegative(s, input.lines, chosen, id);
    }
    EntryPriceIsNotNegative(input.lines, PriceLookup(input.lines, chosen));
  }

  lemma {:induction false} HeldOfOneMore(battles: seq<BattleRow>, b: BattleRow)
    ensures SumHeld(battles + [b]) == SumHeld(battles) + Held(b)
  {
    assert (battles + [b])[..|battles|] == battles;
  }

  /** Creating a battle charges the host for the first seat: nothing is created or lost. */
  lemma CreateKeeps(s: State, digest: Digest, u: nat, input: BattleInput, chosen: seq<Option<Case>>, maxPlayers: nat, maxRounds: nat)
    requires IsDigest(digest) && Inv(s, digest) && ReadFrom(s, input.lines, chosen) && input.slots >= 2
    requires TxCreate(s, u, input, chosen, maxPlayers, maxRounds).Ok?
    ensures var s' := TxCreate(s, u, input, chosen, maxPlayers, maxRounds).value;
            Inv(s', digest) && TotalMoney(s') == TotalMoney(s)
  {
    hide IsDigest, MoneyOk, SeedsOk, NoncesOk, RowsOk, ItemsOk, BattleLedgerOk, NewBattle, BattleOk, WithSeat, Held;
    var s' := TxCreate(s, u, input, chosen, maxPlayers, maxRounds).value;
    var b := NewBattle(s, u, input, chosen);
    var listed := s.(battles := s.battles + [b]);
    NewBattleIsOk(s, u, input, chosen);
    assert b.seats == [] && b.status == Waiting by { EmptyBattle(s, u, input, chosen); }
    NewBattleKeepsLedger(s.ledger, s.battles, b);
    HeldOfOneMore(s.battles, b);
    TakeSeatKeepsMoney(listed, |s.battles|, u);
    TakeSeatKeepsLedger(listed, |s.battles|, u);
    LaterBattlesKeepItems(s.rows, s.inventory, s.battles, s'.battles);
  }

  lemma EmptyBattle(s: State, u: nat, input: BattleInput, chosen: seq<Option<Case>>)
    requires |chosen| == |input.lines|
    ensures NewBattle(s, u, input, chosen).seats == [] && NewBattle(s, u, input, chosen).status == Waiting
    ensures forall v: nat :: !Seated(NewBattle(s, u, input, chosen), v)
  {
  }

  // ----- joining

  lemma ChangedBattleIsOk(battles: seq<BattleRow>, k: nat, b: BattleRow, users: nat, cases: nat)
    requires BattlesOk(users, cases, battles) && k < |battles| && BattleOk(b, users, cases)
    ensures BattlesOk(users, cases, battles[k := b])
  {
  }

  lemma SeatedBattleIsOk(b: BattleRow, u: nat, users: nat, cases: nat)
    requires BattleOk(b, users, cases) && b.status == Waiting && u < users && !Seated(b, u) && b.filledSlots + 1 < b.slots
    ensures BattleOk(WithSeat(b, u), users, cases)
  {
    SeatKeepsSeats(b, u, users);
  }

  /** A seat taken with others still free. */
  lemma JoinKeepsWaiting(s: State, digest: Digest, u: nat, k: nat)
    requires IsDigest(digest) && Inv(s, digest) && TxJoin(s, digest, u, k).Ok? && k < |s.battles|
    requires s.battles[k].filledSlots + 1 < s.battles[k].slots
    ensures var s' := TxJoin(s, digest, u, k).value; Inv(s', digest) && TotalMoney(s') == TotalMoney(s)
  {
    hide IsDigest, MoneyOk, SeedsOk, NoncesOk, RowsOk, ItemsOk, BattleLedgerOk, BattleOk, Settle, Held;
    TakeSeatKeepsMoney(s, k, u);
    TakeSeatKeepsLedger(s, k, u);
    SeatedBattleIsOk(s.battles[k], u, |s.users|, |s.cases|);
    var s' := TxJoin(s, digest, u, k).value;
    LaterBattlesKeepItems(s.rows, s.inventory, s.battles, s'.battles);
  }

  lemma FinishedKeepsLedger(ledger: seq<Entry>, battles: seq<BattleRow>, k: nat, b: BattleRow)
    requires BattleLedgerOk(ledger, battles) && k < |battles| && battles[k].status != Cancelled && b.status == Finished
    requires b.entryPrice == battles[k].entryPrice && forall u: nat :: Seated(b, u) <==> Seated(battles[k], u)
    ensures BattleLedgerOk(ledger, battles[k := b])
  {
    hide CountOf, Seated;
    var changed := battles[k := b];
    forall i | 0 <= i < |ledger| ensures EntryOk(ledger[i], changed) {
      assert EntryOk(ledger[i], battles);
    }
    forall j, u: nat | 0 <= j < |changed| ensures PaidOnce(ledger, changed, j, u) {
      assert PaidOnce(ledger, battles, j, u);
    }
  }

  lemma SeatTaken(s: State, k: nat, u: nat)
    requires k < |s.battles| && u < |s.users| && TakeSeat(s, k, u).Ok?
    ensures var t := TakeSeat(s, k, u).value;
            && t == s.(users := t.users, ledger := t.ledger, battles := s.battles[k := WithSeat(s.battles[k], u)])
            && |t.users| == |s.users| && s.battles[k].status == Waiting && s.battles[k].filledSlots < s.battles[k].slots
  {
  }

  lemma CanSettleSeated(s: State, t: State, k: nat, u: nat)
    requires ValidCases(s.cases) && BattlesOk(|s.users|, |s.cases|, s.battles) && k < |s.battles| && u < |s.users|
    requires t.cases == s.cases && |t.users| == |s.users| && t.battles == s.battles[k := WithSeat(s.battles[k], u)]
    requires !Seated(s.battles[k], u)
    ensures CanSettle(t, k)
  {
    hide Seated, ValidCases;
    assert BattleOk(s.battles[k], |s.users|, |s.cases|);
    SeatKeepsSeats(s.battles[k], u, |s.users|);
    assert TermsOk(WithSeat(s.battles[k], u), |s.cases|);
  }

  /** The state between the last seat and the settlement. */
  lemma LastSeatTaken(s: State, digest: Digest, u: nat, k: nat)
    requires IsDigest(digest) && Inv(s, digest) && TxJoin(s, digest, u, k).Ok? && k < |s.battles|
    requires s.battles[k].filledSlots + 1 >= s.battles[k].slots
    ensures var t := TakeSeat(s, k, u).value;
            && TakeSeat(s, k, u).Ok? && CanSettle(t, k)
            && Settles(t, digest, k) && TxJoin(s, digest, u, k) == Ok(SettledState(t, digest, k))
            && t == s.(users := t.users, ledger := t.ledger, battles := s.battles[k := t.battles[k]]) && |t.users| == |s.users|
            && t.battles[k].status == Waiting && t.battles[k].filledSlots == t.battles[k].slots
            && MoneyOk(t.users, t.ledger) && BattleLedgerOk(t.ledger, t.battles) && TotalMoney(t) == TotalMoney(s)
            && ItemsOk(t.rows, t.inventory, t.battles)
  {
    hide IsDigest, MoneyOk, SeedsOk, NoncesOk, RowsOk, ItemsOk, BattlesOk, BattleLedgerOk, ValidCases, BonusesOk,
         Settle, TakeSeat, CanSettle, TotalMoney, Seated;
    var t := TakeSeat(s, k, u).value;
    SeatTaken(s, k, u);
    CanSettleSeated(s, t, k, u);
    WaitingIsClaimed(t, digest, k);
    TakeSeatKeepsMoney(s, k, u);
    TakeSeatKeepsLedger(s, k, u);
    LaterBattlesKeepItems(s.rows, s.inventory, s.battles, t.battles);
  }

  /** Finishing one battle keeps the others, the ledger and the money. */
  lemma FinishKeepsBattles(battles: seq<BattleRow>, t: State, s': State, k: nat, users: nat, cases: nat)
    requires k < |battles| == |t.battles| && BattlesOk(users, cases, battles) && |t.users| == users && |t.cases| == cases
    requires t.battles == battles[k := t.battles[k]] && t.battles[k].status == Waiting
    requires BattleLedgerOk(t.ledger, t.battles) && FinishesBattle(t, s', k)
    ensures BattlesOk(users, cases, s'.battles) && BattleLedgerOk(s'.ledger, s'.battles) && TotalMoney(s') == TotalMoney(t)
  {
    hide BattlesOk, BattleOk, BattleLedgerOk, Held, Seated;
    var b := s'.battles[k];
    HeldMoves(t.battles, k, b);
    FinishedKeepsLedger(t.ledger, t.battles, k, b);
    ChangedBattleIsOk(battles, k, b, users, cases);
    assert t.battles[k := b] == battles[k := b];
  }

  /** The last seat: the battle is played in the same transaction. */
  lemma JoinKeepsFull(s: State, digest: Digest, u: nat, k: nat)
    requires IsDigest(digest) && Inv(s, digest) && TxJoin(s, digest, u, k).Ok? && k < |s.battles|
    requires s.battles[k].filledSlots + 1 >= s.battles[k].slots
    ensures var s' := TxJoin(s, digest, u, k).value; Inv(s', digest) && TotalMoney(s') == TotalMoney(s)
  {
    LastSeatTaken(s, digest, u, k);
    hide IsDigest, MoneyOk, SeedsOk, NoncesOk, RowsOk, ItemsOk, BattleLedgerOk, BattlesOk, BattleOk,
         TxJoin, TakeSeat, Settles, SettledState, Held, CanSettle, Seated, TotalMoney, BonusesOk, ValidCases;
    var t, s' := TakeSeat(s, k, u).value, TxJoin(s, digest, u, k).value;
    SettleFinishes(t, digest, k);
    SettleKeepsItems(t, digest, k);
    SettleKeepsSeeds(t, digest, k);
    FinishKeepsBattles(s.battles, t, s', k, |s.users|, |s.cases|);
  }

  lemma SettleKeepsSeeds(s: State, digest: Digest, k: nat)
    requires IsDigest(digest) && CanSettle(s, k) && Settles(s, digest, k)
    requires SeedsOk(|s.users|, s.seeds) && NoncesOk(s.seeds, s.rows) && RowsOk(s.seeds, s.rows, digest)
    ensures var s' := SettledState(s, digest, k);
            SeedsOk(|s'.users|, s'.seeds) && NoncesOk(s'.seeds, s'.rows) && RowsOk(s'.seeds, s'.rows, digest)
  {
    hide IsDigest, Played, ValidCase, SeedsOk, NoncesOk, RowsOk, FinishedRow;
    SettlesByPlaying(s, digest, k);
    var t := Claim(s, k).value;
    hide Settle, Settles, SettledState;
    PlayedAppends(t, digest, k);
    PlayedKeeps(t, digest, k);
  }

  /** Joining keeps everything, whether the seat was the last one or not. */
  lemma JoinKeeps(s: State, digest: Digest, u: nat, k: nat)
    requires IsDigest(digest) && Inv(s, digest) && TxJoin(s, digest, u, k).Ok?
    ensures var s' := TxJoin(s, digest, u, k).value; Inv(s', digest) && TotalMoney(s') == TotalMoney(s)
  {
    hide Inv, Settle;
    if s.battles[k].filledSlots + 1 < s.battles[k].slots {
      JoinKeepsWaiting(s, digest, u, k);
    } else {
      JoinKeepsFull(s, digest, u, k);
    }
  }

  // ----- cancelling

  lemma CancelledBattleIsOk(b: BattleRow, users: nat, cases: nat)
    requires BattleOk(b, users, cases) && b.status == Waiting
    ensures BattleOk(CancelledRow(b), users, cases)
  {
  }

  /** Cancelling by the host or by the sweeper keeps everything and returns every seat. */
  lemma CancelKeeps(s: State, digest: Digest, k: nat)
    requires IsDigest(digest) && Inv(s, digest) && k < |s.battles| && s.battles[k].status == Waiting
    ensures SeatsOk(s.battles[k], |s.users|) && CancelAndRefund(s, k).Some?
    ensures var s' := CancelAndRefund(s, k).value; Inv(s', digest) && TotalMoney(s') == TotalMoney(s)
  {
    assert BattleOk(s.battles[k], |s.users|, |s.cases|);
    var s' := CancelAndRefund(s, k).value;
    hide IsDigest, MoneyOk, SeedsOk, NoncesOk, RowsOk, ItemsOk, BattleLedgerOk, Held;
    CancelKeepsMoney(s, k);
    CancelKeepsLedger(s, k);
    CancelledBattleIsOk(s.battles[k], |s.users|, |s.cases|);
    RefundsOnlyPay(s, k, s.battles[k].seats);
    ChangedBattleIsOk(s.battles, k, CancelledRow(s.battles[k]), |s.users|, |s.cases|);
    LaterBattlesKeepItems(s.rows, s.inventory, s.battles, s'.battles);
  }

  lemma {:induction false} RefundsOnlyPay(s: State, k: nat, seats: seq<Seat>)
    requires k < |s.battles| && forall i :: 0 <= i < |seats| ==> seats[i].user < |s.users|
    ensures var r := RefundSeats(s, k, seats); r == s.(users := r.users, ledger := r.ledger)
  {
    if seats != [] {
      RefundsOnlyPay(s, k, seats[..|seats| - 1]);
    }
  }
}
