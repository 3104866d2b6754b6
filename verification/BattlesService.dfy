/** The battle service: create, join, cancel and the sweeper, down to the settlement's loops. */
module BattlesService {
  import opened Battle
  import opened Site
  import opened SiteBattles
  import opened SiteInvariant
  import opened SiteOpenings
  import opened SiteService
  import opened SiteSettlement
  import opened Sorting
  import opened Wrappers

  lemma {:induction false} DropsOneMore(drops: seq<Row>, n: nat, u: nat)
    requires n < |drops|
    ensures DropsOf(drops[..n + 1], u)
            == DropsOf(drops[..n], u)
               + (if drops[n].user == u && drops[n].purpose.Opening? then [drops[n].purpose.itemPrice] else [])
    ensures DropTotal(drops[..n + 1])
            == DropTotal(drops[..n]) + (if drops[n].purpose.Opening? then drops[n].purpose.itemPrice else 0)
  {
    assert drops[..n + 1][..n] == drops[..n];
  }

  /** One player's drops, in round order. */
  method PricesOfPlayer(drops: seq<Row>, u: nat) returns (prices: seq<int>)
    ensures prices == DropsOf(drops, u)
  {
    prices := [];
    for i := 0 to |drops|
      invariant prices == DropsOf(drops[..i], u)
    {
      DropsOneMore(drops, i, u);
      if drops[i].user == u && drops[i].purpose.Opening? {
        prices := prices + [drops[i].purpose.itemPrice];
      }
    }
    assert drops[..|drops|] == drops;
  }

  method TotalOf(drops: seq<Row>) returns (total: int)
    ensures total == DropTotal(drops)
  {
    total := 0;
    for i := 0 to |drops|
      invariant total == DropTotal(drops[..i])
    {
      DropsOneMore(drops, i, 0);
      if drops[i].purpose.Opening? {
        total := total + drops[i].purpose.itemPrice;
      }
    }
    assert drops[..|drops|] == drops;
  }

  method TallySeats(seats: seq<Seat>, drops: seq<Row>) returns (tallies: seq<Tally>)
    ensures tallies == TalliesOf(seats, drops)
  {
    hide DropsOf;
    tallies := [];
    for i := 0 to |seats|
      invariant |tallies| == i && forall j :: 0 <= j < i ==> tallies[j] == Tally(seats[j].slot, DropsOf(drops, seats[j].user))
    {
      var prices := PricesOfPlayer(drops, seats[i].user);
      tallies := tallies + [Tally(seats[i].slot, prices)];
    }
  }

  /** Writes each seat's total, and marks the winner. */
  method ScoreSeats(b: BattleRow, drops: seq<Row>, winner: nat) returns (seats: seq<Seat>)
    requires b.seats != [] && (forall i :: 0 <= i < |b.seats| ==> b.seats[i].slot == i + 1) && winner == WinningSeat(b, drops)
    ensures seats == ScoredSeats(b, drops)
  {
    hide DropsOf, WinningSeat;
    seats := b.seats;
    for i := 0 to |b.seats|
      invariant |seats| == |b.seats|
      invariant forall j :: 0 <= j < i ==>
                  seats[j] == b.seats[j].(total := SumOf(DropsOf(drops, b.seats[j].user)), isWinner := j == winner)
      invariant forall j :: i <= j < |seats| ==> seats[j] == b.seats[j]
    {
      var prices := PricesOfPlayer(drops, b.seats[i].user);
      seats := seats[i := seats[i].(total := SumOf(prices), isWinner := i == winner)];
    }
  }

  /** The order the final table puts the seats in decides the winner. */
  method FindWinner(b: BattleRow, drops: seq<Row>) returns (winner: nat)
    requires b.seats != [] && forall i :: 0 <= i < |b.seats| ==> b.seats[i].slot == i + 1
    ensures winner == WinningSeat(b, drops)
  {
    var tallies := TallySeats(b.seats, drops);
    hide SumOf, DropsOf, ScoreOf, SortedScores;
    TopIsASeat(b, drops);
    var standings := Standings(tallies, b.mode);
    winner := standings[0].score.slot - 1;
  }

  class Battles {
    const database: Database
    const digest: Digest

    constructor (database: Database, digest: Digest)
      ensures this.database == database && this.digest == digest
    {
      this.database := database;
      this.digest := digest;
    }

    method Create(u: nat, input: BattleInput, chosen: seq<Option<Case>>, maxPlayers: nat, maxRounds: nat)
      returns (r: Result<nat, SiteError>)
      requires |chosen| == |input.lines|
      modifies database
      ensures match TxCreate(old(database.tables), u, input, chosen, maxPlayers, maxRounds)
              case Ok(s) => r == Ok(|old(database.tables).battles|) && database.tables == s
              case Err(e) => r == Err(e) && database.tables == old(database.tables)
    {
      hide NewBattle, TakeSeat;
      if input.slots > maxPlayers || TotalRounds(input.lines) > maxRounds {
        return Err(BattleSizeInvalid);
      }
      if exists i :: 0 <= i < |chosen| && (chosen[i].None? || !chosen[i].value.isActive) {
        return Err(CaseUnavailable);
      }
      if exists i :: 0 <= i < |chosen| && chosen[i].Some? && chosen[i].value.items == [] {
        return Err(CaseIsEmpty);
      }
      var tx := database.tables;
      if u >= |tx.users| || tx.users[u].banned {
        return Err(AccountBanned);
      }
      var id := |tx.battles|;
      tx := tx.(battles := tx.battles + [NewBattle(tx, u, input, chosen)]);
      var seated := ClaimSeat(tx, id, u);
      if seated.Err? {
        return Err(seated.error);
      }
      database.tables := seated.value;
      return Ok(id);
    }

    /** Debit, then the next free seat, both conditional, inside the caller's transaction. */
    method ClaimSeat(before: State, k: nat, u: nat) returns (r: Result<State, SiteError>)
      requires k < |before.battles| && u < |before.users|
      ensures r == TakeSeat(before, k, u)
    {
      var tx := before;
      var price := tx.battles[k].entryPrice;
      if tx.users[u].balance < price {
        return Err(InsufficientFunds);
      }
      tx := tx.(users := SetBalance(tx.users, u, tx.users[u].balance - price));
      var b := tx.battles[k];
      if b.status != Waiting || b.filledSlots >= b.slots {
        return Err(BattleIsFull);
      }
      b := b.(filledSlots := b.filledSlots + 1);
      b := b.(seats := b.seats + [Seat(u, b.filledSlots, 0, false)]);
      tx := tx.(battles := tx.battles[k := b]);
      tx := tx.(ledger := tx.ledger + [Entry(u, -price, tx.users[u].balance, BattleEntry, Some(k))]);
      return Ok(tx);
    }

    /** Every player's block of nonces and rolls, in a fixed order of players. */
    method PlayAll(before: State, k: nat, seating: seq<Seat>, ids: seq<nat>, views: seq<Case>) returns (r: Result<State, SiteError>)
      requires IsDigest(digest) && ValidCases(views) && |ids| == |views| && k < |before.battles|
      requires forall i :: 0 <= i < |seating| ==> seating[i].user < |before.users|
      ensures r == PlaySeats(before, digest, k, seating, ids, views)
    {
      hide IsDigest, ValidCases, RollAll;
      var tx := before;
      for i := 0 to |seating|
        invariant tx.users == before.users && tx.battles == before.battles
        invariant PlaySeats(before, digest, k, seating, ids, views) == PlaySeats(tx, digest, k, seating[i..], ids, views)
      {
        assert seating[i..][1..] == seating[i + 1..];
        var u := seating[i].user;
        var seed := ActiveSeed(tx.seeds, u);
        if seed.None? || tx.users[u].clientSeed.None? {
          return Err(NoActiveSeed);
        }
        if exists j :: 0 <= j < |views| && views[j].items == [] {
          return Err(CaseIsEmpty);
        }
        var first := tx.seeds[seed.value].nonce + 1;
        var seeds := Reserved(tx.seeds, seed.value, tx.battles[k].rounds);
        var drops := RollCases(digest, u, seed.value, tx.users[u].clientSeed.value, first, ids, views, Some(k));
        tx := tx.(seeds := seeds, rows := tx.rows + drops);
      }
      return Ok(tx);
    }

    /**
     * Claims the transition, plays every seat, ranks them, and hands every item
     * to the winner. Nothing to claim is nothing to play.
     */
    method PlayOut(before: State, k: nat) returns (r: Result<Option<State>, SiteError>)
      requires IsDigest(digest) && CanSettle(before, k)
      ensures r == Settle(before, digest, k)
    {
      hide IsDigest, ValidCase, PlaySeats, BattleDrop, DropTotal;
      var tx := before;
      if tx.battles[k].status != Waiting {
        return Ok(None);
      }
      tx := tx.(battles := tx.battles[k := tx.battles[k].(status := Running)]);
      ClaimRuns(before, k);
      ghost var claimed := tx;
      var b := tx.battles[k];
      RoundsExist(b, |tx.cases|);
      SeatingIs(b, |tx.users|);
      var order := ExpandBattleRounds(b.lines);
      var played := PlayAll(tx, k, SortBy(b.seats, ByUser), order, ViewsOf(tx.cases, order));
      if played.Err? {
        return Err(played.error);
      }
      tx := played.value;
      PlayedAppends(claimed, digest, k);
      var drops := tx.rows[|before.rows|..];
      DropsAreSeated(b, drops, k);
      var winner := FindWinner(b, drops);
      var totalValue := TotalOf(drops);
      var items := GrantItems(drops, b.seats[winner].user, |before.rows|);
      var seats := ScoreSeats(b, drops, winner);
      b := b.(status := Finished, seats := seats, totalValue := totalValue, winner := Some(b.seats[winner].user));
      tx := tx.(inventory := tx.inventory + items, battles := tx.battles[k := b]);
      return Ok(Some(tx));
    }

    method Join(u: nat, k: nat) returns (r: Result<(), SiteError>)
      requires IsDigest(digest) && Inv(database.tables, digest)
      modifies database
      ensures match TxJoin(old(database.tables), digest, u, k)
              case Ok(s) => r == Ok(()) && database.tables == s
              case Err(e) => r == Err(e) && database.tables == old(database.tables)
    {
      hide IsDigest, Settle, MoneyOk, SeedsOk, NoncesOk, RowsOk, ItemsOk, BattleLedgerOk, BonusesOk, ValidCases;
      var tx := database.tables;
      if k >= |tx.battles| || tx.battles[k].status != Waiting {
        return Err(BattleUnavailable);
      }
      if u >= |tx.users| || tx.users[u].banned {
        return Err(AccountBanned);
      }
      if Seated(tx.battles[k], u) {
        return Err(BattleAlreadyJoined);
      }
      var seated := ClaimSeat(tx, k, u);
      if seated.Err? {
        return Err(seated.error);
      }
      SeatTaken(tx, k, u);
      if seated.value.battles[k].filledSlots >= tx.battles[k].slots {
        CanSettleSeated(tx, seated.value, k, u);
        var settled := PlayOut(seated.value, k);
        if settled.Err? {
          return Err(settled.error);
        }
        database.tables := if settled.value.Some? then settled.value.value else seated.value;
        return Ok(());
      }
      database.tables := seated.value;
      return Ok(());
    }

    /** Claims CANCELLED, then pays each seat back in turn; false, and nothing changed, unless the battle was waiting. */
    method Refund(k: nat) returns (cancelled: bool)
      requires k < |database.tables.battles| && SeatsOk(database.tables.battles[k], |database.tables.users|)
      modifies database
      ensures cancelled <==> CancelAndRefund(old(database.tables), k).Some?
      ensures database.tables == if cancelled then CancelAndRefund(old(database.tables), k).value else old(database.tables)
    {
      var tx := database.tables;
      ghost var before := tx;
      if tx.battles[k].status != Waiting {
        return false;
      }
      var b := tx.battles[k];
      var claimed := tx.battles[k := b.(status := Cancelled)];
      for i := 0 to |b.seats|
        invariant tx == RefundSeats(before, k, b.seats[..i]) && |tx.users| == |before.users|
      {
        assert b.seats[..i + 1][..i] == b.seats[..i];
        var player := b.seats[i].user;
        var balance := tx.users[player].balance + b.entryPrice;
        tx := tx.(users := SetBalance(tx.users, player, balance),
                  ledger := tx.ledger + [Entry(player, b.entryPrice, balance, BattleRefund, Some(k))]);
      }
      assert b.seats[..|b.seats|] == b.seats;
      tx := tx.(battles := claimed);
      database.tables := tx;
      return true;
    }

    method Cancel(u: nat, k: nat) returns (r: Result<(), SiteError>)
      requires BattlesOk(|database.tables.users|, |database.tables.cases|, database.tables.battles)
      modifies database
      ensures match TxCancel(old(database.tables), u, k)
              case Ok(s) => r == Ok(()) && database.tables == s
              case Err(e) => r == Err(e) && database.tables == old(database.tables)
    {
      hide CancelAndRefund;
      if k >= |database.tables.battles| {
        return Err(BattleUnavailable);
      }
      if database.tables.battles[k].host != u {
        return Err(BattleNotCancellable);
      }
      var cancelled := Refund(k);
      if !cancelled {
        return Err(BattleNotCancellable);
      }
      return Ok(());
    }

    /** After a sweep nothing from before the cutoff is still waiting, and no money has gone missing. */
    method SweepStale(cutoff: int)
      requires IsDigest(digest) && Inv(database.tables, digest)
      modifies database
      ensures Inv(database.tables, digest) && TotalMoney(database.tables) == TotalMoney(old(database.tables))
      ensures |database.tables.battles| == |old(database.tables).battles|
      ensures forall k :: 0 <= k < |database.tables.battles| ==>
                && (old(database.tables).battles[k].status == Waiting && old(database.tables).battles[k].createdAt < cutoff ==>
                      database.tables.battles[k] == CancelledRow(old(database.tables).battles[k]))
                && (!(old(database.tables).battles[k].status == Waiting && old(database.tables).battles[k].createdAt < cutoff) ==>
                      database.tables.battles[k] == old(database.tables).battles[k])
    {
      hide IsDigest, TotalMoney, Inv, MoneyOk, SeedsOk, NoncesOk, RowsOk, ItemsOk, BattleLedgerOk, BattleOk, SeatsOk;
      ghost var before := database.tables;
      var stale := |database.tables.battles|;
      for k := 0 to stale
        invariant Inv(database.tables, digest) && TotalMoney(database.tables) == TotalMoney(before)
        invariant |database.tables.battles| == |before.battles|
        invariant forall j :: 0 <= j < k ==> database.tables.battles[j] == Swept(before.battles[j], cutoff)
        invariant forall j :: k <= j < |before.battles| ==> database.tables.battles[j] == before.battles[j]
      {
        if database.tables.battles[k].status == Waiting && database.tables.battles[k].createdAt < cutoff {
          CancelKeeps(database.tables, digest, k);
          CancelChangesOne(database.tables, k);
          var cancelled := Refund(k);
        }
      }
    }
  }

  function Swept(b: BattleRow, cutoff: int): BattleRow {
    if b.status == Waiting && b.createdAt < cutoff then CancelledRow(b) else b
  }

  lemma CancelChangesOne(s: State, k: nat)
    requires k < |s.battles| && SeatsOk(s.battles[k], |s.users|) && s.battles[k].status == Waiting
    ensures CancelAndRefund(s, k).value.battles == s.battles[k := CancelledRow(s.battles[k])]
  {
  }
}
