/** The accounts purchases are paid from, as the worker sees them between two reloads. */
module MarketPool {
  import opened Wrappers
  import opened Market

  /** A row of the account table; `balance` is a snapshot the pool debits locally. */
  datatype AccountRow = AccountRow(id: AccountId, status: AccountStatus, balance: Option<int>, currency: Option<string>)

  /** All the worker knows of its accounts at one moment. */
  datatype Accounts = Accounts(rows: seq<AccountRow>, clients: set<AccountId>, lastUsedAt: map<AccountId, int>)

  predicate DistinctIds(rows: seq<AccountRow>) {
    forall j, k :: 0 <= j < k < |rows| ==> rows[j].id != rows[k].id
  }

  predicate HasRow(rows: seq<AccountRow>, id: AccountId) {
    exists k :: 0 <= k < |rows| && rows[k].id == id
  }

  /** What `pickAccount` is shown: the rows, with the moment each key was last used. */
  function CandidatesOf(rows: seq<AccountRow>, lastUsedAt: map<AccountId, int>): (c: seq<Account>)
    ensures |c| == |rows|
  {
    seq(|rows|, k requires 0 <= k < |rows| =>
      Account(rows[k].id, rows[k].status, rows[k].balance, rows[k].currency,
              if rows[k].id in lastUsedAt then lastUsedAt[rows[k].id] else 0))
  }

  /** The claimed row, with the price taken off a balance that is known. */
  function Debited(row: AccountRow, price: nat): AccountRow {
    if row.balance.Some? then row.(balance := Some(row.balance.value - price)) else row
  }

  ghost predicate ClientsHaveRows(rows: seq<AccountRow>, clients: set<AccountId>) {
    forall id :: id in clients ==> HasRow(rows, id)
  }

  lemma SameIdsSameClients(rows: seq<AccountRow>, later: seq<AccountRow>, clients: set<AccountId>)
    requires |later| == |rows| && forall k :: 0 <= k < |rows| ==> later[k].id == rows[k].id
    requires ClientsHaveRows(rows, clients)
    ensures ClientsHaveRows(later, clients)
  {
    forall id | id in clients ensures HasRow(later, id) {
      var k :| 0 <= k < |rows| && rows[k].id == id;
      assert later[k].id == id;
    }
  }

  /** The rows of accounts that cannot be asked, marked ERROR where the mark can be stored. */
  function Marked(loaded: seq<AccountRow>, askable: set<AccountId>, storable: set<AccountId>): (rows: seq<AccountRow>)
    ensures |rows| == |loaded|
  {
    seq(|loaded|, k requires 0 <= k < |loaded| => MarkedRow(loaded[k], askable, storable))
  }

  function MarkedRow(row: AccountRow, askable: set<AccountId>, storable: set<AccountId>): AccountRow {
    if row.id !in askable && row.id in storable then row.(status := Error) else row
  }

  /** Half-way through a reload, an account not come to yet has a client exactly if it had one before. */
  lemma MarkAgrees(loaded: seq<AccountRow>, k: nat, was: set<AccountId>, clients: set<AccountId>,
                   decryptable: set<AccountId>, storable: set<AccountId>)
    requires DistinctIds(loaded) && k < |loaded|
    requires forall id :: id in clients <==> id in was || (HasRow(loaded[..k], id) && id in decryptable)
    ensures MarkedRow(loaded[k], clients + decryptable, storable) == MarkedRow(loaded[k], was + decryptable, storable)
  {
    assert !HasRow(loaded[..k], loaded[k].id);
  }

  /** What asking an account for its balance gave; `Unreachable` brings the stored balance back with the mark. */
  datatype Health = Reported(balance: Option<int>, currency: Option<string>) | Unreachable(stored: Option<int>) | NotStored

  /** An account that is not switched off and can be asked is in rotation by what it says, and only by that. */
  function RefreshedRow(row: AccountRow, clients: set<AccountId>, health: map<AccountId, Health>): (r: AccountRow)
    ensures r.id == row.id
  {
    if row.status.Disabled? || row.id !in clients || row.id !in health then row
    else match health[row.id]
         case Reported(balance, currency) =>
           row.(status := if CurrencyUsable(currency) then Online else Error, balance := balance, currency := currency)
         case Unreachable(stored) => row.(status := Error, balance := stored)
         case NotStored => row
  }

  /** After a refresh an account that was asked can pay exactly if it reported the site's currency, and what it reported. */
  predicate RefreshedBy(was: AccountRow, row: AccountRow, clients: set<AccountId>, health: map<AccountId, Health>) {
    if was.status.Disabled? || was.id !in clients || was.id !in health || health[was.id].NotStored? then row == was
    else
      && row.id == was.id && (InRotation(row) <==> health[was.id].Reported? && CurrencyUsable(health[was.id].currency))
      && (InRotation(row) ==> row.balance == health[was.id].balance)
  }

  lemma RefreshedRowIs(row: AccountRow, clients: set<AccountId>, health: map<AccountId, Health>)
    ensures RefreshedBy(row, RefreshedRow(row, clients, health), clients, health)
  {
  }

  /** The accounts a job pays from: as they are, or refreshed if the last refresh is old enough. */
  function AfterRefresh(accounts: Accounts, health: Option<map<AccountId, Health>>): Accounts {
    if health.None? then accounts
    else accounts.(rows := seq(|accounts.rows|, k requires 0 <= k < |accounts.rows| =>
                     RefreshedRow(accounts.rows[k], accounts.clients, health.value)))
  }

  /** The account used last loses to every other one that can pay and was used before `now`. */
  ghost predicate LosesToEarlier(candidates: seq<Account>, account: AccountId, now: int) {
    forall price: nat, k, j ::
      && 0 <= k < |candidates| && candidates[k].id == account && 0 <= j < |candidates|
      && Eligible(candidates[j], price) && candidates[j].lastUsedAt < now ==>
        !IsPick(candidates, price, Some(k))
  }

  // ----- who can pay

  /** The account that would be picked for this price can also be asked. */
  ghost predicate Payable(rows: seq<AccountRow>, lastUsedAt: map<AccountId, int>, clients: set<AccountId>, price: nat) {
    exists k :: 0 <= k < |rows| && IsPick(CandidatesOf(rows, lastUsedAt), price, Some(k)) && rows[k].id in clients
  }

  /** The account that will pay, if the one picked can be asked. */
  ghost function Payer(rows: seq<AccountRow>, lastUsedAt: map<AccountId, int>, clients: set<AccountId>, price: nat)
    : (payer: Option<AccountId>)
    ensures payer.Some? <==> Payable(rows, lastUsedAt, clients, price)
    ensures payer.Some? ==> payer.value in clients
  {
    if Payable(rows, lastUsedAt, clients, price) then
      var k :| 0 <= k < |rows| && IsPick(CandidatesOf(rows, lastUsedAt), price, Some(k)) && rows[k].id in clients;
      Some(rows[k].id)
    else None
  }

  lemma PickIsUnique(accounts: seq<Account>, price: int, j: nat, k: nat)
    requires IsPick(accounts, price, Some(j)) && IsPick(accounts, price, Some(k))
    ensures j == k
  {
  }

  lemma {:induction false} PickExists(accounts: seq<Account>, price: int, j: nat) returns (k: nat)
    requires j < |accounts| && Eligible(accounts[j], price)
    ensures IsPick(accounts, price, Some(k))
  {
    var n := |accounts| - 1;
    assert accounts == accounts[..n] + [accounts[n]];
    if i :| 0 <= i < n && Eligible(accounts[i], price) {
      assert accounts[..n][i] == accounts[i];
      k := PickExists(accounts[..n], price, i);
      if Eligible(accounts[n], price) && accounts[n].lastUsedAt < accounts[k].lastUsedAt {
        k := n;
      }
    } else {
      k := n;
    }
  }

  lemma PayerIsPick(rows: seq<AccountRow>, lastUsedAt: map<AccountId, int>, clients: set<AccountId>, price: nat, pick: Option<nat>)
    requires IsPick(CandidatesOf(rows, lastUsedAt), price, pick)
    ensures Payer(rows, lastUsedAt, clients, price)
            == if pick.Some? && rows[pick.value].id in clients then Some(rows[pick.value].id) else None
  {
    if Payable(rows, lastUsedAt, clients, price) {
      var k :| 0 <= k < |rows| && IsPick(CandidatesOf(rows, lastUsedAt), price, Some(k)) && rows[k].id in clients
               && Payer(rows, lastUsedAt, clients, price) == Some(rows[k].id);
      if pick.Some? {
        PickIsUnique(CandidatesOf(rows, lastUsedAt), price, k, pick.value);
      }
    }
  }

  /** One balance less by the price, or nothing changed. */
  predicate DebitedOnce(before: seq<AccountRow>, later: seq<AccountRow>, price: nat) {
    later == before || exists k :: 0 <= k < |before| && later == before[k := Debited(before[k], price)]
  }

  lemma NothingDebited(rows: seq<AccountRow>, price: nat)
    ensures DebitedOnce(rows, rows, price)
  {
  }

  predicate InRotation(row: AccountRow) {
    row.status.Online? && CurrencyUsable(row.currency)
  }

  /** Every account in rotation can be asked, and one of them covers this total alone. */
  ghost predicate Covers(rows: seq<AccountRow>, clients: set<AccountId>, total: nat) {
    && (forall k :: 0 <= k < |rows| && InRotation(rows[k]) ==> rows[k].id in clients)
    && (exists k :: 0 <= k < |rows| && InRotation(rows[k]) && (rows[k].balance.Some? ==> rows[k].balance.value >= total))
  }

  /** The same accounts, no balance higher nor lower by more than this total. */
  predicate DebitedBy(before: seq<AccountRow>, later: seq<AccountRow>, total: nat) {
    && |later| == |before|
    && forall k :: 0 <= k < |before| ==>
         && later[k] == before[k].(balance := later[k].balance)
         && (later[k].balance.Some? <==> before[k].balance.Some?)
         && (before[k].balance.Some? ==> before[k].balance.value - total <= later[k].balance.value <= before[k].balance.value)
  }

  lemma DebitsAddUp(before: seq<AccountRow>, later: seq<AccountRow>, last: seq<AccountRow>, total: nat, price: nat)
    requires DebitedBy(before, later, total) && DebitedOnce(later, last, price)
    ensures DebitedBy(before, last, total + price)
  {
  }

  /** Then every price that fits the rest of the total can be paid, whichever account was used last. */
  lemma CoveredIsPayable(before: seq<AccountRow>, rows: seq<AccountRow>, lastUsedAt: map<AccountId, int>, clients: set<AccountId>,
                         total: nat, price: nat)
    requires Covers(before, clients, total + price) && DebitedBy(before, rows, total)
    ensures Payer(rows, lastUsedAt, clients, price).Some?
  {
    var j :| 0 <= j < |before| && InRotation(before[j]) && (before[j].balance.Some? ==> before[j].balance.value >= total + price);
    var candidates := CandidatesOf(rows, lastUsedAt);
    assert Eligible(candidates[j], price);
    var k := PickExists(candidates, price, j);
    assert Eligible(candidates[k], price) && InRotation(before[k]);
  }

  class Pool {
    var rows: seq<AccountRow>
    var clients: set<AccountId>
    var lastUsedAt: map<AccountId, int>
    /** What the last reading of each row said, and what was claimed on it since. */
    ghost var read: map<AccountId, Option<int>>
    ghost var claimed: map<AccountId, nat>

    ghost function View(): Accounts
      reads this
    {
      Accounts(rows, clients, lastUsedAt)
    }

    ghost predicate Valid()
      reads this
    {
      && DistinctIds(rows)
      && (forall k :: 0 <= k < |rows| ==> rows[k].id in read && rows[k].id in claimed)
      && (forall k :: 0 <= k < |rows| ==>
            (rows[k].balance.Some? <==> read[rows[k].id].Some?))
      && (forall k :: 0 <= k < |rows| && rows[k].balance.Some? ==>
            && rows[k].balance.value == read[rows[k].id].value - claimed[rows[k].id]
            && (claimed[rows[k].id] > 0 ==> rows[k].balance.value >= 0))
      && ClientsHaveRows(rows, clients)
    }

    /** Everything claimed on an account since it was last read fits into the balance read then. */
    ghost predicate WithinBalance(k: nat)
      reads this
    {
      k < |rows| && rows[k].id in read && rows[k].id in claimed && read[rows[k].id].Some? && claimed[rows[k].id] > 0
      ==> claimed[rows[k].id] <= read[rows[k].id].value
    }

    constructor ()
      ensures Valid() && rows == [] && clients == {}
    {
      rows, clients, lastUsedAt := [], {}, map[];
      read, claimed := map[], map[];
    }

    /** A loaded account that has no client gets one, or is marked ERROR. */
    method Admit(k: nat, decryptable: set<AccountId>, storable: set<AccountId>)
      requires k < |rows|
      modifies this`rows, this`clients
      ensures clients == old(clients) + (if old(rows)[k].id in decryptable then {old(rows)[k].id} else {})
      ensures rows == old(rows)[k := MarkedRow(old(rows)[k], old(clients) + decryptable, storable)]
    {
      var id := rows[k].id;
      if id !in clients {
        if id in decryptable {
          clients := clients + {id};
        } else if id in storable {
          rows := rows[k := rows[k].(status := Error)];
        }
      }
    }

    /**
     * Replaces the rows; a client survives as long as its account does, and a
     * new account gets one if its key can be decrypted. One whose key cannot be
     * is marked ERROR, if that can be stored.
     */
    method Reload(loaded: seq<AccountRow>, decryptable: set<AccountId>, storable: set<AccountId>)
      requires DistinctIds(loaded)
      modifies this
      ensures Valid() && lastUsedAt == old(lastUsedAt)
      ensures rows == Marked(loaded, old(clients) + decryptable, storable)
      ensures forall id :: id in clients <==> HasRow(loaded, id) && (id in old(clients) || id in decryptable)
      ensures forall k :: 0 <= k < |loaded| ==>
                rows[k] == if loaded[k].id !in clients && loaded[k].id in storable then loaded[k].(status := Error) else loaded[k]
    {
      rows := loaded;
      ghost var was := clients;
      for k := 0 to |loaded|
        invariant |rows| == |loaded| && lastUsedAt == old(lastUsedAt)
        invariant forall j :: 0 <= j < k ==> rows[j] == MarkedRow(loaded[j], was + decryptable, storable)
        invariant forall j :: k <= j < |loaded| ==> rows[j] == loaded[j]
        invariant forall id :: id in clients <==> id in was || (HasRow(loaded[..k], id) && id in decryptable)
      {
        assert loaded[..k + 1] == loaded[..k] + [loaded[k]];
        MarkAgrees(loaded, k, was, clients, decryptable, storable);
        Admit(k, decryptable, storable);
      }
      assert loaded[..|loaded|] == loaded;
      clients := set id | id in clients && HasRow(loaded, id);
      StartReading();
      assert ClientsHaveRows(loaded, clients);
      SameIdsSameClients(loaded, rows, clients);
    }

    /** Takes over what one account said; an account that is switched off or has no client is not asked. */
    method RefreshOne(k: nat, health: map<AccountId, Health>)
      requires Valid() && k < |rows|
      modifies this`rows, this`read, this`claimed
      ensures Valid() && rows == old(rows)[k := RefreshedRow(old(rows)[k], clients, health)]
    {
      hide CurrencyUsable, ClientsHaveRows;
      var row := rows[k];
      SameIdsSameClients(rows, rows[k := RefreshedRow(row, clients, health)], clients);
      if !row.status.Disabled? && row.id in clients && row.id in health {
        match health[row.id]
        case Reported(balance, currency) =>
          var status := if CurrencyUsable(currency) then Online else Error;
          rows := rows[k := row.(status := status, balance := balance, currency := currency)];
          read, claimed := read[row.id := balance], claimed[row.id := 0];
        case Unreachable(stored) =>
          rows := rows[k := row.(status := Error, balance := stored)];
          read, claimed := read[row.id := stored], claimed[row.id := 0];
        case NotStored =>
      }
    }

    /** Asks every account in rotation what it has. */
    method Refresh(health: map<AccountId, Health>)
      requires Valid()
      modifies this`rows, this`read, this`claimed
      ensures Valid() && View() == AfterRefresh(old(View()), Some(health))
      ensures forall k :: 0 <= k < |rows| ==> RefreshedBy(old(rows)[k], rows[k], clients, health)
    {
      hide RefreshedRow, DistinctIds, ClientsHaveRows;
      ghost var was := rows;
      for k := 0 to |rows|
        invariant Valid() && |rows| == |was|
        invariant forall j :: 0 <= j < k ==> rows[j] == RefreshedRow(was[j], clients, health)
        invariant forall j :: k <= j < |was| ==> rows[j] == was[j]
      {
        RefreshOne(k, health);
      }
      forall k | 0 <= k < |rows| ensures RefreshedBy(was[k], rows[k], clients, health) {
        RefreshedRowIs(was[k], clients, health);
      }
    }

    /** Nothing has been claimed since this reading of the rows. */
    ghost method StartReading()
      requires DistinctIds(rows)
      modifies this`read, this`claimed
      ensures forall k :: 0 <= k < |rows| ==>
                && rows[k].id in read && read[rows[k].id] == rows[k].balance
                && rows[k].id in claimed && claimed[rows[k].id] == 0
    {
      read, claimed := map[], map[];
      for k := 0 to |rows|
        invariant forall j :: 0 <= j < k ==>
                    && rows[j].id in read && read[rows[j].id] == rows[j].balance
                    && rows[j].id in claimed && claimed[rows[j].id] == 0
      {
        read, claimed := read[rows[k].id := rows[k].balance], claimed[rows[k].id := 0];
      }
    }

    /**
     * Picks the least recently used account that can pay and debits the row in
     * hand, so that the claims between two reloads fit the balance last read.
     */
    method Claim(price: nat, now: int) returns (account: Option<AccountId>, currency: Option<string>)
      requires Valid()
      modifies this
      ensures Valid() && clients == old(clients) && read == old(read)
      ensures account.None? ==> rows == old(rows) && lastUsedAt == old(lastUsedAt)
      ensures account == old(Payer(rows, lastUsedAt, clients, price))
      ensures DebitedOnce(old(rows), rows, price)
      ensures account.Some? ==>
                exists k :: 0 <= k < |rows| && IsPick(CandidatesOf(old(rows), old(lastUsedAt)), price, Some(k))
                            && account.value == rows[k].id && account.value in clients
                            && currency == rows[k].currency && CurrencyUsable(currency) && old(rows)[k].status.Online?
                            && (old(rows)[k].balance.Some? ==> old(rows)[k].balance.value >= price)
                            && rows == old(rows)[k := Debited(old(rows)[k], price)]
                            && WithinBalance(k)
      ensures account.Some? ==> lastUsedAt == old(lastUsedAt)[account.value := now]
      ensures account.None? ==>
                || IsPick(CandidatesOf(rows, lastUsedAt), price, None)
                || (exists k :: 0 <= k < |rows| && IsPick(CandidatesOf(rows, lastUsedAt), price, Some(k)) && rows[k].id !in clients)
    {
      var candidates := CandidatesOf(rows, lastUsedAt);
      var chosen := PickAccount(candidates, price);
      PayerIsPick(rows, lastUsedAt, clients, price, chosen);
      account, currency := None, None;
      if chosen.Some? && rows[chosen.value].id in clients {
        var k := chosen.value;
        var id := rows[k].id;
        assert Eligible(candidates[k], price);
        account, currency := Some(id), rows[k].currency;
        lastUsedAt := lastUsedAt[id := now];
        SameIdsSameClients(rows, rows[k := Debited(rows[k], price)], clients);
        rows := rows[k := Debited(rows[k], price)];
        claimed := claimed[id := claimed[id] + price];
        assert WithinBalance(k);
      }
    }

    /** Whether an account can be asked; if so it is one that was loaded. */
    method ClientFor(account: AccountId) returns (present: bool)
      requires Valid()
      ensures present <==> account in clients
      ensures present ==> HasRow(rows, account)
    {
      present := account in clients;
    }

    /** Stamps a use: until another one is used later, this account is picked only if no other can pay. */
    method NoteUsed(account: AccountId, now: int)
      requires Valid()
      modifies this`lastUsedAt
      ensures Valid() && lastUsedAt == old(lastUsedAt)[account := now]
      ensures LosesToEarlier(CandidatesOf(rows, lastUsedAt), account, now)
    {
      lastUsedAt := lastUsedAt[account := now];
    }
  }

  /** Two claims in a row never take the same key while another one that could pay was used less recently. */
  lemma ClaimsRotate(rows: seq<AccountRow>, lastUsedAt: map<AccountId, int>, price: nat, k: nat, j: nat, now: int)
    requires DistinctIds(rows) && k < |rows| && j < |rows| && j != k
    requires IsPick(CandidatesOf(rows, lastUsedAt), price, Some(k))
    requires Eligible(CandidatesOf(rows, lastUsedAt)[j], price) && now > CandidatesOf(rows, lastUsedAt)[j].lastUsedAt
    ensures !IsPick(CandidatesOf(rows[k := Debited(rows[k], price)], lastUsedAt[rows[k].id := now]), price, Some(k))
  {
    var next := CandidatesOf(rows[k := Debited(rows[k], price)], lastUsedAt[rows[k].id := now]);
    assert next[j] == CandidatesOf(rows, lastUsedAt)[j];
  }
}
