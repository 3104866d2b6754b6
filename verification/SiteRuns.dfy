/** Runs of the site: players, operators and sweepers in any order, each transaction whole or rolled back. */
module SiteRuns {
  import opened ContractOdds
  import opened ContractPool
  import opened Site
  import opened SiteBattles
  import opened SiteCases
  import opened SiteInvariant
  import opened SiteOpenings
  import opened Wrappers

  datatype Move =
    | OpenCase(u: nat, caseId: nat, read: Case, count: int, seen: set<nat>)
    | SpinWheel(u: nat, wheel: seq<Slice>, cooldown: int, grants: seq<Grant>)
    | RunContract(u: nat, ids: seq<nat>, candidates: seq<Candidate>)
    | AdjustBalance(u: nat, amount: int)
    | CreateBattle(u: nat, input: BattleInput, chosen: seq<Option<Case>>, maxPlayers: nat, maxRounds: nat)
    | JoinBattle(u: nat, k: nat)
    | CancelBattle(u: nat, k: nat)
    | SweepBattle(k: nat)
    | SaveCase(target: Option<nat>, contents: CaseInput, itemPrices: map<nat, int>)
    | Reprice(caseId: nat, item: nat, price: int)
    | SignUp(client: nat)
    | RotateSeed(u: nat)
    | SetClientSeed(u: nat, client: nat)
    | SetBanned(u: nat, banned: bool)
    | Tick(now: int)

  /** What a move may assume of what was read before its transaction: cases and wheels that were valid when stored. */
  ghost predicate Possible(s: State, m: Move) {
    match m
    case OpenCase(_, _, read, _, _) => read.items != [] ==> ValidCase(read)
    case SpinWheel(_, wheel, _, _) => ValidWheel(wheel)
    case CreateBattle(_, input, chosen, _, _) => ReadFrom(s, input.lines, chosen) && input.slots >= 2
    case SaveCase(_, input, _) => PriceAgrees(input)
    case _ => true
  }

  // ----- the operators' and accounts' own moves

  function Stored(cases: seq<Case>, target: Option<nat>, c: Case): seq<Case> {
    if target.Some? && target.value < |cases| then cases[target.value := c] else cases + [c]
  }

  function Repriced(c: Case, item: nat, price: int): Case {
    if item < |c.items| then c.(items := c.items[item := c.items[item].(price := price)]) else c
  }

  function SignedUp(s: State, client: nat): State {
    s.(users := s.users + [User(0, false, None, Some(client))], seeds := s.seeds + [Seed(|s.users|, 0, true)])
  }

  /** The active seed is retired and a new one, at nonce 0, takes its place. */
  function Rotated(s: State, u: nat): State {
    var current := ActiveSeed(s.seeds, u);
    if u >= |s.users| || current.None? then s
    else s.(seeds := s.seeds[current.value := s.seeds[current.value].(active := false)] + [Seed(u, 0, true)])
  }

  function Committed(s: State, r: Result<State, SiteError>): State {
    match r case Ok(s') => s' case Err(_) => s
  }

  /** A move's effect: its committed state, or none at all. */
  ghost function Step(s: State, digest: Digest, maths: Maths, m: Move): State
    requires IsDigest(digest) && maths.Valid() && Inv(s, digest) && Possible(s, m)
  {
    match m
    case OpenCase(u, caseId, read, count, seen) =>
      var r := TxOpenCase(s, digest, u, caseId, read, count, seen); if r.Ok? then r.value.state else s
    case SpinWheel(u, wheel, cooldown, catalogue) =>
      var r := TxSpin(s, digest, u, wheel, cooldown, catalogue); if r.Ok? then r.value.state else s
    case RunContract(u, ids, candidates) =>
      var r := TxContract(s, digest, maths, u, ids, candidates); if r.Ok? then r.value.state else s
    case AdjustBalance(u, amount) => Committed(s, TxAdjust(s, u, amount))
    case CreateBattle(u, input, chosen, maxPlayers, maxRounds) => Committed(s, TxCreate(s, u, input, chosen, maxPlayers, maxRounds))
    case JoinBattle(u, k) => Committed(s, TxJoin(s, digest, u, k))
    case CancelBattle(u, k) => Committed(s, TxCancel(s, u, k))
    case SweepBattle(k) => TxSweepOne(s, k)
    case SaveCase(target, input, catalogue) =>
      if GateAccepts(input, catalogue) then s.(cases := Stored(s.cases, target, StoredCase(input, catalogue))) else s
    case Reprice(caseId, item, price) =>
      if caseId < |s.cases| then s.(cases := s.cases[caseId := Repriced(s.cases[caseId], item, price)]) else s
    case SignUp(client) => SignedUp(s, client)
    case RotateSeed(u) => Rotated(s, u)
    case SetClientSeed(u, client) =>
      if u < |s.users| then s.(users := s.users[u := s.users[u].(clientSeed := Some(client))]) else s
    case SetBanned(u, banned) =>
      if u < |s.users| then s.(users := s.users[u := s.users[u].(banned := banned)]) else s
    case Tick(now) => s.(now := now)
  }

  predicate IsBattleMove(m: Move) {
    m.CreateBattle? || m.JoinBattle? || m.CancelBattle? || m.SweepBattle?
  }

  // ----- every move keeps the invariant

  lemma NoRowsForNewUser(ledger: seq<Entry>, u: nat)
    requires forall k :: 0 <= k < |ledger| ==> ledger[k].user != u
    ensures LedgerSum(ledger, u) == 0
  {
    if ledger != [] {
      NoRowsForNewUser(ledger[..|ledger| - 1], u);
    }
  }

  lemma NoRowsForNewSeed(rows: seq<Row>, seed: nat)
    requires forall k :: 0 <= k < |rows| ==> rows[k].seed != seed
    ensures NoncesOf(rows, seed) == []
  {
    if rows != [] {
      NoRowsForNewSeed(rows[..|rows| - 1], seed);
    }
  }

  lemma NewSeedKeepsNonces(seeds: seq<Seed>, rows: seq<Row>, seed: Seed)
    requires NoncesOk(seeds, rows) && seed.nonce == 0
    ensures NoncesOk(seeds + [seed], rows)
  {
    NoRowsForNewSeed(rows, |seeds|);
    assert UpTo(0) == [];
  }

  lemma MoreSeedsKeepRows(seeds: seq<Seed>, more: seq<Seed>, rows: seq<Row>, digest: Digest)
    requires IsDigest(digest) && RowsOk(seeds, rows, digest) && |seeds| <= |more|
    requires forall k :: 0 <= k < |seeds| ==> more[k].user == seeds[k].user
    ensures RowsOk(more, rows, digest)
  {
    hide ComputeRoll;
    forall i | 0 <= i < |rows| ensures RowOk(rows[i], more, digest) {
      assert RowOk(rows[i], seeds, digest);
    }
  }

  lemma MoreUsersKeepBattles(users: nat, more: nat, cases: nat, moreCases: nat, battles: seq<BattleRow>)
    requires BattlesOk(users, cases, battles) && users <= more && cases <= moreCases
    ensures BattlesOk(more, moreCases, battles)
  {
    forall k | 0 <= k < |battles| ensures BattleOk(battles[k], more, moreCases) {
      assert BattleOk(battles[k], users, cases);
    }
  }

  lemma SignUpKeeps(s: State, digest: Digest, client: nat)
    requires IsDigest(digest) && Inv(s, digest)
    ensures Inv(SignedUp(s, client), digest)
  {
    var s' := SignedUp(s, client);
    NoRowsForNewUser(s.ledger, |s.users|);
    assert MoneyOk(s'.users, s'.ledger);
    forall j, k | 0 <= j < k < |s'.seeds| ensures !SameActiveUser(s'.seeds[j], s'.seeds[k]) {
    }
    hide MoneyOk, ItemsOk, BattleLedgerOk, NoncesOk, RowsOk, BattlesOk;
    NewSeedKeepsNonces(s.seeds, s.rows, Seed(|s.users|, 0, true));
    MoreSeedsKeepRows(s.seeds, s'.seeds, s.rows, digest);
    MoreUsersKeepBattles(|s.users|, |s'.users|, |s.cases|, |s.cases|, s.battles);
  }

  lemma RetiredKeepsNonces(seeds: seq<Seed>, rows: seq<Row>, k: nat)
    requires NoncesOk(seeds, rows) && k < |seeds|
    ensures NoncesOk(seeds[k := seeds[k].(active := false)], rows)
  {
  }

  lemma RotateKeeps(s: State, digest: Digest, u: nat)
    requires IsDigest(digest) && Inv(s, digest)
    ensures Inv(Rotated(s, u), digest)
  {
    var s', current := Rotated(s, u), ActiveSeed(s.seeds, u);
    if u < |s.users| && current.Some? {
      var retired := s.seeds[current.value := s.seeds[current.value].(active := false)];
      RetiredKeepsNonces(s.seeds, s.rows, current.value);
      NewSeedKeepsNonces(retired, s.rows, Seed(u, 0, true));
      MoreSeedsKeepRows(s.seeds, s'.seeds, s.rows, digest);
      forall j, k | 0 <= j < k < |s'.seeds| ensures !SameActiveUser(s'.seeds[j], s'.seeds[k]) {
        if k < |s.seeds| {
          assert !SameActiveUser(s.seeds[j], s.seeds[k]);
        } else if j != current.value {
          OnlyOneActive(s.seeds, |s.users|, u, current.value, j);
        }
      }
    }
  }

  lemma OnlyOneActive(seeds: seq<Seed>, users: nat, u: nat, k: nat, j: nat)
    requires SeedsOk(users, seeds) && k < |seeds| && j < |seeds| && j != k && seeds[k].active && seeds[k].user == u
    ensures !(seeds[j].active && seeds[j].user == u)
  {
    assert !SameActiveUser(seeds[if j < k then j else k], seeds[if j < k then k else j]);
  }

  lemma AccountKeepsMoney(users: seq<User>, ledger: seq<Entry>, u: nat, changed: User)
    requires MoneyOk(users, ledger) && u < |users| && changed.balance == users[u].balance
    ensures MoneyOk(users[u := changed], ledger)
  {
    var after := users[u := changed];
    forall v | 0 <= v < |after| ensures after[v].balance == users[v].balance {
    }
  }

  lemma RepricedIsValid(c: Case, item: nat, price: int)
    requires ValidCase(c)
    ensures ValidCase(Repriced(c, item, price))
  {
    assert RangesOf(Repriced(c, item, price).items) == RangesOf(c.items);
  }

  lemma SaveKeeps(s: State, digest: Digest, target: Option<nat>, input: CaseInput, catalogue: map<nat, int>)
    requires IsDigest(digest) && Inv(s, digest) && PriceAgrees(input) && GateAccepts(input, catalogue)
    ensures Inv(s.(cases := Stored(s.cases, target, StoredCase(input, catalogue))), digest)
  {
    var c := StoredCase(input, catalogue);
    StoredCaseNeverFails(input, catalogue, 0);
    hide MoneyOk, ItemsOk, BattleLedgerOk, NoncesOk, RowsOk, BattlesOk, SeedsOk, ValidCase, StoredCase, GateAccepts;
    MoreUsersKeepBattles(|s.users|, |s.users|, |s.cases|, |Stored(s.cases, target, c)|, s.battles);
  }

  lemma StepKeeps(s: State, digest: Digest, maths: Maths, m: Move)
    requires IsDigest(digest) && maths.Valid() && Inv(s, digest) && Possible(s, m)
    ensures Inv(Step(s, digest, maths, m), digest)
    ensures IsBattleMove(m) ==> TotalMoney(Step(s, digest, maths, m)) == TotalMoney(s)
  {
    hide IsDigest, TxOpenCase, TxSpin, TxContract, TxAdjust, TxCreate, TxJoin, MoneyOk, SeedsOk, NoncesOk, RowsOk, ItemsOk,
         BattleLedgerOk, ValidCase, SeatsOk, BattleOk, TotalMoney, RefundSeats, Rotated, SignedUp, StoredCase, GateAccepts;
    match m
    case OpenCase(u, caseId, read, count, seen) =>
      if TxOpenCase(s, digest, u, caseId, read, count, seen).Ok? {
        OpenCaseKeeps(s, digest, u, caseId, read, count, seen);
      }
    case SpinWheel(u, wheel, cooldown, catalogue) =>
      if TxSpin(s, digest, u, wheel, cooldown, catalogue).Ok? {
        SpinKeeps(s, digest, u, wheel, cooldown, catalogue);
      }
    case RunContract(u, ids, candidates) =>
      if TxContract(s, digest, maths, u, ids, candidates).Ok? {
        ContractKeeps(s, digest, maths, u, ids, candidates);
      }
    case AdjustBalance(u, amount) =>
      if TxAdjust(s, u, amount).Ok? {
        AdjustKeeps(s, digest, u, amount);
      }
    case CreateBattle(u, input, chosen, maxPlayers, maxRounds) =>
      if TxCreate(s, u, input, chosen, maxPlayers, maxRounds).Ok? {
        CreateKeeps(s, digest, u, input, chosen, maxPlayers, maxRounds);
      }
    case JoinBattle(u, k) =>
      if TxJoin(s, digest, u, k).Ok? {
        JoinKeeps(s, digest, u, k);
      }
    case CancelBattle(u, k) =>
      if k < |s.battles| && s.battles[k].status == Waiting {
        CancelKeeps(s, digest, k);
      }
    case SweepBattle(k) =>
      if k < |s.battles| && s.battles[k].status == Waiting {
        CancelKeeps(s, digest, k);
      }
    case _ => OtherMovesKeep(s, digest, maths, m);
  }

  lemma OtherMovesKeep(s: State, digest: Digest, maths: Maths, m: Move)
    requires IsDigest(digest) && maths.Valid() && Inv(s, digest) && Possible(s, m)
    requires m.SaveCase? || m.Reprice? || m.SignUp? || m.RotateSeed? || m.SetClientSeed? || m.SetBanned? || m.Tick?
    ensures Inv(Step(s, digest, maths, m), digest)
  {
    hide IsDigest, MoneyOk, SeedsOk, NoncesOk, RowsOk, ItemsOk, BattleLedgerOk, BattlesOk, ValidCase, Rotated, SignedUp, StoredCase,
         GateAccepts;
    match m
    case SaveCase(target, input, catalogue) =>
      if GateAccepts(input, catalogue) {
        SaveKeeps(s, digest, target, input, catalogue);
      }
    case Reprice(caseId, item, price) =>
      if caseId < |s.cases| {
        RepricedIsValid(s.cases[caseId], item, price);
      }
    case SignUp(client) => SignUpKeeps(s, digest, client);
    case RotateSeed(u) => RotateKeeps(s, digest, u);
    case SetClientSeed(u, client) =>
      if u < |s.users| {
        AccountKeepsMoney(s.users, s.ledger, u, s.users[u].(clientSeed := Some(client)));
      }
    case SetBanned(u, banned) =>
      if u < |s.users| {
        AccountKeepsMoney(s.users, s.ledger, u, s.users[u].(banned := banned));
      }
    case Tick(_) =>
  }
}
