/** Battle arithmetic: the rounds and their price, and the final table. */
module Battle {
  import opened Sorting

  datatype Line = Line(caseId: nat, count: nat)

  function TotalRounds(lines: seq<Line>): nat {
    if lines == [] then 0 else TotalRounds(lines[..|lines| - 1]) + lines[|lines| - 1].count
  }

  function Repeat(caseId: nat, n: nat): (r: seq<nat>)
    ensures |r| == n && forall k :: 0 <= k < n ==> r[k] == caseId
  {
    seq(n, _ => caseId)
  }

  /** The rounds in play order: each line expanded in place. */
  function Expanded(lines: seq<Line>): seq<nat> {
    if lines == [] then [] else Expanded(lines[..|lines| - 1]) + Repeat(lines[|lines| - 1].caseId, lines[|lines| - 1].count)
  }

  /** As many rounds as nonces are reserved for. */
  lemma {:induction false} OneRoundPerNonce(lines: seq<Line>)
    ensures |Expanded(lines)| == TotalRounds(lines)
    ensures forall k :: 0 <= k < |Expanded(lines)| ==> exists l :: l in lines && l.caseId == Expanded(lines)[k]
  {
    if lines != [] {
      var n := |lines| - 1;
      OneRoundPerNonce(lines[..n]);
      forall k | 0 <= k < |Expanded(lines)| ensures exists l :: l in lines && l.caseId == Expanded(lines)[k] {
        if k < |Expanded(lines[..n])| {
          var l :| l in lines[..n] && l.caseId == Expanded(lines[..n])[k];
          assert l in lines;
        } else {
          assert lines[n] in lines;
        }
      }
    }
  }

  /** A round plays the line whose rounds it falls among, counting the lines from the first. */
  lemma {:induction false} RoundsFollowLines(lines: seq<Line>, l: nat, round: nat)
    requires l < |lines| && TotalRounds(lines[..l]) <= round < TotalRounds(lines[..l + 1])
    ensures round < |Expanded(lines)| && Expanded(lines)[round] == lines[l].caseId
  {
    var n := |lines| - 1;
    OneRoundPerNonce(lines);
    OneRoundPerNonce(lines[..n]);
    if l < n {
      assert lines[..n][..l] == lines[..l] && lines[..n][..l + 1] == lines[..l + 1];
      RoundsFollowLines(lines[..n], l, round);
    } else {
      assert lines[..l + 1] == lines;
    }
  }

  method ExpandBattleRounds(lines: seq<Line>) returns (order: seq<nat>)
    ensures order == Expanded(lines)
  {
    order := [];
    for k := 0 to |lines|
      invariant order == Expanded(lines[..k])
    {
      ghost var before := order;
      var line := lines[k];
      for i := 0 to line.count
        invariant order == before + Repeat(line.caseId, i)
      {
        assert Repeat(line.caseId, i) + [line.caseId] == Repeat(line.caseId, i + 1);
        order := order + [line.caseId];
      }
      assert lines[..k + 1][..k] == lines[..k];
    }
    assert lines[..|lines|] == lines;
  }

  function EntryPrice(lines: seq<Line>, priceOf: nat -> int): int {
    if lines == [] then 0
    else EntryPrice(lines[..|lines| - 1], priceOf) + priceOf(lines[|lines| - 1].caseId) * lines[|lines| - 1].count
  }

  function PriceOfRounds(order: seq<nat>, priceOf: nat -> int): int {
    if order == [] then 0 else PriceOfRounds(order[..|order| - 1], priceOf) + priceOf(order[|order| - 1])
  }

  lemma {:induction false} PriceOfMoreRounds(order: seq<nat>, caseId: nat, n: nat, priceOf: nat -> int)
    ensures PriceOfRounds(order + Repeat(caseId, n), priceOf) == PriceOfRounds(order, priceOf) + priceOf(caseId) * n
  {
    if n == 0 {
      assert order + Repeat(caseId, 0) == order;
    } else {
      PriceOfMoreRounds(order, caseId, n - 1, priceOf);
      var longer := order + Repeat(caseId, n);
      assert longer[..|longer| - 1] == order + Repeat(caseId, n - 1);
      assert priceOf(caseId) * n == priceOf(caseId) * (n - 1) + priceOf(caseId);
    }
  }

  /** A seat costs the list price of every round played for it. */
  lemma {:induction false} EntryPriceIsEveryRound(lines: seq<Line>, priceOf: nat -> int)
    ensures EntryPrice(lines, priceOf) == PriceOfRounds(Expanded(lines), priceOf)
  {
    if lines != [] {
      var n := |lines| - 1;
      EntryPriceIsEveryRound(lines[..n], priceOf);
      PriceOfMoreRounds(Expanded(lines[..n]), lines[n].caseId, lines[n].count, priceOf);
    }
  }

  // ----- the final table

  datatype Mode = Standard | Crazy

  datatype Tally = Tally(slot: nat, drops: seq<int>)

  datatype Score = Score(slot: nat, total: int, tiebreak: int)

  datatype Standing = Standing(score: Score, rank: nat)

  function SumOf(prices: seq<int>): int {
    if prices == [] then 0 else SumOf(prices[..|prices| - 1]) + prices[|prices| - 1]
  }

  function Smallest(prices: seq<int>): int
    requires prices != []
  {
    if |prices| == 1 then prices[0]
    else
      var m := Smallest(prices[..|prices| - 1]);
      if prices[|prices| - 1] < m then prices[|prices| - 1] else m
  }

  function Largest(prices: seq<int>): int
    requires prices != []
  {
    if |prices| == 1 then prices[0]
    else
      var m := Largest(prices[..|prices| - 1]);
      if prices[|prices| - 1] > m then prices[|prices| - 1] else m
  }

  function ScoreOf(t: Tally, mode: Mode): Score {
    Score(t.slot, SumOf(t.drops),
          if t.drops == [] then 0 else if mode == Crazy then Smallest(t.drops) else Largest(t.drops))
  }

  function ScoresOf(tallies: seq<Tally>, mode: Mode): (s: seq<Score>)
    ensures |s| == |tallies|
  {
    seq(|tallies|, i requires 0 <= i < |tallies| => ScoreOf(tallies[i], mode))
  }

  /** The comparator: total, then sudden death on one drop, then the earlier seat. */
  predicate StandardOrder(a: Score, b: Score) {
    || a.total > b.total
    || (a.total == b.total && a.tiebreak > b.tiebreak)
    || (a.total == b.total && a.tiebreak == b.tiebreak && a.slot <= b.slot)
  }

  predicate CrazyOrder(a: Score, b: Score) {
    || a.total < b.total
    || (a.total == b.total && a.tiebreak < b.tiebreak)
    || (a.total == b.total && a.tiebreak == b.tiebreak && a.slot <= b.slot)
  }

  function OrderOf(mode: Mode): (Score, Score) -> bool {
    if mode == Crazy then CrazyOrder else StandardOrder
  }

  lemma OrderIsTotal(mode: Mode)
    ensures TotalPreorder(OrderOf(mode))
  {
  }

  function SortedScores(tallies: seq<Tally>, mode: Mode): seq<Score> {
    SortBy(ScoresOf(tallies, mode), OrderOf(mode))
  }

  function Standings(tallies: seq<Tally>, mode: Mode): (s: seq<Standing>) {
    var scored := SortedScores(tallies, mode);
    seq(|scored|, i requires 0 <= i < |scored| => Standing(scored[i], i + 1))
  }

  ghost predicate DistinctSlots(tallies: seq<Tally>) {
    forall i, j :: 0 <= i < j < |tallies| ==> tallies[i].slot != tallies[j].slot
  }

  /** Ranks are 1 to n, every seat is listed once with its own score, and nobody is ranked above a better score. */
  lemma StandingsAreRanked(tallies: seq<Tally>, mode: Mode)
    ensures var s := Standings(tallies, mode);
            && |s| == |tallies|
            && (forall i :: 0 <= i < |s| ==> s[i].rank == i + 1 && s[i].score in ScoresOf(tallies, mode))
            && (forall t :: t in tallies ==> exists i :: 0 <= i < |s| && s[i].score == ScoreOf(t, mode))
            && (forall i, j :: 0 <= i < j < |s| ==> OrderOf(mode)(s[i].score, s[j].score))
    ensures multiset(SortedScores(tallies, mode)) == multiset(ScoresOf(tallies, mode))
  {
    OrderIsTotal(mode);
    var scores := ScoresOf(tallies, mode);
    SortBySorts(scores, OrderOf(mode));
    var sorted := SortedScores(tallies, mode);
    SameMembers(scores, sorted);
    var s := Standings(tallies, mode);
    forall i | 0 <= i < |s| ensures s[i].score in scores {
      assert sorted[i] in sorted;
    }
    forall t | t in tallies ensures exists i :: 0 <= i < |s| && s[i].score == ScoreOf(t, mode) {
      var k :| 0 <= k < |tallies| && tallies[k] == t;
      assert scores[k] in sorted;
      var i :| 0 <= i < |sorted| && sorted[i] == scores[k];
      assert s[i].score == ScoreOf(t, mode);
    }
  }

  // ----- who is ranked above whom, over the drops

  /** The drop a tie is decided on: the largest, in CRAZY the smallest; 0 for a seat without drops. */
  ghost predicate IsDecidingDrop(drops: seq<int>, mode: Mode, x: int) {
    if drops == [] then x == 0
    else
      && x in drops
      && forall i :: 0 <= i < |drops| ==> if mode == Crazy then x <= drops[i] else drops[i] <= x
  }

  lemma {:induction false} EndsAreDrops(drops: seq<int>)
    requires drops != []
    ensures Largest(drops) in drops && forall i :: 0 <= i < |drops| ==> drops[i] <= Largest(drops)
    ensures Smallest(drops) in drops && forall i :: 0 <= i < |drops| ==> Smallest(drops) <= drops[i]
  {
    var n := |drops| - 1;
    if n > 0 {
      EndsAreDrops(drops[..n]);
      assert drops == drops[..n] + [drops[n]];
    }
  }

  /** The table lists this seat at this place. */
  predicate PlacedAt(s: seq<Standing>, a: nat, slot: nat) {
    a < |s| && s[a].score.slot == slot
  }

  /** Every seat is at one place, with its own total and the drop that would decide a tie. */
  lemma SeatIsPlaced(tallies: seq<Tally>, mode: Mode, i: nat) returns (a: nat)
    requires DistinctSlots(tallies) && i < |tallies|
    ensures var s := Standings(tallies, mode);
            && PlacedAt(s, a, tallies[i].slot) && (forall b :: PlacedAt(s, b, tallies[i].slot) ==> b == a)
            && s[a].rank == a + 1 && s[a].score.total == SumOf(tallies[i].drops)
            && IsDecidingDrop(tallies[i].drops, mode, s[a].score.tiebreak)
  {
    var s, t := Standings(tallies, mode), tallies[i];
    StandingsAreRanked(tallies, mode);
    assert t in tallies;
    a :| 0 <= a < |s| && s[a].score == ScoreOf(t, mode);
    if t.drops != [] {
      EndsAreDrops(t.drops);
    }
    forall b | PlacedAt(s, b, t.slot) ensures b == a {
      OnePlaceEach(tallies, mode, a, b);
    }
  }

  lemma OnePlaceEach(tallies: seq<Tally>, mode: Mode, a: nat, b: nat)
    requires DistinctSlots(tallies) && |Standings(tallies, mode)| == |tallies|
    requires a < |tallies| && b < |tallies|
    requires Standings(tallies, mode)[a].score.slot == Standings(tallies, mode)[b].score.slot
    ensures a == b
  {
    OrderIsTotal(mode);
    var scores, sorted := ScoresOf(tallies, mode), SortedScores(tallies, mode);
    SortBySorts(scores, OrderOf(mode));
    hide SortedScores;
    forall j, k | 0 <= j < k < |scores| ensures scores[j].slot != scores[k].slot {
      assert scores[j].slot == tallies[j].slot && scores[k].slot == tallies[k].slot;
    }
    SlotsStayDistinct(scores, sorted);
  }

  lemma SlotsStayDistinct(a: seq<Score>, b: seq<Score>)
    requires multiset(a) == multiset(b) && forall j, k :: 0 <= j < k < |a| ==> a[j].slot != a[k].slot
    ensures forall j, k :: 0 <= j < k < |b| ==> b[j].slot != b[k].slot
  {
    SameMembers(a, b);
    forall j, k | 0 <= j < k < |b| ensures b[j].slot != b[k].slot {
      if b[j].slot == b[k].slot {
        assert b[j] in a && b[k] in a;
        CountOnce(b, j, k);
        Distinct(a, b[j]);
      }
    }
  }

  /** The better total; on equal totals the better deciding drop; on equal drops the earlier seat. */
  predicate Outranks(mode: Mode, total: int, drop: int, slot: nat, total': int, drop': int, slot': nat) {
    if total != total' then (if mode == Crazy then total < total' else total > total')
    else if drop != drop' then (if mode == Crazy then drop < drop' else drop > drop')
    else slot < slot'
  }

  lemma OneDropDecides(drops: seq<int>, mode: Mode, x: int, y: int)
    requires IsDecidingDrop(drops, mode, x) && IsDecidingDrop(drops, mode, y)
    ensures x == y
  {
  }

  /** One seat is ranked above another exactly for those reasons, read off the two seats' drops. */
  lemma RankedByDrops(tallies: seq<Tally>, mode: Mode, i: nat, j: nat, x: int, y: int, a: nat, b: nat)
    requires DistinctSlots(tallies) && i < |tallies| && j < |tallies| && i != j
    requires IsDecidingDrop(tallies[i].drops, mode, x) && IsDecidingDrop(tallies[j].drops, mode, y)
    requires PlacedAt(Standings(tallies, mode), a, tallies[i].slot) && PlacedAt(Standings(tallies, mode), b, tallies[j].slot)
    ensures a < b <==> Outranks(mode, SumOf(tallies[i].drops), x, tallies[i].slot, SumOf(tallies[j].drops), y, tallies[j].slot)
  {
    var a' := SeatIsPlaced(tallies, mode, i);
    var b' := SeatIsPlaced(tallies, mode, j);
    StandingsAreRanked(tallies, mode);
    assert tallies[i].slot != tallies[j].slot;
    hide SumOf, Standings, ScoreOf, SortedScores, IsDecidingDrop;
    var s := Standings(tallies, mode);
    OneDropDecides(tallies[i].drops, mode, x, s[a].score.tiebreak);
    OneDropDecides(tallies[j].drops, mode, y, s[b].score.tiebreak);
    if a < b {
      assert OrderOf(mode)(s[a].score, s[b].score);
    } else {
      assert OrderOf(mode)(s[b].score, s[a].score);
    }
  }

  lemma TopOutranks(tallies: seq<Tally>, mode: Mode, k: nat, i: nat, x: int, y: int)
    requires DistinctSlots(tallies) && k < |tallies| && i < |tallies| && i != k
    requires IsDecidingDrop(tallies[k].drops, mode, x) && IsDecidingDrop(tallies[i].drops, mode, y)
    requires PlacedAt(Standings(tallies, mode), 0, tallies[k].slot)
    ensures Outranks(mode, SumOf(tallies[k].drops), x, tallies[k].slot, SumOf(tallies[i].drops), y, tallies[i].slot)
  {
    hide SumOf, Standings, IsDecidingDrop, Outranks;
    var at := SeatIsPlaced(tallies, mode, i);
    assert tallies[i].slot != tallies[k].slot;
    RankedByDrops(tallies, mode, k, i, x, y, 0, at);
  }

  lemma ScoresAroundOne(b: seq<Tally>, k: nat, mode: Mode)
    requires k < |b|
    ensures multiset(ScoresOf(b, mode)) == multiset{ScoreOf(b[k], mode)} + multiset(ScoresOf(b[..k] + b[k + 1..], mode))
  {
    hide ScoreOf;
    var s := ScoresOf(b, mode);
    assert s == s[..k] + [s[k]] + s[k + 1..];
    assert ScoresOf(b[..k] + b[k + 1..], mode) == s[..k] + s[k + 1..];
  }

  lemma {:induction false} ScoresOfPermutation(a: seq<Tally>, b: seq<Tally>, mode: Mode)
    requires multiset(a) == multiset(b)
    ensures multiset(ScoresOf(a, mode)) == multiset(ScoresOf(b, mode))
    decreases |a|
  {
    hide ScoresOf;
    SameMembers(a, b);
    if a == [] {
      assert b == [];
    } else {
      assert a[0] in b;
      var k :| 0 <= k < |b| && b[k] == a[0];
      RemoveFromBoth(a, b, k);
      ScoresOfPermutation(a[1..], b[..k] + b[k + 1..], mode);
      ScoresAroundOne(a, 0, mode);
      assert a[..0] + a[1..] == a[1..];
      ScoresAroundOne(b, k, mode);
    }
  }

  lemma OneTallyPerSlot(a: seq<Tally>, i: nat, j: nat)
    requires DistinctSlots(a) && i < |a| && j < |a| && a[i].slot == a[j].slot
    ensures i == j
  {
  }

  /** Distinct seats: every ordering of the same tallies gives the same table. */
  lemma StandingsForgetOrder(a: seq<Tally>, b: seq<Tally>, mode: Mode)
    requires multiset(a) == multiset(b) && DistinctSlots(a)
    ensures Standings(a, mode) == Standings(b, mode)
  {
    OrderIsTotal(mode);
    ScoresOfPermutation(a, b, mode);
    var scores := ScoresOf(a, mode);
    forall x, y | x in scores && y in scores && OrderOf(mode)(x, y) && OrderOf(mode)(y, x) ensures x == y {
      var i :| 0 <= i < |a| && scores[i] == x;
      var j :| 0 <= j < |a| && scores[j] == y;
      OneTallyPerSlot(a, i, j);
    }
    SortForgetsOrder(scores, ScoresOf(b, mode), OrderOf(mode));
  }

  // ----- CRAZY is STANDARD turned over

  function Negated(prices: seq<int>): (n: seq<int>)
    ensures |n| == |prices|
  {
    seq(|prices|, i requires 0 <= i < |prices| => -prices[i])
  }

  function NegatedTallies(tallies: seq<Tally>): (n: seq<Tally>)
    ensures |n| == |tallies|
  {
    seq(|tallies|, i requires 0 <= i < |tallies| => Tally(tallies[i].slot, Negated(tallies[i].drops)))
  }

  function Flip(s: Score): Score {
    Score(s.slot, -s.total, -s.tiebreak)
  }

  function FlipAll(s: seq<Score>): (f: seq<Score>)
    ensures |f| == |s|
  {
    seq(|s|, i requires 0 <= i < |s| => Flip(s[i]))
  }

  lemma {:induction false} NegatedSum(prices: seq<int>)
    ensures SumOf(Negated(prices)) == -SumOf(prices)
    ensures prices != [] ==> Largest(Negated(prices)) == -Smallest(prices)
  {
    if prices != [] {
      var n := |prices| - 1;
      NegatedSum(prices[..n]);
      assert Negated(prices)[..n] == Negated(prices[..n]);
    }
  }

  lemma {:induction false} InsertFlips(x: Score, s: seq<Score>)
    ensures Insert(Flip(x), FlipAll(s), StandardOrder) == FlipAll(Insert(x, s, CrazyOrder))
  {
    if s != [] {
      assert FlipAll(s)[1..] == FlipAll(s[1..]);
      InsertFlips(x, s[1..]);
      assert FlipAll([x] + s) == [Flip(x)] + FlipAll(s);
      assert FlipAll([s[0]] + Insert(x, s[1..], CrazyOrder)) == [Flip(s[0])] + FlipAll(Insert(x, s[1..], CrazyOrder));
    }
  }

  lemma {:induction false} SortFlips(s: seq<Score>)
    ensures SortBy(FlipAll(s), StandardOrder) == FlipAll(SortBy(s, CrazyOrder))
  {
    if s != [] {
      assert FlipAll(s)[1..] == FlipAll(s[1..]);
      SortFlips(s[1..]);
      InsertFlips(s[0], SortBy(s[1..], CrazyOrder));
    }
  }

  /** CRAZY on prices p seats everyone exactly as STANDARD on -p does, tiebreak included. */
  lemma CrazyIsStandardNegated(tallies: seq<Tally>)
    ensures |Standings(tallies, Crazy)| == |Standings(NegatedTallies(tallies), Standard)| == |tallies|
    ensures forall i :: 0 <= i < |tallies| ==>
              Standings(NegatedTallies(tallies), Standard)[i]
              == Standing(Flip(Standings(tallies, Crazy)[i].score), Standings(tallies, Crazy)[i].rank)
  {
    var flipped := ScoresOf(NegatedTallies(tallies), Standard);
    forall i | 0 <= i < |tallies| ensures flipped[i] == FlipAll(ScoresOf(tallies, Crazy))[i] {
      NegatedSum(tallies[i].drops);
    }
    assert flipped == FlipAll(ScoresOf(tallies, Crazy));
    SortFlips(ScoresOf(tallies, Crazy));
    StandingsAreRanked(tallies, Crazy);
    StandingsAreRanked(NegatedTallies(tallies), Standard);
  }
}
