/**
 * The ticket space: what a valid loot table is, which item a roll lands on,
 * and what a table returns on average.
 */
module Tickets {
  import opened Sorting

  const TICKET_SPACE: nat := 1_000_000

  datatype Range = Range(rangeFrom: int, rangeTo: int)

  predicate Covers(r: Range, ticket: int) {
    r.rangeFrom <= ticket <= r.rangeTo
  }

  function Width(r: Range): int {
    r.rangeTo - r.rangeFrom + 1
  }

  /** How many ranges of the list own a ticket. */
  function Owners(s: seq<Range>, ticket: int): nat {
    if s == [] then 0 else (if Covers(s[0], ticket) then 1 else 0) + Owners(s[1..], ticket)
  }

  predicate InSpace(r: Range) {
    0 <= r.rangeFrom <= r.rangeTo < TICKET_SPACE
  }

  predicate AllInSpace(s: seq<Range>) {
    forall k :: 0 <= k < |s| ==> InSpace(s[k])
  }

  /** Every ticket has exactly one owner. */
  ghost predicate ExactCover(s: seq<Range>) {
    forall ticket :: 0 <= ticket < TICKET_SPACE ==> Owners(s, ticket) == 1
  }

  /** The ranges follow each other without gap or overlap from `cursor` to the end of the space. */
  predicate TilesFrom(s: seq<Range>, cursor: int) {
    if s == [] then cursor == TICKET_SPACE
    else s[0].rangeFrom == cursor && s[0].rangeFrom <= s[0].rangeTo && TilesFrom(s[1..], s[0].rangeTo + 1)
  }

  lemma {:induction false} TilesCoverOnce(s: seq<Range>, cursor: int)
    requires TilesFrom(s, cursor)
    ensures cursor <= TICKET_SPACE
    ensures forall ticket :: Owners(s, ticket) == if cursor <= ticket < TICKET_SPACE then 1 else 0
    ensures forall k :: 0 <= k < |s| ==> cursor <= s[k].rangeFrom <= s[k].rangeTo < TICKET_SPACE
  {
    if s != [] {
      TilesCoverOnce(s[1..], s[0].rangeTo + 1);
    }
  }

  predicate ByFrom(a: Range, b: Range) {
    a.rangeFrom <= b.rangeFrom
  }

  lemma {:induction false} SomeOwner(s: seq<Range>, ticket: int)
    ensures Owners(s, ticket) > 0 <==> exists k :: 0 <= k < |s| && Covers(s[k], ticket)
  {
    if s != [] {
      SomeOwner(s[1..], ticket);
      if exists k :: 0 <= k < |s| && Covers(s[k], ticket) {
        var k :| 0 <= k < |s| && Covers(s[k], ticket);
        assert k > 0 ==> s[1..][k - 1] == s[k];
      }
      if exists k :: 0 <= k < |s[1..]| && Covers(s[1..][k], ticket) {
        var k :| 0 <= k < |s[1..]| && Covers(s[1..][k], ticket);
        assert s[k + 1] == s[1..][k];
      }
    }
  }

  /** A sorted list that covers the rest of the space once is a tiling of it. */
  lemma {:induction false} SortedCoverTiles(s: seq<Range>, cursor: int)
    requires Sorted(s, ByFrom) && 0 <= cursor <= TICKET_SPACE
    requires forall k :: 0 <= k < |s| ==> cursor <= s[k].rangeFrom && InSpace(s[k])
    requires forall ticket :: cursor <= ticket < TICKET_SPACE ==> Owners(s, ticket) == 1
    ensures TilesFrom(s, cursor)
  {
    if cursor < TICKET_SPACE {
      SomeOwner(s, cursor);
      var k :| 0 <= k < |s| && Covers(s[k], cursor);
      assert s[0].rangeFrom == cursor;
      var next := s[0].rangeTo + 1;
      forall j | 0 <= j < |s[1..]| ensures next <= s[1..][j].rangeFrom && InSpace(s[1..][j]) {
        var shared := s[1..][j].rangeFrom;
        if shared < next {
          assert Owners(s, shared) == 1;
          SomeOwner(s[1..], shared);
        }
      }
      forall ticket | next <= ticket < TICKET_SPACE ensures Owners(s[1..], ticket) == 1 {
        assert Owners(s, ticket) == 1;
      }
      SortedCoverTiles(s[1..], next);
    }
  }

  lemma {:induction false} OwnersOfInsert(x: Range, s: seq<Range>, ticket: int)
    ensures Owners(Insert(x, s, ByFrom), ticket) == Owners([x] + s, ticket)
  {
    if s != [] && !ByFrom(x, s[0]) {
      OwnersOfInsert(x, s[1..], ticket);
      assert ([x] + s)[1..] == s && ([x] + s[1..])[1..] == s[1..];
    }
  }

  lemma {:induction false} OwnersOfSort(s: seq<Range>, ticket: int)
    ensures Owners(SortBy(s, ByFrom), ticket) == Owners(s, ticket)
  {
    if s != [] {
      OwnersOfSort(s[1..], ticket);
      OwnersOfInsert(s[0], SortBy(s[1..], ByFrom), ticket);
      assert ([s[0]] + SortBy(s[1..], ByFrom))[1..] == SortBy(s[1..], ByFrom);
    }
  }

  lemma ByFromIsPreorder()
    ensures TotalPreorder(ByFrom)
  {
  }

  /** In-space ranges cover every ticket once exactly when they tile the space once sorted. */
  lemma CoverIffTiles(s: seq<Range>)
    requires AllInSpace(s)
    ensures ExactCover(s) <==> TilesFrom(SortBy(s, ByFrom), 0)
  {
    var sorted := SortBy(s, ByFrom);
    ByFromIsPreorder();
    SortBySorts(s, ByFrom);
    SameMembers(s, sorted);
    forall ticket ensures Owners(sorted, ticket) == Owners(s, ticket) {
      OwnersOfSort(s, ticket);
    }
    if ExactCover(s) {
      forall k | 0 <= k < |sorted| ensures InSpace(sorted[k]) {
        assert sorted[k] in s;
      }
      SortedCoverTiles(sorted, 0);
    }
    if TilesFrom(sorted, 0) {
      TilesCoverOnce(sorted, 0);
    }
  }

  // ----- validation

  /** Bounds as the caller sends them: numbers, not necessarily integers. */
  datatype RawRange = RawRange(rangeFrom: real, rangeTo: real)

  predicate IsInteger(x: real) {
    x.Floor as real == x
  }

  function Rounded(r: RawRange): Range {
    Range(r.rangeFrom.Floor, r.rangeTo.Floor)
  }

  function AllRounded(s: seq<RawRange>): (t: seq<Range>)
    ensures |t| == |s| && forall k :: 0 <= k < |s| ==> t[k] == Rounded(s[k])
  {
    seq(|s|, k requires 0 <= k < |s| => Rounded(s[k]))
  }

  predicate WellFormed(r: RawRange) {
    IsInteger(r.rangeFrom) && IsInteger(r.rangeTo) && InSpace(Rounded(r))
  }

  datatype RangeError =
    | NoItems
    | NotInteger(index: nat)
    | Inverted(index: nat)
    | OutsideSpace(index: nat)
    | Gap(first: int, last: int)
    | Overlap(at: int)
    | Covered(tickets: int)

  /** The ranges lead from `cursor` to `end` without gap or overlap. */
  predicate Lead(s: seq<Range>, cursor: int, end: int) {
    if s == [] then cursor == end else s[0].rangeFrom == cursor && Lead(s[1..], s[0].rangeTo + 1, end)
  }

  function CursorAfter(s: seq<Range>): int {
    if s == [] then 0 else s[|s| - 1].rangeTo + 1
  }

  lemma {:induction false} LeadEndsThere(s: seq<Range>, cursor: int, end: int)
    requires Lead(s, cursor, end)
    ensures end == if s == [] then cursor else s[|s| - 1].rangeTo + 1
  {
    if s != [] {
      LeadEndsThere(s[1..], s[0].rangeTo + 1, end);
    }
  }

  lemma {:induction false} LeadOneMore(s: seq<Range>, cursor: int, x: Range)
    ensures Lead(s + [x], cursor, x.rangeTo + 1) <==> Lead(s, cursor, x.rangeFrom)
  {
    if s == [] {
      assert [x][1..] == [];
      assert s + [x] == [x];
    } else {
      assert (s + [x])[1..] == s[1..] + [x];
      LeadOneMore(s[1..], s[0].rangeTo + 1, x);
    }
  }

  lemma {:induction false} LeadTiles(s: seq<Range>, cursor: int)
    requires forall k :: 0 <= k < |s| ==> s[k].rangeFrom <= s[k].rangeTo
    ensures TilesFrom(s, cursor) <==> Lead(s, cursor, TICKET_SPACE)
  {
    if s != [] {
      LeadTiles(s[1..], s[0].rangeTo + 1);
    }
  }

  method CheckBounds(items: seq<RawRange>) returns (errors: seq<RangeError>)
    ensures errors == [] <==> forall k :: 0 <= k < |items| ==> WellFormed(items[k])
  {
    errors := [];
    for index := 0 to |items|
      invariant errors == [] <==> forall k :: 0 <= k < index ==> WellFormed(items[k])
    {
      var item := items[index];
      if !IsInteger(item.rangeFrom) || !IsInteger(item.rangeTo) {
        errors := errors + [NotInteger(index)];
      } else if item.rangeFrom > item.rangeTo {
        errors := errors + [Inverted(index)];
      } else if item.rangeFrom < 0.0 || item.rangeTo >= TICKET_SPACE as real {
        errors := errors + [OutsideSpace(index)];
      }
    }
  }

  method WalkSorted(sorted: seq<Range>) returns (errors: seq<RangeError>)
    ensures errors == [] <==> Lead(sorted, 0, TICKET_SPACE)
  {
    errors := [];
    var cursor := 0;
    for k := 0 to |sorted|
      invariant cursor == CursorAfter(sorted[..k])
      invariant errors == [] <==> Lead(sorted[..k], 0, cursor)
    {
      var item := sorted[k];
      assert sorted[..k + 1] == sorted[..k] + [item];
      if item.rangeFrom > cursor {
        errors := errors + [Gap(cursor, item.rangeFrom - 1)];
      } else if item.rangeFrom < cursor {
        errors := errors + [Overlap(item.rangeFrom)];
      }
      LeadOneMore(sorted[..k], 0, item);
      if Lead(sorted[..k], 0, item.rangeFrom) {
        LeadEndsThere(sorted[..k], 0, item.rangeFrom);
      }
      cursor := item.rangeTo + 1;
    }
    assert sorted[..|sorted|] == sorted;
    if Lead(sorted, 0, TICKET_SPACE) {
      LeadEndsThere(sorted, 0, TICKET_SPACE);
    }
    if cursor != TICKET_SPACE {
      errors := errors + [Covered(cursor)];
    }
  }

  /** A table is accepted exactly when its bounds are sound and every ticket has exactly one owner. */
  method ValidateTicketRanges(items: seq<RawRange>) returns (valid: bool, errors: seq<RangeError>)
    ensures valid <==> errors == []
    ensures valid <==> (forall k :: 0 <= k < |items| ==> WellFormed(items[k])) && ExactCover(AllRounded(items))
  {
    if items == [] {
      assert Owners(AllRounded(items), 0) == 0;
      return false, [NoItems];
    }
    errors := CheckBounds(items);
    if errors != [] {
      return false, errors;
    }
    var ranges := AllRounded(items);
    var sorted := SortBy(ranges, ByFrom);
    errors := WalkSorted(sorted);
    valid := errors == [];
    CoverIffTiles(ranges);
    ByFromIsPreorder();
    SortBySorts(ranges, ByFrom);
    SameMembers(ranges, sorted);
    forall k | 0 <= k < |sorted| ensures sorted[k].rangeFrom <= sorted[k].rangeTo {
      assert sorted[k] in ranges;
    }
    LeadTiles(sorted, 0);
  }

  /** The order the items come in does not matter. */
  lemma CoverForgetsOrder(a: seq<Range>, b: seq<Range>)
    requires multiset(a) == multiset(b)
    ensures ExactCover(a) <==> ExactCover(b)
  {
    forall ticket ensures Owners(a, ticket) == Owners(b, ticket) {
      OwnersOfPermutation(a, b, ticket);
    }
  }

  lemma {:induction false} OwnersOfPermutation(a: seq<Range>, b: seq<Range>, ticket: int)
    requires multiset(a) == multiset(b)
    ensures Owners(a, ticket) == Owners(b, ticket)
  {
    SameMembers(a, b);
    if a != [] {
      assert a[0] in b;
      var k :| 0 <= k < |b| && b[k] == a[0];
      RemoveFromBoth(a, b, k);
      OwnersOfPermutation(a[1..], b[..k] + b[k + 1..], ticket);
      OwnersOfRemoval(b, k, ticket);
    }
  }

  lemma {:induction false} OwnersOfRemoval(b: seq<Range>, k: nat, ticket: int)
    requires k < |b|
    ensures Owners(b, ticket) == Owners(b[..k] + b[k + 1..], ticket) + (if Covers(b[k], ticket) then 1 else 0)
  {
    if k == 0 {
      assert b[..0] + b[1..] == b[1..];
    } else {
      OwnersOfRemoval(b[1..], k - 1, ticket);
      assert (b[..k] + b[k + 1..])[1..] == b[1..][..k - 1] + b[1..][k..];
    }
  }
}
