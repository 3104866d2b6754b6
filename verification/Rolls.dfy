/** From a digest to a ticket, from a ticket to an item, and what that pays on average. */
module Rolls {
  import opened Wrappers
  import opened Tickets
  import opened Reals

  // ----- the item a ticket belongs to

  /** The first range that covers the roll; `None` is the source's "ranges are corrupted" error. */
  function PickByRoll(s: seq<Range>, roll: int): Option<nat> {
    if s == [] then None
    else if Covers(s[0], roll) then Some(0)
    else match PickByRoll(s[1..], roll) case None => None case Some(k) => Some(k + 1)
  }

  lemma {:induction false} PickFinds(s: seq<Range>, roll: int)
    ensures PickByRoll(s, roll).None? <==> Owners(s, roll) == 0
    ensures PickByRoll(s, roll).Some? ==>
              var k := PickByRoll(s, roll).value;
              k < |s| && Covers(s[k], roll) && forall j :: 0 <= j < k ==> !Covers(s[j], roll)
  {
    if s != [] && !Covers(s[0], roll) {
      PickFinds(s[1..], roll);
    }
  }

  /** On an accepted table every roll lands on exactly one item, so picking never throws. */
  lemma PickNeverThrows(s: seq<Range>, roll: int)
    requires ExactCover(s) && 0 <= roll < TICKET_SPACE
    ensures PickByRoll(s, roll).Some? && PickByRoll(s, roll).value < |s|
    ensures forall k :: 0 <= k < |s| ==> (Covers(s[k], roll) <==> PickByRoll(s, roll) == Some(k))
  {
    PickFinds(s, roll);
    assert Owners(s, roll) == 1;
    OneOwner(s, roll);
  }

  lemma {:induction false} OneOwner(s: seq<Range>, ticket: int)
    requires Owners(s, ticket) == 1
    ensures forall j, k :: 0 <= j < |s| && 0 <= k < |s| && Covers(s[j], ticket) && Covers(s[k], ticket) ==> j == k
  {
    SomeOwner(s[1..], ticket);
    if Covers(s[0], ticket) {
      forall k | 0 < k < |s| ensures !Covers(s[k], ticket) {
        assert s[k] == s[1..][k - 1];
      }
    } else {
      OneOwner(s[1..], ticket);
      forall j, k | 0 <= j < |s| && 0 <= k < |s| && Covers(s[j], ticket) && Covers(s[k], ticket) ensures j == k {
        assert s[j] == s[1..][j - 1] && s[k] == s[1..][k - 1];
      }
    }
  }

  // ----- what a table pays

  function RangeChance(r: Range): real {
    Width(r) as real / TICKET_SPACE as real
  }

  /** `reduce((sum, i) => sum + rangeChance(i) * i.price, 0)`. */
  function ExpectedValue(s: seq<Range>, prices: seq<int>): real
    requires |s| == |prices|
  {
    if s == [] then 0.0
    else ExpectedValue(s[..|s| - 1], prices[..|s| - 1]) + RangeChance(s[|s| - 1]) * prices[|s| - 1] as real
  }

  function CalculateRtp(s: seq<Range>, prices: seq<int>, casePrice: int): real
    requires |s| == |prices|
  {
    if casePrice <= 0 then 0.0 else ExpectedValue(s, prices) / casePrice as real
  }

  /** The price of the item a ticket lands on. */
  function Paid(s: seq<Range>, prices: seq<int>, ticket: int): int
    requires |s| == |prices|
  {
    match PickByRoll(s, ticket)
    case None => 0
    case Some(k) => if k < |prices| then prices[k] else 0
  }

  /** What the first `n` tickets pay together: the table swept ticket by ticket. */
  function PaidOver(s: seq<Range>, prices: seq<int>, n: nat): int
    requires |s| == |prices|
  {
    if n == 0 then 0 else PaidOver(s, prices, n - 1) + Paid(s, prices, n - 1)
  }

  /** How many of the first `n` tickets a range owns. */
  function Overlap(r: Range, n: nat): int {
    var low := if r.rangeFrom < 0 then 0 else r.rangeFrom;
    var high := if r.rangeTo < n then r.rangeTo else n - 1;
    if low <= high then high - low + 1 else 0
  }

  function OverlapPay(s: seq<Range>, prices: seq<int>, n: nat): int
    requires |s| == |prices|
  {
    if s == [] then 0 else Overlap(s[0], n) * prices[0] + OverlapPay(s[1..], prices[1..], n)
  }

  lemma {:induction false} OverlapStep(s: seq<Range>, prices: seq<int>, n: nat)
    requires |s| == |prices| && Owners(s, n) <= 1
    ensures OverlapPay(s, prices, n + 1) == OverlapPay(s, prices, n) + Paid(s, prices, n)
    ensures Owners(s, n) == 0 ==> OverlapPay(s, prices, n + 1) == OverlapPay(s, prices, n)
  {
    if s != [] {
      PickFinds(s[1..], n);
      OverlapStep(s[1..], prices[1..], n);
      if Covers(s[0], n) {
        assert Overlap(s[0], n + 1) == Overlap(s[0], n) + 1;
        assert Overlap(s[0], n + 1) * prices[0] == Overlap(s[0], n) * prices[0] + prices[0];
      } else {
        assert Overlap(s[0], n + 1) == Overlap(s[0], n);
      }
    }
  }

  lemma {:induction false} NoOverlapBeforeZero(s: seq<Range>, prices: seq<int>)
    requires |s| == |prices|
    ensures OverlapPay(s, prices, 0) == 0
  {
    if s != [] {
      NoOverlapBeforeZero(s[1..], prices[1..]);
    }
  }

  lemma {:induction false} SweepIsOverlap(s: seq<Range>, prices: seq<int>, n: nat)
    requires |s| == |prices|
    requires forall ticket :: 0 <= ticket < n ==> Owners(s, ticket) <= 1
    ensures PaidOver(s, prices, n) == OverlapPay(s, prices, n)
  {
    if n == 0 {
      NoOverlapBeforeZero(s, prices);
    } else {
      SweepIsOverlap(s, prices, n - 1);
      OverlapStep(s, prices, n - 1);
    }
  }

  /** The widths times the prices, added up in list order. */
  function WidthPay(s: seq<Range>, prices: seq<int>): int
    requires |s| == |prices|
  {
    if s == [] then 0 else WidthPay(s[..|s| - 1], prices[..|s| - 1]) + Width(s[|s| - 1]) * prices[|s| - 1]
  }

  lemma {:induction false} WidthPayHead(s: seq<Range>, prices: seq<int>)
    requires |s| == |prices| && s != []
    ensures WidthPay(s, prices) == Width(s[0]) * prices[0] + WidthPay(s[1..], prices[1..])
  {
    var n := |s| - 1;
    if n > 0 {
      WidthPayHead(s[..n], prices[..n]);
      assert s[1..][..n - 1] == s[..n][1..] && prices[1..][..n - 1] == prices[..n][1..];
    } else {
      assert s[..0] == [] && s[1..] == [];
    }
  }

  lemma {:induction false} FullOverlapIsWidth(s: seq<Range>, prices: seq<int>, n: nat)
    requires |s| == |prices| && forall k :: 0 <= k < |s| ==> 0 <= s[k].rangeFrom <= s[k].rangeTo < n
    ensures OverlapPay(s, prices, n) == WidthPay(s, prices)
  {
    if s != [] {
      FullOverlapIsWidth(s[1..], prices[1..], n);
      WidthPayHead(s, prices);
      assert Overlap(s[0], n) == Width(s[0]);
    }
  }

  lemma {:induction false} ExpectedIsWidthPay(s: seq<Range>, prices: seq<int>)
    requires |s| == |prices|
    ensures ExpectedValue(s, prices) == WidthPay(s, prices) as real / TICKET_SPACE as real
  {
    if s != [] {
      var n := |s| - 1;
      ExpectedIsWidthPay(s[..n], prices[..n]);
      var w, p := Width(s[n]), prices[n];
      assert (w * p) as real == w as real * p as real;
      assert RangeChance(s[n]) * p as real == (w * p) as real / TICKET_SPACE as real;
    }
  }

  /** The range formula is the exhaustive average: every ticket rolled once. */
  lemma RtpIsTheAverage(s: seq<Range>, prices: seq<int>, casePrice: int)
    requires |s| == |prices| && AllInSpace(s) && ExactCover(s) && casePrice > 0
    ensures CalculateRtp(s, prices, casePrice)
            == PaidOver(s, prices, TICKET_SPACE) as real / TICKET_SPACE as real / casePrice as real
  {
    SweepIsOverlap(s, prices, TICKET_SPACE);
    FullOverlapIsWidth(s, prices, TICKET_SPACE);
    ExpectedIsWidthPay(s, prices);
  }

  // ----- rolls

  /** How many values the first eight hex digits of a digest can have. */
  const DIGEST_VALUES: nat := 0x1_0000_0000

  function Power16(n: nat): nat {
    if n == 0 then 1 else 16 * Power16(n - 1)
  }

  predicate HexDigits(digits: seq<nat>) {
    forall k :: 0 <= k < |digits| ==> digits[k] < 16
  }

  /** `parseInt(digits, 16)`. */
  function HexValue(digits: seq<nat>): nat {
    if digits == [] then 0 else 16 * HexValue(digits[..|digits| - 1]) + digits[|digits| - 1]
  }

  function HexOf(v: nat, n: nat): (digits: seq<nat>)
    ensures |digits| == n && HexDigits(digits)
  {
    if n == 0 then [] else HexOf(v / 16, n - 1) + [v % 16]
  }

  lemma EightDigits()
    ensures Power16(8) == DIGEST_VALUES
  {
    assert Power16(2) == 256;
    assert Power16(4) == 256 * Power16(2);
    assert Power16(6) == 256 * Power16(4);
  }

  /** Hex digits and the numbers below the power of 16 are the same thing; eight of them are the numbers below 2^32. */
  lemma {:induction false} HexIsBijective(digits: seq<nat>, v: nat, n: nat)
    requires HexDigits(digits) && |digits| == n && v < Power16(n)
    ensures HexValue(digits) < Power16(n) && HexOf(HexValue(digits), n) == digits
    ensures HexValue(HexOf(v, n)) == v
    ensures n == 8 ==> HexValue(digits) < DIGEST_VALUES == Power16(n)
  {
    if n == 8 {
      EightDigits();
    }
    if n > 0 {
      HexIsBijective(digits[..n - 1], v / 16, n - 1);
      var init := digits[..n - 1];
      assert digits == init + [digits[n - 1]];
      assert HexValue(digits) / 16 == HexValue(init) && HexValue(digits) % 16 == digits[n - 1];
      assert HexOf(v, n)[..n - 1] == HexOf(v / 16, n - 1);
    }
  }

  function RollFromHmac(digest: seq<nat>): nat
    requires HexDigits(digest) && |digest| >= 8
  {
    HexValue(digest[..8]) % TICKET_SPACE
  }

  lemma {:induction false} HexOfIsBelow(v: nat, n: nat)
    requires v < Power16(n)
    ensures HexValue(HexOf(v, n)) == v
  {
    if n > 0 {
      HexOfIsBelow(v / 16, n - 1);
      assert HexOf(v, n)[..n - 1] == HexOf(v / 16, n - 1);
    }
  }

  /** The digest whose first eight digits spell `v`. */
  function DigestOf(v: nat, rest: seq<nat>): (digest: seq<nat>)
    requires HexDigits(rest)
    ensures HexDigits(digest) && |digest| == 8 + |rest|
  {
    HexOf(v, 8) + rest
  }

  /** A digest rolls the number its first eight digits spell, modulo the ticket space. */
  lemma RollOfDigest(v: nat, rest: seq<nat>)
    requires HexDigits(rest) && v < DIGEST_VALUES
    ensures RollFromHmac(DigestOf(v, rest)) == v % TICKET_SPACE
  {
    EightDigits();
    HexOfIsBelow(v, 8);
    assert (HexOf(v, 8) + rest)[..8] == HexOf(v, 8);
  }

  /** How many of the first `n` digests roll a ticket. */
  function Preimages(ticket: nat, n: nat, rest: seq<nat>): nat
    requires HexDigits(rest)
  {
    if n == 0 then 0
    else Preimages(ticket, n - 1, rest) + (if RollFromHmac(DigestOf(n - 1, rest)) == ticket then 1 else 0)
  }

  lemma {:induction false} PreimagesFormula(ticket: nat, n: nat, rest: seq<nat>)
    requires ticket < TICKET_SPACE && n <= DIGEST_VALUES && HexDigits(rest)
    ensures Preimages(ticket, n, rest) == n / TICKET_SPACE + (if ticket < n % TICKET_SPACE then 1 else 0)
  {
    hide RollFromHmac, DigestOf;
    if n > 0 {
      PreimagesFormula(ticket, n - 1, rest);
      RollOfDigest(n - 1, rest);
    }
  }

  /**
   * The modulo bias: of the 2^32 beginnings of a digest, whatever follows
   * them, 4295 roll each of the first 967 296 tickets and 4294 each other one.
   */
  lemma ModuloBias(ticket: nat, n: nat, rest: seq<nat>)
    requires ticket < TICKET_SPACE && n == DIGEST_VALUES && HexDigits(rest)
    ensures Preimages(ticket, n, rest) == if ticket < 967_296 then 4295 else 4294
  {
    PreimagesFormula(ticket, n, rest);
  }

  /** What the rolls of the first `n` digests pay together. */
  function RolledPay(s: seq<Range>, prices: seq<int>, n: nat, rest: seq<nat>): int
    requires |s| == |prices| && HexDigits(rest)
  {
    if n == 0 then 0
    else RolledPay(s, prices, n - 1, rest) + Paid(s, prices, RollFromHmac(DigestOf(n - 1, rest)))
  }

  /** The same sum, ticket by ticket. */
  function WeighedPay(s: seq<Range>, prices: seq<int>, n: nat, tickets: nat, rest: seq<nat>): int
    requires |s| == |prices| && HexDigits(rest)
  {
    if tickets == 0 then 0
    else WeighedPay(s, prices, n, tickets - 1, rest) + Preimages(tickets - 1, n, rest) * Paid(s, prices, tickets - 1)
  }

  lemma {:induction false} WeighedStep(s: seq<Range>, prices: seq<int>, n: nat, tickets: nat, rest: seq<nat>)
    requires |s| == |prices| && HexDigits(rest)
    ensures var roll := RollFromHmac(DigestOf(n, rest));
            WeighedPay(s, prices, n + 1, tickets, rest) ==
            WeighedPay(s, prices, n, tickets, rest) + (if roll < tickets then Paid(s, prices, roll) else 0)
    ensures n == 0 ==> WeighedPay(s, prices, n, tickets, rest) == 0
  {
    hide RollFromHmac, DigestOf, Paid;
    if tickets > 0 {
      WeighedStep(s, prices, n, tickets - 1, rest);
      var p := Paid(s, prices, tickets - 1);
      assert Preimages(tickets - 1, n + 1, rest)
          == Preimages(tickets - 1, n, rest) + (if RollFromHmac(DigestOf(n, rest)) == tickets - 1 then 1 else 0);
      OneMore(Preimages(tickets - 1, n, rest), p);
    }
  }

  lemma OneMore(count: int, p: int)
    ensures (count + 1) * p == count * p + p
  {
  }

  lemma {:induction false} RolledIsWeighed(s: seq<Range>, prices: seq<int>, n: nat, rest: seq<nat>)
    requires |s| == |prices| && HexDigits(rest)
    ensures RolledPay(s, prices, n, rest) == WeighedPay(s, prices, n, TICKET_SPACE, rest)
  {
    if n == 0 {
      WeighedStep(s, prices, 0, TICKET_SPACE, rest);
    } else {
      RollInSpace(DigestOf(n - 1, rest));
      hide RollFromHmac, DigestOf, Paid;
      RolledIsWeighed(s, prices, n - 1, rest);
      WeighedStep(s, prices, n - 1, TICKET_SPACE, rest);
    }
  }

  lemma RollInSpace(digest: seq<nat>)
    requires HexDigits(digest) && |digest| >= 8
    ensures RollFromHmac(digest) < TICKET_SPACE
  {
  }

  lemma {:induction false} WeighedBounds(s: seq<Range>, prices: seq<int>, n: nat, tickets: nat, rest: seq<nat>)
    requires |s| == |prices| && tickets <= TICKET_SPACE && n == DIGEST_VALUES && HexDigits(rest)
    requires forall k :: 0 <= k < |prices| ==> prices[k] >= 0
    ensures 4294 * PaidOver(s, prices, tickets) <= WeighedPay(s, prices, n, tickets, rest)
    ensures WeighedPay(s, prices, n, tickets, rest) <= 4295 * PaidOver(s, prices, tickets)
  {
    hide Preimages;
    if tickets > 0 {
      WeighedBounds(s, prices, n, tickets - 1, rest);
      ModuloBias(tickets - 1, n, rest);
      PickFinds(s, tickets - 1);
    }
  }

  /**
   * The true expected return of any valid table, over the rolls of all 2^32
   * beginnings of a digest, is within the modulo bias of the advertised one.
   */
  lemma TrueReturnIsClose(s: seq<Range>, prices: seq<int>, casePrice: int, rest: seq<nat>)
    requires |s| == |prices| && AllInSpace(s) && ExactCover(s) && casePrice > 0 && HexDigits(rest)
    requires forall k :: 0 <= k < |prices| ==> prices[k] >= 0
    ensures var truth := RolledPay(s, prices, DIGEST_VALUES, rest) as real / DIGEST_VALUES as real / casePrice as real;
            var rtp := CalculateRtp(s, prices, casePrice);
            && rtp * (4294.0 * TICKET_SPACE as real / DIGEST_VALUES as real) <= truth
            && truth <= rtp * (4295.0 * TICKET_SPACE as real / DIGEST_VALUES as real)
  {
    hide RolledPay, WeighedPay, PaidOver;
    RolledIsWeighed(s, prices, DIGEST_VALUES, rest);
    WeighedBounds(s, prices, DIGEST_VALUES, TICKET_SPACE, rest);
    RtpIsTheAverage(s, prices, casePrice);
    var paid := PaidOver(s, prices, TICKET_SPACE) as real;
    var rolled := RolledPay(s, prices, DIGEST_VALUES, rest) as real;
    var c := casePrice as real;
    ScaleBounds(paid, rolled, c);
  }

  lemma ScaleBounds(paid: real, rolled: real, c: real)
    requires c > 0.0 && 4294.0 * paid <= rolled <= 4295.0 * paid
    ensures paid / TICKET_SPACE as real / c * (4294.0 * TICKET_SPACE as real / DIGEST_VALUES as real)
            <= rolled / DIGEST_VALUES as real / c
    ensures rolled / DIGEST_VALUES as real / c
            <= paid / TICKET_SPACE as real / c * (4295.0 * TICKET_SPACE as real / DIGEST_VALUES as real)
  {
    Squeeze(paid, rolled, c);
    var perUnit, truth := paid / c, rolled / c;
    assert paid / TICKET_SPACE as real / c == perUnit / TICKET_SPACE as real;
    assert rolled / DIGEST_VALUES as real / c == truth / DIGEST_VALUES as real;
  }

  lemma Squeeze(paid: real, rolled: real, c: real)
    requires c > 0.0 && 4294.0 * paid <= rolled <= 4295.0 * paid
    ensures 4294.0 * (paid / c) <= rolled / c <= 4295.0 * (paid / c)
  {
    QuotientOrder(4294.0 * paid, c, rolled, c);
    QuotientOrder(rolled, c, 4295.0 * paid, c);
    ScaleLe(4294.0 * paid, rolled, c);
    ScaleLe(rolled, 4295.0 * paid, c);
  }
}
