/** The wheel that is built from settings, and what a contract does to an inventory. */
module SiteRewards {
  import opened Apportion
  import opened ContractOdds
  import opened ContractPool
  import opened ContractTable
  import opened Distribution
  import opened Site
  import opened SiteOpenings
  import opened Tickets
  import opened Weights

  datatype Segment = Segment(kind: BonusKind, share: real, value: int)

  /** The settings schema, as far as the wheel depends on it. */
  predicate ValidSegments(segments: seq<Segment>) {
    && 2 <= |segments| <= 16
    && forall i :: 0 <= i < |segments| ==>
         segments[i].value > 0 && (segments[i].kind == Discount ==> segments[i].value < 10_000)
  }

  function SharesOf(segments: seq<Segment>): (s: seq<real>)
    ensures |s| == |segments|
  {
    seq(|segments|, i requires 0 <= i < |segments| => segments[i].share)
  }

  /** What the settings schema asks of the shares: none negative, together one up to a millionth. */
  predicate SharesAddUp(segments: seq<Segment>) {
    && (forall i :: 0 <= i < |segments| ==> segments[i].share > 0.0)
    && 0.999999 < Sum(SharesOf(segments)) < 1.000001
  }

  /** A slice is rolled as often as its share says, up to a few tickets in a million. */
  lemma SliceGetsItsShare(segments: seq<Segment>, i: nat)
    requires ValidSegments(segments) && SharesAddUp(segments) && i < |segments|
    ensures var most := (|segments| + 2) as real;
            -most <= Widths(SharesOf(segments))[i] as real - segments[i].share * 1_000_000.0 <= most
  {
    hide Widths, Sum;
    EachNearItsShare(SharesOf(segments), i);
  }

  method BuildWheel(segments: seq<Segment>) returns (wheel: seq<Slice>)
    requires ValidSegments(segments)
    ensures ValidWheel(wheel) && |wheel| == |segments|
    ensures SliceRanges(wheel) == LayOut(Widths(SharesOf(segments)), 0)
    ensures forall i :: 0 <= i < |wheel| ==>
              wheel[i].kind == segments[i].kind && wheel[i].value == segments[i].value && Width(wheel[i].range) >= 1
    ensures SharesAddUp(segments) ==>
              forall i :: 0 <= i < |wheel| ==>
                var most := (|segments| + 2) as real;
                -most <= Width(wheel[i].range) as real - segments[i].share * 1_000_000.0 <= most
  {
    var distributed := DistributeRanges(SharesOf(segments));
    var ranges := distributed.value;
    wheel := seq(|segments|, i requires 0 <= i < |segments| => Slice(segments[i].kind, segments[i].value, ranges[i]));
    assert SliceRanges(wheel) == ranges;
    if SharesAddUp(segments) {
      forall i | 0 <= i < |segments|
        ensures var most := (|segments| + 2) as real;
                -most <= Width(wheel[i].range) as real - segments[i].share * 1_000_000.0 <= most
      {
        SliceGetsItsShare(segments, i);
      }
    }
  }

  // ----- contracts

  /** Exactly the staked items left the player's hands, and exactly one new item came. */
  lemma ContractTradesStakes(s: State, digest: Digest, m: Maths, u: nat, ids: seq<nat>, catalogue: seq<Candidate>)
    requires IsDigest(digest) && m.Valid() && TxContract(s, digest, m, u, ids, catalogue).Ok?
    ensures var o := TxContract(s, digest, m, u, ids, catalogue).value;
            && |o.state.inventory| == |s.inventory| + 1
            && (forall i :: 0 <= i < |s.inventory| ==>
                  if i in ids then
                    && s.inventory[i].owner == u && s.inventory[i].status == Available
                    && o.state.inventory[i] == s.inventory[i].(status := Contracted)
                  else o.state.inventory[i] == s.inventory[i])
            && o.state.inventory[|s.inventory|] == InventoryItem(u, o.reward.itemId, o.reward.price, Available, |s.rows|)
            && o.state.users == s.users && o.state.ledger == s.ledger
  {
    hide IsDigest, BuiltPool, OutcomeAt, SoundTable, StakeValue;
    var o := TxContract(s, digest, m, u, ids, catalogue).value;
    forall i | 0 <= i < |s.inventory| && i in ids ensures s.inventory[i].owner == u && s.inventory[i].status == Available {
      var k :| 0 <= k < |ids| && ids[k] == i;
      assert Stakable(s.inventory, u, ids[k]);
    }
  }

  /** The reward is the catalogue item whose range holds the roll, and lies in the band of a tenth to five times the stake. */
  lemma ContractRewardInBand(s: State, digest: Digest, m: Maths, u: nat, ids: seq<nat>, catalogue: seq<Candidate>)
    requires IsDigest(digest) && m.Valid() && TxContract(s, digest, m, u, ids, catalogue).Ok?
    ensures forall k :: 0 <= k < |ids| ==> ids[k] < |s.inventory|
    ensures var o, stake := TxContract(s, digest, m, u, ids, catalogue).value, StakeValue(s.inventory, ids);
            && Covers(o.reward.range, o.roll)
            && Candidate(o.reward.itemId, o.reward.price) in catalogue
            && stake as real * 0.1 <= o.reward.price as real <= stake as real * 5.0
  {
    hide IsDigest, BuiltPool, TilesFrom, ComputeRoll;
    assert forall k :: 0 <= k < |ids| ==> Stakable(s.inventory, u, ids[k]);
    var stake := StakeValue(s.inventory, ids);
    hide StakeValue, StakesFound;
    AcceptedTableIsSound(m, catalogue, stake);
    var o := TxContract(s, digest, m, u, ids, catalogue).value;
    var k := OutcomeAt(o.pool.outcomes, o.roll);
    assert o.reward == o.pool.outcomes[k];
    assert ContractTable.ItemOf(o.reward) in catalogue && InBand(ContractTable.ItemOf(o.reward), RewardBand(stake));
    BandIsMultiple(stake, o.reward.price);
  }

  lemma BandIsMultiple(stake: int, price: int)
    requires RewardBand(stake).min <= price <= RewardBand(stake).max
    ensures stake as real * 0.1 <= price as real <= stake as real * 5.0
  {
    var low, high := stake as real * CONTRACT_MIN_MULTIPLIER, stake as real * CONTRACT_MAX_MULTIPLIER;
    assert (-low).Floor as real <= -low && high.Floor as real <= high;
  }
}
