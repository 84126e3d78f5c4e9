/** Bids and the comparators that rank them. */
module Comparators {
  type BidId = nat
  type Provider = nat
  type Peer = nat

  datatype Bid = Bid(
    id: BidId,
    provider: Provider,
    bidder: Peer,
    askPrice: int,
    verifiedAskPrice: int,
    startEpoch: nat,
    fastRetrieval: bool)

  /** Negative: the first bid is preferred. Zero: neither is. */
  type Cmp = (Bid, Bid) -> int

  const MAX_INT64 := 0x7fff_ffff_ffff_ffff
  const TWO_TO_64 := 0x1_0000_0000_0000_0000

  predicate IsInt64(x: int) {
    -MAX_INT64 - 1 <= x <= MAX_INT64
  }

  /** 64-bit subtraction, which wraps around. */
  function Sub64(x: int, y: int): (r: int)
    requires IsInt64(x) && IsInt64(y)
    ensures IsInt64(r)
    ensures r == x - y <==> IsInt64(x - y)
  {
    if x - y > MAX_INT64 then x - y - TWO_TO_64
    else if x - y < -MAX_INT64 - 1 then x - y + TWO_TO_64
    else x - y
  }

  /** Division as in Go: toward zero. */
  function Quot(x: int, y: int): int
    requires y > 0
  {
    if x >= 0 then x / y else -(-x / y)
  }

  predicate NoWorse(cmp: Cmp, x: Bid, y: Bid) {
    cmp(x, y) <= 0
  }

  /** The order that a comparator is meant to be on these bids: both ways round agree, and it is
      transitive. */
  ghost predicate Ranks(cmp: Cmp, m: multiset<Bid>) {
    && (forall x, y {:trigger NoWorse(cmp, x, y)} | x in m && y in m :: NoWorse(cmp, x, y) <==> cmp(y, x) >= 0)
    && (forall x, y, z {:trigger Chain(x, y, z)} | x in m && y in m && z in m ::
          NoWorse(cmp, x, y) && NoWorse(cmp, y, z) ==> NoWorse(cmp, x, z))
  }

  /** Marks the triples whose transitivity a proof uses. */
  ghost predicate Chain(x: Bid, y: Bid, z: Bid) {
    true
  }

  /** If the second bid is not better than the first, the first is no worse than the second. */
  lemma Flip(cmp: Cmp, m: multiset<Bid>, x: Bid, y: Bid)
    requires Ranks(cmp, m) && x in m && y in m
    ensures NoWorse(cmp, x, y) <==> !(cmp(y, x) < 0)
  {
  }

  lemma Transitive(cmp: Cmp, m: multiset<Bid>, x: Bid, y: Bid, z: Bid)
    requires Ranks(cmp, m) && x in m && y in m && z in m && NoWorse(cmp, x, y) && NoWorse(cmp, y, z)
    ensures NoWorse(cmp, x, z)
  {
    assert Chain(x, y, z);
  }

  lemma RanksSubset(cmp: Cmp, m: multiset<Bid>, n: multiset<Bid>)
    requires Ranks(cmp, m) && forall x :: x in n ==> x in m
    ensures Ranks(cmp, n)
  {
    forall x, y, z | x in n && y in n && z in n && NoWorse(cmp, x, y) && NoWorse(cmp, y, z)
      ensures NoWorse(cmp, x, z)
    {
      Transitive(cmp, m, x, y, z);
    }
  }

  function Price(verified: bool, b: Bid): int {
    if verified then b.verifiedAskPrice else b.askPrice
  }

  /** Prices are 64-bit integers; the difference is taken in 64 bits. */
  function LowerPrice(verified: bool): Cmp {
    (i: Bid, j: Bid) =>
      if IsInt64(Price(verified, i)) && IsInt64(Price(verified, j)) then Sub64(Price(verified, i), Price(verified, j)) else 0
  }

  function Rate(rates: map<Provider, int>, p: Provider): int {
    if p in rates then rates[p] else 0
  }

  /** A provider without a rate has rate zero. */
  function LowerProviderRate(rates: map<Provider, int>): Cmp {
    (i: Bid, j: Bid) =>
      if IsInt64(Rate(rates, i.provider)) && IsInt64(Rate(rates, j.provider))
      then Sub64(Rate(rates, i.provider), Rate(rates, j.provider)) else 0
  }

  /** Epochs apart, in units of the resolution. */
  function EarlierStartEpoch(resolution: nat): Cmp
    requires resolution > 0
  {
    (i: Bid, j: Bid) => Quot(i.startEpoch - j.startEpoch, resolution)
  }

  /** The first comparator that tells the bids apart decides. */
  function Ordered(cmps: seq<Cmp>): Cmp {
    (i: Bid, j: Bid) => OrderedCmp(cmps, i, j)
  }

  function OrderedCmp(cmps: seq<Cmp>, i: Bid, j: Bid): int {
    if cmps == [] then 0 else
    if cmps[0](i, j) != 0 then cmps[0](i, j) else OrderedCmp(cmps[1..], i, j)
  }

  /** Comparator `k` is the first that tells the bids apart. */
  predicate Decides(cmps: seq<Cmp>, k: nat, i: Bid, j: Bid)
    requires k < |cmps|
  {
    cmps[k](i, j) != 0 && forall l | 0 <= l < k :: cmps[l](i, j) == 0
  }

  /** The loop over the comparators. */
  method OrderedLoop(cmps: seq<Cmp>, i: Bid, j: Bid) returns (r: int)
    ensures r == Ordered(cmps)(i, j)
    ensures forall k | 0 <= k < |cmps| && Decides(cmps, k, i, j) :: r == cmps[k](i, j)
    ensures r != 0 <==> exists k :: 0 <= k < |cmps| && Decides(cmps, k, i, j)
  {
    for k := 0 to |cmps|
      invariant OrderedCmp(cmps, i, j) == OrderedCmp(cmps[k..], i, j)
      invariant forall l | 0 <= l < k :: cmps[l](i, j) == 0
    {
      var result := cmps[k](i, j);
      if result != 0 {
        assert Decides(cmps, k, i, j);
        return result;
      }
      assert cmps[k..][1..] == cmps[k + 1..];
    }
    r := 0;
  }

  // ---------- Which comparators rank ----------

  /** Lower price ranks bids with non-negative prices: there the difference can't wrap around. */
  lemma LowerPriceRanks(verified: bool, m: multiset<Bid>)
    requires forall b | b in m :: 0 <= Price(verified, b) <= MAX_INT64
    ensures Ranks(LowerPrice(verified), m)
    ensures forall x, y | x in m && y in m :: LowerPrice(verified)(x, y) <= 0 <==> Price(verified, x) <= Price(verified, y)
  {
  }

  lemma LowerProviderRateRanks(rates: map<Provider, int>, m: multiset<Bid>)
    requires forall b | b in m :: 0 <= Rate(rates, b.provider) <= MAX_INT64
    ensures Ranks(LowerProviderRate(rates), m)
    ensures forall x, y | x in m && y in m ::
              LowerProviderRate(rates)(x, y) <= 0 <==> Rate(rates, x.provider) <= Rate(rates, y.provider)
  {
  }

  /** It prefers the provider with the lower rate, and one without a rate to one with a positive rate. */
  lemma LowerProviderRateTells(rates: map<Provider, int>, x: Bid, y: Bid)
    requires forall p | p in rates :: 0 <= rates[p] <= MAX_INT64
    ensures LowerProviderRate(rates)(x, y) < 0 <==>
            y.provider in rates && if x.provider in rates then rates[x.provider] < rates[y.provider] else rates[y.provider] > 0
  {
  }

  /** For two bids, the price comparator tells the order of their prices if and only if the difference fits
      in 64 bits. */
  lemma LowerPriceWraps(verified: bool, x: Bid, y: Bid)
    requires IsInt64(Price(verified, x)) && IsInt64(Price(verified, y))
    ensures (LowerPrice(verified)(x, y) <= 0 <==> Price(verified, x) <= Price(verified, y))
            <==> IsInt64(Price(verified, x) - Price(verified, y))
  {
  }

  /** A stack of comparators that rank ranks. */
  lemma {:induction false} OrderedRanks(cmps: seq<Cmp>, m: multiset<Bid>)
    requires forall k :: 0 <= k < |cmps| ==> Ranks(cmps[k], m)
    ensures Ranks(Ordered(cmps), m)
  {
    if cmps != [] {
      var head, tail, all := cmps[0], Ordered(cmps[1..]), Ordered(cmps);
      OrderedRanks(cmps[1..], m);
      forall x, y | x in m && y in m
        ensures NoWorse(all, x, y) <==> all(y, x) >= 0
      {
        Flip(head, m, x, y);
        Flip(head, m, y, x);
        Flip(tail, m, x, y);
      }
      forall x, y, z | x in m && y in m && z in m && NoWorse(all, x, y) && NoWorse(all, y, z)
        ensures NoWorse(all, x, z)
      {
        assert NoWorse(head, x, y) && NoWorse(head, y, z);
        Transitive(head, m, x, y, z);
        if head(x, z) == 0 {
          // Otherwise one of the two steps would be strict, and so would be the whole.
          Flip(head, m, z, x);
          Transitive(head, m, y, z, x);
          Transitive(head, m, z, x, y);
          Flip(head, m, x, y);
          Flip(head, m, y, z);
          Transitive(tail, m, x, y, z);
        }
      }
    }
  }

  /** Earlier start epoch ranks all bids if and only if its resolution is a single epoch: with a coarser one,
      bids can be equal in steps and yet differ end to end. */
  lemma EarlierStartEpochRanks(resolution: nat)
    requires resolution > 0
    ensures (forall m: multiset<Bid> :: Ranks(EarlierStartEpoch(resolution), m)) <==> resolution == 1
  {
    if resolution > 1 {
      var r := resolution;
      var x, y, z := AtEpoch(0), AtEpoch(r - 1), AtEpoch(2 * (r - 1));
      var m := multiset{x, y, z};
      QuotSmall(r - 1, r);
      assert EarlierStartEpoch(r)(y, x) == 0 && EarlierStartEpoch(r)(z, y) == 0;
      QuotOnce(2 * (r - 1), r);
      assert EarlierStartEpoch(r)(z, x) == 1;
      assert Chain(z, y, x) && x in m && y in m && z in m;
      assert !Ranks(EarlierStartEpoch(r), m);
    } else {
      assert forall x: Bid, y: Bid :: EarlierStartEpoch(1)(x, y) == x.startEpoch - y.startEpoch;
      assert forall m: multiset<Bid> :: Ranks(EarlierStartEpoch(1), m);
    }
  }

  /** It prefers the bid that starts earlier, by a unit at least. */
  lemma EarlierStartEpochTells(resolution: nat, x: Bid, y: Bid)
    requires resolution > 0
    ensures EarlierStartEpoch(resolution)(x, y) < 0 <==> x.startEpoch + resolution <= y.startEpoch
    ensures EarlierStartEpoch(resolution)(x, y) > 0 <==> y.startEpoch + resolution <= x.startEpoch
  {
    QuotSign(x.startEpoch - y.startEpoch, resolution);
  }

  lemma QuotSign(x: int, y: int)
    requires y > 0
    ensures Quot(x, y) > 0 <==> x >= y
    ensures Quot(x, y) < 0 <==> -x >= y
  {
    if x >= 0 {
      UnitsIn(x, y);
      QuotOf(x, y);
    } else {
      UnitsIn(-x, y);
      QuotOf(-x, y);
    }
  }

  /** Division toward zero is that of the sizes, with the sign of the first. */
  lemma QuotOf(x: int, y: int)
    requires x >= 0 && y > 0
    ensures Quot(x, y) == x / y && Quot(-x, y) == -(x / y) && x / y >= 0
  {
  }

  lemma UnitsIn(x: nat, y: int)
    requires y > 0
    ensures x / y > 0 <==> x >= y
  {
    var q, r := x / y, x % y;
    assert x == y * q + r && 0 <= r < y;
    if q > 0 {
      assert y * q >= y;
    } else {
      assert y * q <= 0;
    }
  }

  function AtEpoch(e: nat): Bid {
    Bid(0, 0, 0, 0, 0, e, false)
  }

  lemma QuotSmall(x: nat, y: nat)
    requires x < y
    ensures Quot(x, y) == 0
  {
  }

  lemma QuotOnce(x: nat, y: nat)
    requires 0 < y <= x < 2 * y
    ensures Quot(x, y) == 1
  {
    assert x == y + (x - y);
    assert (y + (x - y)) / y == 1 + (x - y) / y;
  }
}
