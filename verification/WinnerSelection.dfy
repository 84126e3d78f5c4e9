/** Winner selection: which bids are eligible, who is offered the win, and who gets it. */
module WinnerSelection {
  import opened Prelude
  import opened Comparators
  import S = Sorter

  datatype Auction = Auction(
    id: nat,
    batch: nat,
    dealDuration: nat,
    dealReplication: nat,
    dealVerified: bool,
    filEpochDeadline: nat,
    excluded: seq<Provider>,
    providers: seq<Provider>)

  datatype WinningBid = WinningBid(bidder: Peer, reason: string)

  /** What the auctioneer knows when it selects: the current epoch, the longest recent time each provider took
      to get a deal on chain, and the recent failure and winning rates. */
  datatype Context = Context(
    epoch: nat,
    onChainEpochs: map<Provider, nat>,
    failureRates: map<Provider, int>,
    winningRates: map<Provider, int>)

  function OnChainEpochs(cx: Context, p: Provider): nat {
    if p in cx.onChainEpochs then cx.onChainEpochs[p] else 0
  }

  predicate HasDeadline(au: Auction) {
    au.filEpochDeadline > 0 && |au.providers| == 0
  }

  /** The auction is over before it starts. */
  predicate Late(au: Auction, cx: Context) {
    HasDeadline(au) && au.filEpochDeadline <= cx.epoch
  }

  /** Free bids only; for an open auction with a deadline, of providers that have been fast enough; for a
      targeted one, of the targeted providers. */
  predicate Eligible(au: Auction, cx: Context, b: Bid) {
    && Price(au.dealVerified, b) == 0
    && (HasDeadline(au) ==> au.filEpochDeadline - cx.epoch > OnChainEpochs(cx, b.provider))
    && (|au.providers| > 0 ==> b.provider in au.providers)
  }

  // ---------- Targeted providers ----------

  predicate Ascending(s: seq<Provider>) {
    forall i, j | 0 <= i < j < |s| :: s[i] <= s[j]
  }

  /** The smallest index whose provider is not below `p`, or the length, as sort.Search finds it. */
  method Search(sorted: seq<Provider>, p: Provider) returns (idx: nat)
    requires Ascending(sorted)
    ensures idx <= |sorted|
    ensures forall k :: 0 <= k < idx ==> sorted[k] < p
    ensures forall k :: idx <= k < |sorted| ==> sorted[k] >= p
  {
    var i, j := 0, |sorted|;
    while i < j
      invariant 0 <= i <= j <= |sorted|
      invariant forall k :: 0 <= k < i ==> sorted[k] < p
      invariant forall k :: j <= k < |sorted| ==> sorted[k] >= p
    {
      var h := (i + j) / 2;
      if !(sorted[h] >= p) {
        i := h + 1;
      } else {
        j := h;
      }
    }
    idx := i;
  }

  /** Binary search in the sorted providers agrees with plain membership. */
  method IsTargeted(sorted: seq<Provider>, p: Provider) returns (found: bool)
    requires Ascending(sorted)
    ensures found <==> p in sorted
  {
    var idx := Search(sorted, p);
    found := idx < |sorted| && sorted[idx] == p;
  }

  /** Keeps the bids of the targeted providers. `sorted` is what sorting the providers gave. */
  method SelectTargeted(s: S.Sorter, sorted: seq<Provider>) returns (r: S.Sorter)
    requires Ascending(sorted)
    ensures fresh(r) && r.h == S.Filtered(s.h, (b: Bid) => b.provider in sorted)
  {
    var kept := [];
    ghost var f := (b: Bid) => b.provider in sorted;
    for i := 0 to |s.h|
      invariant kept == S.Filtered(s.h[..i], f)
    {
      assert s.h[..i + 1][..i] == s.h[..i];
      var targeted := IsTargeted(sorted, s.h[i].provider);
      if targeted {
        kept := kept + [s.h[i]];
      }
    }
    assert s.h[..|s.h|] == s.h;
    r := new S.Sorter(kept);
  }

  // ---------- Candidates ----------

  predicate DistinctIds(bids: seq<Bid>) {
    forall i, j | 0 <= i < j < |bids| :: bids[i].id != bids[j].id
  }

  lemma {:induction false} FilteredDistinct(bids: seq<Bid>, f: Bid -> bool)
    requires DistinctIds(bids)
    ensures DistinctIds(S.Filtered(bids, f))
  {
    if bids != [] {
      var init := bids[..|bids| - 1];
      FilteredDistinct(init, f);
      var rest := S.Filtered(init, f);
      forall i | 0 <= i < |rest|
        ensures rest[i].id != bids[|bids| - 1].id
      {
        assert rest[i] in init;
      }
    }
  }

  /** The pool of eligible bids. */
  method Candidates(au: Auction, cx: Context, bids: seq<Bid>, sorted: seq<Provider>) returns (s: S.Sorter)
    requires DistinctIds(bids) && !Late(au, cx)
    requires Ascending(sorted) && multiset(sorted) == multiset(au.providers)
    ensures fresh(s) && DistinctIds(s.h)
    ensures forall b :: b in s.h <==> b in bids && Eligible(au, cx, b)
  {
    var all := new S.Sorter(bids);
    var free := (b: Bid) => (!au.dealVerified && b.askPrice == 0) || (au.dealVerified && b.verifiedAskPrice == 0);
    s := all.Select(free);
    FilteredDistinct(bids, free);
    if HasDeadline(au) {
      var window := au.filEpochDeadline - cx.epoch;
      var fast := (b: Bid) => window > OnChainEpochs(cx, b.provider);
      FilteredDistinct(s.h, fast);
      s := s.Select(fast);
    }
    if |au.providers| > 0 {
      FilteredDistinct(s.h, (b: Bid) => b.provider in sorted);
      s := SelectTargeted(s, sorted);
      assert forall p :: p in sorted <==> p in au.providers by {
        assert forall p :: p in sorted <==> p in multiset(sorted);
        assert forall p :: p in au.providers <==> p in multiset(au.providers);
      }
    }
  }

  // ---------- Selection ----------

  /** The bids of a list that would acknowledge the win. */
  ghost function Acking(bids: seq<Bid>, ack: Bid -> bool): set<Bid> {
    set b | b in bids && ack(b)
  }

  /** What is known of the bids offered from a pool so far, by an iterator over its best `n` bids. */
  ghost predicate Offering(s: S.Sorter, it: S.Iter, pool: multiset<Bid>, offered: seq<Bid>, n: nat)
    reads s
  {
    && s.Fits(it) && pool == multiset(s.h) + multiset(offered)
    && (it.TopN? ==> it.left + |offered| == n)
  }

  /** The bids offered by a top-n iterator are of the best ones, if its comparator is an order. */
  ghost predicate OfferedBest(s: S.Sorter, it: S.Iter, pool: multiset<Bid>, offered: seq<Bid>, n: nat)
    reads s
  {
    it.TopN? ==> s.Heaped() && OneOfBest(s.cmp.value, offered, pool, n)
  }

  method OfferNext(s: S.Sorter, it: S.Iter, ghost pool: multiset<Bid>, ghost offered: seq<Bid>, ghost n: nat)
      returns (b: Option<Bid>, it': S.Iter)
    requires Offering(s, it, pool, offered, n)
    modifies s`h
    ensures b.None? <==> old(s.Exhausted(it))
    ensures b.None? ==> it' == it && s.h == old(s.h)
    ensures it'.TopN? == it.TopN? && it'.Anyone? == it.Anyone?
    ensures b.Some? ==> Offering(s, it', pool, offered + [b.value], n) && |s.h| < |old(s.h)|
    ensures b.Some? && old(OfferedBest(s, it, pool, offered, n)) ==> OfferedBest(s, it', pool, offered + [b.value], n)
  {
    ghost var passed;
    ghost var best := OfferedBest(s, it, pool, offered, n);
    b, it', passed := s.Next(it);
    if b.Some? {
      assert multiset(offered + [b.value]) == multiset(offered) + multiset{b.value};
      if it.TopN? && best {
        Flip(s.cmp.value, multiset(old(s.h)), b.value, b.value);
        OfferedIsBest(s.cmp.value, pool, multiset(s.h), offered, b.value, passed, n);
      }
    }
  }

  /** Offers the win to one bid after the other until one acknowledges. The bids offered leave the pool. */
  method SelectOneWinner(s: S.Sorter, it: S.Iter, ack: Bid -> bool) returns (b: Option<Bid>, offered: seq<Bid>)
    requires s.Fits(it)
    modifies s`h
    ensures multiset(old(s.h)) == multiset(s.h) + multiset(offered)
    ensures b.Some? ==> offered != [] && offered[|offered| - 1] == b.value && ack(b.value)
    ensures forall i | 0 <= i < |offered| && (b.None? || i < |offered| - 1) :: !ack(offered[i])
    ensures b.None? && it.Anyone? ==> s.h == []
    ensures it.TopN? ==> |offered| <= it.left && (b.None? ==> |offered| == it.left)
    ensures it.TopN? && old(s.Heaped()) ==> OneOfBest(s.cmp.value, offered, multiset(old(s.h)), it.left)
  {
    offered := [];
    var it' := it;
    ghost var n := if it.TopN? then it.left else 0;
    while true
      invariant it'.TopN? == it.TopN? && it'.Anyone? == it.Anyone?
      invariant Offering(s, it', multiset(old(s.h)), offered, n)
      invariant old(s.Heaped()) ==> OfferedBest(s, it', multiset(old(s.h)), offered, n)
      invariant forall i | 0 <= i < |offered| :: !ack(offered[i])
      decreases |s.h|
    {
      b, it' := OfferNext(s, it', multiset(old(s.h)), offered, n);
      if b.None? {
        return;
      }
      offered := offered + [b.value];
      if ack(b.value) {
        return;
      }
    }
  }

  /** Of each bid of the list, fewer than `n` bids of the pool are better. */
  ghost predicate OneOfBest(cmp: Cmp, bids: seq<Bid>, pool: multiset<Bid>, n: nat) {
    forall i | 0 <= i < |bids| :: n > 0 && S.Beats(cmp, bids[i], pool, n - 1)
  }

  /** What is left of the pool without the bids that may be better. */
  lemma NotBetter(pool: multiset<Bid>, rest: multiset<Bid>, offered: multiset<Bid>, passed: multiset<Bid>, b: Bid)
    requires pool == rest + offered + multiset{b} && passed <= rest
    ensures pool - (passed + offered) == (rest - passed) + multiset{b} && passed + offered <= pool
  {
  }

  /** A bid that all but `passed` of the rest are no better than, after others were offered from the same pool. */
  lemma BidIsBest(cmp: Cmp, pool: multiset<Bid>, rest: multiset<Bid>, offered: multiset<Bid>, b: Bid, passed: multiset<Bid>, n: nat)
    requires pool == rest + offered + multiset{b} && passed <= rest && |passed| + |offered| < n && NoWorse(cmp, b, b)
    requires forall x | x in rest - passed :: NoWorse(cmp, b, x)
    ensures S.Beats(cmp, b, pool, n - 1)
  {
    var better := passed + offered;
    NotBetter(pool, rest, offered, passed, b);
    assert |better| == |passed| + |offered|;
    forall x | x in pool - better ensures NoWorse(cmp, b, x) {
      assert x in (rest - passed) + multiset{b};
    }
  }

  lemma OfferedIsBest(cmp: Cmp, pool: multiset<Bid>, rest: multiset<Bid>, offered: seq<Bid>, b: Bid, passed: multiset<Bid>, n: nat)
    requires pool == rest + multiset(offered) + multiset{b}
    requires passed <= rest && |passed| + |offered| < n && NoWorse(cmp, b, b)
    requires forall x | x in rest - passed :: NoWorse(cmp, b, x)
    requires OneOfBest(cmp, offered, pool, n)
    ensures OneOfBest(cmp, offered + [b], pool, n)
  {
    assert |multiset(offered)| == |offered|;
    BidIsBest(cmp, pool, rest, multiset(offered), b, passed, n);
    OneMoreBest(cmp, offered, pool, n, b);
  }

  lemma OneMoreBest(cmp: Cmp, bids: seq<Bid>, pool: multiset<Bid>, n: nat, b: Bid)
    requires OneOfBest(cmp, bids, pool, n) && n > 0 && S.Beats(cmp, b, pool, n - 1)
    ensures OneOfBest(cmp, bids + [b], pool, n)
  {
    forall i | 0 <= i < |bids + [b]| ensures n > 0 && S.Beats(cmp, (bids + [b])[i], pool, n - 1) {
      if i < |bids| { assert (bids + [b])[i] == bids[i]; }
    }
  }

  ghost function Ids(bids: set<Bid>): set<BidId> {
    set b | b in bids :: b.id
  }

  /** The winners are these bids. */
  ghost predicate Records(won: set<Bid>, winners: map<BidId, WinningBid>) {
    && |winners| == |won| && winners.Keys == Ids(won)
    && (forall b | b in won :: b.id in winners && winners[b.id].bidder == b.bidder)
  }

  /** What a selection may come out with: as many winners as replicas, eligible and acknowledging. */
  ghost predicate Selected(au: Auction, cx: Context, bids: seq<Bid>, ack: Bid -> bool, winners: map<BidId, WinningBid>) {
    exists won :: Records(won, winners) && |won| == au.dealReplication && MayWin(au, cx, bids, ack, won)
  }

  ghost predicate MayWin(au: Auction, cx: Context, bids: seq<Bid>, ack: Bid -> bool, won: set<Bid>) {
    forall b | b in won :: b in bids && Eligible(au, cx, b) && ack(b)
  }

  /** Everything offered, and everything won, so far. */
  ghost predicate Progress(pool: seq<Bid>, left: seq<Bid>, offered: seq<Bid>, winners: map<BidId, WinningBid>, ack: Bid -> bool) {
    multiset(pool) == multiset(left) + multiset(offered) && Records(Acking(offered, ack), winners)
  }

  lemma PoolFacts(pool: seq<Bid>, left: seq<Bid>, offered: seq<Bid>)
    requires DistinctIds(pool) && multiset(pool) == multiset(left) + multiset(offered)
    ensures forall b :: b in pool <==> b in left || b in offered
    ensures forall b :: !(b in left && b in offered)
    ensures forall x, y | x in pool && y in pool :: x.id == y.id ==> x == y
  {
    assert forall b :: b in pool <==> b in multiset(pool);
    assert forall b :: b in left <==> b in multiset(left);
    assert forall b :: b in offered <==> b in multiset(offered);
    forall b | b in left && b in offered
      ensures false
    {
      assert multiset(pool)[b] >= 2;
      CountOne(pool, b);
    }
  }

  lemma {:induction false} CountOne(pool: seq<Bid>, b: Bid)
    requires DistinctIds(pool)
    ensures multiset(pool)[b] <= 1
  {
    if pool != [] {
      var init, last := pool[..|pool| - 1], pool[|pool| - 1];
      assert pool == init + [last];
      CountOne(init, b);
      if b == last { assert b !in init; }
    }
  }

  /** A round that nobody acknowledged only moves bids from the pool to the offered ones. */
  lemma RoundLost(pool: seq<Bid>, left: seq<Bid>, left': seq<Bid>, offered: seq<Bid>, more: seq<Bid>,
                  winners: map<BidId, WinningBid>, ack: Bid -> bool)
    requires Progress(pool, left, offered, winners, ack)
    requires multiset(left) == multiset(left') + multiset(more)
    requires forall i | 0 <= i < |more| :: !ack(more[i])
    ensures Progress(pool, left', offered + more, winners, ack)
  {
    assert Acking(offered + more, ack) == Acking(offered, ack);
  }

  lemma Recorded(won: set<Bid>, winners: map<BidId, WinningBid>, b: Bid, reason: string)
    requires Records(won, winners) && forall x | x in won :: x.id != b.id
    ensures Records(won + {b}, winners[b.id := WinningBid(b.bidder, reason)])
  {
    IdsAdded(won, b);
    WinnersGrow(winners, b.id, WinningBid(b.bidder, reason));
  }

  lemma IdsAdded(won: set<Bid>, b: Bid)
    ensures Ids(won + {b}) == Ids(won) + {b.id}
    ensures (forall x | x in won :: x.id != b.id) ==> b.id !in Ids(won) && |won + {b}| == |won| + 1
  {
  }

  lemma WinnersGrow(winners: map<BidId, WinningBid>, id: BidId, w: WinningBid)
    requires id !in winners
    ensures |winners[id := w]| == |winners| + 1 && winners[id := w].Keys == winners.Keys + {id}
  {
    assert |winners[id := w].Keys| == |winners[id := w]| && |winners.Keys| == |winners|;
  }

  lemma RoundWon(pool: seq<Bid>, left: seq<Bid>, left': seq<Bid>, offered: seq<Bid>, more: seq<Bid>, b: Bid, ack: Bid -> bool)
    requires DistinctIds(pool) && multiset(pool) == multiset(left) + multiset(offered)
    requires multiset(left) == multiset(left') + multiset(more)
    requires more != [] && more[|more| - 1] == b && ack(b)
    requires forall i | 0 <= i < |more| - 1 :: !ack(more[i])
    ensures Acking(offered + more, ack) == Acking(offered, ack) + {b}
    ensures forall x | x in Acking(offered, ack) :: x.id != b.id
    ensures |left'| < |left|
  {
    PoolFacts(pool, left, offered);
    assert b in more && b in multiset(more) && b in multiset(left) && b in left;
    SizeDrop(left, left', more);
  }

  lemma WonProgress(pool: seq<Bid>, left: seq<Bid>, left': seq<Bid>, offered: seq<Bid>, more: seq<Bid>, b: Bid,
                    winners: map<BidId, WinningBid>, ack: Bid -> bool, reason: string)
    requires DistinctIds(pool) && Progress(pool, left, offered, winners, ack)
    requires multiset(left) == multiset(left') + multiset(more)
    requires more != [] && more[|more| - 1] == b && ack(b)
    requires forall i | 0 <= i < |more| - 1 :: !ack(more[i])
    ensures var winners' := winners[b.id := WinningBid(b.bidder, reason)];
            Progress(pool, left', offered + more, winners', ack) && |winners'| == |winners| + 1
    ensures |left'| < |left| && b.id !in winners
  {
    RoundWon(pool, left, left', offered, more, b, ack);
    Recorded(Acking(offered, ack), winners, b, reason);
    IdsAdded(Acking(offered, ack), b);
  }

  /** When the pool is used up, everybody who would acknowledge has won. */
  lemma AllOffered(pool: seq<Bid>, offered: seq<Bid>, winners: map<BidId, WinningBid>, ack: Bid -> bool)
    requires Progress(pool, [], offered, winners, ack)
    ensures |winners| == |Acking(pool, ack)|
    ensures forall b :: b in pool ==> b in offered
  {
    assert multiset(pool) == multiset(offered);
    assert forall b :: b in pool <==> b in multiset(pool);
    assert forall b :: b in offered <==> b in multiset(offered);
    assert Acking(pool, ack) == Acking(offered, ack);
  }

  lemma WinnersBound(pool: seq<Bid>, left: seq<Bid>, offered: seq<Bid>, winners: map<BidId, WinningBid>, ack: Bid -> bool)
    requires Progress(pool, left, offered, winners, ack)
    ensures |winners| <= |Acking(pool, ack)|
  {
    assert forall b :: b in pool <==> b in multiset(pool);
    assert forall b :: b in offered ==> b in multiset(offered);
    Included(Acking(offered, ack), Acking(pool, ack));
  }

  lemma Included(xs: set<Bid>, ys: set<Bid>)
    requires xs <= ys
    ensures |xs| <= |ys|
  {
    assert ys == xs + (ys - xs);
  }

  /** The rates that the first four rounds go by. */
  function RoundRates(cx: Context, i: nat): map<Provider, int> {
    if i == 1 then cx.winningRates else cx.failureRates
  }

  predicate SaneRates(rates: map<Provider, int>) {
    forall p | p in rates :: 0 <= rates[p] <= MAX_INT64
  }

  function HasLowerRate(rates: map<Provider, int>, p: Provider): Bid -> nat {
    (x: Bid) => if Rate(rates, x.provider) < Rate(rates, p) then 1 else 0
  }

  /** How many bids of the pool have a lower rate than the bid. */
  function LowerBids(rates: map<Provider, int>, b: Bid, pool: seq<Bid>): nat {
    SumOf(pool, HasLowerRate(rates, b.provider))
  }

  /** Of each bid of the list, fewer than `n` bids of the pool have a lower rate. */
  predicate AllAmongBest(rates: map<Provider, int>, bids: seq<Bid>, pool: seq<Bid>, n: nat) {
    forall i | 0 <= i < |bids| :: LowerBids(rates, bids[i], pool) < n
  }

  lemma AllByRate(rates: map<Provider, int>, bids: seq<Bid>, pool: seq<Bid>, n: nat)
    requires SaneRates(rates) && OneOfBest(LowerProviderRate(rates), bids, multiset(pool), n)
    ensures AllAmongBest(rates, bids, pool, n)
  {
    forall i | 0 <= i < |bids| ensures LowerBids(rates, bids[i], pool) < n {
      BeatsByRate(rates, bids[i], pool, n);
    }
  }

  lemma BeatsByRate(rates: map<Provider, int>, b: Bid, pool: seq<Bid>, n: nat)
    requires SaneRates(rates) && n > 0 && S.Beats(LowerProviderRate(rates), b, multiset(pool), n - 1)
    ensures LowerBids(rates, b, pool) < n
  {
    var cmp := LowerProviderRate(rates);
    var better: multiset<Bid> :| better <= multiset(pool) && |better| <= n - 1
                                 && forall x | x in multiset(pool) - better :: NoWorse(cmp, b, x);
    forall x | x in multiset(pool) - better
      ensures HasLowerRate(rates, b.provider)(x) == 0
    {
      assert NoWorse(cmp, b, x);
      LowerProviderRateRanks(rates, multiset{b, x});
    }
    CountedIn(pool, better, HasLowerRate(rates, b.provider));
  }

  /** A weight of one at most, and of nothing outside of some elements, sums up to their number at most. */
  lemma {:induction false} CountedIn(pool: seq<Bid>, some: multiset<Bid>, f: Bid -> nat)
    requires some <= multiset(pool) && (forall x :: f(x) <= 1) && forall x | x in multiset(pool) - some :: f(x) == 0
    ensures SumOf(pool, f) <= |some|
  {
    if pool != [] {
      var init, last := pool[..|pool| - 1], pool[|pool| - 1];
      assert pool == init + [last];
      assert multiset(pool) == multiset(init) + multiset{last};
      if last in some {
        var rest := some - multiset{last};
        assert multiset(init) - rest == multiset(pool) - some;
        CountedIn(init, rest, f);
      } else {
        assert last in multiset(pool) - some;
        forall x | x in multiset(init) - some ensures f(x) == 0 { assert x in multiset(pool) - some; }
        CountedIn(init, some, f);
      }
    }
  }

  // ---------- Rounds ----------

  function Smaller(n: nat, m: nat): nat {
    if n < m then n else m
  }

  /** One round of a selection: the bids still in the pool, those offered the win, and who took it. */
  datatype Entry = Entry(pool: seq<Bid>, offered: seq<Bid>, winner: Option<Bid>)

  /** The last bid offered the win takes it, if anybody does, and the others did not acknowledge. */
  predicate Answered(e: Entry, ack: Bid -> bool) {
    && (e.winner.Some? ==> e.offered != [] && e.offered[|e.offered| - 1] == e.winner.value && ack(e.winner.value))
    && (forall k | 0 <= k < |e.offered| && (e.winner.None? || k < |e.offered| - 1) :: !ack(e.offered[k]))
  }

  /** Only bids among the `n` of the pool with the lowest rates are offered the win, and `n` of them if nobody takes
      it. */
  predicate ByRate(rates: map<Provider, int>, n: nat, e: Entry) {
    && |e.offered| <= n && (e.winner.None? ==> |e.offered| == n)
    && (SaneRates(rates) ==> AllAmongBest(rates, e.offered, e.pool, n))
  }

  /** Offers the win to bids among the `topN` with the lowest rates: to as many if nobody acknowledges. */
  method BestRound(s: S.Sorter, topN: nat, rates: map<Provider, int>, ack: Bid -> bool) returns (b: Option<Bid>, offered: seq<Bid>)
    modifies s
    ensures multiset(old(s.h)) == multiset(s.h) + multiset(offered)
    ensures var e := Entry(old(s.h), offered, b);
            Answered(e, ack) && ByRate(rates, Smaller(topN, |e.pool|), e)
  {
    var it := BestOf(s, topN, rates);
    b, offered := OfferBest(s, it, rates, ack, old(s.h));
  }

  method OfferBest(s: S.Sorter, it: S.Iter, ghost rates: map<Provider, int>, ack: Bid -> bool, ghost pool: seq<Bid>)
      returns (b: Option<Bid>, offered: seq<Bid>)
    requires it.TopN? && s.Fits(it) && s.cmp == Some(LowerProviderRate(rates)) && (SaneRates(rates) ==> s.Heaped())
    requires multiset(pool) == multiset(s.h)
    modifies s`h
    ensures multiset(pool) == multiset(s.h) + multiset(offered)
    ensures var e := Entry(pool, offered, b); Answered(e, ack) && ByRate(rates, it.left, e)
  {
    b, offered := SelectOneWinner(s, it, ack);
    OfferedByRate(rates, it.left, Entry(pool, offered, b));
  }

  /** The iterator over the `topN` bids with the lowest rates. */
  method BestOf(s: S.Sorter, topN: nat, rates: map<Provider, int>) returns (it: S.Iter)
    modifies s
    ensures multiset(s.h) == multiset(old(s.h)) && |s.h| == |old(s.h)| && it == S.TopN(Smaller(topN, |s.h|)) && s.Fits(it)
    ensures s.cmp == Some(LowerProviderRate(rates)) && (SaneRates(rates) ==> s.Heaped())
  {
    if SaneRates(rates) {
      LowerProviderRateRanks(rates, multiset(s.h));
    }
    it := s.RandomTopN(topN, LowerProviderRate(rates));
  }

  lemma OfferedByRate(rates: map<Provider, int>, n: nat, e: Entry)
    requires |e.offered| <= n && (e.winner.None? ==> |e.offered| == n)
    requires SaneRates(rates) ==> OneOfBest(LowerProviderRate(rates), e.offered, multiset(e.pool), n)
    ensures ByRate(rates, n, e)
  {
    if SaneRates(rates) {
      AllByRate(rates, e.offered, e.pool, n);
    }
  }

  /** Offers the win to anybody, and to everybody if nobody acknowledges. */
  method RandomRound(s: S.Sorter, ack: Bid -> bool) returns (b: Option<Bid>, offered: seq<Bid>)
    modifies s
    ensures multiset(old(s.h)) == multiset(s.h) + multiset(offered)
    ensures Answered(Entry(old(s.h), offered, b), ack) && (b.None? ==> s.h == [])
  {
    var it := s.Random();
    b, offered := SelectOneWinner(s, it, ack);
  }

  /** Round `i`: the first, third and fourth go by recent failures, the second by recent wins, and all later ones at
      random, to everybody left if nobody takes it. */
  predicate RoundOk(cx: Context, topN: nat, ack: Bid -> bool, i: nat, e: Entry) {
    && multiset(e.offered) <= multiset(e.pool) && Answered(e, ack)
    && (i == 0 || i == 2 || i == 3 ==> ByRate(cx.failureRates, Smaller(topN, |e.pool|), e))
    && (i == 1 ==> ByRate(cx.winningRates, Smaller(topN, |e.pool|), e))
    && (i >= 4 && e.winner.None? ==> multiset(e.offered) == multiset(e.pool))
  }

  /** What is said of the winner of round `i`. */
  function Reason(i: nat): string {
    match i
    case 0 => "low recent failures"
    case 1 => "low recent wins"
    case 2 => "low recent failures"
    case 3 => "low recent failures"
    case _ => "random"
  }

  method Round(s: S.Sorter, i: nat, topN: nat, cx: Context, ack: Bid -> bool)
      returns (b: Option<Bid>, offered: seq<Bid>, reason: string)
    modifies s
    ensures multiset(old(s.h)) == multiset(s.h) + multiset(offered)
    ensures RoundOk(cx, topN, ack, i, Entry(old(s.h), offered, b))
    ensures b.None? && i > 3 ==> s.h == []
    ensures reason == Reason(i)
  {
    if i == 0 || i == 2 || i == 3 {
      b, offered := BestRound(s, topN, cx.failureRates, ack);
      reason := "low recent failures";
    } else if i == 1 {
      b, offered := BestRound(s, topN, cx.winningRates, ack);
      reason := "low recent wins";
    } else {
      b, offered := RandomRound(s, ack);
      reason := "random";
    }
  }

  /** Entry `i` is round `i`. */
  predicate RoundsOk(cx: Context, topN: nat, ack: Bid -> bool, log: seq<Entry>) {
    forall i | 0 <= i < |log| :: RoundOk(cx, topN, ack, i, log[i])
  }

  /** A round and the bids it leaves in the pool. */
  predicate Leaves(e: Entry, left: seq<Bid>) {
    multiset(e.pool) == multiset(left) + multiset(e.offered)
  }

  predicate Follows(log: seq<Entry>, i: nat)
    requires i + 1 < |log|
  {
    Leaves(log[i], log[i + 1].pool)
  }

  /** The rounds begin with the pool, and each goes on with the bids that the one before left. */
  predicate PoolsOk(pool: seq<Bid>, left: seq<Bid>, log: seq<Entry>) {
    if log == [] then left == pool else
    && log[0].pool == pool && Leaves(log[|log| - 1], left)
    && (forall i | 0 <= i < |log| - 1 :: Follows(log, i))
  }

  /** The winners are those of the rounds, each with the reason of its own. */
  predicate WinnersOk(log: seq<Entry>, winners: map<BidId, WinningBid>) {
    && (forall i | 0 <= i < |log| && log[i].winner.Some? ::
          var b := log[i].winner.value; b.id in winners && winners[b.id] == WinningBid(b.bidder, Reason(i)))
    && (forall id | id in winners :: exists i | 0 <= i < |log| :: Wins(log[i], id))
  }

  /** The rounds of a selection from a pool. */
  predicate Rounds(cx: Context, topN: nat, ack: Bid -> bool, pool: seq<Bid>, left: seq<Bid>, log: seq<Entry>,
                   winners: map<BidId, WinningBid>)
  {
    RoundsOk(cx, topN, ack, log) && PoolsOk(pool, left, log) && WinnersOk(log, winners)
  }

  predicate Wins(e: Entry, id: BidId) {
    e.winner.Some? && e.winner.value.id == id
  }

  predicate LastTaken(log: seq<Entry>) {
    log != [] && log[|log| - 1].winner.Some?
  }

  /** All random rounds have a winner. */
  predicate LateOnesTaken(log: seq<Entry>) {
    forall i | 4 <= i < |log| :: log[i].winner.Some?
  }

  /** A selection goes on for as long as winners are missing, and up to a random round that nobody takes. */
  predicate RoundsEnd(log: seq<Entry>, wanted: nat, ok: bool) {
    if ok then LateOnesTaken(log) && (log == [] <==> wanted == 0) && (log != [] ==> LastTaken(log))
    else |log| > 4 && !LastTaken(log) && LateOnesTaken(log[..|log| - 1])
  }

  lemma LogGrows(log: seq<Entry>, e: Entry)
    requires LateOnesTaken(log)
    ensures LastTaken(log + [e]) <==> e.winner.Some?
    ensures LateOnesTaken(log + [e]) <==> |log| < 4 || e.winner.Some?
    ensures (log + [e])[..|log|] == log
  {
    assert (log + [e])[|log|] == e;
  }

  lemma OneMoreOk(cx: Context, topN: nat, ack: Bid -> bool, log: seq<Entry>, e: Entry)
    requires RoundsOk(cx, topN, ack, log) && RoundOk(cx, topN, ack, |log|, e)
    ensures RoundsOk(cx, topN, ack, log + [e])
  {
    forall i | 0 <= i < |log + [e]| ensures RoundOk(cx, topN, ack, i, (log + [e])[i]) {
      if i < |log| { assert RoundOk(cx, topN, ack, i, log[i]); }
    }
  }

  lemma OneMorePool(pool: seq<Bid>, log: seq<Entry>, e: Entry, left: seq<Bid>)
    requires PoolsOk(pool, e.pool, log) && Leaves(e, left)
    ensures PoolsOk(pool, left, log + [e])
  {
    var more := log + [e];
    forall i | 0 <= i < |more| - 1 ensures Follows(more, i) {
      if i < |log| - 1 { assert Follows(log, i); }
    }
  }

  lemma OneMoreWinner(log: seq<Entry>, winners: map<BidId, WinningBid>, e: Entry, winners': map<BidId, WinningBid>)
    requires WinnersOk(log, winners)
    requires e.winner.None? ==> winners' == winners
    requires e.winner.Some? ==> var b := e.winner.value;
                                b.id !in winners && winners' == winners[b.id := WinningBid(b.bidder, Reason(|log|))]
    ensures WinnersOk(log + [e], winners')
  {
    var more := log + [e];
    forall id | id in winners' ensures exists i | 0 <= i < |more| :: Wins(more[i], id) {
      if id in winners {
        var i :| 0 <= i < |log| && Wins(log[i], id);
        assert Wins(more[i], id);
      } else {
        assert Wins(more[|log|], id);
      }
    }
  }

  /** Where a selection is: the bids left in the pool, everything offered, the winners, and its rounds. */
  datatype Selection = Selection(left: seq<Bid>, offered: seq<Bid>, winners: map<BidId, WinningBid>, log: seq<Entry>)

  /** What is known after the rounds so far. */
  ghost predicate Underway(cx: Context, topN: nat, ack: Bid -> bool, pool: seq<Bid>, now: Selection) {
    match now
    case Selection(left, offered, winners, log) =>
      Progress(pool, left, offered, winners, ack) && Rounds(cx, topN, ack, pool, left, log, winners)
  }

  /** A selection after one more round. */
  function After(was: Selection, left: seq<Bid>, more: seq<Bid>, b: Option<Bid>): Selection {
    Selection(left, was.offered + more,
              if b.None? then was.winners else was.winners[b.value.id := WinningBid(b.value.bidder, Reason(|was.log|))],
              was.log + [Entry(was.left, more, b)])
  }

  lemma ProgressAfter(ack: Bid -> bool, pool: seq<Bid>, was: Selection, left: seq<Bid>, more: seq<Bid>, b: Option<Bid>)
    requires DistinctIds(pool) && Progress(pool, was.left, was.offered, was.winners, ack)
    requires multiset(was.left) == multiset(left) + multiset(more) && Answered(Entry(was.left, more, b), ack)
    ensures var now := After(was, left, more, b); Progress(pool, left, now.offered, now.winners, ack)
    ensures b.Some? ==> b.value.id !in was.winners && |left| < |was.left|
  {
    if b.Some? {
      WonProgress(pool, was.left, left, was.offered, more, b.value, was.winners, ack, Reason(|was.log|));
    } else {
      RoundLost(pool, was.left, left, was.offered, more, was.winners, ack);
    }
  }

  lemma RoundsAfter(cx: Context, topN: nat, ack: Bid -> bool, pool: seq<Bid>, was: Selection, left: seq<Bid>, more: seq<Bid>, b: Option<Bid>)
    requires Rounds(cx, topN, ack, pool, was.left, was.log, was.winners)
    requires multiset(was.left) == multiset(left) + multiset(more) && (b.Some? ==> b.value.id !in was.winners)
    requires RoundOk(cx, topN, ack, |was.log|, Entry(was.left, more, b))
    ensures var now := After(was, left, more, b); Rounds(cx, topN, ack, pool, left, now.log, now.winners)
  {
    var e := Entry(was.left, more, b);
    OneMoreOk(cx, topN, ack, was.log, e);
    OneMorePool(pool, was.log, e, left);
    OneMoreWinner(was.log, was.winners, e, After(was, left, more, b).winners);
  }

  lemma RoundPlayed(cx: Context, topN: nat, ack: Bid -> bool, pool: seq<Bid>, was: Selection, left: seq<Bid>, more: seq<Bid>, b: Option<Bid>)
    requires DistinctIds(pool) && Underway(cx, topN, ack, pool, was)
    requires multiset(was.left) == multiset(left) + multiset(more)
    requires RoundOk(cx, topN, ack, |was.log|, Entry(was.left, more, b))
    ensures Underway(cx, topN, ack, pool, After(was, left, more, b))
    ensures b.Some? ==> b.value.id !in was.winners && |left| < |was.left|
  {
    ProgressAfter(ack, pool, was, left, more, b);
    RoundsAfter(cx, topN, ack, pool, was, left, more, b);
  }

  lemma NotUnderway(cx: Context, topN: nat, ack: Bid -> bool, pool: seq<Bid>)
    ensures Underway(cx, topN, ack, pool, Selection(pool, [], map[], []))
  {
    assert Acking([], ack) == {};
  }

  /** Rounds until there are enough winners, or until a random round finds nobody. */
  method SelectFrom(s: S.Sorter, wanted: nat, topN: nat, cx: Context, ack: Bid -> bool)
      returns (winners: map<BidId, WinningBid>, ok: bool, offered: seq<Bid>, ghost log: seq<Entry>)
    requires DistinctIds(s.h)
    modifies s
    ensures Underway(cx, topN, ack, old(s.h), Selection(s.h, offered, winners, log))
    ensures if ok then |winners| == wanted else |winners| < wanted && s.h == []
    ensures RoundsEnd(log, wanted, ok)
  {
    winners, offered, ok, log := map[], [], true, [];
    var i := 0;
    ghost var pool := s.h;
    NotUnderway(cx, topN, ack, pool);
    while |winners| < wanted
      invariant i == |log| && |winners| <= wanted
      invariant Underway(cx, topN, ack, pool, Selection(s.h, offered, winners, log))
      invariant LateOnesTaken(log) && (log != [] && |winners| == wanted ==> wanted > 0 && LastTaken(log))
      decreases if i < 4 then 4 - i else 0, |s.h|
    {
      ghost var was := Selection(s.h, offered, winners, log);
      var b, more, reason := Round(s, i, topN, cx, ack);
      RoundPlayed(cx, topN, ack, pool, was, s.h, more, b);
      LogGrows(log, Entry(was.left, more, b));
      offered, log := offered + more, log + [Entry(was.left, more, b)];
      if b.Some? {
        WinnersGrow(winners, b.value.id, WinningBid(b.value.bidder, reason));
        winners := winners[b.value.id := WinningBid(b.value.bidder, reason)];
      } else if i > 3 {
        ok := false;
        return;
      }
      i := i + 1;
    }
  }

  /** A fifth of the pool, but five at least. */
  function TopN(pool: nat): nat {
    if pool < 25 then 5 else pool / 5
  }

  /** The winners come out of rounds, as many as it takes. */
  predicate ByRounds(cx: Context, wanted: nat, ack: Bid -> bool, pool: seq<Bid>, end: Selection, ok: bool) {
    match end
    case Selection(left, _, winners, log) =>
      Rounds(cx, TopN(|pool|), ack, pool, left, log, winners) && RoundsEnd(log, wanted, ok)
  }

  /**
   Selects the winners. Past the early exit, it succeeds if and only if as many eligible bids as replicas
   wanted would acknowledge, for every random draw. On success there are exactly that many winners, all
   eligible, acknowledged and different; on failure every eligible bid was offered the win; no bid is offered
   it twice, and none that is not eligible is. The log of `end` has one entry per round, which says who was
   offered the win and why.
   */
  method SelectWinners(au: Auction, cx: Context, bids: seq<Bid>, sorted: seq<Provider>, ack: Bid -> bool)
      returns (winners: map<BidId, WinningBid>, ok: bool, offered: seq<Bid>, ghost pool: seq<Bid>, ghost end: Selection)
    requires DistinctIds(bids)
    requires Ascending(sorted) && multiset(sorted) == multiset(au.providers)
    ensures Late(au, cx) ==> !ok && winners == map[] && offered == []
    ensures au.providers == [] && 0 < au.filEpochDeadline <= cx.epoch ==> !ok
    ensures !Late(au, cx) ==>
              && DistinctIds(pool) && (forall b :: b in pool <==> b in bids && Eligible(au, cx, b))
              && multiset(pool) == multiset(end.left) + multiset(offered)
              && (ok <==> |Acking(pool, ack)| >= au.dealReplication)
              && (ok ==> |winners| == au.dealReplication)
              && (!ok ==> forall b :: b in pool ==> b in offered)
              && Records(Acking(offered, ack), winners)
              && end.winners == winners && end.offered == offered && ByRounds(cx, au.dealReplication, ack, pool, end, ok)
    ensures ok ==> Selected(au, cx, bids, ack, winners)
  {
    winners, offered, pool := map[], [], [];
    end := Selection(pool, offered, winners, []);
    if Late(au, cx) {
      return winners, false, offered, pool, end;
    }
    var s := Candidates(au, cx, bids, sorted);
    pool := s.h;
    var topN := |s.h| / 5;
    if topN < 5 {
      topN := 5;
    }
    ghost var log;
    winners, ok, offered, log := SelectFrom(s, au.dealReplication, topN, cx, ack);
    end := Selection(s.h, offered, winners, log);
    Outcome(au, cx, bids, ack, pool, end, ok);
  }

  /** What the rounds come to. */
  lemma Outcome(au: Auction, cx: Context, bids: seq<Bid>, ack: Bid -> bool, pool: seq<Bid>, end: Selection, ok: bool)
    requires forall b :: b in pool <==> b in bids && Eligible(au, cx, b)
    requires Underway(cx, TopN(|pool|), ack, pool, end)
    requires if ok then |end.winners| == au.dealReplication else |end.winners| < au.dealReplication && end.left == []
    ensures ok <==> |Acking(pool, ack)| >= au.dealReplication
    ensures !ok ==> forall b :: b in pool ==> b in end.offered
    ensures ok ==> Selected(au, cx, bids, ack, end.winners)
  {
    WinnersBound(pool, end.left, end.offered, end.winners, ack);
    if ok {
      forall b | b in Acking(end.offered, ack) ensures b in pool {
        assert b in multiset(end.offered) && b in multiset(pool);
      }
    } else {
      AllOffered(pool, end.offered, end.winners, ack);
    }
  }

  lemma SizeDrop(before: seq<Bid>, after: seq<Bid>, more: seq<Bid>)
    requires multiset(before) == multiset(after) + multiset(more) && more != []
    ensures |after| < |before|
  {
    assert |multiset(before)| == |before| && |multiset(after)| == |after| && |multiset(more)| == |more|;
  }
}
