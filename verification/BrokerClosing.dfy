/** How closing an auction splits its winners, and where the broker's promises stop. */
module BrokerClosing {
  import opened Prelude
  import opened BrokerModel
  import opened BrokerProtocol
  import opened BrokerShapes
  import opened BrokerSlots
  import opened BrokerRows

  /** The proposals in a list of messages. */
  function ProposalsIn(msgs: seq<Msg>): seq<Proposal> {
    if msgs == [] then [] else
    ProposalsIn(msgs[..|msgs| - 1])
      + (if msgs[|msgs| - 1].ReadyToCreateDeals? then msgs[|msgs| - 1].proposals else [])
  }

  /** The replicas asked for in a list of messages. */
  function ReplicasIn(msgs: seq<Msg>): nat {
    SumOf(msgs, Asked())
  }

  function Asked(): Msg -> nat {
    (m: Msg) => if m.ReadyToAuction? then m.replication else 0
  }

  predicate Successful(db: DB, au: ClosedAuction) {
    au.batch in db.batches && Live(db.batches[au.batch].status) && au.errorCause == ""
  }

  /** The messages of a won auction: the gap auction, if there is a gap, then the deals, if any was accepted
      and the batch has a CAR URL. */
  lemma {:induction false} WonMessages(db: DB, op: OperationId, au: ClosedAuction, ch: Choices)
    requires Successful(db, au) && BatchAuctioned(db, op, au, ch).Commit?
    ensures var o := BatchAuctioned(db, op, au, ch);
            var acc := AcceptedBy(db, au, ch);
            && ProposalsIn(o.msgs) == (if db.batches[au.batch].carUrl.Some? then ProposalsOf(au, acc, ch.lookups) else [])
            && au.batch in o.db.batches
            && (o.db.batches[au.batch].status.DealMaking? ==>
                  ReplicasIn(o.msgs) == (if |au.winningBids| > |acc| then |au.winningBids| - |acc| else 0))
            && (o.panicked <==> acc != [] && db.batches[au.batch].carUrl.None?)
  {
    var db1 := db.(operations := db.operations + {op});
    var ba := db.batches[au.batch];
    OperationsDontExclude(db, db1.operations, ba);
    GapShape(db1, au, ba, ch);
    var acc := AcceptedBy(db, au, ch);
    var gap := GapEffect(db1, au, ba, ch).value;
    assert AddDeals(db1, au, ch.bidOrder).accepted == acc;
    assert BatchAuctioned(db, op, au, ch) == Commit(gap.db, gap.msgs + DealMessages(au, ba, ch, acc), acc != [] && ba.carUrl.None?);
    MessageTotals(gap.msgs, DealMessages(au, ba, ch, acc));
  }

  lemma {:induction false} MessageTotals(gap: seq<Msg>, deals: seq<Msg>)
    requires gap == [] || (|gap| == 1 && gap[0].ReadyToAuction?)
    requires deals == [] || (|deals| == 1 && deals[0].ReadyToCreateDeals?)
    ensures ProposalsIn(gap + deals) == (if deals == [] then [] else deals[0].proposals)
    ensures ReplicasIn(gap + deals) == (if gap == [] then 0 else gap[0].replication)
  {
    assert ProposalsIn(gap) == [];
    if gap != [] {
      SumAppend([], gap[0], Asked());
      assert gap == [] + [gap[0]];
    }
    if deals != [] {
      SumAppend(gap, deals[0], Asked());
      assert gap + deals == gap + [deals[0]] && (gap + deals)[..|gap|] == gap;
    } else {
      assert gap + deals == gap;
    }
  }

  /** `acc` are the winners of providers that are not excluded, each once; they and no others get a row; and,
      in a batch that goes on, proposals and replicas asked for add up to the winners exactly when the batch
      has a CAR URL or nothing was accepted. */
  ghost predicate SplitsWinners(db: DB, au: ClosedAuction, acc: seq<BidId>, o: Outcome)
    requires Successful(db, au) && o.Commit?
  {
    && (forall x :: x in acc <==>
          x in au.winningBids && au.winningBids[x].provider !in AuctionExclusions(db, db.batches[au.batch]))
    && (forall i, j :: 0 <= i < j < |acc| ==> acc[i] != acc[j])
    && (forall i :: 0 <= i < |acc| ==> acc[i] in au.winningBids)
    && o.db.deals == db.deals + NewDeals(au, acc)
    && au.batch in o.db.batches
    && (o.db.batches[au.batch].status.DealMaking? ==>
          (|ProposalsIn(o.msgs)| + ReplicasIn(o.msgs) == |au.winningBids|
           <==> db.batches[au.batch].carUrl.Some? || acc == []))
  }

  /**
   Closing splits the winners exactly. The winners of providers that are not excluded get a deal row and
   no others do; the gap is auctioned again, so proposals and replicas asked for add up to the winning
   bids, unless the batch is moved to error. This holds if and only if the batch has a CAR URL or nothing
   was accepted: the handler of a batch with only an IPFS source dies after its rows are written, and its
   deferred commit keeps them.
   */
  lemma ClosingSplitsWinners(db: DB, op: OperationId, au: ClosedAuction, ch: Choices)
    requires Successful(db, au) && BatchAuctioned(db, op, au, ch).Commit?
    requires Lists(ch.bidOrder, au.winningBids.Keys)
    ensures SplitsWinners(db, au, AcceptedBy(db, au, ch), BatchAuctioned(db, op, au, ch))
  {
    ListsSize(ch.bidOrder, au.winningBids.Keys);
    AcceptedExactly(ch.bidOrder, au.winningBids, AuctionExclusions(db, db.batches[au.batch]));
    AuctionClosedBatch(db, op, au, ch);
    WonMessages(db, op, au, ch);
  }

  /** A proposal and a deal row of the same bid. */
  predicate ProposalFits(au: ClosedAuction, p: Proposal, d: Deal) {
    && p.bid in au.winningBids && p.auction == au.id && p.verified == au.dealVerified
    && p.price == au.winningBids[p.bid].price && p.startEpoch == au.winningBids[p.bid].startEpoch
    && p.fastRetrieval == au.winningBids[p.bid].fastRetrieval
    && d == Deal(au.batch, au.id, p.bid, p.provider, 0, 0, "")
  }

  /** The bids of a list are of different providers. */
  predicate DifferentProviders(au: ClosedAuction, acc: seq<BidId>)
    requires forall i :: 0 <= i < |acc| ==> acc[i] in au.winningBids
  {
    forall i, j | 0 <= i < j < |acc| :: au.winningBids[acc[i]].provider != au.winningBids[acc[j]].provider
  }

  /** As many proposals as accepted bids, each of an accepted bid, and no bid twice. */
  predicate ProposedOnce(acc: seq<BidId>, ps: seq<Proposal>) {
    && |ps| == |acc| && (forall i | 0 <= i < |ps| :: ps[i].bid in acc)
    && (forall i, j | 0 <= i < j < |ps| :: ps[i].bid != ps[j].bid)
  }

  /** A lookup finds a bid of the provider, if there is one on the walk. */
  lemma {:induction false} LookUpFinds(au: ClosedAuction, walk: seq<BidId>, x: BidId) returns (y: BidId)
    requires x in walk && x in au.winningBids
    ensures y in walk && y in au.winningBids && au.winningBids[y].provider == au.winningBids[x].provider
    ensures LookUp(au, walk, au.winningBids[x].provider) == ProposalOf(au, y)
    decreases |walk|
  {
    if walk[0] in au.winningBids && au.winningBids[walk[0]].provider == au.winningBids[x].provider {
      y := walk[0];
    } else {
      y := LookUpFinds(au, walk[1..], x);
    }
  }

  /** The winners of a provider are all accepted, or none of them is. */
  predicate WholeProviders(au: ClosedAuction, acc: seq<BidId>) {
    && (forall i :: 0 <= i < |acc| ==> acc[i] in au.winningBids)
    && (forall i, x | 0 <= i < |acc| && x in au.winningBids && au.winningBids[x].provider == au.winningBids[acc[i]].provider ::
          x in acc)
  }

  /** With different providers a lookup finds the bid that was accepted. */
  lemma ProposalsFit(au: ClosedAuction, acc: seq<BidId>, lookups: seq<seq<BidId>>, i: nat)
    requires WholeProviders(au, acc) && DifferentProviders(au, acc)
    requires Walks(lookups, |acc|, au.winningBids) && i < |acc|
    ensures ProposalsOf(au, acc, lookups)[i] == ProposalOf(au, acc[i])
  {
    assert Lists(lookups[i], au.winningBids.Keys) && acc[i] in au.winningBids.Keys;
    var y := LookUpFinds(au, lookups[i], acc[i]);
    assert y in acc;
    var k: nat :| k < |acc| && acc[k] == y;
    assert k == i;
  }

  /** With a provider of two accepted bids, walks that begin with the first of them propose it twice. */
  lemma ProposedTwice(au: ClosedAuction, acc: seq<BidId>, i: nat, j: nat) returns (lookups: seq<seq<BidId>>)
    requires (forall k :: 0 <= k < |acc| ==> acc[k] in au.winningBids) && i < j < |acc|
    requires au.winningBids[acc[i]].provider == au.winningBids[acc[j]].provider
    ensures Walks(lookups, |acc|, au.winningBids)
    ensures ProposalsOf(au, acc, lookups)[i] == ProposalsOf(au, acc, lookups)[j] == ProposalOf(au, acc[i])
  {
    var walk := WalkFrom(au.winningBids.Keys, acc[i]);
    lookups := seq(|acc|, _ => walk);
  }

  /** A walk that begins with a given bid. */
  lemma WalkFrom(keys: set<BidId>, x: BidId) returns (walk: seq<BidId>)
    requires x in keys
    ensures Lists(walk, keys) && walk != [] && walk[0] == x
  {
    var rest := ListAll(keys - {x});
    walk := [x] + rest;
  }

  /** The proposals of a closing, with the lookups made along given walks. */
  function ProposalsAlong(db: DB, op: OperationId, au: ClosedAuction, ch: Choices, lookups: seq<seq<BidId>>): seq<Proposal> {
    var o := BatchAuctioned(db, op, au, ch.(lookups := lookups));
    if o.Commit? then ProposalsIn(o.msgs) else []
  }

  /** What is proposed depends on the walks of the lookups; nothing else does. */
  lemma AlongWalks(db: DB, op: OperationId, au: ClosedAuction, ch: Choices, lookups: seq<seq<BidId>>)
    requires Successful(db, au) && BatchAuctioned(db, op, au, ch).Commit? && db.batches[au.batch].carUrl.Some?
    ensures ProposalsAlong(db, op, au, ch, lookups) == ProposalsOf(au, AcceptedBy(db, au, ch), lookups)
    ensures BatchAuctioned(db, op, au, ch.(lookups := lookups)).Commit?
    ensures BatchAuctioned(db, op, au, ch.(lookups := lookups)).db == BatchAuctioned(db, op, au, ch).db
  {
    var db1, ba := db.(operations := db.operations + {op}), db.batches[au.batch];
    assert GapEffect(db1, au, ba, ch.(lookups := lookups)) == GapEffect(db1, au, ba, ch);
    WonMessages(db, op, au, ch.(lookups := lookups));
  }

  lemma AcceptedWhole(db: DB, au: ClosedAuction, ch: Choices)
    requires au.batch in db.batches && Lists(ch.bidOrder, au.winningBids.Keys)
    ensures WholeProviders(au, AcceptedBy(db, au, ch))
  {
    AcceptedExactly(ch.bidOrder, au.winningBids, AuctionExclusions(db, db.batches[au.batch]));
  }

  /** If the accepted winners are of different providers, proposals and new rows correspond one to one, whatever the
      walks: each proposal carries the id, price and start epoch of the bid of its own row. */
  lemma ProposalsMatchDeals(db: DB, op: OperationId, au: ClosedAuction, ch: Choices, lookups: seq<seq<BidId>>, i: nat)
    requires Successful(db, au) && BatchAuctioned(db, op, au, ch).Commit? && db.batches[au.batch].carUrl.Some?
    requires Lists(ch.bidOrder, au.winningBids.Keys) && Walks(lookups, |AcceptedBy(db, au, ch)|, au.winningBids)
    requires DifferentProviders(au, AcceptedBy(db, au, ch)) && i < |AcceptedBy(db, au, ch)|
    ensures var ps, deals := ProposalsAlong(db, op, au, ch, lookups), BatchAuctioned(db, op, au, ch).db.deals;
            && |deals| == |db.deals| + |ps| && i < |ps|
            && ProposalFits(au, ps[i], deals[|db.deals| + i])
  {
    AlongWalks(db, op, au, ch, lookups);
    AcceptedWhole(db, au, ch);
    ProposalsFit(au, AcceptedBy(db, au, ch), lookups, i);
    ClosingSplitsWinners(db, op, au, ch);
  }

  /** Whatever the walks, accepted bids of different providers are proposed once each. */
  lemma AllProposedOnce(db: DB, op: OperationId, au: ClosedAuction, ch: Choices, lookups: seq<seq<BidId>>)
    requires Successful(db, au) && BatchAuctioned(db, op, au, ch).Commit? && db.batches[au.batch].carUrl.Some?
    requires Lists(ch.bidOrder, au.winningBids.Keys) && Walks(lookups, |AcceptedBy(db, au, ch)|, au.winningBids)
    requires DifferentProviders(au, AcceptedBy(db, au, ch))
    ensures ProposedOnce(AcceptedBy(db, au, ch), ProposalsAlong(db, op, au, ch, lookups))
  {
    var acc := AcceptedBy(db, au, ch);
    AlongWalks(db, op, au, ch, lookups);
    AcceptedWhole(db, au, ch);
    AcceptedExactly(ch.bidOrder, au.winningBids, AuctionExclusions(db, db.batches[au.batch]));
    FitsProposeOnce(au, acc, lookups);
  }

  lemma FitsProposeOnce(au: ClosedAuction, acc: seq<BidId>, lookups: seq<seq<BidId>>)
    requires WholeProviders(au, acc) && DifferentProviders(au, acc) && Walks(lookups, |acc|, au.winningBids)
    requires forall i, j :: 0 <= i < j < |acc| ==> acc[i] != acc[j]
    ensures ProposedOnce(acc, ProposalsOf(au, acc, lookups))
  {
    forall i | 0 <= i < |acc| ensures ProposalsOf(au, acc, lookups)[i] == ProposalOf(au, acc[i]) {
      ProposalsFit(au, acc, lookups, i);
    }
  }

  /** And only then: the accepted bids are proposed once each for all walks of the lookups if and only if they are
      of different providers. */
  lemma ProposedOnceIff(db: DB, op: OperationId, au: ClosedAuction, ch: Choices)
    requires Successful(db, au) && BatchAuctioned(db, op, au, ch).Commit? && db.batches[au.batch].carUrl.Some?
    requires Lists(ch.bidOrder, au.winningBids.Keys)
    ensures var acc := AcceptedBy(db, au, ch);
            (forall lookups | Walks(lookups, |acc|, au.winningBids) :: ProposedOnce(acc, ProposalsAlong(db, op, au, ch, lookups)))
            <==> DifferentProviders(au, acc)
  {
    var acc := AcceptedBy(db, au, ch);
    if DifferentProviders(au, acc) {
      forall lookups | Walks(lookups, |acc|, au.winningBids)
        ensures ProposedOnce(acc, ProposalsAlong(db, op, au, ch, lookups))
      {
        AllProposedOnce(db, op, au, ch, lookups);
      }
    } else {
      var i, j :| 0 <= i < j < |acc| && au.winningBids[acc[i]].provider == au.winningBids[acc[j]].provider;
      var lookups := ProposedTwice(au, acc, i, j);
      AlongWalks(db, op, au, ch, lookups);
      assert !ProposedOnce(acc, ProposalsAlong(db, op, au, ch, lookups));
    }
  }

  // ---------- Limits ----------

  const IPFS_ONLY := Batch(Auctioning, 1, 1, 7, Some(8), 1, None, true, 9, 1, [], "")

  /** A batch with only an IPFS source: the winner gets its deal row and no proposal is ever published. */
  lemma IpfsOnlyBatchStalls()
    ensures var db := DB(map[0 := IPFS_ONLY], map[], [], {}, []);
            var au := ClosedAuction(1, 0, 1, false, map[5 := WinningBid(4, 0, 9, true)], "");
            var o := BatchAuctioned(db, 3, au, Choices([5], [], 2, 0, 1, [[5]]));
            && o.Commit? && o.panicked && o.msgs == []
            && |o.db.deals| == 1 && Pending(o.db.deals[0]) && o.db.batches[0].status.DealMaking?
  {
    var db := DB(map[0 := IPFS_ONLY], map[], [], {}, []);
    var au := ClosedAuction(1, 0, 1, false, map[5 := WinningBid(4, 0, 9, true)], "");
    assert db.(operations := {3}).deals == [];
    assert ExcludedProviders(db.(operations := {} + {3}), Some(8), 1) == {};
    assert [5][..0] == [];
    assert AcceptedBids([], au.winningBids, {}) == [];
    assert AcceptedBids([5], au.winningBids, {}) == [5];
  }

  const TWO_REPLICAS := Batch(Auctioning, 2, 1, 7, Some(8), 1, Some(6), true, 9, 1, [], "")
  const ONE_PROVIDER := ClosedAuction(1, 0, 1, false, map[5 := WinningBid(4, 0, 9, true), 6 := WinningBid(4, 0, 9, true)], "")

  const ONE_PROVIDER_DB := DB(map[0 := TWO_REPLICAS], map[], [], {}, [])
  const SAME_WALK := Choices([5, 6], [], 2, 0, 1, [[5, 6], [5, 6]])

  lemma BothAccepted()
    ensures Lists(SAME_WALK.bidOrder, ONE_PROVIDER.winningBids.Keys)
    ensures AcceptedBy(ONE_PROVIDER_DB, ONE_PROVIDER, SAME_WALK) == [5, 6]
  {
    assert ExcludedProviders(ONE_PROVIDER_DB, Some(8), 1) == {};
    assert [5, 6][..1] == [5] && [5][..0] == [];
    assert AcceptedBids([], ONE_PROVIDER.winningBids, {}) == [];
    assert AcceptedBids([5], ONE_PROVIDER.winningBids, {}) == [5];
  }

  lemma BothCommitted()
    ensures BatchAuctioned(ONE_PROVIDER_DB, 3, ONE_PROVIDER, SAME_WALK).Commit?
  {
    var db1 := ONE_PROVIDER_DB.(operations := ONE_PROVIDER_DB.operations + {3});
    BothAccepted();
    OperationsDontExclude(ONE_PROVIDER_DB, db1.operations, TWO_REPLICAS);
    assert AddDeals(db1, ONE_PROVIDER, SAME_WALK.bidOrder).accepted == [5, 6];
    assert ONE_PROVIDER.winningBids.Keys == {5, 6} && |ONE_PROVIDER.winningBids| == |ONE_PROVIDER.winningBids.Keys|;
  }

  /** Two winning bids of one provider: both get a row, the first is proposed twice and the second never. */
  lemma OneBidProposedTwice()
    ensures var o := BatchAuctioned(ONE_PROVIDER_DB, 3, ONE_PROVIDER, SAME_WALK);
            && Lists(SAME_WALK.bidOrder, ONE_PROVIDER.winningBids.Keys)
            && o.Commit? && o.db.deals == NewDeals(ONE_PROVIDER, [5, 6])
            && ProposalsIn(o.msgs) == [ProposalOf(ONE_PROVIDER, 5), ProposalOf(ONE_PROVIDER, 5)]
  {
    BothAccepted();
    BothCommitted();
    FirstClosing(ONE_PROVIDER_DB, 3, ONE_PROVIDER, SAME_WALK, [5, 6]);
    SameBidLookedUp();
  }

  lemma SameBidLookedUp()
    ensures ProposalsOf(ONE_PROVIDER, [5, 6], [[5, 6], [5, 6]]) == [ProposalOf(ONE_PROVIDER, 5), ProposalOf(ONE_PROVIDER, 5)]
  {
    assert LookUp(ONE_PROVIDER, [5, 6], 4) == ProposalOf(ONE_PROVIDER, 5);
  }

  /** The first closing of a batch with a CAR URL. */
  lemma FirstClosing(db: DB, op: OperationId, au: ClosedAuction, ch: Choices, acc: seq<BidId>)
    requires Successful(db, au) && db.batches[au.batch].carUrl.Some? && db.deals == []
    requires BatchAuctioned(db, op, au, ch).Commit? && AcceptedBy(db, au, ch) == acc
    ensures var o := BatchAuctioned(db, op, au, ch);
            o.db.deals == NewDeals(au, acc) && ProposalsIn(o.msgs) == ProposalsOf(au, acc, ch.lookups)
  {
    AuctionClosedBatch(db, op, au, ch);
    WonMessages(db, op, au, ch);
    assert [] + NewDeals(au, acc) == NewDeals(au, acc);
  }

  /**
   For a targeted batch nothing is excluded when deals are added, so the one row per batch and provider
   that reports rely on survives a closing if and only if no winner already has a deal in the batch.
   */
  lemma TargetedRowsStayUnique(db: DB, op: OperationId, au: ClosedAuction, ch: Choices)
    requires Successful(db, au) && BatchAuctioned(db, op, au, ch).Commit?
    requires Lists(ch.bidOrder, au.winningBids.Keys) && DistinctProviders(au.winningBids)
    requires db.batches[au.batch].providers != [] && UniqueRows(db.deals)
    ensures UniqueRows(BatchAuctioned(db, op, au, ch).db.deals) <==> FreshTargets(db, au)
  {
    var acc := AcceptedBy(db, au, ch);
    AcceptedExactly(ch.bidOrder, au.winningBids, {});
    AuctionClosedBatch(db, op, au, ch);
    if FreshTargets(db, au) {
      UniqueWithNew(db.deals, au, acc);
    } else {
      var x :| x in au.winningBids && HasDeal(db.deals, au.batch, au.winningBids[x].provider);
      assert x in acc;
      RowTwice(db.deals, au, acc, x);
    }
  }

  lemma RowTwice(deals: seq<Deal>, au: ClosedAuction, acc: seq<BidId>, x: BidId)
    requires forall i :: 0 <= i < |acc| ==> acc[i] in au.winningBids
    requires x in acc && HasDeal(deals, au.batch, au.winningBids[x].provider)
    ensures !UniqueRows(deals + NewDeals(au, acc))
  {
    var rows := deals + NewDeals(au, acc);
    var k: nat :| k < |deals| && Matches(deals[k], au.batch, au.winningBids[x].provider);
    var i: nat :| i < |acc| && acc[i] == x;
    assert rows[k] == deals[k] && rows[|deals| + i] == NewDeal(au, x);
    assert Matches(rows[|deals| + i], rows[k].batch, rows[k].provider);
  }

  function RowsWith(b: BatchId, p: Provider): Deal -> nat {
    (d: Deal) => if Matches(d, b, p) then 1 else 0
  }

  /** Why one row per batch and provider matters: a report settles every row of its batch and provider. It takes
      as many deals from the pending ones as there are such rows, and confirms as many if it is a success, so that
      one report stands for one replica if and only if there is one row. */
  lemma {:induction false} ReportSettlesRows(deals: seq<Deal>, fad: FinalizedDeal)
    requires fad.errorCause != "" || fad.dealId > 0
    requires forall i | 0 <= i < |deals| && Matches(deals[i], fad.batch, fad.provider) :: Pending(deals[i])
    ensures var rows := SumOf(deals, RowsWith(fad.batch, fad.provider));
            && SumOf(UpdateDeals(deals, fad), PendingIn(fad.batch)) + rows == SumOf(deals, PendingIn(fad.batch))
            && SumOf(UpdateDeals(deals, fad), ConfirmedIn(fad.batch))
               == SumOf(deals, ConfirmedIn(fad.batch)) + if fad.errorCause == "" then rows else 0
  {
    if deals != [] {
      var init, last := deals[..|deals| - 1], deals[|deals| - 1];
      ReportSettlesRows(init, fad);
      assert UpdateDeals(deals, fad)[..|init|] == UpdateDeals(init, fad);
    }
  }
}
