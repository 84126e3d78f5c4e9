/**
 What each handler comes to, from the fields of its message and of the rows it finds: who is excluded from an auction,
 what a message says, when a batch is given up, and what happens to its requests.
 */
module BrokerOutcomes {
  import opened Prelude
  import opened BrokerModel
  import opened BrokerProtocol
  import opened BrokerShapes
  import opened BrokerRows
  import D = DealLifecycle

  // ---------- Providers with a deal ----------

  /** Row `i` is a deal of the provider, for the piece and origin. */
  predicate HeldAt(db: DB, i: nat, piece: Cid, origin: Origin, p: Provider) {
    && i < |db.deals| && db.deals[i].provider == p && db.deals[i].batch in db.batches
    && db.batches[db.deals[i].batch].pieceCid == Some(piece) && db.batches[db.deals[i].batch].origin == origin
  }

  /** The provider has a deal for the piece and origin, successful or not. */
  ghost predicate Holds(db: DB, piece: Cid, origin: Origin, p: Provider) {
    exists i: nat :: HeldAt(db, i, piece, origin, p)
  }

  /** Exactly the providers with a deal for the batch's piece and origin are excluded. */
  ghost predicate ExcludesHolders(db: DB, ba: Batch, excluded: set<Provider>) {
    forall p :: p in excluded <==> ba.pieceCid.Some? && Holds(db, ba.pieceCid.value, ba.origin, p)
  }

  /** The batch targets providers, and each of them has a deal for its piece and origin already. */
  ghost predicate TargetsUsedUp(db: DB, ba: Batch) {
    ba.providers != [] && forall p | p in ba.providers :: ba.pieceCid.Some? && Holds(db, ba.pieceCid.value, ba.origin, p)
  }

  lemma ExcludedAreHolders(db: DB, ba: Batch)
    ensures ExcludesHolders(db, ba, ExcludedProviders(db, ba.pieceCid, ba.origin))
  {
    var excluded := ExcludedProviders(db, ba.pieceCid, ba.origin);
    forall p
      ensures p in excluded <==> ba.pieceCid.Some? && Holds(db, ba.pieceCid.value, ba.origin, p)
    {
      if p in excluded {
        var d :| d in db.deals && DealFor(db, d, ba.pieceCid.value, ba.origin) && d.provider == p;
        var i: nat :| i < |db.deals| && db.deals[i] == d;
        assert HeldAt(db, i, ba.pieceCid.value, ba.origin, p);
      }
      if ba.pieceCid.Some? && Holds(db, ba.pieceCid.value, ba.origin, p) {
        var i: nat :| HeldAt(db, i, ba.pieceCid.value, ba.origin, p);
        assert db.deals[i] in db.deals && DealFor(db, db.deals[i], ba.pieceCid.value, ba.origin);
      }
    }
  }

  /** Who holds a deal does not depend on its result, nor on the status of batches. */
  lemma SameHolders(db: DB, db': DB, piece: Cid, origin: Origin, p: Provider)
    requires |db'.deals| == |db.deals|
    requires forall i | 0 <= i < |db.deals| :: Matches(db'.deals[i], db.deals[i].batch, db.deals[i].provider)
    requires db'.batches.Keys == db.batches.Keys && forall b | b in db.batches :: SamePiece(db'.batches[b], db.batches[b])
    ensures Holds(db', piece, origin, p) <==> Holds(db, piece, origin, p)
  {
    if Holds(db, piece, origin, p) {
      var i: nat :| HeldAt(db, i, piece, origin, p);
      assert Matches(db'.deals[i], db.deals[i].batch, db.deals[i].provider);
      assert HeldAt(db', i, piece, origin, p);
    }
    if Holds(db', piece, origin, p) {
      var i: nat :| HeldAt(db', i, piece, origin, p);
      assert Matches(db'.deals[i], db.deals[i].batch, db.deals[i].provider);
      assert HeldAt(db, i, piece, origin, p);
    }
  }

  // ---------- Auctions asked for ----------

  /** The one message, for `n` replicas of the batch, with everything the auctioneer is told about it. */
  predicate AsksFor(msgs: seq<Msg>, id: AuctionId, b: BatchId, ba: Batch, n: nat, pieceSize: nat, epoch: nat) {
    && |msgs| == 1 && msgs[0].ReadyToAuction? && msgs[0].id == id && msgs[0].auctioned == b
    && msgs[0].payloadCid == ba.payloadCid && msgs[0].pieceSize == pieceSize && msgs[0].dealDuration == ba.dealDuration
    && msgs[0].replication == n && msgs[0].startEpoch == epoch && msgs[0].providers == ba.providers
  }

  /** An auction that minds the history: all holders are excluded, unless the targets are used up. Then nothing is asked
      for, and the batch is given up. */
  lemma Asked(db: DB, b: BatchId, ba: Batch, id: AuctionId, n: nat, size: nat, epoch: nat)
    ensures var r := StartAuction(db, b, ba, id, n, size, epoch, false);
            if TargetsUsedUp(db, ba) then
              if BatchError(db, b, NO_MINERS, false).None? then r.None? else r.Some? && r.value.msgs == []
                                                                             && r.value.db == BatchError(db, b, NO_MINERS, false).value
            else
              r.Some? && r.value.db == db && AsksFor(r.value.msgs, id, b, ba, n, size, epoch)
              && ExcludesHolders(db, ba, r.value.msgs[0].excluded)
  {
    ExcludedAreHolders(db, ba);
    var excluded := ExcludedProviders(db, ba.pieceCid, ba.origin);
    assert TargetsUsedUp(db, ba) <==> ba.providers != [] && forall p | p in ba.providers :: p in excluded;
  }

  // ---------- Requests ----------

  /** The requests of the batch get this status, and keep everything else; all others stay. */
  predicate RequestsMoved(requests: map<RequestId, Request>, requests': map<RequestId, Request>, b: BatchId, s: RequestStatus) {
    && requests'.Keys == requests.Keys
    && forall r | r in requests ::
         requests'[r] == if requests[r].batch == Some(b) then requests[r].(status := s) else requests[r]
  }

  /** The requests of the batch go back to batching, once more and with this cause; all others stay. */
  predicate RequestsReleased(requests: map<RequestId, Request>, requests': map<RequestId, Request>, b: BatchId, cause: string) {
    && requests'.Keys == requests.Keys
    && forall r | r in requests ::
         var q, q' := requests[r], requests'[r];
         if q.batch != Some(b) then q' == q else
         && q'.status == RequestBatching && q'.rebatchCount == q.rebatchCount + 1 && q'.errorCause == cause
         && q'.batch == q.batch && q'.dataCid == q.dataCid && q'.origin == q.origin
  }

  /** A live batch that is given up for this cause, with its requests. An ended batch stays as it is. */
  predicate GivenUp(db: DB, db': DB, b: BatchId, cause: string)
    requires b in db.batches
  {
    && b in db'.batches && db'.batches == db.batches[b := db'.batches[b]]
    && var ba, ba' := db.batches[b], db'.batches[b];
       if Live(ba.status) then
         && ba' == ba.(status := Errored, error := cause) && RequestsMoved(db.requests, db'.requests, b, RequestError)
       else ba' == ba && db'.requests == db.requests
  }

  // ---------- Reports ----------

  /** The text has the other one in it. */
  ghost predicate Mentions(s: string, sub: string) {
    exists before: string, after: string :: s == before + sub + after
  }

  lemma ContainsIsMentions(s: string, sub: string)
    ensures Contains(s, sub) <==> Mentions(s, sub)
  {
    if Contains(s, sub) {
      var i :| 0 <= i <= |s| && OccursAt(s, sub, i);
      assert s == s[..i] + sub + s[i + |sub|..];
    }
    if Mentions(s, sub) {
      var before, after :| s == before + sub + after;
      assert s[|before|..|before| + |sub|] == sub;
      assert OccursAt(s, sub, |before|);
    }
  }

  /** The rows after a report: those of its batch and provider have its result, and all others stay. */
  predicate ResultWritten(db: DB, db': DB, fad: FinalizedDeal) {
    && |db'.deals| == |db.deals|
    && forall i | 0 <= i < |db.deals| ::
         var d, d' := db.deals[i], db'.deals[i];
         if d.batch == fad.batch && d.provider == fad.provider
         then d' == Deal(d.batch, d.auction, d.bid, d.provider, fad.dealId, fad.expiration, fad.errorCause)
         else d' == d
  }

  /** The deadline of the batch, if it has one, is before the start of new proposals, and the deal was not rejected. */
  ghost predicate TooLate(ba: Batch, fad: FinalizedDeal, epoch: nat) {
    0 < ba.filEpochDeadline < epoch && !Mentions(fad.errorCause, "deal rejected")
  }

  /**
   The outcome of a failure report. Past the deadline the batch is given up, and nothing is asked for; so it is when the
   providers it targets are used up. Otherwise exactly one auction is asked for, for one replica, that excludes exactly the
   providers with a deal for the piece and origin, the one that failed included; and batch and requests stay.
   */
  lemma FailureReported(db: DB, op: OperationId, fad: FinalizedDeal, ch: Choices)
    requires BatchFinalizedDeal(db, op, fad, ch).Commit? && fad.errorCause != ""
    ensures var o := BatchFinalizedDeal(db, op, fad, ch);
            && fad.batch in db.batches && o.db.operations == db.operations + {op} && ResultWritten(db, o.db, fad) && !o.panicked
            && var ba := db.batches[fad.batch];
               if TooLate(ba, fad, ch.startEpoch) then GivenUp(db, o.db, fad.batch, DEADLINE_EXCEEDED) && o.msgs == []
               else if TargetsUsedUp(db, ba) then GivenUp(db, o.db, fad.batch, NO_MINERS) && o.msgs == []
               else
                 && o.db.batches == db.batches && o.db.requests == db.requests && o.db.unpins == db.unpins
                 && AsksFor(o.msgs, ch.auctionId, fad.batch, ba, 1, ba.pieceSize, ch.startEpoch)
                 && ExcludesHolders(o.db, ba, o.msgs[0].excluded)
                 && (ba.pieceCid.Some? ==> fad.provider in o.msgs[0].excluded)
  {
    var db1 := db.(operations := db.operations + {op}, deals := UpdateDeals(db.deals, fad));
    var ba := db.batches[fad.batch];
    ContainsIsMentions(fad.errorCause, "deal rejected");
    if !TooLate(ba, fad, ch.startEpoch) {
      Asked(db1, fad.batch, ba, ch.auctionId, 1, ba.pieceSize, ch.startEpoch);
      ReportKeepsHolders(db, db1, fad, ba);
    }
  }

  /** The report of a deal leaves the holders as they are, and its provider is one of them. */
  lemma ReportKeepsHolders(db: DB, db1: DB, fad: FinalizedDeal, ba: Batch)
    requires db1.batches == db.batches && db1.deals == UpdateDeals(db.deals, fad)
    requires HasDeal(db.deals, fad.batch, fad.provider) && fad.batch in db.batches && ba == db.batches[fad.batch]
    ensures TargetsUsedUp(db1, ba) <==> TargetsUsedUp(db, ba)
    ensures ba.pieceCid.Some? ==> Holds(db1, ba.pieceCid.value, ba.origin, fad.provider)
  {
    if ba.pieceCid.Some? {
      forall p ensures Holds(db1, ba.pieceCid.value, ba.origin, p) <==> Holds(db, ba.pieceCid.value, ba.origin, p) {
        SameHolders(db, db1, ba.pieceCid.value, ba.origin, p);
      }
      var k: nat :| k < |db.deals| && Matches(db.deals[k], fad.batch, fad.provider);
      assert HeldAt(db1, k, ba.pieceCid.value, ba.origin, fad.provider);
    }
  }

  /** The rows of the batch with a deal on chain and no error. */
  function OnChain(deals: seq<Deal>, b: BatchId): set<nat> {
    set i | 0 <= i < |deals| && deals[i].batch == b && deals[i].errorCause == "" && deals[i].dealId > 0
  }

  lemma {:induction false} ConfirmedAreOnChain(deals: seq<Deal>, b: BatchId)
    ensures SumOf(deals, ConfirmedIn(b)) == |OnChain(deals, b)|
  {
    if deals != [] {
      var init, last := deals[..|deals| - 1], deals[|deals| - 1];
      ConfirmedAreOnChain(init, b);
      assert deals == init + [last];
      OneMoreRow(init, last, b);
    }
  }

  lemma OneMoreRow(deals: seq<Deal>, d: Deal, b: BatchId)
    ensures |OnChain(deals + [d], b)| == |OnChain(deals, b)| + if d.batch == b && d.errorCause == "" && d.dealId > 0 then 1 else 0
  {
    if d.batch == b && d.errorCause == "" && d.dealId > 0 {
      assert OnChain(deals + [d], b) == OnChain(deals, b) + {|deals|};
    } else {
      assert OnChain(deals + [d], b) == OnChain(deals, b);
    }
  }

  /** The outcome of a success report: the batch and its requests succeed if and only if as many of its rows are on chain
      as it wants, and stay otherwise; nothing is asked for. */
  lemma SuccessReported(db: DB, op: OperationId, fad: FinalizedDeal, ch: Choices)
    requires BatchFinalizedDeal(db, op, fad, ch).Commit? && fad.errorCause == ""
    ensures var o := BatchFinalizedDeal(db, op, fad, ch);
            && fad.batch in db.batches && o.db.operations == db.operations + {op} && ResultWritten(db, o.db, fad) && o.msgs == [] && !o.panicked
            && var ba := db.batches[fad.batch];
               if |OnChain(o.db.deals, fad.batch)| == ba.repFactor then
                 && o.db.batches == db.batches[fad.batch := ba.(status := Success)]
                 && RequestsMoved(db.requests, o.db.requests, fad.batch, RequestSuccess)
               else o.db.batches == db.batches && o.db.requests == db.requests && o.db.unpins == db.unpins
  {
    ConfirmedAreOnChain(UpdateDeals(db.deals, fad), fad.batch);
  }

  /** A report is taken in if and only if its operation is new and there is a row for it. */
  lemma ReportTaken(opOf: Naming, db: DB, op: OperationId, fad: FinalizedDeal, ch: Choices)
    requires DealsOk(opOf, db) && BatchesSane(db)
    ensures BatchFinalizedDeal(db, op, fad, ch).Commit? <==>
            op !in db.operations && exists i :: 0 <= i < |db.deals| && db.deals[i].batch == fad.batch && db.deals[i].provider == fad.provider
  {
    if HasDeal(db.deals, fad.batch, fad.provider) {
      var k: nat :| k < |db.deals| && Matches(db.deals[k], fad.batch, fad.provider);
      assert db.deals[k].batch in db.batches && !db.batches[db.deals[k].batch].status.Preparing?;
      assert BatchSane(db.batches[fad.batch]);
    }
    if exists i :: 0 <= i < |db.deals| && db.deals[i].batch == fad.batch && db.deals[i].provider == fad.provider {
      var i :| 0 <= i < |db.deals| && db.deals[i].batch == fad.batch && db.deals[i].provider == fad.provider;
      assert Matches(db.deals[i], fad.batch, fad.provider);
    }
  }

  // ---------- Closed auctions ----------

  /** The winners that are not of a provider with a deal for the piece and origin; all of them, if providers are
      targeted. */
  ghost predicate Takes(db: DB, ba: Batch, au: ClosedAuction, x: BidId) {
    && x in au.winningBids
    && (ba.providers == [] && ba.pieceCid.Some? ==> !Holds(db, ba.pieceCid.value, ba.origin, au.winningBids[x].provider))
  }

  /** The new rows are of the bids `acc`, one each, and pending. */
  predicate RowsAdded(db: DB, db': DB, au: ClosedAuction, acc: seq<BidId>) {
    && |db'.deals| == |db.deals| + |acc| && db'.deals[..|db.deals|] == db.deals
    && forall i | 0 <= i < |acc| ::
         acc[i] in au.winningBids
         && db'.deals[|db.deals| + i] == Deal(au.batch, au.id, acc[i], au.winningBids[acc[i]].provider, 0, 0, "")
  }

  /** Exactly the bids that the closing takes get a row. */
  lemma ClosingTakes(db: DB, op: OperationId, au: ClosedAuction, ch: Choices, acc: seq<BidId>)
    requires BatchAuctioned(db, op, au, ch).Commit? && Lists(ch.bidOrder, au.winningBids.Keys)
    requires au.batch in db.batches && Live(db.batches[au.batch].status) && au.errorCause == "" && acc == AcceptedBy(db, au, ch)
    ensures RowsAdded(db, BatchAuctioned(db, op, au, ch).db, au, acc)
    ensures forall x :: x in acc <==> Takes(db, db.batches[au.batch], au, x)
    ensures Distinct(acc)
  {
    var ba := db.batches[au.batch];
    AuctionClosedBatch(db, op, au, ch);
    AcceptedExactly(ch.bidOrder, au.winningBids, AuctionExclusions(db, ba));
    ExcludedAreHolders(db, ba);
  }

  /** The message for the dealer: everything but the proposals. */
  predicate CreatesDeals(m: Msg, au: ClosedAuction, ba: Batch, dealsId: nat, n: nat) {
    && m.ReadyToCreateDeals? && m.id == dealsId && m.batch == au.batch && m.payloadCid == ba.payloadCid
    && m.pieceCid == ba.pieceCid && m.pieceSize == ba.pieceSize && m.dealDuration == au.dealDuration
    && ba.carUrl == Some(m.carUrl) && |m.proposals| == n
  }

  /** The auction for the replicas that were not taken, if any, and the deals for those that were. */
  ghost predicate WonMessages(db': DB, au: ClosedAuction, ba: Batch, ch: Choices, gap: nat, accepted: nat, msgs: seq<Msg>) {
    var asked := if gap == 0 then 0 else 1;
    var made := if accepted == 0 || ba.carUrl.None? then 0 else 1;
    && |msgs| == asked + made
    && (asked == 1 ==>
          && AsksFor(msgs[..1], ch.auctionId, au.batch, ba, gap, ba.pieceSize, ch.startEpoch)
          && ExcludesHolders(db', ba, msgs[0].excluded))
    && (made == 1 ==> CreatesDeals(msgs[asked], au, ba, ch.dealsId, accepted))
  }

  /** The holders are the same before and after the batch may be given up. */
  lemma GapHolders(db: DB, db': DB, ba: Batch)
    requires db'.deals == db.deals
    requires db'.batches.Keys == db.batches.Keys && forall b | b in db.batches :: SamePiece(db'.batches[b], db.batches[b])
    ensures TargetsUsedUp(db', ba) <==> TargetsUsedUp(db, ba)
    ensures forall excluded :: ExcludesHolders(db', ba, excluded) <==> ExcludesHolders(db, ba, excluded)
  {
    if ba.pieceCid.Some? {
      forall p ensures Holds(db', ba.pieceCid.value, ba.origin, p) <==> Holds(db, ba.pieceCid.value, ba.origin, p) {
        SameHolders(db, db', ba.pieceCid.value, ba.origin, p);
      }
    }
  }

  /** The rows, and the auction for the gap: `e` is the closing up to there. */
  lemma GapAsked(db1: DB, au: ClosedAuction, ba: Batch, ch: Choices)
    requires au.batch in db1.batches && ba == db1.batches[au.batch] && Live(ba.status) && GapEffect(db1, au, ba, ch).Some?
    ensures var e, acc := GapEffect(db1, au, ba, ch).value, AddDeals(db1, au, ch.bidOrder).accepted;
            && e.db.operations == db1.operations && RowsAdded(db1, e.db, au, acc)
            && if |acc| < |au.winningBids| && TargetsUsedUp(e.db, ba)
               then e.db.batches == db1.batches[au.batch := ba.(status := Errored, error := NO_MINERS)]
                    && RequestsMoved(db1.requests, e.db.requests, au.batch, RequestError) && e.msgs == []
               else
                 && e.db.batches == db1.batches[au.batch := ba.(status := DealMaking)] && e.db.unpins == db1.unpins
                 && (if ba.status.Auctioning? then RequestsMoved(db1.requests, e.db.requests, au.batch, RequestDealMaking)
                     else e.db.requests == db1.requests)
                 && (|acc| >= |au.winningBids| ==> e.msgs == [])
                 && (|acc| < |au.winningBids| ==>
                       && AsksFor(e.msgs, ch.auctionId, au.batch, ba, |au.winningBids| - |acc|, ba.pieceSize, ch.startEpoch)
                       && ExcludesHolders(e.db, ba, e.msgs[0].excluded))
  {
    var added := AddDeals(db1, au, ch.bidOrder);
    GapShape(db1, au, ba, ch);
    if |added.accepted| < |au.winningBids| {
      Asked(added.db, au.batch, ba, ch.auctionId, |au.winningBids| - |added.accepted|, ba.pieceSize, ch.startEpoch);
      GapHolders(added.db, GapEffect(db1, au, ba, ch).value.db, ba);
    }
  }

  /**
   The outcome of an auction with winners. With a gap, an auction is asked for that excludes exactly the providers with a
   deal for the piece and origin after the closing, those that were taken included; unless the batch targets providers
   which all have such a deal: then it is given up. Without a gap, no auction is asked for. The handler dies if and only if
   deals were taken for a batch without a CAR URL.
   */
  lemma AuctionSucceeded(db: DB, op: OperationId, au: ClosedAuction, ch: Choices)
    requires BatchAuctioned(db, op, au, ch).Commit?
    requires au.batch in db.batches && Live(db.batches[au.batch].status) && au.errorCause == ""
    ensures var o, ba, acc := BatchAuctioned(db, op, au, ch), db.batches[au.batch], AcceptedBy(db, au, ch);
            && o.db.operations == db.operations + {op} && RowsAdded(db, o.db, au, acc)
            && (o.panicked <==> acc != [] && ba.carUrl.None?)
            && if |acc| < |au.winningBids| && TargetsUsedUp(o.db, ba)
               then o.db.batches == db.batches[au.batch := ba.(status := Errored, error := NO_MINERS)]
                    && RequestsMoved(db.requests, o.db.requests, au.batch, RequestError)
                    && WonMessages(o.db, au, ba, ch, 0, |acc|, o.msgs)
               else
                 && o.db.batches == db.batches[au.batch := ba.(status := DealMaking)] && o.db.unpins == db.unpins
                 && (if ba.status.Auctioning? then RequestsMoved(db.requests, o.db.requests, au.batch, RequestDealMaking)
                     else o.db.requests == db.requests)
                 && WonMessages(o.db, au, ba, ch, if |acc| < |au.winningBids| then |au.winningBids| - |acc| else 0, |acc|, o.msgs)
  {
    var db1, ba := db.(operations := db.operations + {op}), db.batches[au.batch];
    OperationsDontExclude(db, db1.operations, ba);
    assert AddDeals(db1, au, ch.bidOrder).accepted == AcceptedBy(db, au, ch);
    GapAsked(db1, au, ba, ch);
    var e := GapEffect(db1, au, ba, ch).value;
    var tail := DealMessages(au, ba, ch, AcceptedBy(db, au, ch));
    assert e.msgs != [] ==> (e.msgs + tail)[..1] == e.msgs;
  }

  /** A closing with winners never gives its batch up: a targeted one takes all of them, and has no gap. */
  lemma ClosingNeverGivesUp(db: DB, op: OperationId, au: ClosedAuction, ch: Choices)
    requires BatchAuctioned(db, op, au, ch).Commit? && Lists(ch.bidOrder, au.winningBids.Keys)
    requires au.batch in db.batches && Live(db.batches[au.batch].status) && au.errorCause == ""
    ensures var o := BatchAuctioned(db, op, au, ch); au.batch in o.db.batches && o.db.batches[au.batch].status.DealMaking?
    ensures db.batches[au.batch].providers != [] ==> |AcceptedBy(db, au, ch)| == |au.winningBids|
  {
    var acc := AcceptedBy(db, au, ch);
    AuctionSucceeded(db, op, au, ch);
    ClosingTakes(db, op, au, ch, acc);
    if db.batches[au.batch].providers != [] {
      assert Lists(acc, au.winningBids.Keys);
      ListsSize(acc, au.winningBids.Keys);
      assert |au.winningBids| == |au.winningBids.Keys|;
    }
  }

  /** A request as it is sent to the packer. */
  predicate SentAs(requests: map<RequestId, Request>, m: Rebatched, r: RequestId) {
    r in requests && m.request == r && m.dataCid == requests[r].dataCid && m.origin == requests[r].origin
  }

  /** The outcome of an auction that failed: the batch fails with its cause. If it can be rebatched, its requests go back to
      batching, and one message sends all of them to the packer, each once. */
  lemma AuctionWasLost(db: DB, op: OperationId, au: ClosedAuction, ch: Choices)
    requires BatchAuctioned(db, op, au, ch).Commit? && Lists(ch.requestOrder, Attached(db.requests, au.batch))
    requires au.batch in db.batches && Live(db.batches[au.batch].status) && au.errorCause != ""
    ensures var o, ba := BatchAuctioned(db, op, au, ch), db.batches[au.batch];
            && o.db.operations == db.operations + {op} && o.db.deals == db.deals && !o.panicked
            && o.db.batches == db.batches[au.batch := ba.(status := Errored, error := au.errorCause)]
            && if ba.disallowRebatching then o.msgs == [] && RequestsMoved(db.requests, o.db.requests, au.batch, RequestError)
               else
                 && RequestsReleased(db.requests, o.db.requests, au.batch, au.errorCause)
                 && |o.msgs| == 1 && o.msgs[0].ReadyToBatch? && |o.msgs[0].requests| == |ch.requestOrder|
                 && (forall i | 0 <= i < |ch.requestOrder| :: SentAs(db.requests, o.msgs[0].requests[i], ch.requestOrder[i]))
  {
    assert forall i | 0 <= i < |ch.requestOrder| :: ch.requestOrder[i] in ch.requestOrder && ch.requestOrder[i] in db.requests;
  }

  /** A closing is taken in if and only if its operation is new and its batch is known and past preparation; except that a
      batch without requests can't be sent back to the packer. */
  lemma ClosingTaken(db: DB, op: OperationId, au: ClosedAuction, ch: Choices)
    requires BatchesSane(db)
    ensures BatchAuctioned(db, op, au, ch).Commit? <==>
            && op !in db.operations && au.batch in db.batches && !db.batches[au.batch].status.Preparing?
            && !(Live(db.batches[au.batch].status) && au.errorCause != "" && !db.batches[au.batch].disallowRebatching
                 && ch.requestOrder == [])
  {
    if au.batch in db.batches { assert BatchSane(db.batches[au.batch]); }
  }

  /** A closing that finds its batch ended is recorded, and nothing else. */
  lemma EndedClosing(db: DB, op: OperationId, au: ClosedAuction, ch: Choices)
    requires BatchAuctioned(db, op, au, ch).Commit? && au.batch in db.batches && Terminal(db.batches[au.batch].status)
    ensures var o := BatchAuctioned(db, op, au, ch); o.db == db.(operations := db.operations + {op}) && o.msgs == [] && !o.panicked
  {
  }

  // ---------- Creations ----------

  /** The outcome of a request for storage. */
  lemma RequestWasCreated(db: DB, id: RequestId, dataCid: Cid, origin: Origin)
    ensures var o := Create(db, id, dataCid, origin);
            && (o.Commit? <==> id !in db.requests)
            && (o.Commit? ==>
                  && !o.panicked && o.db == db.(requests := db.requests[id := Request(dataCid, origin, RequestBatching, None, 0, "")])
                  && |o.msgs| == 1 && o.msgs[0].ReadyToBatch? && |o.msgs[0].requests| == 1
                  && SentAs(o.db.requests, o.msgs[0].requests[0], id))
  {
  }

  /** The batch of a prepared CAR: what the request says, and the configured replication if it asks for none. */
  predicate AsRequested(conf: Config, pc: PreparedCar, ba: Batch) {
    && ba.status.Auctioning? && ba.error == "" && ba.disallowRebatching
    && ba.repFactor == (if pc.repFactor > 0 then pc.repFactor else conf.dealReplication) && ba.dealDuration == conf.dealDuration
    && ba.payloadCid == pc.payloadCid && ba.pieceCid == Some(pc.pieceCid) && ba.pieceSize == pc.pieceSize && ba.carUrl == pc.carUrl
    && ba.filEpochDeadline == pc.deadline && ba.origin == pc.origin && ba.providers == pc.providers
  }

  /** The outcome of a prepared CAR: one batch, one request, and one auction for all replicas. It excludes nobody if
      providers are targeted, and exactly the providers with a deal for the piece and origin otherwise. */
  lemma PreparedWasCreated(conf: Config, db: DB, r: RequestId, b: BatchId, pc: PreparedCar, ch: Choices)
    ensures var o := CreatePrepared(conf, db, r, b, pc, ch);
            && (o.Commit? <==> r !in db.requests && b !in db.batches)
            && (o.Commit? ==>
                  && !o.panicked
                  && b in o.db.batches && o.db.batches == db.batches[b := o.db.batches[b]] && AsRequested(conf, pc, o.db.batches[b])
                  && o.db.requests == db.requests[r := Request(pc.payloadCid, pc.origin, RequestAuctioning, Some(b), 0, "")]
                  && o.db.deals == db.deals && o.db.operations == db.operations && o.db.unpins == db.unpins
                  && var ba := o.db.batches[b];
                     && AsksFor(o.msgs, ch.auctionId, b, ba, ba.repFactor, pc.pieceSize, ch.startEpoch)
                     && (if pc.providers != [] then o.msgs[0].excluded == {} else ExcludesHolders(o.db, ba, o.msgs[0].excluded)))
  {
    var ba := PreparedBatch(conf, pc);
    var db1 := db.(requests := db.requests[r := Request(pc.payloadCid, pc.origin, RequestAuctioning, None, 0, "")]);
    assert (set q | q in [r] && q in db1.requests) == {r};
    if r !in db.requests && b !in db.batches {
      var db2 := CreateBatch(db1, b, ba, [r]).value;
      assert db2.requests == db.requests[r := Request(pc.payloadCid, pc.origin, RequestAuctioning, Some(b), 0, "")];
      if ba.providers != [] { assert ba.providers[0] in ba.providers; }
      ExcludedAreHolders(db2, ba);
    }
  }

  /** The batch of the packer. */
  predicate AsPacked(conf: Config, payload: Cid, carUrl: nat, origin: Origin, ba: Batch) {
    && ba.status.Preparing? && ba.error == "" && !ba.disallowRebatching && ba.filEpochDeadline == 0 && ba.providers == []
    && ba.repFactor == conf.dealReplication && ba.dealDuration == conf.dealDuration
    && ba.payloadCid == payload && ba.pieceCid.None? && ba.pieceSize == 0 && ba.carUrl == Some(carUrl) && ba.origin == origin
  }

  /** The outcome of a new batch of the packer: it takes its requests, all of them, from wherever they are. */
  lemma BatchWasCreated(conf: Config, db: DB, b: BatchId, payload: Cid, carUrl: nat, origin: Origin, ids: seq<RequestId>)
    requires Distinct(ids)
    ensures var o := CreateNewBatch(conf, db, b, payload, carUrl, origin, ids);
            && (o.Commit? <==> ids != [] && b !in db.batches && forall r | r in ids :: r in db.requests)
            && (o.Commit? ==>
                  && o.msgs == [] && !o.panicked && b in o.db.batches && o.db.batches == db.batches[b := o.db.batches[b]]
                  && AsPacked(conf, payload, carUrl, origin, o.db.batches[b])
                  && o.db.deals == db.deals && o.db.operations == db.operations && o.db.unpins == db.unpins
                  && o.db.requests.Keys == db.requests.Keys
                  && forall r | r in db.requests ::
                       o.db.requests[r] == if r in ids then db.requests[r].(status := RequestPreparing, batch := Some(b)) else db.requests[r])
  {
    var known := set r | r in ids && r in db.requests;
    AllKnown(ids, db.requests.Keys);
    assert known == set r | r in ids && r in db.requests.Keys;
  }

  /** As many known ones as there are means that all of them are known. */
  lemma AllKnown(ids: seq<RequestId>, keys: set<RequestId>)
    requires Distinct(ids)
    ensures |set r | r in ids && r in keys| <= |ids|
    ensures |set r | r in ids && r in keys| == |ids| <==> forall r | r in ids :: r in keys
  {
    var all, known := set r | r in ids, set r | r in ids && r in keys;
    assert Lists(ids, all);
    ListsSize(ids, all);
    assert all == known + (all - known);
    if |known| == |ids| { assert all - known == {}; }
    if forall r | r in ids :: r in keys { assert known == all; }
  }

  /** The outcome of a preparation. The auction is for all replicas and excludes nobody, whoever has a deal for the piece:
      the batch is read before its piece is set. The same result again changes nothing, and any other one is refused. */
  lemma BatchWasPrepared(db: DB, b: BatchId, piece: Cid, size: nat, ch: Choices)
    requires b in db.batches ==> BatchSane(db.batches[b])
    ensures var o := NewBatchPrepared(db, b, piece, size, ch);
            && (o.Commit? <==> b in db.batches
                               && var ba := db.batches[b];
                                  || (ba.status.Preparing? && ba.pieceCid.None? && ba.pieceSize == 0)
                                  || (ba.status.Auctioning? && ba.pieceCid == Some(piece) && ba.pieceSize == size))
            && (o.Commit? ==> !o.panicked)
            && (o.Commit? && !db.batches[b].status.Preparing? ==> o.db == db && o.msgs == [])
            && (o.Commit? && db.batches[b].status.Preparing? ==>
                  var ba := db.batches[b];
                  && o.db.batches == db.batches[b := ba.(status := Auctioning, pieceCid := Some(piece), pieceSize := size)]
                  && RequestsMoved(db.requests, o.db.requests, b, RequestAuctioning)
                  && o.db.deals == db.deals && o.db.operations == db.operations && o.db.unpins == db.unpins
                  && AsksFor(o.msgs, ch.auctionId, b, ba, ba.repFactor, size, ch.startEpoch) && o.msgs[0].excluded == {})
  {
  }

  /** So the first auction of a packed batch excludes the providers with a deal for its piece and origin if and only if
      there are none. */
  lemma PackedHistoryIff(opOf: Naming, db: DB, b: BatchId, piece: Cid, size: nat, ch: Choices)
    requires DealsOk(opOf, db) && b in db.batches && BatchSane(db.batches[b]) && db.batches[b].status.Preparing?
    requires db.batches[b].pieceCid.None? && db.batches[b].pieceSize == 0
    ensures var o := NewBatchPrepared(db, b, piece, size, ch);
            && o.Commit? && |o.msgs| == 1 && o.msgs[0].ReadyToAuction? && b in o.db.batches
            && (ExcludesHolders(o.db, o.db.batches[b], o.msgs[0].excluded)
                <==> forall p :: !Holds(db, piece, db.batches[b].origin, p))
  {
    var o, origin := NewBatchPrepared(db, b, piece, size, ch), db.batches[b].origin;
    BatchWasPrepared(db, b, piece, size, ch);
    forall p ensures Holds(o.db, piece, origin, p) <==> Holds(db, piece, origin, p) {
      PreparedHolders(opOf, db, o.db, b, piece, origin, p);
    }
  }

  /** A batch in preparation has no deals, so giving it a piece makes nobody a holder. */
  lemma PreparedHolders(opOf: Naming, db: DB, db': DB, b: BatchId, piece: Cid, origin: Origin, p: Provider)
    requires DealsOk(opOf, db) && b in db.batches && db.batches[b].status.Preparing?
    requires db'.deals == db.deals && b in db'.batches && db'.batches == db.batches[b := db'.batches[b]]
    ensures Holds(db', piece, origin, p) <==> Holds(db, piece, origin, p)
  {
    forall i: nat ensures HeldAt(db', i, piece, origin, p) <==> HeldAt(db, i, piece, origin, p) {
      if i < |db.deals| { assert !db.batches[db.deals[i].batch].status.Preparing?; }
    }
  }

  const SAME_PIECE := DB(map[0 := Batch(Success, 1, 1, 7, Some(8), 1, Some(6), false, 0, 1, [], ""),
                             3 := Batch(Preparing, 1, 1, 11, None, 0, Some(6), false, 0, 1, [], "")],
                         map[], [Deal(0, 10, 1, 4, 9, 9, "")], {}, [])

  /** A second batch of one piece and origin: provider 4 has a deal for it, and is not excluded. */
  lemma PackedMissesHistory()
    ensures var o := NewBatchPrepared(SAME_PIECE, 3, 8, 1, Choices([], [], 20, 0, 1, []));
            && o.Commit? && |o.msgs| == 1 && o.msgs[0].ReadyToAuction? && o.msgs[0].excluded == {}
            && Holds(o.db, 8, 1, 4)
  {
    var ch := Choices([], [], 20, 0, 1, []);
    BatchWasPrepared(SAME_PIECE, 3, 8, 1, ch);
    assert HeldAt(NewBatchPrepared(SAME_PIECE, 3, 8, 1, ch).db, 0, 8, 1, 4);
  }

  // ---------- Deals the dealer gave up ----------

  /** A deal that the dealer gave up because retries were used up counts as rejected: it is auctioned again whatever the
      deadline. One that missed its start epoch is not. */
  lemma GivenUpCauses(ba: Batch, fad: FinalizedDeal, epoch: nat)
    requires fad.errorCause in {D.MAX_RETRIES, D.UNFULFILLED}
    ensures TooLate(ba, fad, epoch) <==> fad.errorCause == D.UNFULFILLED && 0 < ba.filEpochDeadline < epoch
  {
    RetriesAreRejections();
    UnfulfilledIsNot();
  }

  lemma RetriesAreRejections()
    ensures Mentions(D.MAX_RETRIES, "deal rejected")
  {
    StartsWith("deal rejected", ": reached maximum amount of deal-making retries");
  }

  lemma StartsWith(sub: string, after: string)
    ensures Mentions(sub + after, sub)
  {
    assert sub + after == "" + sub + after;
  }

  lemma LettersOccur(s: string, sub: string, i: nat, k: nat)
    requires OccursAt(s, sub, i) && k < |sub|
    ensures sub[k] in s
  {
    assert s[i..i + |sub|][k] == s[i + k];
  }

  lemma UnfulfilledIsNot()
    ensures !Mentions(D.UNFULFILLED, "deal rejected")
  {
    var s, sub := D.UNFULFILLED, "deal rejected";
    assert 'r' !in s && sub[5] == 'r';
    if Contains(s, sub) {
      var i: nat :| i <= |s| && OccursAt(s, sub, i);
      LettersOccur(s, sub, i, 5);
    }
    ContainsIsMentions(s, sub);
  }
}
