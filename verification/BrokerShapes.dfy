/** What each handler can do to the batch it is about, and what it can publish. */
module BrokerShapes {
  import opened Prelude
  import opened BrokerModel
  import opened BrokerProtocol

  lemma BatchErrorKeeps(db: DB, b: BatchId, cause: string, rebatch: bool)
    requires BatchError(db, b, cause, rebatch).Some?
    ensures var db' := BatchError(db, b, cause, rebatch).value;
            && db'.deals == db.deals && db'.operations == db.operations
            && b in db.batches
            && db'.batches == (if Live(db.batches[b].status)
                               then db.batches[b := db.batches[b].(status := Errored, error := cause)]
                               else db.batches)
  {
  }

  /** The gap auction is published, unless there is no gap or the batch is moved to error instead. */
  lemma GapShape(db: DB, au: ClosedAuction, ba: Batch, ch: Choices)
    requires au.batch in db.batches && Live(db.batches[au.batch].status) && ba == db.batches[au.batch]
    requires GapEffect(db, au, ba, ch).Some?
    ensures var e := GapEffect(db, au, ba, ch).value;
            var added := AddDeals(db, au, ch.bidOrder);
            var gap := |au.winningBids| - |added.accepted|;
            var lost := gap > 0 && e.msgs == [];
            && e.db.deals == added.db.deals && e.db.operations == db.operations
            && e.db.batches == db.batches[au.batch := ba.(status := if lost then Errored else DealMaking,
                                                          error := if lost then NO_MINERS else ba.error)]
            && (gap <= 0 ==> e.msgs == [])
            && (e.msgs == [] || (|e.msgs| == 1 && e.msgs[0].ReadyToAuction? && e.msgs[0].id == ch.auctionId
                                 && e.msgs[0].auctioned == au.batch && e.msgs[0].replication == gap))
  {
  }

  predicate MovesTo(ba: Batch, ba': Batch, s: BatchStatus) {
    ba' == ba.(status := s, error := ba'.error) && (s != Errored ==> ba'.error == ba.error)
  }

  lemma OperationsDontExclude(db: DB, ops: set<OperationId>, ba: Batch)
    ensures AuctionExclusions(db.(operations := ops), ba) == AuctionExclusions(db, ba)
  {
    if ba.pieceCid.Some? {
      assert forall d :: DealFor(db.(operations := ops), d, ba.pieceCid.value, ba.origin)
                         == DealFor(db, d, ba.pieceCid.value, ba.origin);
    }
  }

  /** The bids a closing accepts. */
  function AcceptedBy(db: DB, au: ClosedAuction, ch: Choices): seq<BidId>
    requires au.batch in db.batches
  {
    AcceptedBids(ch.bidOrder, au.winningBids, AuctionExclusions(db, db.batches[au.batch]))
  }

  lemma AuctionWonBatch(db: DB, db1: DB, au: ClosedAuction, ch: Choices)
    requires au.batch in db.batches && Live(db.batches[au.batch].status)
    requires db1 == db.(operations := db1.operations)
    requires AuctionWon(db1, au, db.batches[au.batch], ch).Commit?
    ensures var o := AuctionWon(db1, au, db.batches[au.batch], ch);
            && o.db.operations == db1.operations
            && o.db.deals == db.deals + NewDeals(au, AcceptedBy(db, au, ch))
            && au.batch in o.db.batches
            && o.db.batches == db.batches[au.batch := o.db.batches[au.batch]]
            && (MovesTo(db.batches[au.batch], o.db.batches[au.batch], DealMaking)
                || MovesTo(db.batches[au.batch], o.db.batches[au.batch], Errored))
            && OneAuctionAsked(o.db, o.msgs, ch.auctionId)
  {
    OperationsDontExclude(db, db1.operations, db.batches[au.batch]);
    GapShape(db1, au, db.batches[au.batch], ch);
  }

  /** At most one auction is asked for in a step, under the id drawn for it. */
  predicate OneAuctionAsked(db: DB, msgs: seq<Msg>, id: AuctionId) {
    forall i | 0 <= i < |msgs| && msgs[i].ReadyToAuction? ::
      i == 0 && msgs[i].id == id && msgs[i].replication >= 1 && msgs[i].auctioned in db.batches
  }

  /** A closing leaves an ended batch alone; it moves a live one to deal making, with rows for the
      accepted winners, or to error. */
  predicate ClosedShape(db: DB, op: OperationId, au: ClosedAuction, ch: Choices, db': DB, msgs: seq<Msg>) {
    && op !in db.operations && db'.operations == db.operations + {op}
    && au.batch in db.batches && au.batch in db'.batches
    && db'.batches == db.batches[au.batch := db'.batches[au.batch]]
    && OneAuctionAsked(db', msgs, ch.auctionId)
    && var ba := db.batches[au.batch]; var ba' := db'.batches[au.batch];
       && !ba.status.Preparing?
       && (Terminal(ba.status) ==> ba' == ba && db'.deals == db.deals && msgs == [])
       && (Live(ba.status) && au.errorCause != "" ==> MovesTo(ba, ba', Errored) && db'.deals == db.deals)
       && (Live(ba.status) && au.errorCause == "" ==>
             && (MovesTo(ba, ba', DealMaking) || MovesTo(ba, ba', Errored))
             && db'.deals == db.deals + NewDeals(au, AcceptedBy(db, au, ch)))
  }

  lemma AuctionClosedBatch(db: DB, op: OperationId, au: ClosedAuction, ch: Choices)
    requires BatchAuctioned(db, op, au, ch).Commit?
    ensures var o := BatchAuctioned(db, op, au, ch);
            ClosedShape(db, op, au, ch, o.db, o.msgs)
  {
    var db1 := db.(operations := db.operations + {op});
    var ba := db.batches[au.batch];
    if Live(ba.status) {
      if au.errorCause != "" {
        BatchErrorKeeps(db1, au.batch, au.errorCause, !ba.disallowRebatching);
      } else {
        AuctionWonBatch(db, db1, au, ch);
      }
    }
  }

  /** A finalized deal moves its batch at most to error, if it is live, or to success. */
  predicate FinalizedShape(db: DB, op: OperationId, fad: FinalizedDeal, ch: Choices, db': DB, msgs: seq<Msg>) {
    && op !in db.operations && db'.operations == db.operations + {op}
    && HasDeal(db.deals, fad.batch, fad.provider) && db'.deals == UpdateDeals(db.deals, fad)
    && fad.batch in db.batches && fad.batch in db'.batches
    && db'.batches == db.batches[fad.batch := db'.batches[fad.batch]]
    && OneAuctionAsked(db', msgs, ch.auctionId)
    && var ba := db.batches[fad.batch]; var ba' := db'.batches[fad.batch];
       || ba' == ba
       || (Live(ba.status) && fad.errorCause != "" && MovesTo(ba, ba', Errored))
       || (fad.errorCause == "" && MovesTo(ba, ba', Success)
           && SumOf(UpdateDeals(db.deals, fad), ConfirmedIn(fad.batch)) == ba.repFactor)
  }

  lemma DealFinalizedBatch(db: DB, op: OperationId, fad: FinalizedDeal, ch: Choices)
    requires BatchFinalizedDeal(db, op, fad, ch).Commit?
    ensures var o := BatchFinalizedDeal(db, op, fad, ch);
            FinalizedShape(db, op, fad, ch, o.db, o.msgs)
  {
    var db1 := db.(operations := db.operations + {op}, deals := UpdateDeals(db.deals, fad));
    var ba := db.batches[fad.batch];
    if fad.errorCause != "" {
      if PastDeadline(ba, fad, ch.startEpoch) {
        BatchErrorKeeps(db1, fad.batch, DEADLINE_EXCEEDED, false);
      } else if BatchError(db1, fad.batch, NO_MINERS, false).Some? {
        BatchErrorKeeps(db1, fad.batch, NO_MINERS, false);
      }
    }
  }

  /** A prepared batch gets its piece and is auctioned, once. */
  lemma BatchPreparedBatch(db: DB, b: BatchId, piece: Cid, size: nat, ch: Choices)
    requires NewBatchPrepared(db, b, piece, size, ch).Commit?
    requires b in db.batches && db.batches[b].status.Preparing? ==> db.batches[b].providers == [] && db.batches[b].repFactor >= 1
    ensures var o := NewBatchPrepared(db, b, piece, size, ch);
            && o.db.operations == db.operations && o.db.deals == db.deals && o.db.unpins == db.unpins
            && b in db.batches && b in o.db.batches
            && o.db.batches == db.batches[b := o.db.batches[b]]
            && OneAuctionAsked(o.db, o.msgs, ch.auctionId)
            && var ba := db.batches[b]; var ba' := o.db.batches[b];
               if ba.status.Preparing? then ba' == ba.(status := Auctioning, pieceCid := Some(piece), pieceSize := size)
               else ba.status.Auctioning? && o.db == db && o.msgs == []
  {
  }

  lemma PreparedCreatedBatch(conf: Config, db: DB, r: RequestId, b: BatchId, pc: PreparedCar, ch: Choices)
    requires CreatePrepared(conf, db, r, b, pc, ch).Commit? && conf.dealReplication >= 1
    ensures var o := CreatePrepared(conf, db, r, b, pc, ch);
            && o.db.operations == db.operations && o.db.deals == db.deals && o.db.unpins == db.unpins
            && b !in db.batches && o.db.batches == db.batches[b := PreparedBatch(conf, pc)]
            && OneAuctionAsked(o.db, o.msgs, ch.auctionId)
            && r !in db.requests
            && o.db.requests == db.requests[r := Request(pc.payloadCid, pc.origin, RequestAuctioning, Some(b), 0, "")]
  {
    var ba := PreparedBatch(conf, pc);
    if ba.providers != [] { assert ba.providers[0] in ba.providers; }
  }
}
