/** Safety of the broker over whole runs. */
module BrokerRuns {
  import opened Prelude
  import opened BrokerModel
  import opened BrokerProtocol
  import opened BrokerShapes
  import opened BrokerSlots
  import opened BrokerRows
  import opened BrokerUnpins

  lemma StepKeepsInv(conf: Config, opOf: Naming, w: World, e: Event)
    requires OneOperationEach(opOf) && conf.dealReplication >= 1 && Inv(opOf, w) && Admissible(opOf, w, e)
    ensures Inv(opOf, Step(conf, w, e))
  {
    StepKeepsAuctions(conf, opOf, w, e);
    StepKeepsDeals(conf, opOf, w, e);
    StepKeepsOperations(conf, opOf, w, e);
    StepKeepsBatches(conf, opOf, w, e);
    StepKeepsSlots(conf, opOf, w, e);
    StepKeepsMirror(conf, opOf, w, e);
    StepKeepsProviders(conf, opOf, w, e);
    StepKeepsUnpins(conf, opOf, w, e);
  }

  lemma {:induction false} RunKeepsInv(conf: Config, opOf: Naming, w: World, es: seq<Event>)
    requires OneOperationEach(opOf) && conf.dealReplication >= 1 && Inv(opOf, w) && AdmissibleRun(conf, opOf, w, es)
    ensures Inv(opOf, Run(conf, w, es))
    decreases |es|
  {
    if es != [] {
      StepKeepsInv(conf, opOf, w, es[0]);
      RunKeepsInv(conf, opOf, Step(conf, w, es[0]), es[1..]);
    }
  }

  lemma EmptyIsOk(opOf: Naming)
    ensures Inv(opOf, EMPTY)
  {
    forall c: Cid
      ensures EndedBatches(EMPTY.db, c) == {} && StoredRequests(EMPTY.db, c) == {}
    {
    }
  }

  /**
   Replication slots are conserved. In every reachable state, the replicas being auctioned, the deals
   being made and the deals confirmed of a live or successful batch add up to its replication factor; a
   failed batch is short of it; and success means that all of them are confirmed.
   */
  lemma SlotConservation(conf: Config, opOf: Naming, es: seq<Event>, b: BatchId)
    requires OneOperationEach(opOf) && conf.dealReplication >= 1 && AdmissibleRun(conf, opOf, EMPTY, es)
    requires b in Run(conf, EMPTY, es).db.batches
    ensures var w := Run(conf, EMPTY, es);
            var ba := w.db.batches[b];
            var slots := OpenReplicas(opOf, w, b) + PendingDeals(w, b) + ConfirmedDeals(w, b);
            && (Live(ba.status) || ba.status.Success? ==> slots == ba.repFactor)
            && (ba.status.Errored? ==> slots < ba.repFactor)
            && (ba.status.Preparing? ==> slots == 0)
            && (ba.status.Success? <==> ConfirmedDeals(w, b) == ba.repFactor)
  {
    EmptyIsOk(opOf);
    RunKeepsInv(conf, opOf, EMPTY, es);
    var w := Run(conf, EMPTY, es);
    assert SlotsOk(opOf, w, b) && BatchOk(w.db.batches[b]);
  }

  // ---------- Ended batches ----------

  lemma StepKeepsEnded(conf: Config, opOf: Naming, w: World, e: Event, b: BatchId)
    requires OneOperationEach(opOf) && conf.dealReplication >= 1 && Inv(opOf, w) && Admissible(opOf, w, e)
    requires b in w.db.batches && Terminal(w.db.batches[b].status)
    ensures b in Step(conf, w, e).db.batches && Step(conf, w, e).db.batches[b] == w.db.batches[b]
  {
    if Handle(conf, w.db, e).Commit? {
      StepShape(conf, opOf, w, e);
    }
  }

  /** Success and error are final: whatever follows, the row of an ended batch stays as it is, although
      nothing checks the status before a batch is marked successful. */
  lemma {:induction false} EndedForever(conf: Config, opOf: Naming, w: World, es: seq<Event>, b: BatchId)
    requires OneOperationEach(opOf) && conf.dealReplication >= 1 && Inv(opOf, w) && AdmissibleRun(conf, opOf, w, es)
    requires b in w.db.batches && Terminal(w.db.batches[b].status)
    ensures b in Run(conf, w, es).db.batches && Run(conf, w, es).db.batches[b] == w.db.batches[b]
    decreases |es|
  {
    if es != [] {
      StepKeepsInv(conf, opOf, w, es[0]);
      StepKeepsEnded(conf, opOf, w, es[0], b);
      EndedForever(conf, opOf, Step(conf, w, es[0]), es[1..], b);
    }
  }

  lemma WinningNeverGrows(opOf: Naming, w: World, w1: World, k: nat, au: ClosedAuction, ch: Choices, b: BatchId)
    requires OneOperationEach(opOf) && DistinctAuctions(w.published) && OperationsOk(opOf, w)
    requires Asks(w.published, k, au.id) && w.published[k].auctioned == au.batch
    requires |au.winningBids| == w.published[k].replication
    requires opOf(AuctionClosing(au.id)) !in w.db.operations
    requires w1 == w.(db := w.db.(operations := w.db.operations + {opOf(AuctionClosing(au.id))}))
    requires FreshAuction(w, ch.auctionId) && Lists(ch.bidOrder, au.winningBids.Keys)
    requires au.batch in w.db.batches && Live(w.db.batches[au.batch].status)
    requires AuctionWon(w1.db, au, w.db.batches[au.batch], ch).Commit?
    ensures var o := AuctionWon(w1.db, au, w.db.batches[au.batch], ch);
            Slots(opOf, World(o.db, w.published + o.msgs), b) <= Slots(opOf, w, b)
  {
    var ba := w.db.batches[au.batch];
    GapShape(w1.db, au, ba, ch);
    GapCounts(opOf, w, w1, k, au, ch, b);
    var e := GapEffect(w1.db, au, ba, ch).value;
    TailWeighsNothing(opOf, w.published, e.msgs, DealMessages(au, ba, ch, AddDeals(w1.db, au, ch.bidOrder).accepted),
                      e.db.operations, b);
  }

  lemma ClosingNeverGrows(conf: Config, opOf: Naming, w: World, e: Event, b: BatchId)
    requires OneOperationEach(opOf) && DistinctAuctions(w.published) && OperationsOk(opOf, w) && e.AuctionClosed? && Admissible(opOf, w, e)
    ensures Slots(opOf, Step(conf, w, e), b) <= Slots(opOf, w, b)
  {
    var AuctionClosed(op, au, ch) := e;
    var o := BatchAuctioned(w.db, op, au, ch);
    if o.Commit? {
      var k: nat :| Asks(w.published, k, au.id) && w.published[k].auctioned == au.batch
        && (au.errorCause == "" ==> |au.winningBids| == w.published[k].replication);
      var w1 := w.(db := w.db.(operations := w.db.operations + {op}));
      AuctionClosedBatch(w.db, op, au, ch);
      if Live(w.db.batches[au.batch].status) && au.errorCause == "" {
        WinningNeverGrows(opOf, w, w1, k, au, ch, b);
      } else {
        RecordClosing(opOf, w, k, b);
        TailWeighsNothing(opOf, w.published, [], o.msgs, o.db.operations, b);
        assert [] + o.msgs == o.msgs && w.published + [] == w.published;
      }
    }
  }

  lemma FinalizingNeverGrows(conf: Config, opOf: Naming, w: World, e: Event, b: BatchId)
    requires OneOperationEach(opOf) && Inv(opOf, w) && e.DealFinalized? && Admissible(opOf, w, e)
    ensures Slots(opOf, Step(conf, w, e), b) <= Slots(opOf, w, b)
  {
    var DealFinalized(op, fad, ch) := e;
    if BatchFinalizedDeal(w.db, op, fad, ch).Commit? {
      var k: nat :| k < |w.db.deals| && Matches(w.db.deals[k], fad.batch, fad.provider);
      DealFinalizedBatch(w.db, op, fad, ch);
      if fad.errorCause != "" && !PastDeadline(w.db.batches[fad.batch], fad, ch.startEpoch) {
        FreshOperation(opOf, w, ch.auctionId);
        ReauctionNeverGrows(opOf, w, op, fad, ch, k, b);
      } else {
        SettlingNeverGrows(opOf, w, op, fad, ch, k, b);
      }
    }
  }

  /** A failed deal that is auctioned again gives its slot to the auction. */
  lemma ReauctionNeverGrows(opOf: Naming, w: World, op: OperationId, fad: FinalizedDeal, ch: Choices, k: nat, b: BatchId)
    requires OneOperationEach(opOf) && op == opOf(DealFinalization(fad.batch, fad.provider)) && op !in w.db.operations
    requires DealsOk(opOf, w.db) && opOf(AuctionClosing(ch.auctionId)) !in w.db.operations
    requires k < |w.db.deals| && Matches(w.db.deals[k], fad.batch, fad.provider) && fad.batch in w.db.batches
    requires fad.errorCause != "" && !PastDeadline(w.db.batches[fad.batch], fad, ch.startEpoch)
    requires BatchFinalizedDeal(w.db, op, fad, ch).Commit?
    ensures var o := BatchFinalizedDeal(w.db, op, fad, ch);
            Slots(opOf, World(o.db, w.published + o.msgs), b) <= Slots(opOf, w, b)
  {
    var ba := w.db.batches[fad.batch];
    RecordedCounts(opOf, w, op, fad, k, b);
    StartAuctionCounts(opOf, Recorded(w, op, fad), fad.batch, ba, ch.auctionId, 1, ba.pieceSize, ch.startEpoch, false, b);
  }

  /** Any other report publishes nothing. */
  lemma SettlingNeverGrows(opOf: Naming, w: World, op: OperationId, fad: FinalizedDeal, ch: Choices, k: nat, b: BatchId)
    requires OneOperationEach(opOf) && op == opOf(DealFinalization(fad.batch, fad.provider)) && op !in w.db.operations
    requires DealsOk(opOf, w.db)
    requires k < |w.db.deals| && Matches(w.db.deals[k], fad.batch, fad.provider) && fad.batch in w.db.batches
    requires fad.errorCause == "" || PastDeadline(w.db.batches[fad.batch], fad, ch.startEpoch)
    requires BatchFinalizedDeal(w.db, op, fad, ch).Commit?
    ensures var o := BatchFinalizedDeal(w.db, op, fad, ch);
            Slots(opOf, World(o.db, w.published + o.msgs), b) <= Slots(opOf, w, b)
  {
    var o := BatchFinalizedDeal(w.db, op, fad, ch);
    DealFinalizedBatch(w.db, op, fad, ch);
    RecordedCounts(opOf, w, op, fad, k, b);
    assert w.published + o.msgs == w.published;
  }

  lemma StepNeverGrows(conf: Config, opOf: Naming, w: World, e: Event, b: BatchId)
    requires OneOperationEach(opOf) && conf.dealReplication >= 1 && Inv(opOf, w) && Admissible(opOf, w, e)
    requires b in w.db.batches && !w.db.batches[b].status.Preparing?
    ensures Slots(opOf, Step(conf, w, e), b) <= Slots(opOf, w, b)
  {
    var o := Handle(conf, w.db, e);
    if e.AuctionClosed? {
      ClosingNeverGrows(conf, opOf, w, e, b);
    } else if e.DealFinalized? {
      FinalizingNeverGrows(conf, opOf, w, e, b);
    } else if o.Commit? {
      StepShape(conf, opOf, w, e);
      AskedElsewhere(conf, w, e, b);
      SumConcat(w.published, o.msgs, OpenWeight(opOf, w.db.operations, b));
      SumZero(o.msgs, OpenWeight(opOf, w.db.operations, b));
    }
  }

  /** Creations and preparations auction another batch. */
  lemma AskedElsewhere(conf: Config, w: World, e: Event, b: BatchId)
    requires b in w.db.batches && !w.db.batches[b].status.Preparing?
    requires !e.AuctionClosed? && !e.DealFinalized? && Handle(conf, w.db, e).Commit?
    ensures var msgs := Handle(conf, w.db, e).msgs;
            forall i :: 0 <= i < |msgs| && msgs[i].ReadyToAuction? ==> msgs[i].auctioned != b
  {
  }

  /** The slots of a batch never grow once it has been auctioned: in particular those a failed batch has
      lost are lost for good. */
  lemma {:induction false} SlotsNeverGrow(conf: Config, opOf: Naming, w: World, es: seq<Event>, b: BatchId)
    requires OneOperationEach(opOf) && conf.dealReplication >= 1 && Inv(opOf, w) && AdmissibleRun(conf, opOf, w, es)
    requires b in w.db.batches && !w.db.batches[b].status.Preparing?
    ensures Slots(opOf, Run(conf, w, es), b) <= Slots(opOf, w, b)
    decreases |es|
  {
    if es != [] {
      StepKeepsInv(conf, opOf, w, es[0]);
      StepNeverGrows(conf, opOf, w, es[0], b);
      if Handle(conf, w.db, es[0]).Commit? { StepShape(conf, opOf, w, es[0]); }
      SlotsNeverGrow(conf, opOf, Step(conf, w, es[0]), es[1..], b);
    }
  }

  // ---------- The rest of the invariant, over runs ----------

  /** A request of a batch mirrors it: the same stage before the end, success with success, and under a failed
      batch error exactly if it can't be rebatched. Batches with a deadline or targeted providers can't be. */
  predicate Mirrored(db: DB, r: RequestId)
    requires r in db.requests && db.requests[r].batch.Some?
  {
    && db.requests[r].batch.value in db.batches
    && var ba := db.batches[db.requests[r].batch.value]; var s := db.requests[r].status;
       && (ba.status.Preparing? <==> s.RequestPreparing?)
       && (ba.status.Auctioning? <==> s.RequestAuctioning?)
       && (ba.status.DealMaking? <==> s.RequestDealMaking?)
       && (ba.status.Success? <==> s.RequestSuccess?)
       && (ba.status.Errored? ==> s == if ba.disallowRebatching then RequestError else RequestBatching)
       && (ba.filEpochDeadline > 0 || ba.providers != [] ==> ba.disallowRebatching)
  }

  lemma MirrorsBatch(db: DB, r: RequestId)
    requires MirrorOk(db) && BatchesSane(db) && r in db.requests && db.requests[r].batch.Some?
    ensures Mirrored(db, r)
  {
    assert db.requests[r].status == Mirror(db.batches[db.requests[r].batch.value]);
    assert BatchSane(db.batches[db.requests[r].batch.value]);
  }

  /** In every run, requests mirror their batch. */
  lemma RequestsMirrorBatches(conf: Config, opOf: Naming, es: seq<Event>, r: RequestId)
    requires OneOperationEach(opOf) && conf.dealReplication >= 1 && AdmissibleRun(conf, opOf, EMPTY, es)
    requires r in Run(conf, EMPTY, es).db.requests && Run(conf, EMPTY, es).db.requests[r].batch.Some?
    ensures Mirrored(Run(conf, EMPTY, es).db, r)
  {
    EmptyIsOk(opOf);
    RunKeepsInv(conf, opOf, EMPTY, es);
    var db := Run(conf, EMPTY, es).db;
    assert BatchesSane(db) by { assert forall b | b in db.batches :: BatchOk(db.batches[b]); }
    MirrorsBatch(db, r);
  }

  /** If two deals are with one provider for one piece and origin, the later one is of a targeted batch. */
  predicate RepeatIsTargeted(db: DB, i: nat, j: nat)
    requires i < j < |db.deals|
  {
    && db.deals[i].batch in db.batches && db.deals[j].batch in db.batches
    && (db.deals[i].provider == db.deals[j].provider
        && SamePiece(db.batches[db.deals[i].batch], db.batches[db.deals[j].batch])
        ==> db.batches[db.deals[j].batch].providers != [])
  }

  /** In every run, only targeted batches repeat a provider. */
  lemma ProvidersNotRepeated(conf: Config, opOf: Naming, es: seq<Event>, i: nat, j: nat)
    requires OneOperationEach(opOf) && conf.dealReplication >= 1 && AdmissibleRun(conf, opOf, EMPTY, es)
    requires i < j < |Run(conf, EMPTY, es).db.deals|
    ensures RepeatIsTargeted(Run(conf, EMPTY, es).db, i, j)
  {
    EmptyIsOk(opOf);
    RunKeepsInv(conf, opOf, EMPTY, es);
    assert NoRepeatedProvider(Run(conf, EMPTY, es).db);
  }

  /** In every run, the unpin jobs created for a cid are one per rebatchable batch that ended with it as
      payload, and one per request with it as data that such a batch stored. */
  lemma UnpinnedOnce(conf: Config, opOf: Naming, es: seq<Event>, c: Cid)
    requires OneOperationEach(opOf) && conf.dealReplication >= 1 && AdmissibleRun(conf, opOf, EMPTY, es)
    ensures var db := Run(conf, EMPTY, es).db;
            && SumOf(db.unpins, IsJob(c, UnpinBatch)) == |EndedBatches(db, c)|
            && SumOf(db.unpins, IsJob(c, UnpinData)) == |StoredRequests(db, c)|
  {
    EmptyIsOk(opOf);
    RunKeepsInv(conf, opOf, EMPTY, es);
  }
}
