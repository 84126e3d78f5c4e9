/** Unpin jobs: one per ended rebatchable batch and one per request it stored, and the excess over that account. */
module BrokerUnpins {
  import opened Prelude
  import opened BrokerModel
  import opened BrokerProtocol
  import opened BrokerShapes
  import opened BrokerSlots
  import opened BrokerRows

  /** Batch-unpin jobs of a cid beyond one per ended rebatchable batch with it as payload. */
  function BatchExcess(db: DB, c: Cid): int {
    SumOf(db.unpins, IsJob(c, UnpinBatch)) - |EndedBatches(db, c)|
  }

  /** Data-unpin jobs of a cid beyond one per stored request with it as data. */
  function DataExcess(db: DB, c: Cid): int {
    SumOf(db.unpins, IsJob(c, UnpinData)) - |StoredRequests(db, c)|
  }

  ghost predicate SameExcess(db: DB, db': DB) {
    forall c: Cid :: BatchExcess(db', c) == BatchExcess(db, c) && DataExcess(db', c) == DataExcess(db, c)
  }

  lemma NoExcess(db: DB)
    requires forall c: Cid :: BatchExcess(db, c) == 0 && DataExcess(db, c) == 0
    ensures UnpinsOk(db)
  {
    forall c: Cid
      ensures SumOf(db.unpins, IsJob(c, UnpinBatch)) == |EndedBatches(db, c)|
      ensures SumOf(db.unpins, IsJob(c, UnpinData)) == |StoredRequests(db, c)|
    {
      assert BatchExcess(db, c) == 0 && DataExcess(db, c) == 0;
    }
  }

  lemma SameExcessKeepsUnpins(db: DB, db': DB)
    requires SameExcess(db, db') && UnpinsOk(db)
    ensures UnpinsOk(db')
  {
    forall c: Cid ensures BatchExcess(db', c) == 0 && DataExcess(db', c) == 0 {
      assert BatchExcess(db', c) == BatchExcess(db, c) && DataExcess(db', c) == DataExcess(db, c);
    }
    NoExcess(db');
  }

  /** The jobs a batch's end creates. */
  function EndJobs(db: DB, b: BatchId, ba': Batch, order: seq<RequestId>): seq<UnpinJob>
    requires b in db.batches
  {
    var ba := db.batches[b];
    if Terminal(ba.status) || !Terminal(ba'.status) || ba.disallowRebatching then []
    else if ba'.status.Errored? then [UnpinJob(ba.payloadCid, UnpinBatch)]
    else DataJobs(db.requests, order) + [UnpinJob(ba.payloadCid, UnpinBatch)]
  }

  /** Requests keep their batch and data. */
  predicate SameRequests(db: DB, db': DB) {
    && db'.requests.Keys == db.requests.Keys
    && forall r :: r in db.requests ==>
         db'.requests[r].batch == db.requests[r].batch && db'.requests[r].dataCid == db.requests[r].dataCid
  }

  lemma BatchErrorJobs(db: DB, b: BatchId, cause: string, rebatch: bool)
    requires BatchError(db, b, cause, rebatch).Some?
    ensures var db' := BatchError(db, b, cause, rebatch).value;
            && b in db.batches && b in db'.batches && SameRequests(db, db')
            && db'.unpins == db.unpins + EndJobs(db, b, db'.batches[b], [])
  {
    var db' := BatchError(db, b, cause, rebatch).value;
    assert db.unpins + [] == db.unpins;
  }

  lemma AuctionClosedJobs(db: DB, op: OperationId, au: ClosedAuction, ch: Choices)
    requires BatchAuctioned(db, op, au, ch).Commit? && BatchesSane(db)
    ensures var o := BatchAuctioned(db, op, au, ch);
            && au.batch in db.batches && au.batch in o.db.batches && SameRequests(db, o.db)
            && o.db.unpins == db.unpins + EndJobs(db, au.batch, o.db.batches[au.batch], ch.requestOrder)
  {
    var db1 := db.(operations := db.operations + {op});
    var ba := db.batches[au.batch];
    assert db.unpins + [] == db.unpins;
    assert BatchSane(ba);
    if Live(ba.status) {
      if au.errorCause != "" {
        BatchErrorJobs(db1, au.batch, au.errorCause, !ba.disallowRebatching);
      } else {
        AuctionWonJobs(db1, au, ba, ch);
      }
    }
  }

  lemma AuctionWonJobs(db: DB, au: ClosedAuction, ba: Batch, ch: Choices)
    requires au.batch in db.batches && Live(db.batches[au.batch].status) && ba == db.batches[au.batch] && BatchSane(ba)
    requires AuctionWon(db, au, ba, ch).Commit?
    ensures var o := AuctionWon(db, au, ba, ch);
            && au.batch in o.db.batches && SameRequests(db, o.db)
            && o.db.unpins == db.unpins + EndJobs(db, au.batch, o.db.batches[au.batch], ch.requestOrder)
  {
    GapShape(db, au, ba, ch);
    var added := AddDeals(db, au, ch.bidOrder);
    var gap := |au.winningBids| - |added.accepted|;
    assert db.unpins + [] == db.unpins;
    if gap > 0 && GapEffect(db, au, ba, ch).value.msgs == [] {
      BatchErrorJobs(added.db, au.batch, NO_MINERS, false);
    }
  }

  /** The report is of a success, and with it the confirmed deals of the batch are as many as it wants. */
  predicate Completes(db: DB, fad: FinalizedDeal) {
    && fad.batch in db.batches && fad.errorCause == ""
    && SumOf(UpdateDeals(db.deals, fad), ConfirmedIn(fad.batch)) == db.batches[fad.batch].repFactor
  }

  lemma DealFinalizedJobs(db: DB, op: OperationId, fad: FinalizedDeal, ch: Choices)
    requires BatchFinalizedDeal(db, op, fad, ch).Commit?
    requires Completes(db, fad) ==> Live(db.batches[fad.batch].status)
    ensures var o := BatchFinalizedDeal(db, op, fad, ch);
            && fad.batch in db.batches && fad.batch in o.db.batches && SameRequests(db, o.db)
            && o.db.unpins == db.unpins + EndJobs(db, fad.batch, o.db.batches[fad.batch], ch.requestOrder)
  {
    var db1 := db.(operations := db.operations + {op}, deals := UpdateDeals(db.deals, fad));
    var o := BatchFinalizedDeal(db, op, fad, ch);
    assert db.unpins + [] == db.unpins;
    if fad.errorCause != "" {
      if PastDeadline(db.batches[fad.batch], fad, ch.startEpoch) {
        BatchErrorJobs(db1, fad.batch, DEADLINE_EXCEEDED, false);
      } else if o.msgs == [] {
        BatchErrorJobs(db1, fad.batch, NO_MINERS, false);
      }
    } else {
      assert forall j: UnpinJob :: (db.unpins + DataJobs(db.requests, ch.requestOrder)) + [j]
                                   == db.unpins + (DataJobs(db.requests, ch.requestOrder) + [j]);
    }
  }

  /** The requests among `xs` with this data. */
  function WithData(requests: map<RequestId, Request>, xs: set<RequestId>, c: Cid): set<RequestId> {
    set r | r in xs && r in requests && requests[r].dataCid == c
  }

  /** A listing counts the elements with a property. */
  lemma {:induction false} DataJobCount(requests: map<RequestId, Request>, order: seq<RequestId>, xs: set<RequestId>, c: Cid)
    requires Lists(order, xs) && forall r :: r in xs ==> r in requests
    ensures SumOf(DataJobs(requests, order), IsJob(c, UnpinData)) == |WithData(requests, xs, c)|
    ensures SumOf(DataJobs(requests, order), IsJob(c, UnpinBatch)) == 0
  {
    if order == [] {
      assert WithData(requests, xs, c) == {};
    } else {
      var init := order[..|order| - 1];
      var last := order[|order| - 1];
      assert order == init + [last];
      var job := UnpinJob(requests[last].dataCid, UnpinData);
      DataJobCount(requests, init, xs - {last}, c);
      assert DataJobs(requests, order) == DataJobs(requests, init) + [job];
      SumAppend(DataJobs(requests, init), job, IsJob(c, UnpinData));
      SumAppend(DataJobs(requests, init), job, IsJob(c, UnpinBatch));
      WithDataLess(requests, xs, last, c);
    }
  }

  lemma WithDataLess(requests: map<RequestId, Request>, xs: set<RequestId>, x: RequestId, c: Cid)
    requires x in xs && x in requests
    ensures |WithData(requests, xs, c)| == |WithData(requests, xs - {x}, c)| + (if requests[x].dataCid == c then 1 else 0)
  {
    var rest := WithData(requests, xs - {x}, c);
    if requests[x].dataCid == c {
      assert WithData(requests, xs, c) == rest + {x};
    } else {
      assert WithData(requests, xs, c) == rest;
    }
  }

  /** A batch keeps what its unpin jobs depend on, and what has ended stays ended. */
  predicate SameKind(ba: Batch, ba': Batch) {
    && ba'.disallowRebatching == ba.disallowRebatching && ba'.payloadCid == ba.payloadCid
    && (Terminal(ba.status) ==> Terminal(ba'.status)) && (ba.status.Success? ==> ba'.status.Success?)
  }

  /** The batch that ends is the only one to join the ended ones. */
  lemma EndedAfter(db: DB, db': DB, b: BatchId, c: Cid)
    requires b in db.batches && b in db'.batches && db'.batches == db.batches[b := db'.batches[b]]
    requires SameKind(db.batches[b], db'.batches[b])
    ensures |EndedBatches(db', c)| == |EndedBatches(db, c)|
              + (if !Terminal(db.batches[b].status) && Terminal(db'.batches[b].status) && !db.batches[b].disallowRebatching
                    && db.batches[b].payloadCid == c then 1 else 0)
  {
    if !Terminal(db.batches[b].status) && Terminal(db'.batches[b].status) && !db.batches[b].disallowRebatching
       && db.batches[b].payloadCid == c {
      assert EndedBatches(db', c) == EndedBatches(db, c) + {b};
    } else {
      assert EndedBatches(db', c) == EndedBatches(db, c);
    }
  }

  lemma StoredAfter(db: DB, db': DB, b: BatchId, c: Cid)
    requires b in db.batches && b in db'.batches && db'.batches == db.batches[b := db'.batches[b]]
    requires SameKind(db.batches[b], db'.batches[b]) && SameRequests(db, db')
    ensures |StoredRequests(db', c)| == |StoredRequests(db, c)|
              + (if !db.batches[b].status.Success? && db'.batches[b].status.Success? && !db.batches[b].disallowRebatching
                 then |WithData(db.requests, Attached(db.requests, b), c)| else 0)
  {
    if !db.batches[b].status.Success? && db'.batches[b].status.Success? && !db.batches[b].disallowRebatching {
      var joined := WithData(db.requests, Attached(db.requests, b), c);
      forall r | r in db.requests
        ensures StoredIn(db', r) <==> StoredIn(db, r) || r in Attached(db.requests, b)
        ensures !(StoredIn(db, r) && r in Attached(db.requests, b))
      {
      }
      assert StoredRequests(db', c) == StoredRequests(db, c) + joined;
      assert StoredRequests(db, c) !! joined;
    } else {
      forall r | r in db.requests ensures StoredIn(db', r) <==> StoredIn(db, r) {}
      assert StoredRequests(db', c) == StoredRequests(db, c);
    }
  }

  /** The jobs created at a batch's end are exactly the ones its end accounts for. */
  lemma JobsMatch(db: DB, db': DB, b: BatchId, order: seq<RequestId>)
    requires b in db.batches && b in db'.batches && db'.batches == db.batches[b := db'.batches[b]]
    requires Moves(db.batches[b], db'.batches[b]) && SameRequests(db, db')
    requires Lists(order, Attached(db.requests, b))
    requires db'.unpins == db.unpins + EndJobs(db, b, db'.batches[b], order)
    ensures SameExcess(db, db')
  {
    var jobs := EndJobs(db, b, db'.batches[b], order);
    forall c: Cid
      ensures BatchExcess(db', c) == BatchExcess(db, c) && DataExcess(db', c) == DataExcess(db, c)
    {
      EndedAfter(db, db', b, c);
      StoredAfter(db, db', b, c);
      SumConcat(db.unpins, jobs, IsJob(c, UnpinBatch));
      SumConcat(db.unpins, jobs, IsJob(c, UnpinData));
      EndJobCounts(db, b, db'.batches[b], order, c);
    }
  }

  lemma EndJobCounts(db: DB, b: BatchId, ba': Batch, order: seq<RequestId>, c: Cid)
    requires b in db.batches && Moves(db.batches[b], ba') && Lists(order, Attached(db.requests, b))
    ensures var ba := db.batches[b];
            var ended := !Terminal(ba.status) && Terminal(ba'.status) && !ba.disallowRebatching;
            && SumOf(EndJobs(db, b, ba', order), IsJob(c, UnpinBatch)) == (if ended && ba.payloadCid == c then 1 else 0)
            && SumOf(EndJobs(db, b, ba', order), IsJob(c, UnpinData))
               == (if ended && ba'.status.Success? then |WithData(db.requests, Attached(db.requests, b), c)| else 0)
  {
    var ba := db.batches[b];
    var last := UnpinJob(ba.payloadCid, UnpinBatch);
    DataJobCount(db.requests, order, Attached(db.requests, b), c);
    SumAppend(DataJobs(db.requests, order), last, IsJob(c, UnpinBatch));
    SumAppend(DataJobs(db.requests, order), last, IsJob(c, UnpinData));
    SumAppend([], last, IsJob(c, UnpinBatch));
    SumAppend([], last, IsJob(c, UnpinData));
    assert [] + [last] == [last];
  }

  /** What the remaining events do: no batch ends, and no request of a successful batch is touched. */
  predicate QuietShape(db: DB, db': DB) {
    && db'.unpins == db.unpins
    && (forall b | b in db.batches :: b in db'.batches && (db'.batches[b] == db.batches[b] || (db.batches[b].status.Preparing? && db'.batches[b].status.Auctioning?)))
    && (forall b | b in db'.batches && b !in db.batches :: !Terminal(db'.batches[b].status))
    && (forall r | r in db.requests ::
          && r in db'.requests && db'.requests[r].dataCid == db.requests[r].dataCid
          && (db'.requests[r].batch == db.requests[r].batch
              || (!StoredIn(db, r) && db'.requests[r].batch.Some? && db'.requests[r].batch.value !in db.batches)))
    && (forall r | r in db'.requests && r !in db.requests :: !StoredIn(db', r))
  }

  lemma QuietKeepsExcess(db: DB, db': DB)
    requires MirrorOk(db) && QuietShape(db, db')
    ensures SameExcess(db, db')
  {
    forall c: Cid
      ensures BatchExcess(db', c) == BatchExcess(db, c) && DataExcess(db', c) == DataExcess(db, c)
    {
      assert EndedBatches(db', c) == EndedBatches(db, c);
      forall r | r in db.requests
        ensures StoredIn(db', r) <==> StoredIn(db, r)
      {
      }
      assert StoredRequests(db', c) == StoredRequests(db, c);
    }
  }

  lemma BatchCreatedIsQuiet(conf: Config, db: DB, b: BatchId, payload: Cid, carUrl: nat, origin: Origin, ids: seq<RequestId>)
    requires CreateNewBatch(conf, db, b, payload, carUrl, origin, ids).Commit? && NoneStored(db, ids)
    ensures QuietShape(db, CreateNewBatch(conf, db, b, payload, carUrl, origin, ids).db)
  {
  }

  /** A new batch may take requests from other batches: the account of unpin jobs survives it if and only if none
      of them is stored already. The job of a stored request was created when its batch succeeded, and another
      one would be created when the new batch does. */
  lemma CreatedKeepsUnpins(conf: Config, db: DB, b: BatchId, payload: Cid, carUrl: nat, origin: Origin, ids: seq<RequestId>)
    requires CreateNewBatch(conf, db, b, payload, carUrl, origin, ids).Commit? && MirrorOk(db) && UnpinsOk(db)
    ensures UnpinsOk(CreateNewBatch(conf, db, b, payload, carUrl, origin, ids).db) <==> NoneStored(db, ids)
  {
    var db' := CreateNewBatch(conf, db, b, payload, carUrl, origin, ids).db;
    if NoneStored(db, ids) {
      BatchCreatedIsQuiet(conf, db, b, payload, carUrl, origin, ids);
      QuietKeepsExcess(db, db');
      SameExcessKeepsUnpins(db, db');
    } else {
      var r :| r in ids && r in db.requests && StoredIn(db, r);
      var c := db.requests[r].dataCid;
      assert db'.requests[r].batch == Some(b) && !StoredIn(db', r);
      forall x | x in StoredRequests(db', c) ensures x in StoredRequests(db, c) - {r} {
        assert x in db.requests && db'.requests[x].batch == db.requests[x].batch;
      }
      Smaller(StoredRequests(db', c), StoredRequests(db, c), r);
      assert SumOf(db.unpins, IsJob(c, UnpinData)) == |StoredRequests(db, c)|;
    }
  }

  lemma Smaller(xs: set<RequestId>, ys: set<RequestId>, r: RequestId)
    requires xs <= ys - {r} && r in ys
    ensures |xs| < |ys|
  {
    var rest := ys - {r} - xs;
    assert ys == xs + rest + {r};
  }

  lemma RequestIsQuiet(db: DB, r: RequestId, dataCid: Cid, origin: Origin)
    requires Create(db, r, dataCid, origin).Commit?
    ensures QuietShape(db, Create(db, r, dataCid, origin).db)
  {
  }

  lemma PreparedIsQuiet(conf: Config, db: DB, r: RequestId, b: BatchId, pc: PreparedCar, ch: Choices)
    requires CreatePrepared(conf, db, r, b, pc, ch).Commit? && conf.dealReplication >= 1 && MirrorOk(db)
    ensures QuietShape(db, CreatePrepared(conf, db, r, b, pc, ch).db)
  {
    PreparedCreatedBatch(conf, db, r, b, pc, ch);
  }

  lemma BatchPreparedRequests(db: DB, b: BatchId, piece: Cid, size: nat, ch: Choices)
    requires NewBatchPrepared(db, b, piece, size, ch).Commit? && BatchesSane(db)
    ensures SameRequests(db, NewBatchPrepared(db, b, piece, size, ch).db)
  {
    assert BatchSane(db.batches[b]);
  }

  lemma BatchPreparedIsQuiet(db: DB, b: BatchId, piece: Cid, size: nat, ch: Choices)
    requires NewBatchPrepared(db, b, piece, size, ch).Commit? && BatchesSane(db)
    ensures QuietShape(db, NewBatchPrepared(db, b, piece, size, ch).db)
  {
    assert BatchSane(db.batches[b]);
    BatchPreparedBatch(db, b, piece, size, ch);
    BatchPreparedRequests(db, b, piece, size, ch);
  }

  lemma QuietEvents(conf: Config, db: DB, e: Event)
    requires conf.dealReplication >= 1 && BatchesSane(db) && MirrorOk(db) && Handle(conf, db, e).Commit?
    requires !e.AuctionClosed? && !e.DealFinalized? && (e.BatchCreated? ==> NoneStored(db, e.requests))
    ensures SameExcess(db, Handle(conf, db, e).db)
  {
    match e {
      case RequestCreated(r, c, o) => RequestIsQuiet(db, r, c, o);
      case PreparedCreated(r, b, pc, ch) => PreparedIsQuiet(conf, db, r, b, pc, ch);
      case BatchCreated(b, c, u, o, ids) => BatchCreatedIsQuiet(conf, db, b, c, u, o, ids);
      case BatchPrepared(b, piece, size, ch) => BatchPreparedIsQuiet(db, b, piece, size, ch);
    }
    QuietKeepsExcess(db, Handle(conf, db, e).db);
  }

  lemma ClosingKeepsExcess(db: DB, op: OperationId, au: ClosedAuction, ch: Choices)
    requires BatchesSane(db) && BatchAuctioned(db, op, au, ch).Commit?
    requires Lists(ch.requestOrder, Attached(db.requests, au.batch))
    ensures SameExcess(db, BatchAuctioned(db, op, au, ch).db)
  {
    AuctionClosedBatch(db, op, au, ch);
    AuctionClosedJobs(db, op, au, ch);
    JobsMatch(db, BatchAuctioned(db, op, au, ch).db, au.batch, ch.requestOrder);
  }

  // ---------- Reports that complete a batch ----------

  /** It completes a rebatchable batch that has ended already. */
  predicate EndsAgain(db: DB, fad: FinalizedDeal) {
    Completes(db, fad) && Terminal(db.batches[fad.batch].status) && !db.batches[fad.batch].disallowRebatching
  }

  /** The batch-unpin jobs a report creates beyond the account. */
  function ExtraBatchJobs(db: DB, fad: FinalizedDeal, c: Cid): nat {
    if EndsAgain(db, fad) && db.batches[fad.batch].payloadCid == c then 1 else 0
  }

  /** The data-unpin jobs it creates beyond the account: none if the batch had failed, as its requests are stored only
      now. */
  function ExtraDataJobs(db: DB, fad: FinalizedDeal, c: Cid): nat {
    if EndsAgain(db, fad) && db.batches[fad.batch].status.Success?
    then |WithData(db.requests, Attached(db.requests, fad.batch), c)| else 0
  }

  /** A report that completes a batch which has ended marks it successful, and creates the jobs of a success. */
  lemma EndedAgainJobs(db: DB, op: OperationId, fad: FinalizedDeal, ch: Choices)
    requires BatchFinalizedDeal(db, op, fad, ch).Commit? && Completes(db, fad) && Terminal(db.batches[fad.batch].status)
    ensures var o := BatchFinalizedDeal(db, op, fad, ch); var ba := db.batches[fad.batch];
            && o.db.batches == db.batches[fad.batch := ba.(status := Success)] && SameRequests(db, o.db)
            && o.db.unpins == db.unpins + (if ba.disallowRebatching then []
                                           else DataJobs(db.requests, ch.requestOrder) + [UnpinJob(ba.payloadCid, UnpinBatch)])
  {
    var ba, data := db.batches[fad.batch], DataJobs(db.requests, ch.requestOrder);
    var last := UnpinJob(ba.payloadCid, UnpinBatch);
    assert (db.unpins + data) + [last] == db.unpins + (data + [last]) && db.unpins + [] == db.unpins;
  }

  lemma EndedAgainExcess(db: DB, op: OperationId, fad: FinalizedDeal, ch: Choices, c: Cid)
    requires BatchFinalizedDeal(db, op, fad, ch).Commit? && Completes(db, fad) && Terminal(db.batches[fad.batch].status)
    requires Lists(ch.requestOrder, Attached(db.requests, fad.batch))
    ensures var db' := BatchFinalizedDeal(db, op, fad, ch).db;
            && BatchExcess(db', c) == BatchExcess(db, c) + ExtraBatchJobs(db, fad, c)
            && DataExcess(db', c) == DataExcess(db, c) + ExtraDataJobs(db, fad, c)
  {
    var db', ba := BatchFinalizedDeal(db, op, fad, ch).db, db.batches[fad.batch];
    EndedAgainJobs(db, op, fad, ch);
    EndedAfter(db, db', fad.batch, c);
    StoredAfter(db, db', fad.batch, c);
    if !ba.disallowRebatching {
      var data, last := DataJobs(db.requests, ch.requestOrder), UnpinJob(ba.payloadCid, UnpinBatch);
      DataJobCount(db.requests, ch.requestOrder, Attached(db.requests, fad.batch), c);
      SuccessJobCount(db.unpins, data, last, c);
    }
  }

  lemma SuccessJobCount(unpins: seq<UnpinJob>, data: seq<UnpinJob>, last: UnpinJob, c: Cid)
    ensures SumOf(unpins + (data + [last]), IsJob(c, UnpinBatch))
            == SumOf(unpins, IsJob(c, UnpinBatch)) + SumOf(data, IsJob(c, UnpinBatch)) + IsJob(c, UnpinBatch)(last)
    ensures SumOf(unpins + (data + [last]), IsJob(c, UnpinData))
            == SumOf(unpins, IsJob(c, UnpinData)) + SumOf(data, IsJob(c, UnpinData)) + IsJob(c, UnpinData)(last)
  {
    SumConcat(unpins, data + [last], IsJob(c, UnpinBatch));
    SumConcat(unpins, data + [last], IsJob(c, UnpinData));
    SumAppend(data, last, IsJob(c, UnpinBatch));
    SumAppend(data, last, IsJob(c, UnpinData));
  }

  /** What a report does to the account of unpin jobs, whatever state its batch is in. */
  lemma FinalizingExcess(opOf: Naming, db: DB, op: OperationId, fad: FinalizedDeal, ch: Choices, c: Cid)
    requires DealsOk(opOf, db) && BatchFinalizedDeal(db, op, fad, ch).Commit?
    requires Lists(ch.requestOrder, Attached(db.requests, fad.batch))
    ensures var db' := BatchFinalizedDeal(db, op, fad, ch).db;
            && BatchExcess(db', c) == BatchExcess(db, c) + ExtraBatchJobs(db, fad, c)
            && DataExcess(db', c) == DataExcess(db, c) + ExtraDataJobs(db, fad, c)
  {
    var k: nat :| k < |db.deals| && Matches(db.deals[k], fad.batch, fad.provider);
    assert !db.batches[db.deals[k].batch].status.Preparing?;
    if Completes(db, fad) && Terminal(db.batches[fad.batch].status) {
      EndedAgainExcess(db, op, fad, ch, c);
    } else {
      FirstEndExcess(db, op, fad, ch);
    }
  }

  lemma FirstEndExcess(db: DB, op: OperationId, fad: FinalizedDeal, ch: Choices)
    requires BatchFinalizedDeal(db, op, fad, ch).Commit? && Lists(ch.requestOrder, Attached(db.requests, fad.batch))
    requires Completes(db, fad) ==> Live(db.batches[fad.batch].status)
    ensures SameExcess(db, BatchFinalizedDeal(db, op, fad, ch).db)
  {
    DealFinalizedBatch(db, op, fad, ch);
    DealFinalizedJobs(db, op, fad, ch);
    JobsMatch(db, BatchFinalizedDeal(db, op, fad, ch).db, fad.batch, ch.requestOrder);
  }

  /** The account survives a report if and only if the report does not complete a rebatchable batch that has ended
      already. */
  lemma ReportKeepsUnpins(opOf: Naming, db: DB, op: OperationId, fad: FinalizedDeal, ch: Choices)
    requires DealsOk(opOf, db) && UnpinsOk(db) && BatchFinalizedDeal(db, op, fad, ch).Commit?
    requires Lists(ch.requestOrder, Attached(db.requests, fad.batch))
    ensures UnpinsOk(BatchFinalizedDeal(db, op, fad, ch).db) <==> !EndsAgain(db, fad)
  {
    var db' := BatchFinalizedDeal(db, op, fad, ch).db;
    forall c: Cid
      ensures BatchExcess(db', c) == ExtraBatchJobs(db, fad, c) && DataExcess(db', c) == ExtraDataJobs(db, fad, c)
    {
      FinalizingExcess(opOf, db, op, fad, ch, c);
    }
    if EndsAgain(db, fad) {
      assert BatchExcess(db', db.batches[fad.batch].payloadCid) == 1;
    } else {
      NoExcess(db');
    }
  }

  // ---------- Steps ----------

  /** The report an event carries completes a rebatchable batch that has ended already. */
  predicate EventEndsAgain(conf: Config, db: DB, e: Event) {
    e.DealFinalized? && Handle(conf, db, e).Commit? && EndsAgain(db, e.fad)
  }

  /** Every other event leaves the account as it was. */
  lemma StepKeepsExcess(conf: Config, opOf: Naming, w: World, e: Event)
    requires conf.dealReplication >= 1 && BatchesSane(w.db) && MirrorOk(w.db) && DealsOk(opOf, w.db)
    requires Admissible(opOf, w, e) && !EventEndsAgain(conf, w.db, e)
    ensures SameExcess(w.db, Step(conf, w, e).db)
  {
    if Handle(conf, w.db, e).Commit? {
      match e
      case AuctionClosed(op, au, ch) => ClosingKeepsExcess(w.db, op, au, ch);
      case DealFinalized(op, fad, ch) =>
        forall c: Cid
          ensures var db' := BatchFinalizedDeal(w.db, op, fad, ch).db;
                  BatchExcess(db', c) == BatchExcess(w.db, c) && DataExcess(db', c) == DataExcess(w.db, c)
        {
          FinalizingExcess(opOf, w.db, op, fad, ch, c);
        }
      case _ => QuietEvents(conf, w.db, e);
    }
  }

  /** Unpin jobs are created once, at the end of a rebatchable batch. */
  lemma StepKeepsUnpins(conf: Config, opOf: Naming, w: World, e: Event)
    requires OneOperationEach(opOf) && conf.dealReplication >= 1 && Inv(opOf, w) && Admissible(opOf, w, e)
    ensures UnpinsOk(Step(conf, w, e).db)
  {
    if e.DealFinalized? && Handle(conf, w.db, e).Commit? { FinalizedIsLive(opOf, w, e.op, e.fad, e.ch); }
    StepKeepsExcess(conf, opOf, w, e);
    SameExcessKeepsUnpins(w.db, Step(conf, w, e).db);
  }

  // ---------- A stored request that is taken ----------

  const STORED_DB := DB(map[0 := Batch(Success, 1, 1, 7, Some(8), 1, Some(6), false, 0, 1, [], "")],
                        map[2 := Request(9, 1, RequestSuccess, Some(0), 0, "")], [Deal(0, 10, 1, 4, 9, 9, "")], {3},
                        [UnpinJob(9, UnpinData), UnpinJob(7, UnpinBatch)])
  const STORED := World(STORED_DB, [])

  lemma StoredUnpins()
    ensures UnpinsOk(STORED_DB)
  {
    forall c: Cid
      ensures SumOf(STORED_DB.unpins, IsJob(c, UnpinBatch)) == |EndedBatches(STORED_DB, c)|
      ensures SumOf(STORED_DB.unpins, IsJob(c, UnpinData)) == |StoredRequests(STORED_DB, c)|
    {
      SuccessJobCount([], [UnpinJob(9, UnpinData)], UnpinJob(7, UnpinBatch), c);
      SumAppend([], UnpinJob(9, UnpinData), IsJob(c, UnpinBatch));
      SumAppend([], UnpinJob(9, UnpinData), IsJob(c, UnpinData));
      assert [] + ([UnpinJob(9, UnpinData)] + [UnpinJob(7, UnpinBatch)]) == STORED_DB.unpins;
      assert [] + [UnpinJob(9, UnpinData)] == [UnpinJob(9, UnpinData)];
      assert EndedBatches(STORED_DB, c) == if c == 7 then {0} else {};
      assert StoredRequests(STORED_DB, c) == if c == 9 then {2} else {};
    }
  }

  lemma StoredSlots(opOf: Naming)
    ensures SlotsOk(opOf, STORED, 0)
  {
    SumZero(STORED_DB.deals, PendingIn(0));
    SumOnes(STORED_DB.deals, ConfirmedIn(0));
  }

  lemma StoredInv(opOf: Naming)
    requires OneOperationEach(opOf) && opOf(DealFinalization(0, 4)) == 3
    ensures Inv(opOf, STORED)
  {
    assert Matches(STORED_DB.deals[0], 0, 4) && Known(STORED, DealFinalization(0, 4));
    StoredSlots(opOf);
    StoredUnpins();
  }

  /** A request that was sent to the packer twice: its first batch has succeeded, and the second one takes it. */
  lemma StoredRequestTaken(conf: Config, opOf: Naming)
    requires OneOperationEach(opOf) && opOf(DealFinalization(0, 4)) == 3
    ensures Inv(opOf, STORED)
    ensures var o := CreateNewBatch(conf, STORED_DB, 3, 11, 6, 1, [2]); o.Commit? && !UnpinsOk(o.db)
  {
    StoredInv(opOf);
    assert (set r | r in [2] && r in STORED_DB.requests) == {2};
    assert 2 in [2] && StoredIn(STORED_DB, 2);
    CreatedKeepsUnpins(conf, STORED_DB, 3, 11, 6, 1, [2]);
  }
}
