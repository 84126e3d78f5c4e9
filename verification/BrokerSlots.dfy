/** Slot accounting, step by step: how each change to the tables or the log moves the three counts. */
module BrokerSlots {
  import opened Prelude
  import opened BrokerModel
  import opened BrokerProtocol
  import opened BrokerShapes

  // ---------- How single changes move the counts ----------

  /** An auction id that was never published names an operation that was never recorded. */
  lemma FreshOperation(opOf: Naming, w: World, id: AuctionId)
    requires OneOperationEach(opOf) && OperationsOk(opOf, w) && FreshAuction(w, id)
    ensures opOf(AuctionClosing(id)) !in w.db.operations
  {
  }

  /** Recording the closing of auction `k` frees its replicas and no others. */
  lemma RecordClosing(opOf: Naming, w: World, k: nat, b: BatchId)
    requires OneOperationEach(opOf) && DistinctAuctions(w.published)
    requires k < |w.published| && w.published[k].ReadyToAuction?
    ensures var m := w.published[k];
            var op := opOf(AuctionClosing(m.id));
            SumOf(w.published, OpenWeight(opOf, w.db.operations + {op}, b))
              + (if m.auctioned == b && op !in w.db.operations then m.replication else 0)
            == OpenReplicas(opOf, w, b)
  {
    var m := w.published[k];
    var ops' := w.db.operations + {opOf(AuctionClosing(m.id))};
    SumChangeAt(w.published, w.published, OpenWeight(opOf, w.db.operations, b), OpenWeight(opOf, ops', b), k);
  }

  /** Recording an operation that closes no auction of the log leaves the open replicas alone. */
  lemma RecordOther(opOf: Naming, w: World, op: OperationId, b: BatchId)
    requires forall i | 0 <= i < |w.published| && w.published[i].ReadyToAuction? ::
               opOf(AuctionClosing(w.published[i].id)) != op
    ensures SumOf(w.published, OpenWeight(opOf, w.db.operations + {op}, b)) == OpenReplicas(opOf, w, b)
  {
    SumAgree(w.published, w.published, OpenWeight(opOf, w.db.operations, b),
             OpenWeight(opOf, w.db.operations + {op}, b));
  }

  lemma PublishOne(opOf: Naming, published: seq<Msg>, ops: set<OperationId>, m: Msg, b: BatchId)
    ensures SumOf(published + [m], OpenWeight(opOf, ops, b))
            == SumOf(published, OpenWeight(opOf, ops, b)) + OpenWeight(opOf, ops, b)(m)
  {
    SumAppend(published, m, OpenWeight(opOf, ops, b));
  }

  /** New rows are pending. */
  lemma AddRows(deals: seq<Deal>, au: ClosedAuction, bids: seq<BidId>, b: BatchId)
    requires forall i :: 0 <= i < |bids| ==> bids[i] in au.winningBids
    ensures SumOf(deals + NewDeals(au, bids), PendingIn(b))
            == SumOf(deals, PendingIn(b)) + if b == au.batch then |bids| else 0
    ensures SumOf(deals + NewDeals(au, bids), ConfirmedIn(b)) == SumOf(deals, ConfirmedIn(b))
  {
    var rows := NewDeals(au, bids);
    SumConcat(deals, rows, PendingIn(b));
    SumConcat(deals, rows, ConfirmedIn(b));
    SumZero(rows, ConfirmedIn(b));
    if b == au.batch {
      SumOnes(rows, PendingIn(b));
    } else {
      SumZero(rows, PendingIn(b));
    }
  }

  /** With one row per batch and provider, an update rewrites exactly that row. */
  lemma UpdateOneRow(deals: seq<Deal>, fad: FinalizedDeal, k: nat, b: BatchId)
    requires UniqueRows(deals) && k < |deals| && Matches(deals[k], fad.batch, fad.provider)
    ensures var rows := UpdateDeals(deals, fad);
            && SumOf(rows, PendingIn(b)) + PendingIn(b)(deals[k]) == SumOf(deals, PendingIn(b)) + PendingIn(b)(rows[k])
            && SumOf(rows, ConfirmedIn(b)) + ConfirmedIn(b)(deals[k])
               == SumOf(deals, ConfirmedIn(b)) + ConfirmedIn(b)(rows[k])
  {
    var rows := UpdateDeals(deals, fad);
    forall i | 0 <= i < |deals| && i != k
      ensures rows[i] == deals[i]
    {
      if i < k { assert !Matches(deals[k], deals[i].batch, deals[i].provider); }
      else { assert !Matches(deals[i], deals[k].batch, deals[k].provider); }
    }
    SumChangeAt(deals, rows, PendingIn(b), PendingIn(b), k);
    SumChangeAt(deals, rows, ConfirmedIn(b), ConfirmedIn(b), k);
  }

  // ---------- Steps ----------

  /** The three counts of a batch. */
  datatype Counts = Counts(open: nat, pending: nat, confirmed: nat)

  function CountsOf(opOf: Naming, w: World, b: BatchId): Counts {
    Counts(OpenReplicas(opOf, w, b), PendingDeals(w, b), ConfirmedDeals(w, b))
  }

  /** What starting an auction does to the counts: adds its replicas, or moves a live batch to error. */
  lemma StartAuctionCounts(opOf: Naming, w: World, b: BatchId, ba: Batch, id: AuctionId, n: nat, size: nat, epoch: nat,
                           ignore: bool, x: BatchId)
    requires opOf(AuctionClosing(id)) !in w.db.operations
    requires StartAuction(w.db, b, ba, id, n, size, epoch, ignore).Some?
    ensures var e := StartAuction(w.db, b, ba, id, n, size, epoch, ignore).value;
            var w' := World(e.db, w.published + e.msgs);
            && e.db.deals == w.db.deals && e.db.operations == w.db.operations
            && (e.msgs == [] ==> ba.providers != [] && BatchError(w.db, b, NO_MINERS, false) == Some(e.db)
                                 && CountsOf(opOf, w', x) == CountsOf(opOf, w, x))
            && (e.msgs != [] ==> e.db == w.db && |e.msgs| == 1 && e.msgs[0].ReadyToAuction? && e.msgs[0].id == id
                                 && e.msgs[0].auctioned == b && e.msgs[0].replication == n
                                 && CountsOf(opOf, w', x) ==
                                    CountsOf(opOf, w, x).(open := OpenReplicas(opOf, w, x) + if x == b then n else 0))
  {
    var e := StartAuction(w.db, b, ba, id, n, size, epoch, ignore).value;
    if e.msgs == [] {
      assert w.published + e.msgs == w.published;
    } else {
      PublishOne(opOf, w.published, w.db.operations, e.msgs[0], x);
      assert w.published + e.msgs == w.published + [e.msgs[0]];
    }
  }

  /** A failed auction takes its replicas out of a batch that is moved to error. */
  lemma AuctionFailedSlots(opOf: Naming, w: World, w1: World, k: nat, au: ClosedAuction, ch: Choices)
    requires OneOperationEach(opOf) && AuctionsOk(w) && AllSlotsOk(opOf, w)
    requires Asks(w.published, k, au.id) && w.published[k].auctioned == au.batch
    requires opOf(AuctionClosing(au.id)) !in w.db.operations
    requires w1 == w.(db := w.db.(operations := w.db.operations + {opOf(AuctionClosing(au.id))}))
    requires au.batch in w.db.batches && Live(w.db.batches[au.batch].status)
    requires AuctionFailed(w1.db, au, w.db.batches[au.batch], ch).Commit?
    ensures var o := AuctionFailed(w1.db, au, w.db.batches[au.batch], ch);
            AllSlotsOk(opOf, World(o.db, w.published + o.msgs))
  {
    var ba := w.db.batches[au.batch];
    var o := AuctionFailed(w1.db, au, ba, ch);
    var w' := World(o.db, w.published + o.msgs);
    BatchErrorKeeps(w1.db, au.batch, au.errorCause, !ba.disallowRebatching);
    forall b | b in w'.db.batches
      ensures SlotsOk(opOf, w', b)
    {
      RecordClosing(opOf, w, k, b);
      SumConcat(w.published, o.msgs, OpenWeight(opOf, o.db.operations, b));
      SumZero(o.msgs, OpenWeight(opOf, o.db.operations, b));
      assert SlotsOk(opOf, w, b);
    }
  }

  /** The accepted winners become pending deals and the rest is auctioned again: no slot is lost, unless
      the gap can't be auctioned and the batch is moved to error. */
  lemma GapCounts(opOf: Naming, w: World, w1: World, k: nat, au: ClosedAuction, ch: Choices, b: BatchId)
    requires OneOperationEach(opOf) && DistinctAuctions(w.published) && OperationsOk(opOf, w)
    requires Asks(w.published, k, au.id) && w.published[k].auctioned == au.batch
    requires |au.winningBids| == w.published[k].replication
    requires opOf(AuctionClosing(au.id)) !in w.db.operations
    requires w1 == w.(db := w.db.(operations := w.db.operations + {opOf(AuctionClosing(au.id))}))
    requires FreshAuction(w, ch.auctionId) && Lists(ch.bidOrder, au.winningBids.Keys)
    requires au.batch in w.db.batches && GapEffect(w1.db, au, w.db.batches[au.batch], ch).Some?
    ensures var e := GapEffect(w1.db, au, w.db.batches[au.batch], ch).value;
            var w' := World(e.db, w.published + e.msgs);
            var gap := |au.winningBids| - |AddDeals(w1.db, au, ch.bidOrder).accepted|;
            && ConfirmedDeals(w', b) == ConfirmedDeals(w, b)
            && gap >= 0
            && Slots(opOf, w', b) + (if b == au.batch && e.msgs == [] then gap else 0) == Slots(opOf, w, b)
  {
    var ba := w.db.batches[au.batch];
    var added := AddDeals(w1.db, au, ch.bidOrder);
    var w2 := World(added.db, w.published);
    ListsSize(ch.bidOrder, au.winningBids.Keys);
    var gap := |au.winningBids| - |added.accepted|;
    var e := GapEffect(w1.db, au, ba, ch).value;
    RecordClosing(opOf, w, k, b);
    AddRows(w.db.deals, au, added.accepted, b);
    if gap > 0 {
      FreshOperation(opOf, w, ch.auctionId);
      StartAuctionCounts(opOf, w2, au.batch, ba, ch.auctionId, gap, ba.pieceSize, ch.startEpoch, false, b);
    } else {
      assert w.published + e.msgs == w.published;
    }
  }

  lemma AuctionWonSlots(opOf: Naming, w: World, w1: World, k: nat, au: ClosedAuction, ch: Choices)
    requires OneOperationEach(opOf) && AuctionsOk(w) && AllSlotsOk(opOf, w) && OperationsOk(opOf, w)
    requires Asks(w.published, k, au.id) && w.published[k].auctioned == au.batch
    requires |au.winningBids| == w.published[k].replication
    requires opOf(AuctionClosing(au.id)) !in w.db.operations
    requires w1 == w.(db := w.db.(operations := w.db.operations + {opOf(AuctionClosing(au.id))}))
    requires FreshAuction(w, ch.auctionId) && Lists(ch.bidOrder, au.winningBids.Keys)
    requires au.batch in w.db.batches && Live(w.db.batches[au.batch].status)
    requires AuctionWon(w1.db, au, w.db.batches[au.batch], ch).Commit?
    ensures var o := AuctionWon(w1.db, au, w.db.batches[au.batch], ch);
            AllSlotsOk(opOf, World(o.db, w.published + o.msgs))
  {
    var ba := w.db.batches[au.batch];
    var o := AuctionWon(w1.db, au, ba, ch);
    var w' := World(o.db, w.published + o.msgs);
    GapShape(w1.db, au, ba, ch);
    var e := GapEffect(w1.db, au, ba, ch).value;
    var tail := DealMessages(au, ba, ch, AddDeals(w1.db, au, ch.bidOrder).accepted);
    forall b | b in w'.db.batches
      ensures SlotsOk(opOf, w', b)
    {
      GapCounts(opOf, w, w1, k, au, ch, b);
      TailWeighsNothing(opOf, w.published, e.msgs, tail, o.db.operations, b);
      assert SlotsOk(opOf, w, b);
    }
  }

  /** Messages that ask for no auction weigh nothing. */
  lemma TailWeighsNothing(opOf: Naming, published: seq<Msg>, ms: seq<Msg>, tail: seq<Msg>, ops: set<OperationId>, b: BatchId)
    requires forall i :: 0 <= i < |tail| ==> !tail[i].ReadyToAuction?
    ensures SumOf(published + (ms + tail), OpenWeight(opOf, ops, b)) == SumOf(published + ms, OpenWeight(opOf, ops, b))
  {
    assert published + (ms + tail) == (published + ms) + tail;
    SumConcat(published + ms, tail, OpenWeight(opOf, ops, b));
    SumZero(tail, OpenWeight(opOf, ops, b));
  }

  /** A closing that finds its batch ended is only recorded. */
  lemma EndedClosingSlots(opOf: Naming, w: World, w1: World, k: nat)
    requires OneOperationEach(opOf) && DistinctAuctions(w.published) && AllSlotsOk(opOf, w)
    requires k < |w.published| && w.published[k].ReadyToAuction?
    requires opOf(AuctionClosing(w.published[k].id)) !in w.db.operations
    requires w.published[k].auctioned in w.db.batches && Terminal(w.db.batches[w.published[k].auctioned].status)
    requires w1 == w.(db := w.db.(operations := w.db.operations + {opOf(AuctionClosing(w.published[k].id))}))
    ensures AllSlotsOk(opOf, w1)
  {
    forall b | b in w.db.batches
      ensures SlotsOk(opOf, w1, b)
    {
      RecordClosing(opOf, w, k, b);
      assert SlotsOk(opOf, w, b);
    }
  }

  lemma AuctionClosedSlots(conf: Config, opOf: Naming, w: World, e: Event)
    requires OneOperationEach(opOf) && Inv(opOf, w) && e.AuctionClosed? && Admissible(opOf, w, e)
    ensures AllSlotsOk(opOf, Step(conf, w, e))
  {
    var AuctionClosed(op, au, ch) := e;
    var k: nat :| Asks(w.published, k, au.id) && w.published[k].auctioned == au.batch
      && (au.errorCause == "" ==> |au.winningBids| == w.published[k].replication);
    var w1 := w.(db := w.db.(operations := w.db.operations + {op}));
    if op !in w.db.operations && BatchAuctioned(w.db, op, au, ch).Commit? {
      var ba := w.db.batches[au.batch];
      assert SlotsOk(opOf, w, au.batch);
      if Live(ba.status) {
        if au.errorCause != "" {
          AuctionFailedSlots(opOf, w, w1, k, au, ch);
        } else {
          AuctionWonSlots(opOf, w, w1, k, au, ch);
        }
      } else {
        assert w1 == Step(conf, w, e) by { assert w.published + [] == w.published; }
        EndedClosingSlots(opOf, w, w1, k);
      }
    }
  }

  /** The world after a finalized deal is recorded and its row written, before the handler acts on it. */
  function Recorded(w: World, op: OperationId, fad: FinalizedDeal): World {
    w.(db := w.db.(operations := w.db.operations + {op}, deals := UpdateDeals(w.db.deals, fad)))
  }

  /** Recording a result moves one pending deal: to confirmed, or out of the accounting. */
  lemma RecordedCounts(opOf: Naming, w: World, op: OperationId, fad: FinalizedDeal, k: nat, b: BatchId)
    requires OneOperationEach(opOf) && op == opOf(DealFinalization(fad.batch, fad.provider)) && op !in w.db.operations
    requires DealsOk(opOf, w.db)
    requires k < |w.db.deals| && Matches(w.db.deals[k], fad.batch, fad.provider)
    ensures var w1 := Recorded(w, op, fad);
            && OpenReplicas(opOf, w1, b) == OpenReplicas(opOf, w, b)
            && (b != fad.batch ==> PendingDeals(w1, b) == PendingDeals(w, b) && ConfirmedDeals(w1, b) == ConfirmedDeals(w, b))
            && (b == fad.batch ==>
                  && PendingDeals(w, b) >= 1
                  && var won := fad.errorCause == "" && fad.dealId > 0;
                     var lost := fad.errorCause != "";
                     && PendingDeals(w1, b) == PendingDeals(w, b) - (if won || lost then 1 else 0)
                     && ConfirmedDeals(w1, b) == ConfirmedDeals(w, b) + (if won then 1 else 0))
  {
    RecordOther(opOf, w, op, b);
    UpdateOneRow(w.db.deals, fad, k, b);
    SumAtLeast(w.db.deals, PendingIn(b), k);
  }

  /** A failed deal frees its slot: it is auctioned again, or the batch is moved to error. */
  lemma DealLostSlots(opOf: Naming, w: World, op: OperationId, fad: FinalizedDeal, ch: Choices, k: nat, b: BatchId)
    requires OneOperationEach(opOf) && op == opOf(DealFinalization(fad.batch, fad.provider)) && op !in w.db.operations
    requires DealsOk(opOf, w.db) && AllSlotsOk(opOf, w)
    requires opOf(AuctionClosing(ch.auctionId)) !in w.db.operations
    requires k < |w.db.deals| && Matches(w.db.deals[k], fad.batch, fad.provider)
    requires fad.errorCause != "" && BatchFinalizedDeal(w.db, op, fad, ch).Commit?
    requires b in w.db.batches
    ensures var o := BatchFinalizedDeal(w.db, op, fad, ch);
            b in o.db.batches && SlotsOk(opOf, World(o.db, w.published + o.msgs), b)
  {
    var o := BatchFinalizedDeal(w.db, op, fad, ch);
    var w1 := Recorded(w, op, fad);
    var ba := w.db.batches[fad.batch];
    RecordedCounts(opOf, w, op, fad, k, b);
    assert SlotsOk(opOf, w, b);
    if PastDeadline(ba, fad, ch.startEpoch) {
      BatchErrorKeeps(w1.db, fad.batch, DEADLINE_EXCEEDED, false);
      assert w.published + o.msgs == w.published;
    } else {
      StartAuctionCounts(opOf, w1, fad.batch, ba, ch.auctionId, 1, ba.pieceSize, ch.startEpoch, false, b);
      if o.msgs == [] { BatchErrorKeeps(w1.db, fad.batch, NO_MINERS, false); }
    }
  }

  lemma DealWonSlots(opOf: Naming, w: World, op: OperationId, fad: FinalizedDeal, ch: Choices, k: nat, b: BatchId)
    requires OneOperationEach(opOf) && op == opOf(DealFinalization(fad.batch, fad.provider)) && op !in w.db.operations
    requires DealsOk(opOf, w.db) && AllSlotsOk(opOf, w)
    requires k < |w.db.deals| && Matches(w.db.deals[k], fad.batch, fad.provider)
    requires fad.errorCause == "" && BatchFinalizedDeal(w.db, op, fad, ch).Commit?
    requires b in w.db.batches
    ensures var o := BatchFinalizedDeal(w.db, op, fad, ch);
            b in o.db.batches && SlotsOk(opOf, World(o.db, w.published + o.msgs), b)
  {
    var o := BatchFinalizedDeal(w.db, op, fad, ch);
    RecordedCounts(opOf, w, op, fad, k, b);
    assert SlotsOk(opOf, w, b);
    assert w.published + o.msgs == w.published;
  }

  /** The first report on a deal finds its batch live or in error, and one that completes the replication
      factor finds it live: a lost slot can't be made up for. */
  lemma FinalizedIsLive(opOf: Naming, w: World, op: OperationId, fad: FinalizedDeal, ch: Choices)
    requires OneOperationEach(opOf) && op == opOf(DealFinalization(fad.batch, fad.provider))
    requires DealsOk(opOf, w.db) && AllSlotsOk(opOf, w)
    requires BatchFinalizedDeal(w.db, op, fad, ch).Commit?
    ensures var s := w.db.batches[fad.batch].status;
            && (Live(s) || s.Errored?)
            && (SumOf(UpdateDeals(w.db.deals, fad), ConfirmedIn(fad.batch)) == w.db.batches[fad.batch].repFactor ==> Live(s))
  {
    var k: nat :| k < |w.db.deals| && Matches(w.db.deals[k], fad.batch, fad.provider);
    RecordedCounts(opOf, w, op, fad, k, fad.batch);
    assert SlotsOk(opOf, w, fad.batch);
  }

  lemma DealFinalizedSlots(conf: Config, opOf: Naming, w: World, e: Event)
    requires OneOperationEach(opOf) && Inv(opOf, w) && e.DealFinalized? && Admissible(opOf, w, e)
    ensures AllSlotsOk(opOf, Step(conf, w, e))
  {
    var DealFinalized(op, fad, ch) := e;
    var o := BatchFinalizedDeal(w.db, op, fad, ch);
    if o.Commit? {
      DealFinalizedBatch(w.db, op, fad, ch);
      var k: nat :| k < |w.db.deals| && Matches(w.db.deals[k], fad.batch, fad.provider);
      FreshOperation(opOf, w, ch.auctionId);
      forall b | b in o.db.batches
        ensures SlotsOk(opOf, World(o.db, w.published + o.msgs), b)
      {
        if fad.errorCause != "" {
          DealLostSlots(opOf, w, op, fad, ch, k, b);
        } else {
          DealWonSlots(opOf, w, op, fad, ch, k, b);
        }
      }
    }
  }

  /** The remaining events touch one batch that no auction or deal mentions yet. */
  lemma UnmentionedBatch(opOf: Naming, w: World, b: BatchId)
    requires AuctionsOk(w) && DealsOk(opOf, w.db) && b !in w.db.batches
    ensures Slots(opOf, w, b) == 0
  {
    SumZero(w.published, OpenWeight(opOf, w.db.operations, b));
    SumZero(w.db.deals, PendingIn(b));
    SumZero(w.db.deals, ConfirmedIn(b));
  }

  lemma PreparedCreatedSlots(conf: Config, opOf: Naming, w: World, e: Event)
    requires OneOperationEach(opOf) && Inv(opOf, w) && e.PreparedCreated? && Admissible(opOf, w, e)
    requires conf.dealReplication >= 1
    ensures AllSlotsOk(opOf, Step(conf, w, e))
  {
    var PreparedCreated(r, b, pc, ch) := e;
    var o := CreatePrepared(conf, w.db, r, b, pc, ch);
    if o.Commit? {
      var w' := World(o.db, w.published + o.msgs);
      var ba := PreparedBatch(conf, pc);
      var db1 := w.db.(requests := w.db.requests[r := Request(pc.payloadCid, pc.origin, RequestAuctioning, None, 0, "")]);
      var w2 := w.(db := CreateBatch(db1, b, ba, [r]).value);
      FreshOperation(opOf, w, ch.auctionId);
      TargetsRemain(w2.db, b, ba, ch);
      UnmentionedBatch(opOf, w, b);
      forall x | x in w'.db.batches
        ensures SlotsOk(opOf, w', x)
      {
        StartAuctionCounts(opOf, w2, b, ba, ch.auctionId, ba.repFactor, ba.pieceSize, ch.startEpoch, ba.providers != [], x);
        assert CountsOf(opOf, w2, x) == CountsOf(opOf, w, x);
        assert x != b ==> SlotsOk(opOf, w, x);
      }
    }
  }

  /** A first auction ignores history for targeted batches, so it is always published. */
  lemma TargetsRemain(db: DB, b: BatchId, ba: Batch, ch: Choices)
    ensures var r := StartAuction(db, b, ba, ch.auctionId, ba.repFactor, ba.pieceSize, ch.startEpoch, ba.providers != []);
            r.Some? && r.value.msgs != []
  {
    if ba.providers != [] { assert ba.providers[0] in ba.providers; }
  }

  lemma BatchPreparedSlots(conf: Config, opOf: Naming, w: World, e: Event)
    requires OneOperationEach(opOf) && Inv(opOf, w) && e.BatchPrepared? && Admissible(opOf, w, e)
    ensures AllSlotsOk(opOf, Step(conf, w, e))
  {
    var BatchPrepared(b, piece, size, ch) := e;
    var o := NewBatchPrepared(w.db, b, piece, size, ch);
    if o.Commit? {
      var ba := w.db.batches[b];
      var w' := World(o.db, w.published + o.msgs);
      if ba.status.Preparing? {
        var w1 := w.(db := BatchToAuctioning(w.db, b, piece, size));
        FreshOperation(opOf, w, ch.auctionId);
        forall x | x in w'.db.batches
          ensures SlotsOk(opOf, w', x)
        {
          StartAuctionCounts(opOf, w1, b, ba, ch.auctionId, ba.repFactor, size, ch.startEpoch, false, x);
          assert CountsOf(opOf, w1, x) == CountsOf(opOf, w, x);
          assert BatchSane(ba);
          assert SlotsOk(opOf, w, x);
        }
      } else {
        assert w.published + [] == w.published;
      }
    }
  }

  lemma CreationSlots(conf: Config, opOf: Naming, w: World, e: Event)
    requires Inv(opOf, w) && (e.RequestCreated? || e.BatchCreated?)
    ensures AllSlotsOk(opOf, Step(conf, w, e))
  {
    var o := Handle(conf, w.db, e);
    if o.Commit? {
      var w' := Step(conf, w, e);
      forall b | b in w'.db.batches
        ensures SlotsOk(opOf, w', b)
      {
        SumConcat(w.published, o.msgs, OpenWeight(opOf, w.db.operations, b));
        SumZero(o.msgs, OpenWeight(opOf, w.db.operations, b));
        if b in w.db.batches { assert SlotsOk(opOf, w, b); } else { UnmentionedBatch(opOf, w, b); }
      }
    }
  }

  /** Slot accounting survives every step. */
  lemma StepKeepsSlots(conf: Config, opOf: Naming, w: World, e: Event)
    requires OneOperationEach(opOf) && conf.dealReplication >= 1 && Inv(opOf, w) && Admissible(opOf, w, e)
    ensures AllSlotsOk(opOf, Step(conf, w, e))
  {
    match e
    case RequestCreated(_, _, _) => CreationSlots(conf, opOf, w, e);
    case PreparedCreated(_, _, _, _) => PreparedCreatedSlots(conf, opOf, w, e);
    case BatchCreated(_, _, _, _, _) => CreationSlots(conf, opOf, w, e);
    case BatchPrepared(_, _, _, _) => BatchPreparedSlots(conf, opOf, w, e);
    case AuctionClosed(_, _, _) => AuctionClosedSlots(conf, opOf, w, e);
    case DealFinalized(_, _, _) => DealFinalizedSlots(conf, opOf, w, e);
  }
}
