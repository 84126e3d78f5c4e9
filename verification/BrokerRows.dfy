/** The rest of the invariant, step by step: ids, deal rows, operations, request mirroring and provider
    repetition. */
module BrokerRows {
  import opened Prelude
  import opened BrokerModel
  import opened BrokerProtocol
  import opened BrokerShapes
  import opened BrokerSlots

  // ---------- Accepted winners ----------

  /** Exactly the bids of providers that are not excluded are accepted, each once. */
  lemma {:induction false} AcceptedExactly(order: seq<BidId>, bids: map<BidId, WinningBid>, excluded: set<Provider>)
    requires forall i, j :: 0 <= i < j < |order| ==> order[i] != order[j]
    ensures var acc := AcceptedBids(order, bids, excluded);
            && (forall x :: x in acc <==> x in order && x in bids && bids[x].provider !in excluded)
            && (forall i, j :: 0 <= i < j < |acc| ==> acc[i] != acc[j])
  {
    if order != [] {
      var init := order[..|order| - 1];
      var last := order[|order| - 1];
      assert order == init + [last];
      AcceptedExactly(init, bids, excluded);
    }
  }

  // ---------- Shape of a step ----------

  function ChosenAuction(e: Event): AuctionId {
    match e
    case RequestCreated(_, _, _) => 0
    case BatchCreated(_, _, _, _, _) => 0
    case PreparedCreated(_, _, _, ch) => ch.auctionId
    case BatchPrepared(_, _, _, ch) => ch.auctionId
    case AuctionClosed(_, _, ch) => ch.auctionId
    case DealFinalized(_, _, ch) => ch.auctionId
  }

  /** How a batch may change: not at all, out of preparation with its piece, or from a live status to deal
      making or to an end. An ended batch stays as it is. */
  predicate Moves(ba: Batch, ba': Batch) {
    || ba' == ba
    || (Live(ba.status) && (ba'.status.DealMaking? || Terminal(ba'.status)) && MovesTo(ba, ba', ba'.status))
    || (ba.status.Preparing? && ba'.pieceCid.Some?
        && ba' == ba.(status := Auctioning, pieceCid := ba'.pieceCid, pieceSize := ba'.pieceSize))
  }

  /** What a step may do: ask for one auction, move batches on, and add batches that have not ended. */
  predicate StepShaped(db: DB, db': DB, msgs: seq<Msg>, id: AuctionId) {
    && OneAuctionAsked(db', msgs, id)
    && (forall b :: b in db.batches ==> b in db'.batches && Moves(db.batches[b], db'.batches[b]))
    && (forall b :: b in db'.batches && b !in db.batches ==> BatchOk(db'.batches[b]) && !Terminal(db'.batches[b].status))
  }

  predicate SameAccounts(db: DB, db': DB) {
    db'.deals == db.deals && db'.operations == db.operations && db'.unpins == db.unpins
  }

  /** The events that carry no operation. */
  lemma PlainShape(conf: Config, db: DB, e: Event)
    requires conf.dealReplication >= 1 && BatchesSane(db) && Handle(conf, db, e).Commit?
    requires !e.AuctionClosed? && !e.DealFinalized?
    ensures var o := Handle(conf, db, e); StepShaped(db, o.db, o.msgs, ChosenAuction(e)) && SameAccounts(db, o.db)
  {
    match e
    case RequestCreated(_, _, _) =>
    case PreparedCreated(r, b, pc, ch) => PreparedCreatedBatch(conf, db, r, b, pc, ch);
    case BatchCreated(_, _, _, _, _) =>
    case BatchPrepared(b, piece, size, ch) =>
      assert BatchSane(db.batches[b]);
      BatchPreparedBatch(db, b, piece, size, ch);
  }

  /** The shapes of module BrokerShapes, gathered for every event. */
  lemma StepShape(conf: Config, opOf: Naming, w: World, e: Event)
    requires OneOperationEach(opOf) && conf.dealReplication >= 1 && Inv(opOf, w) && Admissible(opOf, w, e)
    requires Handle(conf, w.db, e).Commit?
    ensures var o := Handle(conf, w.db, e);
            && StepShaped(w.db, o.db, o.msgs, ChosenAuction(e))
            && (!e.AuctionClosed? && !e.DealFinalized? ==> SameAccounts(w.db, o.db))
  {
    match e
    case AuctionClosed(op, au, ch) => AuctionClosedBatch(w.db, op, au, ch);
    case DealFinalized(op, fad, ch) =>
      DealFinalizedBatch(w.db, op, fad, ch);
      FinalizedIsLive(opOf, w, op, fad, ch);
    case _ => PlainShape(conf, w.db, e);
  }

  lemma StepKeepsAuctions(conf: Config, opOf: Naming, w: World, e: Event)
    requires OneOperationEach(opOf) && conf.dealReplication >= 1 && Inv(opOf, w) && Admissible(opOf, w, e)
    ensures AuctionsOk(Step(conf, w, e))
  {
    var o := Handle(conf, w.db, e);
    if o.Commit? {
      StepShape(conf, opOf, w, e);
      var w' := Step(conf, w, e);
      forall i, j | 0 <= i < j < |w'.published| && w'.published[i].ReadyToAuction? && w'.published[j].ReadyToAuction?
        ensures w'.published[i].id != w'.published[j].id
      {
        if i < |w.published| <= j {
          assert !Asks(w.published, i, ChosenAuction(e));
        }
      }
    }
  }

  // ---------- Batches and requests ----------

  lemma StepKeepsBatches(conf: Config, opOf: Naming, w: World, e: Event)
    requires OneOperationEach(opOf) && conf.dealReplication >= 1 && Inv(opOf, w) && Admissible(opOf, w, e)
    ensures BatchesOk(Step(conf, w, e).db)
  {
    var o := Handle(conf, w.db, e);
    if o.Commit? {
      StepShape(conf, opOf, w, e);
      forall b | b in o.db.batches
        ensures BatchOk(o.db.batches[b])
      {
        if b in w.db.batches { assert BatchOk(w.db.batches[b]); }
      }
    }
  }

  lemma BatchErrorMirrors(db: DB, b: BatchId, cause: string, rebatch: bool)
    requires MirrorOk(db) && BatchError(db, b, cause, rebatch).Some?
    requires b in db.batches && rebatch == !db.batches[b].disallowRebatching
    ensures MirrorOk(BatchError(db, b, cause, rebatch).value)
  {
  }

  lemma StartAuctionMirrors(db: DB, b: BatchId, ba: Batch, id: AuctionId, n: nat, size: nat, epoch: nat, ignore: bool)
    requires MirrorOk(db) && b in db.batches
    requires ba.providers != [] ==> db.batches[b].disallowRebatching
    requires StartAuction(db, b, ba, id, n, size, epoch, ignore).Some?
    ensures MirrorOk(StartAuction(db, b, ba, id, n, size, epoch, ignore).value.db)
  {
    if ba.providers != [] && BatchError(db, b, NO_MINERS, false).Some? {
      BatchErrorMirrors(db, b, NO_MINERS, false);
    }
  }

  lemma AuctionClosedMirrors(db: DB, op: OperationId, au: ClosedAuction, ch: Choices)
    requires MirrorOk(db) && BatchesSane(db) && BatchAuctioned(db, op, au, ch).Commit?
    ensures MirrorOk(BatchAuctioned(db, op, au, ch).db)
  {
    var db1 := db.(operations := db.operations + {op});
    var ba := db.batches[au.batch];
    assert BatchSane(ba);
    if Live(ba.status) {
      if au.errorCause != "" {
        BatchErrorMirrors(db1, au.batch, au.errorCause, !ba.disallowRebatching);
      } else {
        var added := AddDeals(db1, au, ch.bidOrder);
        var gap := |au.winningBids| - |added.accepted|;
        assert MirrorOk(added.db);
        if gap > 0 {
          StartAuctionMirrors(added.db, au.batch, ba, ch.auctionId, gap, ba.pieceSize, ch.startEpoch, false);
        }
      }
    }
  }

  lemma DealFinalizedMirrors(db: DB, op: OperationId, fad: FinalizedDeal, ch: Choices)
    requires MirrorOk(db) && BatchesSane(db) && BatchFinalizedDeal(db, op, fad, ch).Commit?
    ensures MirrorOk(BatchFinalizedDeal(db, op, fad, ch).db)
  {
    var db1 := db.(operations := db.operations + {op}, deals := UpdateDeals(db.deals, fad));
    var ba := db.batches[fad.batch];
    assert BatchSane(ba);
    if fad.errorCause != "" {
      if PastDeadline(ba, fad, ch.startEpoch) {
        BatchErrorMirrors(db1, fad.batch, DEADLINE_EXCEEDED, false);
      } else {
        StartAuctionMirrors(db1, fad.batch, ba, ch.auctionId, 1, ba.pieceSize, ch.startEpoch, false);
      }
    }
  }

  /** Requests keep mirroring their batch. */
  lemma StepKeepsMirror(conf: Config, opOf: Naming, w: World, e: Event)
    requires BatchesSane(w.db) && MirrorOk(w.db)
    ensures MirrorOk(Step(conf, w, e).db)
  {
    if Handle(conf, w.db, e).Commit? {
      match e
      case AuctionClosed(op, au, ch) => AuctionClosedMirrors(w.db, op, au, ch);
      case DealFinalized(op, fad, ch) => DealFinalizedMirrors(w.db, op, fad, ch);
      case _ => PlainMirrors(conf, w.db, e);
    }
  }

  lemma PlainMirrors(conf: Config, db: DB, e: Event)
    requires BatchesSane(db) && MirrorOk(db) && Handle(conf, db, e).Commit?
    requires !e.AuctionClosed? && !e.DealFinalized?
    ensures MirrorOk(Handle(conf, db, e).db)
  {
    match e
    case RequestCreated(_, _, _) =>
    case PreparedCreated(r, b, pc, ch) => PreparedMirrors(conf, db, r, b, pc, ch);
    case BatchCreated(b, _, _, _, ids) => assert b !in db.batches;
    case BatchPrepared(b, piece, size, ch) => BatchPreparedMirrors(db, b, piece, size, ch);
  }

  lemma PreparedMirrors(conf: Config, db: DB, r: RequestId, b: BatchId, pc: PreparedCar, ch: Choices)
    requires MirrorOk(db) && CreatePrepared(conf, db, r, b, pc, ch).Commit?
    ensures MirrorOk(CreatePrepared(conf, db, r, b, pc, ch).db)
  {
    TargetsRemain(db, b, PreparedBatch(conf, pc), ch);
  }

  lemma BatchPreparedMirrors(db: DB, b: BatchId, piece: Cid, size: nat, ch: Choices)
    requires BatchesSane(db) && MirrorOk(db) && NewBatchPrepared(db, b, piece, size, ch).Commit?
    ensures MirrorOk(NewBatchPrepared(db, b, piece, size, ch).db)
  {
    assert BatchSane(db.batches[b]);
  }

  // ---------- Deals and operations ----------

  /** The provider of a deal for the batch's piece and origin is excluded from an untargeted batch. */
  lemma HolderExcluded(db: DB, ba: Batch, k: nat)
    requires k < |db.deals| && db.deals[k].batch in db.batches && SamePiece(db.batches[db.deals[k].batch], ba)
    requires ba.pieceCid.Some? && ba.providers == []
    ensures db.deals[k].provider in AuctionExclusions(db, ba)
  {
    assert db.deals[k] in db.deals && DealFor(db, db.deals[k], ba.pieceCid.value, ba.origin);
  }

  /** The providers of the accepted bids are all different, and none already has a deal in the batch. */
  lemma AcceptedAreNew(db: DB, au: ClosedAuction, ch: Choices)
    requires au.batch in db.batches && db.batches[au.batch].pieceCid.Some?
    requires Lists(ch.bidOrder, au.winningBids.Keys) && DistinctProviders(au.winningBids) && FreshTargets(db, au)
    ensures var acc := AcceptedBy(db, au, ch);
            && (forall i, j :: 0 <= i < j < |acc| ==> au.winningBids[acc[i]].provider != au.winningBids[acc[j]].provider)
            && (forall i, k :: 0 <= i < |acc| && 0 <= k < |db.deals| ==>
                  !Matches(db.deals[k], au.batch, au.winningBids[acc[i]].provider))
  {
    var ba := db.batches[au.batch];
    var acc := AcceptedBy(db, au, ch);
    AcceptedExactly(ch.bidOrder, au.winningBids, AuctionExclusions(db, ba));
    forall i, k | 0 <= i < |acc| && 0 <= k < |db.deals|
      ensures !Matches(db.deals[k], au.batch, au.winningBids[acc[i]].provider)
    {
      if ba.providers == [] && db.deals[k].batch == au.batch {
        HolderExcluded(db, ba, k);
      }
    }
  }

  lemma AuctionClosedDeals(opOf: Naming, w: World, op: OperationId, au: ClosedAuction, ch: Choices, db': DB, msgs: seq<Msg>)
    requires OneOperationEach(opOf) && DealsOk(opOf, w.db)
    requires au.batch in w.db.batches && w.db.batches[au.batch].pieceCid.Some?
    requires Lists(ch.bidOrder, au.winningBids.Keys) && Reports(w, au)
    requires ClosedShape(w.db, op, au, ch, db', msgs)
    ensures DealsOk(opOf, db')
  {
    if db'.deals != w.db.deals {
      AcceptedAreNew(w.db, au, ch);
      UniqueWithNew(w.db.deals, au, AcceptedBy(w.db, au, ch));
    }
  }

  lemma UniqueWithNew(deals: seq<Deal>, au: ClosedAuction, acc: seq<BidId>)
    requires UniqueRows(deals)
    requires forall i :: 0 <= i < |acc| ==> acc[i] in au.winningBids
    requires forall i, j :: 0 <= i < j < |acc| ==> au.winningBids[acc[i]].provider != au.winningBids[acc[j]].provider
    requires forall i, k :: 0 <= i < |acc| && 0 <= k < |deals| ==>
               !Matches(deals[k], au.batch, au.winningBids[acc[i]].provider)
    ensures UniqueRows(deals + NewDeals(au, acc))
  {
    var all := deals + NewDeals(au, acc);
    forall i, j | 0 <= i < j < |all|
      ensures !Matches(all[j], all[i].batch, all[i].provider)
    {
      if i < |deals| <= j {
        assert !Matches(deals[i], au.batch, au.winningBids[acc[j - |deals|]].provider);
      } else if |deals| <= i {
        assert au.winningBids[acc[i - |deals|]].provider != au.winningBids[acc[j - |deals|]].provider;
      }
    }
  }

  lemma DealFinalizedDeals(opOf: Naming, db: DB, fad: FinalizedDeal, ch: Choices, db': DB, msgs: seq<Msg>)
    requires OneOperationEach(opOf) && DealsOk(opOf, db)
    requires FinalizedShape(db, opOf(DealFinalization(fad.batch, fad.provider)), fad, ch, db', msgs)
    ensures DealsOk(opOf, db')
  {
    forall i, j | 0 <= i < j < |db'.deals|
      ensures !Matches(db'.deals[j], db'.deals[i].batch, db'.deals[i].provider)
    {
      assert !Matches(db.deals[j], db.deals[i].batch, db.deals[i].provider);
    }
  }

  lemma StepKeepsDeals(conf: Config, opOf: Naming, w: World, e: Event)
    requires OneOperationEach(opOf) && conf.dealReplication >= 1 && Inv(opOf, w) && Admissible(opOf, w, e)
    ensures DealsOk(opOf, Step(conf, w, e).db)
  {
    if Handle(conf, w.db, e).Commit? {
      match e
      case AuctionClosed(op, au, ch) => ClosingKeepsDeals(opOf, w, op, au, ch);
      case DealFinalized(op, fad, ch) => FinalizingKeepsDeals(opOf, w.db, fad, ch);
      case _ => PlainKeepsDeals(conf, opOf, w.db, e);
    }
  }

  lemma FinalizingKeepsDeals(opOf: Naming, db: DB, fad: FinalizedDeal, ch: Choices)
    requires OneOperationEach(opOf) && DealsOk(opOf, db)
    requires BatchFinalizedDeal(db, opOf(DealFinalization(fad.batch, fad.provider)), fad, ch).Commit?
    ensures DealsOk(opOf, BatchFinalizedDeal(db, opOf(DealFinalization(fad.batch, fad.provider)), fad, ch).db)
  {
    var op := opOf(DealFinalization(fad.batch, fad.provider));
    var o := BatchFinalizedDeal(db, op, fad, ch);
    DealFinalizedBatch(db, op, fad, ch);
    DealFinalizedDeals(opOf, db, fad, ch, o.db, o.msgs);
  }

  lemma PlainKeepsDeals(conf: Config, opOf: Naming, db: DB, e: Event)
    requires conf.dealReplication >= 1 && BatchesSane(db) && DealsOk(opOf, db) && Handle(conf, db, e).Commit?
    requires !e.AuctionClosed? && !e.DealFinalized?
    ensures DealsOk(opOf, Handle(conf, db, e).db)
  {
    PlainShape(conf, db, e);
    SameDeals(opOf, db, Handle(conf, db, e).db);
  }

  lemma ClosingKeepsDeals(opOf: Naming, w: World, op: OperationId, au: ClosedAuction, ch: Choices)
    requires OneOperationEach(opOf) && DealsOk(opOf, w.db) && BatchesSane(w.db)
    requires Lists(ch.bidOrder, au.winningBids.Keys) && Reports(w, au)
    requires BatchAuctioned(w.db, op, au, ch).Commit?
    ensures DealsOk(opOf, BatchAuctioned(w.db, op, au, ch).db)
  {
    var o := BatchAuctioned(w.db, op, au, ch);
    AuctionClosedBatch(w.db, op, au, ch);
    assert BatchSane(w.db.batches[au.batch]);
    AuctionClosedDeals(opOf, w, op, au, ch, o.db, o.msgs);
  }

  /** The same rows, with no batch back in preparation. */
  lemma SameDeals(opOf: Naming, db: DB, db': DB)
    requires DealsOk(opOf, db) && db'.deals == db.deals && db'.operations == db.operations
    requires forall b | b in db.batches :: b in db'.batches && (db'.batches[b].status.Preparing? ==> db.batches[b].status.Preparing?)
    ensures DealsOk(opOf, db')
  {
  }

  /** What was known stays known. */
  lemma KnownStays(w: World, w': World, s: Subject)
    requires Known(w, s) && w.published <= w'.published
    requires |w.db.deals| <= |w'.db.deals|
    requires forall i | 0 <= i < |w.db.deals| :: Matches(w'.db.deals[i], w.db.deals[i].batch, w.db.deals[i].provider)
    ensures Known(w', s)
  {
    match s
    case AuctionClosing(id) =>
      var k: nat :| Asks(w.published, k, id);
      assert Asks(w'.published, k, id);
    case DealFinalization(b, p) =>
      var k: nat :| k < |w.db.deals| && Matches(w.db.deals[k], b, p);
      assert Matches(w'.db.deals[k], w.db.deals[k].batch, w.db.deals[k].provider);
      assert Matches(w'.db.deals[k], b, p);
  }

  /** Every step only appends to the log and keeps the batch and provider of each row. */
  lemma StepGrows(conf: Config, opOf: Naming, w: World, e: Event)
    requires OneOperationEach(opOf) && conf.dealReplication >= 1 && Inv(opOf, w) && Admissible(opOf, w, e)
    ensures var w' := Step(conf, w, e);
            && w.published <= w'.published
            && |w.db.deals| <= |w'.db.deals|
            && (forall i | 0 <= i < |w.db.deals| :: Matches(w'.db.deals[i], w.db.deals[i].batch, w.db.deals[i].provider))
  {
    if Handle(conf, w.db, e).Commit? {
      match e
      case AuctionClosed(op, au, ch) => AuctionClosedBatch(w.db, op, au, ch);
      case DealFinalized(op, fad, ch) => DealFinalizedBatch(w.db, op, fad, ch);
      case _ => StepShape(conf, opOf, w, e);
    }
  }

  lemma StepKeepsOperations(conf: Config, opOf: Naming, w: World, e: Event)
    requires OneOperationEach(opOf) && conf.dealReplication >= 1 && Inv(opOf, w) && Admissible(opOf, w, e)
    ensures OperationsOk(opOf, Step(conf, w, e))
  {
    StepGrows(conf, opOf, w, e);
    if Handle(conf, w.db, e).Commit? {
      var new_ := NewOperations(conf, opOf, w, e);
      OperationsStay(opOf, w, Step(conf, w, e), new_);
    }
  }

  lemma OperationsStay(opOf: Naming, w: World, w': World, new_: Subject)
    requires OperationsOk(opOf, w) && w.published <= w'.published && |w.db.deals| <= |w'.db.deals|
    requires forall i | 0 <= i < |w.db.deals| :: Matches(w'.db.deals[i], w.db.deals[i].batch, w.db.deals[i].provider)
    requires w'.db.operations == w.db.operations || (Known(w, new_) && w'.db.operations == w.db.operations + {opOf(new_)})
    ensures OperationsOk(opOf, w')
  {
    forall op | op in w'.db.operations
      ensures exists s :: opOf(s) == op && Known(w', s)
    {
      if op in w.db.operations {
        var s :| opOf(s) == op && Known(w, s);
        KnownStays(w, w', s);
      } else {
        assert opOf(new_) == op;
        KnownStays(w, w', new_);
      }
    }
  }

  /** The subject whose operation a step records, if it records one. */
  lemma NewOperations(conf: Config, opOf: Naming, w: World, e: Event) returns (s: Subject)
    requires OneOperationEach(opOf) && conf.dealReplication >= 1 && Inv(opOf, w) && Admissible(opOf, w, e)
    requires Handle(conf, w.db, e).Commit?
    ensures Handle(conf, w.db, e).db.operations != w.db.operations ==>
              Known(w, s) && Handle(conf, w.db, e).db.operations == w.db.operations + {opOf(s)}
  {
    match e
    case AuctionClosed(op, au, ch) =>
      AuctionClosedBatch(w.db, op, au, ch);
      s := AuctionClosing(au.id);
    case DealFinalized(op, fad, ch) =>
      DealFinalizedBatch(w.db, op, fad, ch);
      s := DealFinalization(fad.batch, fad.provider);
    case _ =>
      StepShape(conf, opOf, w, e);
      s := AuctionClosing(0);
  }

  // ---------- Providers ----------

  lemma NoRepeatWithNew(db: DB, db': DB, au: ClosedAuction, acc: seq<BidId>)
    requires NoRepeatedProvider(db) && au.batch in db.batches
    requires forall i :: 0 <= i < |db.deals| ==> db.deals[i].batch in db.batches
    requires forall i :: 0 <= i < |acc| ==> acc[i] in au.winningBids
    requires db'.deals == db.deals + NewDeals(au, acc)
    requires forall b :: b in db.batches ==> b in db'.batches && SamePiece(db'.batches[b], db.batches[b])
                                             && db'.batches[b].providers == db.batches[b].providers
    requires forall i, j :: 0 <= i < j < |acc| ==> au.winningBids[acc[i]].provider != au.winningBids[acc[j]].provider
    requires forall i, k :: 0 <= i < |acc| && 0 <= k < |db.deals| && db.batches[au.batch].providers == []
                            && SamePiece(db.batches[db.deals[k].batch], db.batches[au.batch]) ==>
               db.deals[k].provider != au.winningBids[acc[i]].provider
    ensures NoRepeatedProvider(db')
  {
    var n := |db.deals|;
    forall i, j | 0 <= i < j < |db'.deals|
      ensures db'.deals[i].batch in db'.batches && db'.deals[j].batch in db'.batches
      ensures db'.batches[db'.deals[j].batch].providers == []
              && SamePiece(db'.batches[db'.deals[i].batch], db'.batches[db'.deals[j].batch])
              ==> db'.deals[i].provider != db'.deals[j].provider
    {
      assert i < n ==> db'.deals[i] == db.deals[i];
      assert j >= n ==> db'.deals[j] == NewDeal(au, acc[j - n]);
      assert i >= n ==> db'.deals[i] == NewDeal(au, acc[i - n]);
    }
  }

  lemma AuctionClosedProviders(w: World, op: OperationId, au: ClosedAuction, ch: Choices, db': DB, msgs: seq<Msg>)
    requires NoRepeatedProvider(w.db) && BatchesSane(w.db)
    requires forall i :: 0 <= i < |w.db.deals| ==> w.db.deals[i].batch in w.db.batches
    requires Lists(ch.bidOrder, au.winningBids.Keys) && Reports(w, au)
    requires ClosedShape(w.db, op, au, ch, db', msgs)
    ensures NoRepeatedProvider(db')
  {
    var ba := w.db.batches[au.batch];
    if db'.deals != w.db.deals {
      var acc := AcceptedBy(w.db, au, ch);
      assert BatchSane(ba);
      AcceptedAreNew(w.db, au, ch);
      forall i, k | 0 <= i < |acc| && 0 <= k < |w.db.deals| && ba.providers == [] && SamePiece(w.db.batches[w.db.deals[k].batch], ba)
        ensures w.db.deals[k].provider != au.winningBids[acc[i]].provider
      {
        HolderExcluded(w.db, ba, k);
      }
      NoRepeatWithNew(w.db, db', au, acc);
    }
  }

  predicate SameTarget(ba: Batch, ba': Batch) {
    SamePiece(ba', ba) && ba'.providers == ba.providers
  }

  /** Rows that keep their batch and provider keep the rule, as long as pieces only change in preparation. */
  lemma SameRowsKeepProviders(opOf: Naming, db: DB, db': DB)
    requires NoRepeatedProvider(db) && DealsOk(opOf, db) && |db'.deals| == |db.deals|
    requires forall i | 0 <= i < |db.deals| :: Matches(db'.deals[i], db.deals[i].batch, db.deals[i].provider)
    requires forall b | b in db.batches :: b in db'.batches && (db.batches[b].status.Preparing? || SameTarget(db.batches[b], db'.batches[b]))
    ensures NoRepeatedProvider(db')
  {
    forall i, j | 0 <= i < j < |db'.deals|
      ensures db'.deals[i].batch in db'.batches && db'.deals[j].batch in db'.batches
      ensures db'.batches[db'.deals[j].batch].providers == []
              && SamePiece(db'.batches[db'.deals[i].batch], db'.batches[db'.deals[j].batch])
              ==> db'.deals[i].provider != db'.deals[j].provider
    {
      assert Matches(db'.deals[i], db.deals[i].batch, db.deals[i].provider);
      assert Matches(db'.deals[j], db.deals[j].batch, db.deals[j].provider);
    }
  }

  /** An untargeted batch never adds a deal with a provider of an earlier deal for its piece and origin. */
  lemma StepKeepsProviders(conf: Config, opOf: Naming, w: World, e: Event)
    requires OneOperationEach(opOf) && conf.dealReplication >= 1 && Inv(opOf, w) && Admissible(opOf, w, e)
    ensures NoRepeatedProvider(Step(conf, w, e).db)
  {
    var o := Handle(conf, w.db, e);
    if o.Commit? {
      if e.AuctionClosed? {
        AuctionClosedBatch(w.db, e.op, e.au, e.ch);
        AuctionClosedProviders(w, e.op, e.au, e.ch, o.db, o.msgs);
      } else {
        StepShape(conf, opOf, w, e);
        StepGrows(conf, opOf, w, e);
        if e.DealFinalized? { DealFinalizedBatch(w.db, e.op, e.fad, e.ch); }
        SameRowsKeepProviders(opOf, w.db, o.db);
      }
    }
  }
}
