/**
 Slot accounting when attempts are cut short. What they published stays published, so auctions may run that no row
 knows of. Every such auction adds its replicas to its batch, for good, and nothing else does.
 */
module BrokerLeaks {
  import opened Prelude
  import opened BrokerModel
  import opened BrokerProtocol
  import opened BrokerShapes
  import opened BrokerSlots
  import opened BrokerRows
  import opened BrokerDelivery

  function AskedFor(b: BatchId): Msg -> nat {
    (m: Msg) => if m.ReadyToAuction? && m.auctioned == b then m.replication else 0
  }

  /** The replicas asked for in messages that were leaked. */
  function LeakedReplicas(leaked: seq<Msg>, b: BatchId): nat {
    SumOf(leaked, AskedFor(b))
  }

  /** Slots of a batch with `extra` leaked replicas: exactly so many more than wanted while it is live, and before it
      was auctioned; less than that once it failed, and at most that once it succeeded. */
  predicate SlotLaw(opOf: Naming, w: World, extra: nat, b: BatchId) {
    if b !in w.db.batches || w.db.batches[b].status.Preparing? then Slots(opOf, w, b) == extra
    else
      var ba := w.db.batches[b];
      match ba.status
      case Errored => Slots(opOf, w, b) < ba.repFactor + extra
      case Success => Slots(opOf, w, b) <= ba.repFactor + extra && ConfirmedDeals(w, b) >= ba.repFactor
      case _ => Slots(opOf, w, b) == ba.repFactor + extra && ConfirmedDeals(w, b) < ba.repFactor
  }

  predicate AsksForSome(published: seq<Msg>) {
    forall i | 0 <= i < |published| && published[i].ReadyToAuction? :: published[i].replication >= 1
  }

  /** What leaked messages leave as it was: everything but the account of slots and of unpin jobs. */
  ghost predicate Sound(opOf: Naming, w: World) {
    && DistinctAuctions(w.published) && AsksForSome(w.published)
    && DealsOk(opOf, w.db) && OperationsOk(opOf, w) && BatchesSane(w.db)
    && MirrorOk(w.db) && NoRepeatedProvider(w.db)
  }

  ghost predicate LeakyInv(opOf: Naming, w: World, leaked: seq<Msg>) {
    Sound(opOf, w) && forall b :: SlotLaw(opOf, w, LeakedReplicas(leaked, b), b)
  }

  // ---------- What was asked for ----------

  /** At most the first message asks for an auction, under the id drawn for it. */
  predicate FirstAsks(msgs: seq<Msg>, id: AuctionId) {
    forall i | 0 <= i < |msgs| && msgs[i].ReadyToAuction? :: i == 0 && msgs[i].id == id && msgs[i].replication >= 1
  }

  lemma EventAsks(conf: Config, db: DB, e: Event)
    requires conf.dealReplication >= 1 && BatchesSane(db) && Handle(conf, db, e).Commit?
    ensures FirstAsks(Handle(conf, db, e).msgs, ChosenAuction(e))
  {
    match e
    case RequestCreated(_, _, _) =>
    case PreparedCreated(r, b, pc, ch) => PreparedCreatedBatch(conf, db, r, b, pc, ch);
    case BatchCreated(_, _, _, _, _) =>
    case BatchPrepared(b, piece, size, ch) =>
      assert BatchSane(db.batches[b]);
      BatchPreparedBatch(db, b, piece, size, ch);
    case AuctionClosed(op, au, ch) => AuctionClosedBatch(db, op, au, ch);
    case DealFinalized(op, fad, ch) => DealFinalizedBatch(db, op, fad, ch);
  }

  /** New auctions keep ids apart. */
  lemma AskedApart(w: World, msgs: seq<Msg>, id: AuctionId)
    requires DistinctAuctions(w.published) && AsksForSome(w.published) && FirstAsks(msgs, id)
    requires (exists i :: 0 <= i < |msgs| && msgs[i].ReadyToAuction?) ==> FreshAuction(w, id)
    ensures DistinctAuctions(w.published + msgs) && AsksForSome(w.published + msgs)
  {
    var all := w.published + msgs;
    forall i, j | 0 <= i < j < |all| && all[i].ReadyToAuction? && all[j].ReadyToAuction?
      ensures all[i].id != all[j].id
    {
      if i < |w.published| <= j {
        assert msgs[j - |w.published|].ReadyToAuction?;
        assert !Asks(w.published, i, id);
      }
    }
  }

  /** Leaked messages add what they ask for, to the slots and to the leaked replicas alike. */
  lemma LeakedCounts(opOf: Naming, w: World, msgs: seq<Msg>, id: AuctionId, b: BatchId)
    requires FirstAsks(msgs, id) && opOf(AuctionClosing(id)) !in w.db.operations
    ensures Slots(opOf, w.(published := w.published + msgs), b) == Slots(opOf, w, b) + LeakedReplicas(msgs, b)
  {
    SumConcat(w.published, msgs, OpenWeight(opOf, w.db.operations, b));
    SumAgree(msgs, msgs, OpenWeight(opOf, w.db.operations, b), AskedFor(b));
  }

  lemma NothingAsked(opOf: Naming, w: World, msgs: seq<Msg>, b: BatchId)
    requires forall i | 0 <= i < |msgs| :: !msgs[i].ReadyToAuction?
    ensures Slots(opOf, w.(published := w.published + msgs), b) == Slots(opOf, w, b) && LeakedReplicas(msgs, b) == 0
  {
    SumConcat(w.published, msgs, OpenWeight(opOf, w.db.operations, b));
    SumZero(msgs, OpenWeight(opOf, w.db.operations, b));
    SumZero(msgs, AskedFor(b));
  }

  // ---------- An attempt cut short ----------

  lemma CutKeepsSound(opOf: Naming, w: World, msgs: seq<Msg>, id: AuctionId)
    requires Sound(opOf, w) && FirstAsks(msgs, id)
    requires (exists i :: 0 <= i < |msgs| && msgs[i].ReadyToAuction?) ==> FreshAuction(w, id)
    ensures Sound(opOf, w.(published := w.published + msgs))
  {
    AskedApart(w, msgs, id);
    OperationsStay(opOf, w, w.(published := w.published + msgs), AuctionClosing(0));
  }

  lemma CutKeepsLaw(opOf: Naming, w: World, leaked: seq<Msg>, msgs: seq<Msg>, id: AuctionId)
    requires OneOperationEach(opOf) && LeakyInv(opOf, w, leaked) && FirstAsks(msgs, id)
    requires (exists i :: 0 <= i < |msgs| && msgs[i].ReadyToAuction?) ==> FreshAuction(w, id)
    ensures LeakyInv(opOf, w.(published := w.published + msgs), leaked + msgs)
  {
    var w' := w.(published := w.published + msgs);
    CutKeepsSound(opOf, w, msgs, id);
    forall b
      ensures SlotLaw(opOf, w', LeakedReplicas(leaked + msgs, b), b)
    {
      assert SlotLaw(opOf, w, LeakedReplicas(leaked, b), b);
      SumConcat(leaked, msgs, AskedFor(b));
      if exists i :: 0 <= i < |msgs| && msgs[i].ReadyToAuction? {
        FreshOperation(opOf, w, id);
        LeakedCounts(opOf, w, msgs, id, b);
      } else {
        NothingAsked(opOf, w, msgs, b);
      }
    }
  }

  // ---------- Steps ----------

  lemma ClosedLaw(opOf: Naming, w: World, extra: nat, au: ClosedAuction, ch: Choices, k: nat, b: BatchId)
    requires OneOperationEach(opOf) && Sound(opOf, w) && SlotLaw(opOf, w, extra, b)
    requires Asks(w.published, k, au.id) && w.published[k].auctioned == au.batch
    requires au.errorCause == "" ==> |au.winningBids| == w.published[k].replication
    requires FreshAuction(w, ch.auctionId) && Lists(ch.bidOrder, au.winningBids.Keys)
    requires BatchAuctioned(w.db, opOf(AuctionClosing(au.id)), au, ch).Commit?
    ensures var o := BatchAuctioned(w.db, opOf(AuctionClosing(au.id)), au, ch);
            SlotLaw(opOf, World(o.db, w.published + o.msgs), extra, b)
  {
    var op := opOf(AuctionClosing(au.id));
    var w1 := w.(db := w.db.(operations := w.db.operations + {op}));
    var ba := w.db.batches[au.batch];
    RecordClosing(opOf, w, k, b);
    if Live(ba.status) {
      if au.errorCause != "" {
        FailedLaw(opOf, w, w1, extra, au, ch, k, b);
      } else {
        WonLaw(opOf, w, w1, extra, au, ch, k, b);
      }
    } else {
      assert w.published + [] == w.published;
    }
  }

  lemma FailedLaw(opOf: Naming, w: World, w1: World, extra: nat, au: ClosedAuction, ch: Choices, k: nat, b: BatchId)
    requires OneOperationEach(opOf) && DistinctAuctions(w.published) && AsksForSome(w.published) && SlotLaw(opOf, w, extra, b)
    requires Asks(w.published, k, au.id) && w.published[k].auctioned == au.batch
    requires opOf(AuctionClosing(au.id)) !in w.db.operations
    requires w1 == w.(db := w.db.(operations := w.db.operations + {opOf(AuctionClosing(au.id))}))
    requires au.batch in w.db.batches && Live(w.db.batches[au.batch].status)
    requires AuctionFailed(w1.db, au, w.db.batches[au.batch], ch).Commit?
    ensures var o := AuctionFailed(w1.db, au, w.db.batches[au.batch], ch);
            SlotLaw(opOf, World(o.db, w.published + o.msgs), extra, b)
  {
    var ba := w.db.batches[au.batch];
    var o := AuctionFailed(w1.db, au, ba, ch);
    BatchErrorKeeps(w1.db, au.batch, au.errorCause, !ba.disallowRebatching);
    RecordClosing(opOf, w, k, b);
    NothingAsked(opOf, w1, o.msgs, b);
  }

  lemma WonLaw(opOf: Naming, w: World, w1: World, extra: nat, au: ClosedAuction, ch: Choices, k: nat, b: BatchId)
    requires OneOperationEach(opOf) && DistinctAuctions(w.published) && OperationsOk(opOf, w) && SlotLaw(opOf, w, extra, b)
    requires Asks(w.published, k, au.id) && w.published[k].auctioned == au.batch
    requires |au.winningBids| == w.published[k].replication
    requires opOf(AuctionClosing(au.id)) !in w.db.operations
    requires w1 == w.(db := w.db.(operations := w.db.operations + {opOf(AuctionClosing(au.id))}))
    requires FreshAuction(w, ch.auctionId) && Lists(ch.bidOrder, au.winningBids.Keys)
    requires au.batch in w.db.batches && Live(w.db.batches[au.batch].status)
    requires AuctionWon(w1.db, au, w.db.batches[au.batch], ch).Commit?
    ensures var o := AuctionWon(w1.db, au, w.db.batches[au.batch], ch);
            SlotLaw(opOf, World(o.db, w.published + o.msgs), extra, b)
  {
    var ba := w.db.batches[au.batch];
    GapShape(w1.db, au, ba, ch);
    GapCounts(opOf, w, w1, k, au, ch, b);
    var e := GapEffect(w1.db, au, ba, ch).value;
    var tail := DealMessages(au, ba, ch, AddDeals(w1.db, au, ch.bidOrder).accepted);
    TailWeighsNothing(opOf, w.published, e.msgs, tail, e.db.operations, b);
  }

  lemma FinalizedLaw(opOf: Naming, w: World, extra: nat, fad: FinalizedDeal, ch: Choices, b: BatchId)
    requires OneOperationEach(opOf) && Sound(opOf, w) && SlotLaw(opOf, w, extra, b) && FreshAuction(w, ch.auctionId)
    requires BatchFinalizedDeal(w.db, opOf(DealFinalization(fad.batch, fad.provider)), fad, ch).Commit?
    ensures var o := BatchFinalizedDeal(w.db, opOf(DealFinalization(fad.batch, fad.provider)), fad, ch);
            SlotLaw(opOf, World(o.db, w.published + o.msgs), extra, b)
  {
    var op := opOf(DealFinalization(fad.batch, fad.provider));
    var k: nat :| k < |w.db.deals| && Matches(w.db.deals[k], fad.batch, fad.provider);
    assert !w.db.batches[w.db.deals[k].batch].status.Preparing?;
    FreshOperation(opOf, w, ch.auctionId);
    if fad.errorCause != "" {
      LostLaw(opOf, w, extra, op, fad, ch, k, b);
    } else {
      ConfirmedLaw(opOf, w, extra, op, fad, ch, k, b);
    }
  }

  lemma LostLaw(opOf: Naming, w: World, extra: nat, op: OperationId, fad: FinalizedDeal, ch: Choices, k: nat, b: BatchId)
    requires OneOperationEach(opOf) && DealsOk(opOf, w.db) && SlotLaw(opOf, w, extra, b)
    requires op == opOf(DealFinalization(fad.batch, fad.provider)) && op !in w.db.operations
    requires opOf(AuctionClosing(ch.auctionId)) !in w.db.operations
    requires k < |w.db.deals| && Matches(w.db.deals[k], fad.batch, fad.provider)
    requires fad.batch in w.db.batches && !w.db.batches[fad.batch].status.Preparing?
    requires fad.errorCause != "" && BatchFinalizedDeal(w.db, op, fad, ch).Commit?
    ensures var o := BatchFinalizedDeal(w.db, op, fad, ch);
            SlotLaw(opOf, World(o.db, w.published + o.msgs), extra, b)
  {
    var o := BatchFinalizedDeal(w.db, op, fad, ch);
    var w1 := Recorded(w, op, fad);
    var ba := w.db.batches[fad.batch];
    RecordedCounts(opOf, w, op, fad, k, b);
    if PastDeadline(ba, fad, ch.startEpoch) {
      BatchErrorKeeps(w1.db, fad.batch, DEADLINE_EXCEEDED, false);
      assert w.published + o.msgs == w.published;
    } else {
      StartAuctionCounts(opOf, w1, fad.batch, ba, ch.auctionId, 1, ba.pieceSize, ch.startEpoch, false, b);
      if o.msgs == [] { BatchErrorKeeps(w1.db, fad.batch, NO_MINERS, false); }
    }
  }

  lemma ConfirmedLaw(opOf: Naming, w: World, extra: nat, op: OperationId, fad: FinalizedDeal, ch: Choices, k: nat, b: BatchId)
    requires OneOperationEach(opOf) && DealsOk(opOf, w.db) && SlotLaw(opOf, w, extra, b)
    requires op == opOf(DealFinalization(fad.batch, fad.provider)) && op !in w.db.operations
    requires k < |w.db.deals| && Matches(w.db.deals[k], fad.batch, fad.provider)
    requires fad.batch in w.db.batches && !w.db.batches[fad.batch].status.Preparing?
    requires fad.errorCause == "" && BatchFinalizedDeal(w.db, op, fad, ch).Commit?
    ensures var o := BatchFinalizedDeal(w.db, op, fad, ch);
            SlotLaw(opOf, World(o.db, w.published + o.msgs), extra, b)
  {
    var o := BatchFinalizedDeal(w.db, op, fad, ch);
    RecordedCounts(opOf, w, op, fad, k, b);
    assert w.published + o.msgs == w.published;
  }

  lemma PreparedLaw(conf: Config, opOf: Naming, w: World, extra: nat, e: Event, x: BatchId)
    requires conf.dealReplication >= 1 && e.PreparedCreated? && Handle(conf, w.db, e).Commit?
    requires SlotLaw(opOf, w, extra, x) && opOf(AuctionClosing(e.ch.auctionId)) !in w.db.operations
    requires x !in w.db.batches ==> ConfirmedDeals(w, x) == 0
    ensures SlotLaw(opOf, Step(conf, w, e), extra, x)
  {
    var PreparedCreated(r, b, pc, ch) := e;
    var ba := PreparedBatch(conf, pc);
    var db1 := w.db.(requests := w.db.requests[r := Request(pc.payloadCid, pc.origin, RequestAuctioning, None, 0, "")]);
    var w2 := w.(db := CreateBatch(db1, b, ba, [r]).value);
    TargetsRemain(w2.db, b, ba, ch);
    StartAuctionCounts(opOf, w2, b, ba, ch.auctionId, ba.repFactor, ba.pieceSize, ch.startEpoch, ba.providers != [], x);
    assert CountsOf(opOf, w2, x) == CountsOf(opOf, w, x);
  }

  lemma BatchPreparedLaw(conf: Config, opOf: Naming, w: World, extra: nat, e: Event, x: BatchId)
    requires e.BatchPrepared? && Handle(conf, w.db, e).Commit? && BatchesSane(w.db)
    requires SlotLaw(opOf, w, extra, x) && opOf(AuctionClosing(e.ch.auctionId)) !in w.db.operations
    requires x in w.db.batches && w.db.batches[x].status.Preparing? ==> ConfirmedDeals(w, x) == 0
    ensures SlotLaw(opOf, Step(conf, w, e), extra, x)
  {
    var BatchPrepared(b, piece, size, ch) := e;
    var ba := w.db.batches[b];
    assert BatchSane(ba);
    if ba.status.Preparing? {
      var w1 := w.(db := BatchToAuctioning(w.db, b, piece, size));
      StartAuctionCounts(opOf, w1, b, ba, ch.auctionId, ba.repFactor, size, ch.startEpoch, false, x);
      assert CountsOf(opOf, w1, x) == CountsOf(opOf, w, x);
    } else {
      assert w.published + [] == w.published;
    }
  }

  lemma CreatedLaw(conf: Config, opOf: Naming, w: World, extra: nat, e: Event, x: BatchId)
    requires (e.RequestCreated? || e.BatchCreated?) && Handle(conf, w.db, e).Commit? && SlotLaw(opOf, w, extra, x)
    ensures SlotLaw(opOf, Step(conf, w, e), extra, x)
  {
    var o := Handle(conf, w.db, e);
    NothingAsked(opOf, w, o.msgs, x);
  }

  /** A batch that is unknown or in preparation has no deals. */
  lemma NoDealsYet(opOf: Naming, w: World, b: BatchId)
    requires DealsOk(opOf, w.db) && (b !in w.db.batches || w.db.batches[b].status.Preparing?)
    ensures PendingDeals(w, b) == 0 && ConfirmedDeals(w, b) == 0
  {
    SumZero(w.db.deals, PendingIn(b));
    SumZero(w.db.deals, ConfirmedIn(b));
  }

  lemma StepKeepsLaw(conf: Config, opOf: Naming, w: World, extra: nat, e: Event, b: BatchId)
    requires OneOperationEach(opOf) && conf.dealReplication >= 1 && Sound(opOf, w) && Admissible(opOf, w, e)
    requires SlotLaw(opOf, w, extra, b)
    ensures SlotLaw(opOf, Step(conf, w, e), extra, b)
  {
    if Handle(conf, w.db, e).Commit? {
      if b !in w.db.batches || w.db.batches[b].status.Preparing? { NoDealsYet(opOf, w, b); }
      match e
      case AuctionClosed(op, au, ch) =>
        var k: nat :| Asks(w.published, k, au.id) && w.published[k].auctioned == au.batch
          && (au.errorCause == "" ==> |au.winningBids| == w.published[k].replication);
        ClosedLaw(opOf, w, extra, au, ch, k, b);
      case DealFinalized(op, fad, ch) => FinalizedLaw(opOf, w, extra, fad, ch, b);
      case PreparedCreated(_, _, _, ch) =>
        FreshOperation(opOf, w, ch.auctionId);
        PreparedLaw(conf, opOf, w, extra, e, b);
      case BatchPrepared(_, _, _, ch) =>
        FreshOperation(opOf, w, ch.auctionId);
        BatchPreparedLaw(conf, opOf, w, extra, e, b);
      case _ => CreatedLaw(conf, opOf, w, extra, e, b);
    }
  }

  // ---------- The rest of the invariant ----------

  lemma PlainKeepsSane(conf: Config, db: DB, e: Event)
    requires conf.dealReplication >= 1 && BatchesSane(db) && Handle(conf, db, e).Commit? && !HasOperation(e)
    ensures BatchesSane(Handle(conf, db, e).db)
  {
    var db' := Handle(conf, db, e).db;
    PlainShape(conf, db, e);
    forall b | b in db'.batches ensures BatchSane(db'.batches[b]) {
      if b in db.batches { assert BatchSane(db.batches[b]); }
    }
  }

  lemma PlainKeepsSound(conf: Config, opOf: Naming, w: World, e: Event)
    requires conf.dealReplication >= 1 && Sound(opOf, w) && !HasOperation(e) && Handle(conf, w.db, e).Commit?
    ensures var w' := Step(conf, w, e);
            DealsOk(opOf, w'.db) && OperationsOk(opOf, w') && BatchesSane(w'.db) && NoRepeatedProvider(w'.db)
  {
    PlainShape(conf, w.db, e);
    PlainKeepsSane(conf, w.db, e);
    SameDeals(opOf, w.db, Step(conf, w, e).db);
    OperationsStay(opOf, w, Step(conf, w, e), AuctionClosing(0));
    SameRowsKeepProviders(opOf, w.db, Step(conf, w, e).db);
  }

  lemma ClosingKeepsSound(conf: Config, opOf: Naming, w: World, e: Event)
    requires OneOperationEach(opOf) && Sound(opOf, w) && Admissible(opOf, w, e)
    requires e.AuctionClosed? && Handle(conf, w.db, e).Commit?
    ensures var w' := Step(conf, w, e);
            DealsOk(opOf, w'.db) && OperationsOk(opOf, w') && BatchesSane(w'.db) && NoRepeatedProvider(w'.db)
  {
    var AuctionClosed(op, au, ch) := e;
    var o := BatchAuctioned(w.db, op, au, ch);
    AuctionClosedBatch(w.db, op, au, ch);
    assert BatchSane(w.db.batches[au.batch]);
    AuctionClosedDeals(opOf, w, op, au, ch, o.db, o.msgs);
    AuctionClosedProviders(w, op, au, ch, o.db, o.msgs);
    OperationsStay(opOf, w, Step(conf, w, e), AuctionClosing(au.id));
  }

  lemma FinalizingKeepsSound(conf: Config, opOf: Naming, w: World, e: Event)
    requires OneOperationEach(opOf) && Sound(opOf, w) && Admissible(opOf, w, e)
    requires e.DealFinalized? && Handle(conf, w.db, e).Commit?
    ensures var w' := Step(conf, w, e);
            DealsOk(opOf, w'.db) && OperationsOk(opOf, w') && BatchesSane(w'.db) && NoRepeatedProvider(w'.db)
  {
    var DealFinalized(op, fad, ch) := e;
    var db' := Step(conf, w, e).db;
    DealFinalizedBatch(w.db, op, fad, ch);
    FinalizingKeepsDeals(opOf, w.db, fad, ch);
    OperationsStay(opOf, w, Step(conf, w, e), DealFinalization(fad.batch, fad.provider));
    SameRowsKeepProviders(opOf, w.db, db');
    FinalizingKeepsSane(w.db, op, fad, ch);
  }

  lemma FinalizingKeepsSane(db: DB, op: OperationId, fad: FinalizedDeal, ch: Choices)
    requires BatchesSane(db) && BatchFinalizedDeal(db, op, fad, ch).Commit?
    requires fad.batch in db.batches && !db.batches[fad.batch].status.Preparing?
    ensures BatchesSane(BatchFinalizedDeal(db, op, fad, ch).db)
  {
    DealFinalizedBatch(db, op, fad, ch);
    assert BatchSane(db.batches[fad.batch]);
  }

  lemma StepKeepsSound(conf: Config, opOf: Naming, w: World, e: Event)
    requires OneOperationEach(opOf) && conf.dealReplication >= 1 && Sound(opOf, w) && Admissible(opOf, w, e)
    ensures Sound(opOf, Step(conf, w, e))
  {
    if Handle(conf, w.db, e).Commit? {
      EventAsks(conf, w.db, e);
      AskedApart(w, Handle(conf, w.db, e).msgs, ChosenAuction(e));
      StepKeepsMirror(conf, opOf, w, e);
      match e
      case AuctionClosed(_, _, _) => ClosingKeepsSound(conf, opOf, w, e);
      case DealFinalized(_, _, _) => FinalizingKeepsSound(conf, opOf, w, e);
      case _ => PlainKeepsSound(conf, opOf, w, e);
    }
  }

  // ---------- Runs ----------

  /** Creating a request is not a transaction, so there is nothing to cut short. */
  ghost predicate AdmissibleAttempt(opOf: Naming, w: World, a: Attempt) {
    Admissible(opOf, w, a.event) && (a.cut.Some? ==> !a.event.RequestCreated?)
  }

  ghost predicate AdmissibleAttempts(conf: Config, opOf: Naming, w: World, attempts: seq<Attempt>)
    decreases |attempts|
  {
    attempts == [] || (AdmissibleAttempt(opOf, w, attempts[0])
                       && AdmissibleAttempts(conf, opOf, Deliver(conf, w, attempts[0]), attempts[1..]))
  }

  /** What is leaked asks for one auction at most, with a new id. */
  lemma LeakAsks(conf: Config, opOf: Naming, w: World, a: Attempt)
    requires conf.dealReplication >= 1 && BatchesSane(w.db) && AdmissibleAttempt(opOf, w, a) && a.cut.Some?
    ensures var msgs, id := Leaked(conf, w, a), ChosenAuction(a.event);
            FirstAsks(msgs, id) && ((exists i :: 0 <= i < |msgs| && msgs[i].ReadyToAuction?) ==> FreshAuction(w, id))
  {
    var o := Handle(conf, w.db, a.event);
    if o.Commit? {
      EventAsks(conf, w.db, a.event);
      var msgs := Leaked(conf, w, a);
      assert forall i | 0 <= i < |msgs| :: msgs[i] == o.msgs[i];
    }
  }

  lemma AttemptKeepsSound(conf: Config, opOf: Naming, w: World, a: Attempt)
    requires OneOperationEach(opOf) && conf.dealReplication >= 1 && Sound(opOf, w) && AdmissibleAttempt(opOf, w, a)
    ensures Sound(opOf, Deliver(conf, w, a))
  {
    if a.cut.None? {
      StepKeepsSound(conf, opOf, w, a.event);
    } else {
      LeakAsks(conf, opOf, w, a);
      CutKeepsSound(opOf, w, Leaked(conf, w, a), ChosenAuction(a.event));
    }
  }

  lemma AttemptKeepsLaw(conf: Config, opOf: Naming, w: World, leaked: seq<Msg>, a: Attempt)
    requires OneOperationEach(opOf) && conf.dealReplication >= 1 && LeakyInv(opOf, w, leaked) && AdmissibleAttempt(opOf, w, a)
    ensures LeakyInv(opOf, Deliver(conf, w, a), leaked + Leaked(conf, w, a))
  {
    var msgs := Leaked(conf, w, a);
    if a.cut.None? {
      assert leaked + msgs == leaked;
      StepKeepsLeaky(conf, opOf, w, leaked, a.event);
    } else {
      LeakAsks(conf, opOf, w, a);
      CutKeepsLaw(opOf, w, leaked, msgs, ChosenAuction(a.event));
    }
  }

  lemma StepKeepsLeaky(conf: Config, opOf: Naming, w: World, leaked: seq<Msg>, e: Event)
    requires OneOperationEach(opOf) && conf.dealReplication >= 1 && LeakyInv(opOf, w, leaked) && Admissible(opOf, w, e)
    ensures LeakyInv(opOf, Step(conf, w, e), leaked)
  {
    StepKeepsSound(conf, opOf, w, e);
    forall b
      ensures SlotLaw(opOf, Step(conf, w, e), LeakedReplicas(leaked, b), b)
    {
      assert SlotLaw(opOf, w, LeakedReplicas(leaked, b), b);
      StepKeepsLaw(conf, opOf, w, LeakedReplicas(leaked, b), e, b);
    }
  }

  lemma {:induction false} AttemptsKeepLaw(conf: Config, opOf: Naming, w: World, leaked: seq<Msg>, attempts: seq<Attempt>)
    requires OneOperationEach(opOf) && conf.dealReplication >= 1 && LeakyInv(opOf, w, leaked)
    requires AdmissibleAttempts(conf, opOf, w, attempts)
    ensures LeakyInv(opOf, DeliverAll(conf, w, attempts), leaked + AllLeaked(conf, w, attempts))
    decreases |attempts|
  {
    if attempts == [] {
      assert leaked + [] == leaked;
    } else {
      var w' := Deliver(conf, w, attempts[0]);
      var first := Leaked(conf, w, attempts[0]);
      AttemptKeepsLaw(conf, opOf, w, leaked, attempts[0]);
      AttemptsKeepLaw(conf, opOf, w', leaked + first, attempts[1..]);
      var rest := AllLeaked(conf, w', attempts[1..]);
      assert leaked + (first + rest) == (leaked + first) + rest;
    }
  }

  lemma EmptyIsLeaky(opOf: Naming)
    ensures LeakyInv(opOf, EMPTY, [])
  {
  }

  /**
   Over every run, with attempts cut short anywhere and the auctions they leaked running like any other: the slots
   of a live batch are its replication factor and the replicas it leaked, no more and no less.
   */
  lemma LeakySlots(conf: Config, opOf: Naming, attempts: seq<Attempt>, b: BatchId)
    requires OneOperationEach(opOf) && conf.dealReplication >= 1 && AdmissibleAttempts(conf, opOf, EMPTY, attempts)
    ensures var w := DeliverAll(conf, EMPTY, attempts);
            SlotLaw(opOf, w, LeakedReplicas(AllLeaked(conf, EMPTY, attempts), b), b)
  {
    EmptyIsLeaky(opOf);
    AttemptsKeepLaw(conf, opOf, EMPTY, [], attempts);
    assert [] + AllLeaked(conf, EMPTY, attempts) == AllLeaked(conf, EMPTY, attempts);
  }

  /** So the account of a batch that has not ended is right if and only if nothing was leaked for it; and it stays
      right for every batch for which nothing was leaked, whatever was leaked for others. */
  lemma RightUnlessLeaked(conf: Config, opOf: Naming, attempts: seq<Attempt>, b: BatchId)
    requires OneOperationEach(opOf) && conf.dealReplication >= 1 && AdmissibleAttempts(conf, opOf, EMPTY, attempts)
    requires b in DeliverAll(conf, EMPTY, attempts).db.batches
    ensures var w := DeliverAll(conf, EMPTY, attempts); var extra := LeakedReplicas(AllLeaked(conf, EMPTY, attempts), b);
            && (extra == 0 ==> SlotsOk(opOf, w, b))
            && (!Terminal(w.db.batches[b].status) ==> (SlotsOk(opOf, w, b) <==> extra == 0))
  {
    LeakySlots(conf, opOf, attempts, b);
  }

  /** Without leaks the invariants agree. */
  lemma InvIsLeaky(opOf: Naming, w: World)
    requires Inv(opOf, w)
    ensures LeakyInv(opOf, w, [])
  {
    forall b | b in w.db.batches ensures BatchSane(w.db.batches[b]) {
      assert BatchOk(w.db.batches[b]);
    }
    forall b ensures SlotLaw(opOf, w, 0, b) {
      if b in w.db.batches {
        assert SlotsOk(opOf, w, b);
      } else {
        UnmentionedBatch(opOf, w, b);
      }
    }
  }
}
