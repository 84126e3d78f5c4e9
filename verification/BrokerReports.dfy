/** Why one operation id per deal is needed: what a second report on a deal does, under another operation id. */
module BrokerReports {
  import opened Prelude
  import opened BrokerModel
  import opened BrokerProtocol
  import opened BrokerShapes
  import opened BrokerSlots
  import opened BrokerUnpins

  /** Every provider the batch targets already holds a deal for its piece. */
  predicate NoTargetLeft(db: DB, ba: Batch) {
    ba.providers != [] && forall p | p in ba.providers :: p in ExcludedProviders(db, ba.pieceCid, ba.origin)
  }

  /** The report is of a failure, and an auction is asked for. */
  predicate Reauctioned(db: DB, fad: FinalizedDeal, epoch: nat)
    requires fad.batch in db.batches
  {
    var ba := db.batches[fad.batch];
    fad.errorCause != "" && !PastDeadline(ba, fad, epoch) && !NoTargetLeft(db, ba)
  }

  /** Writing the result of a deal does not change who is excluded. */
  lemma ResultsDontExclude(db: DB, op: OperationId, fad: FinalizedDeal, piece: Option<Cid>, origin: Origin)
    ensures ExcludedProviders(db.(operations := db.operations + {op}, deals := UpdateDeals(db.deals, fad)), piece, origin)
            == ExcludedProviders(db, piece, origin)
  {
    var db1 := db.(operations := db.operations + {op}, deals := UpdateDeals(db.deals, fad));
    if piece.Some? {
      forall p | p in ExcludedProviders(db, piece, origin) ensures p in ExcludedProviders(db1, piece, origin) {
        var i :| 0 <= i < |db.deals| && DealFor(db, db.deals[i], piece.value, origin) && db.deals[i].provider == p;
        assert db1.deals[i] in db1.deals && DealFor(db1, db1.deals[i], piece.value, origin);
      }
      forall p | p in ExcludedProviders(db1, piece, origin) ensures p in ExcludedProviders(db, piece, origin) {
        var i :| 0 <= i < |db1.deals| && DealFor(db1, db1.deals[i], piece.value, origin) && db1.deals[i].provider == p;
        assert db.deals[i] in db.deals && DealFor(db, db.deals[i], piece.value, origin);
      }
    }
  }

  /** The row after a report. */
  function Written(d: Deal, fad: FinalizedDeal): Deal {
    d.(dealId := fad.dealId, expiration := fad.expiration, errorCause := fad.errorCause)
  }

  /** What any report does to its batch and what it asks for. */
  lemma ReportEffect(db: DB, op: OperationId, fad: FinalizedDeal, ch: Choices)
    requires BatchFinalizedDeal(db, op, fad, ch).Commit? && fad.batch in db.batches
    ensures var o := BatchFinalizedDeal(db, op, fad, ch); var ba := db.batches[fad.batch];
            && (o.msgs != [] <==> Reauctioned(db, fad, ch.startEpoch))
            && fad.batch in o.db.batches && o.db.batches[fad.batch].repFactor == ba.repFactor
            && o.db.batches[fad.batch].status ==
               (if Completes(db, fad) then Success
                else if fad.errorCause != "" && Live(ba.status) && !Reauctioned(db, fad, ch.startEpoch) then Errored
                else ba.status)
  {
    var ba := db.batches[fad.batch];
    ResultsDontExclude(db, op, fad, ba.pieceCid, ba.origin);
  }

  /** What a report under an operation id that names nothing else does to the counts: it rewrites one row, and may
      ask for one replica. */
  lemma ReportCounts(opOf: Naming, w: World, op: OperationId, fad: FinalizedDeal, ch: Choices, k: nat)
    requires op !in w.db.operations && (forall s :: opOf(s) != op) && opOf(AuctionClosing(ch.auctionId)) !in w.db.operations
    requires UniqueRows(w.db.deals) && k < |w.db.deals| && Matches(w.db.deals[k], fad.batch, fad.provider)
    requires fad.batch in w.db.batches && BatchFinalizedDeal(w.db, op, fad, ch).Commit?
    ensures var o := BatchFinalizedDeal(w.db, op, fad, ch); var w' := World(o.db, w.published + o.msgs);
            var b, was, written := fad.batch, w.db.deals[k], Written(w.db.deals[k], fad);
            && OpenReplicas(opOf, w', b) == OpenReplicas(opOf, w, b) + (if Reauctioned(w.db, fad, ch.startEpoch) then 1 else 0)
            && PendingDeals(w', b) + PendingIn(b)(was) == PendingDeals(w, b) + PendingIn(b)(written)
            && ConfirmedDeals(w', b) + ConfirmedIn(b)(was) == ConfirmedDeals(w, b) + ConfirmedIn(b)(written)
  {
    var o := BatchFinalizedDeal(w.db, op, fad, ch);
    var w1, ba := Recorded(w, op, fad), w.db.batches[fad.batch];
    RecordOther(opOf, w, op, fad.batch);
    UpdateOneRow(w.db.deals, fad, k, fad.batch);
    DealFinalizedBatch(w.db, op, fad, ch);
    ReportEffect(w.db, op, fad, ch);
    if Reauctioned(w.db, fad, ch.startEpoch) {
      StartAuctionCounts(opOf, w1, fad.batch, ba, ch.auctionId, 1, ba.pieceSize, ch.startEpoch, false, fad.batch);
    } else {
      assert w.published + o.msgs == w.published;
    }
  }

  /** Whether a second report keeps the slots of its batch right: by the status of the batch, what the row said and
      what the report says. */
  predicate SlotsSurvive(opOf: Naming, w: World, fad: FinalizedDeal, epoch: nat, was: Deal)
    requires fad.batch in w.db.batches
  {
    var b := fad.batch;
    var ba := w.db.batches[b];
    var failed, won := fad.errorCause != "", fad.errorCause == "" && fad.dealId > 0;
    var dropped := failed && !Reauctioned(w.db, fad, epoch);
    match ba.status
    case Success => (Confirmed(was) && won) || (was.errorCause != "" && dropped)
    case Errored => || was.errorCause == "" || dropped || Slots(opOf, w, b) + 1 < ba.repFactor
                    || (won && ConfirmedDeals(w, b) + 1 == ba.repFactor)
    case _ => was.errorCause == ""
  }

  /**
   If a deal is reported on again under another operation id, with the same result or another, the slots of its batch
   stay right if and only if: the batch is live and the deal had not failed; or the batch failed and the deal had not,
   or nothing is auctioned for it, or a slot beyond the one it takes is still missing, or it completes the batch; or the
   batch succeeded and the report repeats a success, or repeats a failure that is not auctioned.
   */
  lemma RepeatedReport(opOf: Naming, w: World, op: OperationId, fad: FinalizedDeal, ch: Choices, k: nat)
    requires OneOperationEach(opOf) && Inv(opOf, w)
    requires op !in w.db.operations && FreshAuction(w, ch.auctionId)
    requires forall s :: opOf(s) != op
    requires k < |w.db.deals| && Matches(w.db.deals[k], fad.batch, fad.provider)
    requires BatchFinalizedDeal(w.db, op, fad, ch).Commit?
    ensures var o := BatchFinalizedDeal(w.db, op, fad, ch);
            && fad.batch in w.db.batches && fad.batch in o.db.batches
            && (SlotsOk(opOf, World(o.db, w.published + o.msgs), fad.batch)
                <==> SlotsSurvive(opOf, w, fad, ch.startEpoch, w.db.deals[k]))
  {
    assert !w.db.batches[w.db.deals[k].batch].status.Preparing?;
    FreshOperation(opOf, w, ch.auctionId);
    ReportEffect(w.db, op, fad, ch);
    ReportCounts(opOf, w, op, fad, ch, k);
    SumAtLeast(w.db.deals, PendingIn(fad.batch), k);
    SumAtLeast(w.db.deals, ConfirmedIn(fad.batch), k);
    var o := BatchFinalizedDeal(w.db, op, fad, ch);
    assert o.db.deals == UpdateDeals(w.db.deals, fad) by { DealFinalizedBatch(w.db, op, fad, ch); }
    SurvivesByCounts(opOf, w, World(o.db, w.published + o.msgs), fad, ch.startEpoch, w.db.deals[k]);
  }

  /** The counts and the status after a report decide. */
  lemma SurvivesByCounts(opOf: Naming, w: World, w': World, fad: FinalizedDeal, epoch: nat, was: Deal)
    requires fad.batch in w.db.batches && fad.batch in w'.db.batches && was.batch == fad.batch
    requires SlotsOk(opOf, w, fad.batch) && !w.db.batches[fad.batch].status.Preparing?
    requires w'.db.deals == UpdateDeals(w.db.deals, fad)
    requires PendingIn(fad.batch)(was) <= PendingDeals(w, fad.batch) && ConfirmedIn(fad.batch)(was) <= ConfirmedDeals(w, fad.batch)
    requires var b, written := fad.batch, Written(was, fad);
             && OpenReplicas(opOf, w', b) == OpenReplicas(opOf, w, b) + (if Reauctioned(w.db, fad, epoch) then 1 else 0)
             && PendingDeals(w', b) + PendingIn(b)(was) == PendingDeals(w, b) + PendingIn(b)(written)
             && ConfirmedDeals(w', b) + ConfirmedIn(b)(was) == ConfirmedDeals(w, b) + ConfirmedIn(b)(written)
    requires var ba, ba' := w.db.batches[fad.batch], w'.db.batches[fad.batch];
             && ba'.repFactor == ba.repFactor
             && ba'.status == (if Completes(w.db, fad) then Success
                               else if fad.errorCause != "" && Live(ba.status) && !Reauctioned(w.db, fad, epoch) then Errored
                               else ba.status)
    ensures SlotsOk(opOf, w', fad.batch) <==> SlotsSurvive(opOf, w, fad, epoch, was)
  {
    assert Completes(w.db, fad) <==> fad.errorCause == "" && ConfirmedDeals(w', fad.batch) == w.db.batches[fad.batch].repFactor;
  }

  // ---------- Cases ----------

  /** A batch has succeeded with its only deal, and the deal is then reported as failed: the batch stays successful
      without any confirmed deal, and an auction is asked for whose winners it will not take. */
  lemma SuccessThenFailure(opOf: Naming)
    requires OneOperationEach(opOf) && opOf(DealFinalization(0, 4)) == 3
    ensures Inv(opOf, STORED)
    ensures var o := BatchFinalizedDeal(STORED_DB, 5, FinalizedDeal(0, 4, 0, 0, "failed"), Choices([], [2], 11, 0, 1, []));
            && o.Commit? && 0 in o.db.batches && o.db.batches[0].status.Success?
            && ConfirmedDeals(World(o.db, o.msgs), 0) == 0 < o.db.batches[0].repFactor
            && o.msgs != []
  {
    StoredInv(opOf);
    var fad, ch := FinalizedDeal(0, 4, 0, 0, "failed"), Choices([], [2], 11, 0, 1, []);
    assert Matches(STORED_DB.deals[0], 0, 4);
    var o := BatchFinalizedDeal(STORED_DB, 5, fad, ch);
    assert !PastDeadline(STORED_DB.batches[0], fad, 1);
    ReportEffect(STORED_DB, 5, fad, ch);
    assert o.db.deals == [Deal(0, 10, 1, 4, 0, 0, "failed")];
    SumZero(o.db.deals, ConfirmedIn(0));
  }

  const TARGETED := Batch(DealMaking, 1, 1, 7, Some(8), 1, Some(6), true, 0, 1, [4, 5], "")
  const FAILED := Deal(0, 1, 2, 4, 0, 0, "failed")
  const REPEATED := FinalizedDeal(0, 4, 0, 0, "failed")

  const OVERFILLED := World(DB(map[0 := TARGETED], map[], [FAILED], {3}, []),
                            [ReadyToAuction(10, 0, 7, 1, 1, 1, {4}, 1, [4, 5])])

  lemma RepeatedFailureIsAuctioned()
    ensures BatchFinalizedDeal(OVERFILLED.db, 4, REPEATED, Choices([], [], 11, 0, 1, []))
            == Commit(OVERFILLED.db.(operations := {3, 4}), [ReadyToAuction(11, 0, 7, 1, 1, 1, {4}, 1, [4, 5])], false)
  {
    var db := OVERFILLED.db;
    assert Matches(db.deals[0], 0, 4);
    assert UpdateDeals(db.deals, REPEATED) == db.deals;
    var db1 := db.(operations := db.operations + {4}, deals := UpdateDeals(db.deals, REPEATED));
    assert db1 == db.(operations := {3, 4});
    assert FAILED in db1.deals && DealFor(db1, FAILED, 8, 1);
    assert ExcludedProviders(db1, Some(8), 1) == {4};
    assert 5 in TARGETED.providers;
    assert !PastDeadline(TARGETED, REPEATED, 1);
  }

  lemma OverfilledSlots(opOf: Naming)
    requires OneOperationEach(opOf) && opOf(AuctionClosing(10)) == 1
    ensures SlotsOk(opOf, OVERFILLED, 0)
  {
    SumOnes(OVERFILLED.published, OpenWeight(opOf, {3}, 0));
    OneDealFailed();
  }

  lemma OverfilledUnpins()
    ensures UnpinsOk(OVERFILLED.db)
  {
    var db := OVERFILLED.db;
    forall c: Cid ensures BatchExcess(db, c) == 0 && DataExcess(db, c) == 0 {
      assert EndedBatches(db, c) == {} && StoredRequests(db, c) == {};
    }
    NoExcess(db);
  }

  lemma OverfilledInv(opOf: Naming)
    requires OneOperationEach(opOf) && opOf(AuctionClosing(10)) == 1 && opOf(DealFinalization(0, 4)) == 3
    ensures Inv(opOf, OVERFILLED)
  {
    var w := OVERFILLED;
    assert Matches(w.db.deals[0], 0, 4) && Known(w, DealFinalization(0, 4));
    OverfilledSlots(opOf);
    OverfilledUnpins();
  }

  /** The smallest overfilled batch: one replica wanted, its only deal failed and already auctioned again,
      and the failure reported once more. */
  lemma FailureReportedTwice(opOf: Naming)
    requires OneOperationEach(opOf)
    requires opOf(AuctionClosing(10)) == 1 && opOf(AuctionClosing(11)) == 2 && opOf(DealFinalization(0, 4)) == 3
    ensures Inv(opOf, OVERFILLED)
    ensures var o := BatchFinalizedDeal(OVERFILLED.db, 4, REPEATED, Choices([], [], 11, 0, 1, []));
            && Slots(opOf, OVERFILLED, 0) == 1 == OVERFILLED.db.batches[0].repFactor
            && o.Commit? && Slots(opOf, World(o.db, OVERFILLED.published + o.msgs), 0) == 2
  {
    OverfilledInv(opOf);
    RepeatedFailureIsAuctioned();
    OneDealFailed();
    var asked, again := OVERFILLED.published[0], ReadyToAuction(11, 0, 7, 1, 1, 1, {4}, 1, [4, 5]);
    OneAuctionEach(asked, again, OpenWeight(opOf, {3}, 0), OpenWeight(opOf, {3, 4}, 0));
  }

  lemma OneDealFailed()
    ensures SumOf([FAILED], PendingIn(0)) == SumOf([FAILED], ConfirmedIn(0)) == 0
  {
    SumZero([FAILED], PendingIn(0));
    SumZero([FAILED], ConfirmedIn(0));
  }

  lemma OneAuctionEach(m: Msg, n: Msg, f: Msg -> nat, g: Msg -> nat)
    ensures SumOf([m], f) == f(m) && SumOf([m] + [n], g) == g(m) + g(n)
  {
    SumAppend([], m, f);
    SumAppend([], m, g);
    SumAppend([m], n, g);
    assert [] + [m] == [m];
  }
}
