/**
 Safety over runs with attempts cut short: when an ended batch stays ended, when unpin jobs are created once, and what
 leaked auctions leave as it was.
 */
module BrokerAttempts {
  import opened Prelude
  import opened BrokerModel
  import opened BrokerProtocol
  import opened BrokerShapes
  import opened BrokerSlots
  import opened BrokerUnpins
  import opened BrokerDelivery
  import opened BrokerLeaks
  import opened BrokerRuns

  // ---------- Ended batches ----------

  /** The event is a report that is committed and completes the batch, which had failed. */
  predicate Revives(conf: Config, db: DB, e: Event, b: BatchId) {
    && e.DealFinalized? && e.fad.batch == b && Handle(conf, db, e).Commit?
    && Completes(db, e.fad) && db.batches[b].status.Errored?
  }

  /** The only change to the row of an ended batch is that such a report marks it successful. This holds in every
      state, of every event. */
  lemma EndedStep(conf: Config, w: World, e: Event, b: BatchId)
    requires b in w.db.batches && Terminal(w.db.batches[b].status)
    ensures var db' := Step(conf, w, e).db; var ba := w.db.batches[b];
            b in db'.batches && db'.batches[b] == if Revives(conf, w.db, e, b) then ba.(status := Success) else ba
  {
    if Handle(conf, w.db, e).Commit? {
      match e
      case AuctionClosed(op, au, ch) => AuctionClosedBatch(w.db, op, au, ch);
      case DealFinalized(op, fad, ch) => DealFinalizedBatch(w.db, op, fad, ch);
      case _ =>
    }
  }

  predicate RevivedBy(conf: Config, w: World, a: Attempt, b: BatchId) {
    a.cut.None? && Revives(conf, w.db, a.event, b)
  }

  predicate NeverRevived(conf: Config, w: World, attempts: seq<Attempt>, b: BatchId)
    decreases |attempts|
  {
    attempts == [] || (!RevivedBy(conf, w, attempts[0], b) && NeverRevived(conf, Deliver(conf, w, attempts[0]), attempts[1..], b))
  }

  /** Success is final, whatever is delivered, in whatever state, and whatever was leaked. */
  lemma {:induction false} SuccessForever(conf: Config, w: World, attempts: seq<Attempt>, b: BatchId)
    requires b in w.db.batches && w.db.batches[b].status.Success?
    ensures var db := DeliverAll(conf, w, attempts).db; b in db.batches && db.batches[b] == w.db.batches[b]
    decreases |attempts|
  {
    if attempts != [] {
      EndedStep(conf, w, attempts[0].event, b);
      SuccessForever(conf, Deliver(conf, w, attempts[0]), attempts[1..], b);
    }
  }

  /** Failure is final if and only if no report that completes the batch is committed; the first such report marks it
      successful, for good. */
  lemma {:induction false} FailureForeverIff(conf: Config, w: World, attempts: seq<Attempt>, b: BatchId)
    requires b in w.db.batches && w.db.batches[b].status.Errored?
    ensures var db := DeliverAll(conf, w, attempts).db; var ba := w.db.batches[b];
            && b in db.batches
            && db.batches[b] == (if NeverRevived(conf, w, attempts, b) then ba else ba.(status := Success))
    decreases |attempts|
  {
    if attempts != [] {
      var w' := Deliver(conf, w, attempts[0]);
      EndedStep(conf, w, attempts[0].event, b);
      if RevivedBy(conf, w, attempts[0], b) {
        SuccessForever(conf, w', attempts[1..], b);
      } else {
        FailureForeverIff(conf, w', attempts[1..], b);
      }
    }
  }

  /** A report that completes a batch which has ended shows that replicas were leaked for it; and if it is of a deal
      on chain, the batch had failed. */
  lemma CompletedAfterLeak(conf: Config, opOf: Naming, w: World, leaked: seq<Msg>, e: Event)
    requires OneOperationEach(opOf) && LeakyInv(opOf, w, leaked) && Admissible(opOf, w, e)
    requires e.DealFinalized? && Handle(conf, w.db, e).Commit? && Completes(w.db, e.fad)
    requires Terminal(w.db.batches[e.fad.batch].status)
    ensures LeakedReplicas(leaked, e.fad.batch) > 0
    ensures e.fad.dealId > 0 ==> w.db.batches[e.fad.batch].status.Errored?
  {
    var DealFinalized(op, fad, ch) := e;
    var k: nat :| k < |w.db.deals| && Matches(w.db.deals[k], fad.batch, fad.provider);
    RecordedCounts(opOf, w, op, fad, k, fad.batch);
    assert SlotLaw(opOf, w, LeakedReplicas(leaked, fad.batch), fad.batch);
  }

  lemma {:induction false} NotRevivedUnlessLeaked(conf: Config, opOf: Naming, w: World, leaked: seq<Msg>, attempts: seq<Attempt>, b: BatchId)
    requires OneOperationEach(opOf) && conf.dealReplication >= 1 && LeakyInv(opOf, w, leaked)
    requires AdmissibleAttempts(conf, opOf, w, attempts)
    requires LeakedReplicas(leaked + AllLeaked(conf, w, attempts), b) == 0
    ensures NeverRevived(conf, w, attempts, b)
    decreases |attempts|
  {
    if attempts != [] {
      var w' := Deliver(conf, w, attempts[0]);
      var first, rest := Leaked(conf, w, attempts[0]), AllLeaked(conf, w', attempts[1..]);
      assert leaked + (first + rest) == (leaked + first) + rest;
      SumConcat(leaked, first + rest, AskedFor(b));
      if RevivedBy(conf, w, attempts[0], b) {
        CompletedAfterLeak(conf, opOf, w, leaked, attempts[0].event);
      }
      AttemptKeepsLaw(conf, opOf, w, leaked, attempts[0]);
      NotRevivedUnlessLeaked(conf, opOf, w', leaked + first, attempts[1..], b);
    }
  }

  /** In particular a batch that ended stays as it is if nothing was leaked for it. */
  lemma EndedUnlessLeaked(conf: Config, opOf: Naming, w: World, leaked: seq<Msg>, attempts: seq<Attempt>, b: BatchId)
    requires OneOperationEach(opOf) && conf.dealReplication >= 1 && LeakyInv(opOf, w, leaked)
    requires AdmissibleAttempts(conf, opOf, w, attempts)
    requires b in w.db.batches && Terminal(w.db.batches[b].status)
    requires LeakedReplicas(leaked + AllLeaked(conf, w, attempts), b) == 0
    ensures var db := DeliverAll(conf, w, attempts).db; b in db.batches && db.batches[b] == w.db.batches[b]
  {
    if w.db.batches[b].status.Success? {
      SuccessForever(conf, w, attempts, b);
    } else {
      NotRevivedUnlessLeaked(conf, opOf, w, leaked, attempts, b);
      FailureForeverIff(conf, w, attempts, b);
    }
  }

  // ---------- Unpin jobs ----------

  /** The attempt commits a report that completes a rebatchable batch which has ended already. */
  predicate EndedAgainBy(conf: Config, w: World, a: Attempt) {
    a.cut.None? && EventEndsAgain(conf, w.db, a.event)
  }

  predicate NeverEndedAgain(conf: Config, w: World, attempts: seq<Attempt>)
    decreases |attempts|
  {
    attempts == [] || (!EndedAgainBy(conf, w, attempts[0]) && NeverEndedAgain(conf, Deliver(conf, w, attempts[0]), attempts[1..]))
  }

  /** One batch-unpin job beyond the account for each attempt that ends a batch with this payload again. */
  function AllExtraBatchJobs(conf: Config, w: World, attempts: seq<Attempt>, c: Cid): nat
    decreases |attempts|
  {
    if attempts == [] then 0 else
    (if EndedAgainBy(conf, w, attempts[0]) then ExtraBatchJobs(w.db, attempts[0].event.fad, c) else 0)
      + AllExtraBatchJobs(conf, Deliver(conf, w, attempts[0]), attempts[1..], c)
  }

  /** And as many data-unpin jobs as the batch has requests with this data, if it had succeeded already. */
  function AllExtraDataJobs(conf: Config, w: World, attempts: seq<Attempt>, c: Cid): nat
    decreases |attempts|
  {
    if attempts == [] then 0 else
    (if EndedAgainBy(conf, w, attempts[0]) then ExtraDataJobs(w.db, attempts[0].event.fad, c) else 0)
      + AllExtraDataJobs(conf, Deliver(conf, w, attempts[0]), attempts[1..], c)
  }

  lemma AttemptExcess(conf: Config, opOf: Naming, w: World, a: Attempt, c: Cid)
    requires conf.dealReplication >= 1 && Sound(opOf, w) && AdmissibleAttempt(opOf, w, a)
    ensures var db', again := Deliver(conf, w, a).db, EndedAgainBy(conf, w, a);
            && BatchExcess(db', c) == BatchExcess(w.db, c) + (if again then ExtraBatchJobs(w.db, a.event.fad, c) else 0)
            && DataExcess(db', c) == DataExcess(w.db, c) + (if again then ExtraDataJobs(w.db, a.event.fad, c) else 0)
  {
    if EndedAgainBy(conf, w, a) {
      var DealFinalized(op, fad, ch) := a.event;
      FinalizingExcess(opOf, w.db, op, fad, ch, c);
    } else if a.cut.None? {
      StepKeepsExcess(conf, opOf, w, a.event);
    }
  }

  /** Over every run from every sound state, the unpin jobs of a cid are those of the account, and the extra ones. */
  lemma {:induction false} AttemptsExcess(conf: Config, opOf: Naming, w: World, attempts: seq<Attempt>, c: Cid)
    requires OneOperationEach(opOf) && conf.dealReplication >= 1 && Sound(opOf, w)
    requires AdmissibleAttempts(conf, opOf, w, attempts)
    ensures var db := DeliverAll(conf, w, attempts).db;
            && BatchExcess(db, c) == BatchExcess(w.db, c) + AllExtraBatchJobs(conf, w, attempts, c)
            && DataExcess(db, c) == DataExcess(w.db, c) + AllExtraDataJobs(conf, w, attempts, c)
    decreases |attempts|
  {
    if attempts != [] {
      AttemptExcess(conf, opOf, w, attempts[0], c);
      AttemptKeepsSound(conf, opOf, w, attempts[0]);
      AttemptsExcess(conf, opOf, Deliver(conf, w, attempts[0]), attempts[1..], c);
    }
  }

  lemma {:induction false} NoExtraJobs(conf: Config, w: World, attempts: seq<Attempt>, c: Cid)
    requires NeverEndedAgain(conf, w, attempts)
    ensures AllExtraBatchJobs(conf, w, attempts, c) == 0 && AllExtraDataJobs(conf, w, attempts, c) == 0
    decreases |attempts|
  {
    if attempts != [] { NoExtraJobs(conf, Deliver(conf, w, attempts[0]), attempts[1..], c); }
  }

  lemma {:induction false} SomeExtraJob(conf: Config, w: World, attempts: seq<Attempt>) returns (c: Cid)
    requires !NeverEndedAgain(conf, w, attempts)
    ensures AllExtraBatchJobs(conf, w, attempts, c) > 0
    decreases |attempts|
  {
    if EndedAgainBy(conf, w, attempts[0]) {
      c := w.db.batches[attempts[0].event.fad.batch].payloadCid;
    } else {
      c := SomeExtraJob(conf, Deliver(conf, w, attempts[0]), attempts[1..]);
    }
  }

  /**
   Over every run, with attempts cut short anywhere: unpin jobs are created once, for every cid, if and only if no
   report is committed that completes a rebatchable batch which has ended already.
   */
  lemma UnpinnedOnceIff(conf: Config, opOf: Naming, attempts: seq<Attempt>)
    requires OneOperationEach(opOf) && conf.dealReplication >= 1 && AdmissibleAttempts(conf, opOf, EMPTY, attempts)
    ensures UnpinsOk(DeliverAll(conf, EMPTY, attempts).db) <==> NeverEndedAgain(conf, EMPTY, attempts)
  {
    var db := DeliverAll(conf, EMPTY, attempts).db;
    forall c: Cid
      ensures BatchExcess(db, c) == AllExtraBatchJobs(conf, EMPTY, attempts, c)
      ensures DataExcess(db, c) == AllExtraDataJobs(conf, EMPTY, attempts, c)
    {
      UnpinAccount(conf, opOf, attempts, c);
    }
    if NeverEndedAgain(conf, EMPTY, attempts) {
      forall c: Cid ensures BatchExcess(db, c) == 0 && DataExcess(db, c) == 0 {
        NoExtraJobs(conf, EMPTY, attempts, c);
      }
      NoExcess(db);
    } else {
      var c := SomeExtraJob(conf, EMPTY, attempts);
      assert BatchExcess(db, c) > 0;
    }
  }

  /** How many unpin jobs there are in any case. */
  lemma UnpinAccount(conf: Config, opOf: Naming, attempts: seq<Attempt>, c: Cid)
    requires OneOperationEach(opOf) && conf.dealReplication >= 1 && AdmissibleAttempts(conf, opOf, EMPTY, attempts)
    ensures var db := DeliverAll(conf, EMPTY, attempts).db;
            && SumOf(db.unpins, IsJob(c, UnpinBatch)) == |EndedBatches(db, c)| + AllExtraBatchJobs(conf, EMPTY, attempts, c)
            && SumOf(db.unpins, IsJob(c, UnpinData)) == |StoredRequests(db, c)| + AllExtraDataJobs(conf, EMPTY, attempts, c)
  {
    EmptyIsLeaky(opOf);
    AttemptsExcess(conf, opOf, EMPTY, attempts, c);
    assert EndedBatches(EMPTY.db, c) == {} && StoredRequests(EMPTY.db, c) == {};
  }

  // ---------- What leaks leave as it was ----------

  lemma {:induction false} AttemptsKeepSound(conf: Config, opOf: Naming, w: World, attempts: seq<Attempt>)
    requires OneOperationEach(opOf) && conf.dealReplication >= 1 && Sound(opOf, w)
    requires AdmissibleAttempts(conf, opOf, w, attempts)
    ensures Sound(opOf, DeliverAll(conf, w, attempts))
    decreases |attempts|
  {
    if attempts != [] {
      AttemptKeepsSound(conf, opOf, w, attempts[0]);
      AttemptsKeepSound(conf, opOf, Deliver(conf, w, attempts[0]), attempts[1..]);
    }
  }

  /** Requests mirror their batch, whatever was leaked. */
  lemma RequestsMirrorBatches(conf: Config, opOf: Naming, attempts: seq<Attempt>, r: RequestId)
    requires OneOperationEach(opOf) && conf.dealReplication >= 1 && AdmissibleAttempts(conf, opOf, EMPTY, attempts)
    requires r in DeliverAll(conf, EMPTY, attempts).db.requests && DeliverAll(conf, EMPTY, attempts).db.requests[r].batch.Some?
    ensures Mirrored(DeliverAll(conf, EMPTY, attempts).db, r)
  {
    EmptyIsLeaky(opOf);
    AttemptsKeepSound(conf, opOf, EMPTY, attempts);
    MirrorsBatch(DeliverAll(conf, EMPTY, attempts).db, r);
  }

  /** Only targeted batches repeat a provider, whatever was leaked. */
  lemma ProvidersNotRepeated(conf: Config, opOf: Naming, attempts: seq<Attempt>, i: nat, j: nat)
    requires OneOperationEach(opOf) && conf.dealReplication >= 1 && AdmissibleAttempts(conf, opOf, EMPTY, attempts)
    requires i < j < |DeliverAll(conf, EMPTY, attempts).db.deals|
    ensures RepeatIsTargeted(DeliverAll(conf, EMPTY, attempts).db, i, j)
  {
    EmptyIsLeaky(opOf);
    AttemptsKeepSound(conf, opOf, EMPTY, attempts);
    assert NoRepeatedProvider(DeliverAll(conf, EMPTY, attempts).db);
  }
}
