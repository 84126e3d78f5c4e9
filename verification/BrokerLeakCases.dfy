/** Runs in which what was leaked shows: a replica too many, a failed batch that succeeds and is unpinned twice, and
    requests sent to the packer twice. */
module BrokerLeakCases {
  import opened Prelude
  import opened BrokerModel
  import opened BrokerProtocol
  import opened BrokerUnpins
  import opened BrokerDelivery
  import opened BrokerLeaks

  /** One more attempt at the end. */
  lemma {:induction false} OneMore(conf: Config, opOf: Naming, w: World, attempts: seq<Attempt>, a: Attempt)
    ensures DeliverAll(conf, w, attempts + [a]) == Deliver(conf, DeliverAll(conf, w, attempts), a)
    ensures AdmissibleAttempts(conf, opOf, w, attempts + [a]) <==>
            AdmissibleAttempts(conf, opOf, w, attempts) && AdmissibleAttempt(opOf, DeliverAll(conf, w, attempts), a)
    decreases |attempts|
  {
    var all := attempts + [a];
    if attempts == [] {
      assert all[0] == a && all[1..] == [];
    } else {
      OneMore(conf, opOf, Deliver(conf, w, attempts[0]), attempts[1..], a);
      assert all[0] == attempts[0] && all[1..] == attempts[1..] + [a];
    }
  }

  lemma TwoAttempts(conf: Config, opOf: Naming, w: World, a: Attempt, b: Attempt)
    ensures DeliverAll(conf, w, [a, b]) == Deliver(conf, Deliver(conf, w, a), b)
    ensures AdmissibleAttempts(conf, opOf, w, [a, b]) <==>
            AdmissibleAttempt(opOf, w, a) && AdmissibleAttempt(opOf, Deliver(conf, w, a), b)
  {
    OneMore(conf, opOf, w, [], a);
    OneMore(conf, opOf, w, [a], b);
    assert [] + [a] == [a] && [a] + [b] == [a, b];
  }

  /** What a committed attempt does. */
  lemma Committed(conf: Config, w: World, e: Event, db: DB, msgs: seq<Msg>)
    requires Handle(conf, w.db, e) == Commit(db, msgs, false)
    ensures Deliver(conf, w, Attempt(e, None)) == World(db, w.published + msgs)
  {
  }

  /** What a won auction without a gap does. */
  lemma WonOutcome(db: DB, op: OperationId, au: ClosedAuction, ch: Choices, db': DB, acc: seq<BidId>, msgs: seq<Msg>)
    requires op !in db.operations && au.batch in db.batches && Live(db.batches[au.batch].status) && au.errorCause == ""
    requires var db1, ba := db.(operations := db.operations + {op}), db.batches[au.batch];
             && AddDeals(db1, au, ch.bidOrder).accepted == acc && ba.carUrl.Some?
             && GapEffect(db1, au, ba, ch) == Some(Effect(db', [])) && DealMessages(au, ba, ch, acc) == msgs
    ensures BatchAuctioned(db, op, au, ch) == Commit(db', msgs, false)
  {
    assert [] + msgs == msgs;
  }

  lemma OneAccepted(bids: map<BidId, WinningBid>, x: BidId, excluded: set<Provider>)
    requires x in bids && bids[x].provider !in excluded
    ensures AcceptedBids([x], bids, excluded) == [x]
  {
    assert [x][..0] == [];
    assert AcceptedBids([], bids, excluded) == [];
  }

  /** What adding the deal of one winner does, in a batch that is making deals. */
  lemma OneWinnerAdded(db: DB, au: ClosedAuction, x: BidId)
    requires au.batch in db.batches && db.batches[au.batch].status.DealMaking? && x in au.winningBids
    requires au.winningBids[x].provider !in AuctionExclusions(db, db.batches[au.batch])
    ensures AddDeals(db, au, [x]) == Added(db.(deals := db.deals + [NewDeal(au, x)]), [x])
  {
    OneAccepted(au.winningBids, x, AuctionExclusions(db, db.batches[au.batch]));
    assert NewDeals(au, [x]) == [NewDeal(au, x)];
  }

  // ---------- A replica too many ----------

  const PACKED := Batch(DealMaking, 1, 1, 7, Some(8), 1, Some(6), false, 0, 1, [], "")
  const REQUEST := Request(9, 1, RequestDealMaking, Some(0), 0, "")
  const FAILED_DEAL := Deal(0, 10, 1, 4, 0, 0, "failed")
  const FAILURE := FinalizedDeal(0, 4, 0, 0, "failed")

  function Ask(id: AuctionId, excluded: set<Provider>): Msg {
    ReadyToAuction(id, 0, 7, 1, 1, 1, excluded, 1, [])
  }

  /** A batch of one request that wants one replica, and has its deal with provider 4 pending. */
  const ONE_PENDING := World(DB(map[0 := PACKED], map[2 := REQUEST], [Deal(0, 10, 1, 4, 0, 0, "")], {1}, []), [Ask(10, {})])

  /** The operation ids of the auctions and deals of these runs. */
  ghost predicate Named(opOf: Naming) {
    && OneOperationEach(opOf)
    && opOf(AuctionClosing(10)) == 1 && opOf(AuctionClosing(11)) == 2 && opOf(AuctionClosing(12)) == 6
    && opOf(DealFinalization(0, 4)) == 3 && opOf(DealFinalization(0, 5)) == 4
  }

  lemma OnePendingSlots(opOf: Naming)
    requires Named(opOf)
    ensures SlotsOk(opOf, ONE_PENDING, 0)
  {
    var w := ONE_PENDING;
    SumZero(w.published, OpenWeight(opOf, {1}, 0));
    SumOnes(w.db.deals, PendingIn(0));
    SumZero(w.db.deals, ConfirmedIn(0));
  }

  lemma OnePendingUnpins()
    ensures UnpinsOk(ONE_PENDING.db)
  {
    var db := ONE_PENDING.db;
    forall c: Cid ensures BatchExcess(db, c) == 0 && DataExcess(db, c) == 0 {
      assert EndedBatches(db, c) == {} && StoredRequests(db, c) == {};
    }
    NoExcess(db);
  }

  lemma OnePendingInv(opOf: Naming)
    requires Named(opOf)
    ensures Inv(opOf, ONE_PENDING)
  {
    var w := ONE_PENDING;
    assert Asks(w.published, 0, 10) && Known(w, AuctionClosing(10));
    OnePendingSlots(opOf);
    OnePendingUnpins();
  }

  /** The report of the failure of the pending deal. */
  function Report(id: AuctionId): Event {
    DealFinalized(3, FAILURE, Choices([], [2], id, 0, 1, []))
  }

  const REPORTED_DB := ONE_PENDING.db.(operations := {1, 3}, deals := [FAILED_DEAL])

  /** The failed deal is auctioned again, with its provider excluded. */
  lemma FailureIsAuctioned(id: AuctionId)
    ensures BatchFinalizedDeal(ONE_PENDING.db, 3, FAILURE, Choices([], [2], id, 0, 1, []))
            == Commit(REPORTED_DB, [Ask(id, {4})], false)
  {
    var db := ONE_PENDING.db;
    assert Matches(db.deals[0], 0, 4);
    var db1 := db.(operations := db.operations + {3}, deals := UpdateDeals(db.deals, FAILURE));
    assert UpdateDeals(db.deals, FAILURE) == [FAILED_DEAL];
    assert db1 == REPORTED_DB;
    assert FAILED_DEAL in db1.deals && DealFor(db1, FAILED_DEAL, 8, 1);
    assert ExcludedProviders(db1, Some(8), 1) == {4};
    assert !PastDeadline(PACKED, FAILURE, 1);
  }

  const LEAKED_ONE := World(ONE_PENDING.db, [Ask(10, {}), Ask(11, {4})])
  const REPORTED := World(REPORTED_DB, [Ask(10, {}), Ask(11, {4}), Ask(12, {4})])

  const CUT_REPORT := Attempt(Report(11), Some(1))
  const SECOND_REPORT := Attempt(Report(12), None)

  lemma FirstAttempt(conf: Config, opOf: Naming)
    requires Named(opOf)
    ensures AdmissibleAttempt(opOf, ONE_PENDING, CUT_REPORT)
    ensures Leaked(conf, ONE_PENDING, CUT_REPORT) == [Ask(11, {4})] && Deliver(conf, ONE_PENDING, CUT_REPORT) == LEAKED_ONE
  {
    FailureIsAuctioned(11);
    assert Attached(ONE_PENDING.db.requests, 0) == {2};
    assert [Ask(11, {4})][..1] == [Ask(11, {4})];
    assert ONE_PENDING.published + [Ask(11, {4})] == LEAKED_ONE.published;
  }

  lemma SecondAttempt(conf: Config, opOf: Naming)
    requires Named(opOf)
    ensures AdmissibleAttempt(opOf, LEAKED_ONE, SECOND_REPORT)
    ensures Deliver(conf, LEAKED_ONE, SECOND_REPORT) == REPORTED
  {
    FailureIsAuctioned(12);
    assert Attached(ONE_PENDING.db.requests, 0) == {2};
    assert LEAKED_ONE.published + [Ask(12, {4})] == REPORTED.published;
  }

  /** A run whose commit fails: the auction for the failed deal went out, the report is delivered again, and a batch
      that wants one replica has two. */
  lemma LostCommit(conf: Config, opOf: Naming)
    requires conf.dealReplication >= 1 && Named(opOf)
    ensures var w := DeliverAll(conf, ONE_PENDING, [CUT_REPORT, SECOND_REPORT]);
            && Inv(opOf, ONE_PENDING) && AdmissibleAttempts(conf, opOf, ONE_PENDING, [CUT_REPORT, SECOND_REPORT])
            && w == REPORTED && Slots(opOf, w, 0) == 2 == PACKED.repFactor + 1
  {
    OnePendingInv(opOf);
    FirstAttempt(conf, opOf);
    SecondAttempt(conf, opOf);
    TwoAttempts(conf, opOf, ONE_PENDING, CUT_REPORT, SECOND_REPORT);
    ReportedSlots(conf, opOf);
  }

  lemma ReportedSlots(conf: Config, opOf: Naming)
    requires conf.dealReplication >= 1 && Named(opOf)
    ensures Slots(opOf, REPORTED, 0) == 2
  {
    OnePendingInv(opOf);
    InvIsLeaky(opOf, ONE_PENDING);
    FirstAttempt(conf, opOf);
    SecondAttempt(conf, opOf);
    AttemptKeepsLaw(conf, opOf, ONE_PENDING, [], CUT_REPORT);
    AttemptKeepsLaw(conf, opOf, LEAKED_ONE, [] + [Ask(11, {4})], SECOND_REPORT);
    var leaked := ([] + [Ask(11, {4})]) + Leaked(conf, LEAKED_ONE, SECOND_REPORT);
    assert leaked == [] + [Ask(11, {4})];
    SumAppend([], Ask(11, {4}), AskedFor(0));
    assert SlotLaw(opOf, REPORTED, LeakedReplicas(leaked, 0), 0);
  }

  // ---------- A failed batch that succeeds and is unpinned twice ----------

  const WON := ClosedAuction(11, 0, 1, false, map[2 := WinningBid(5, 0, 9, true)], "")
  const WON_CHOICES := Choices([2], [2], 20, 0, 1, [[2]])
  const WON_DEAL := Deal(0, 11, 2, 5, 0, 0, "")
  const WON_DB := REPORTED_DB.(operations := {1, 3, 2}, deals := [FAILED_DEAL, WON_DEAL])
  const PROPOSED := ReadyToCreateDeals(0, 0, 7, Some(8), 1, 1, 6, [Proposal(5, 0, 9, false, true, 11, 2)])
  const WINNING := World(WON_DB, REPORTED.published + [PROPOSED])

  lemma ReportedExclusions(db: DB)
    requires db.deals == [FAILED_DEAL] && db.batches == map[0 := PACKED]
    ensures ExcludedProviders(db, Some(8), 1) == {4}
  {
    assert FAILED_DEAL in db.deals && DealFor(db, FAILED_DEAL, 8, 1);
  }

  const CLOSED_DB := REPORTED_DB.(operations := {1, 3, 2})

  lemma WinnerAccepted()
    ensures AddDeals(CLOSED_DB, WON, [2]) == Added(WON_DB, [2])
  {
    ReportedExclusions(CLOSED_DB);
    OneWinnerAdded(CLOSED_DB, WON, 2);
    assert CLOSED_DB.deals + [NewDeal(WON, 2)] == WON_DB.deals;
  }

  lemma WinnerProposed()
    ensures DealMessages(WON, PACKED, WON_CHOICES, [2]) == [PROPOSED]
  {
    assert LookUp(WON, [2], 5) == ProposalOf(WON, 2);
    assert ProposalsOf(WON, [2], [[2]]) == [Proposal(5, 0, 9, false, true, 11, 2)];
  }

  lemma NoGap()
    ensures GapEffect(CLOSED_DB, WON, PACKED, WON_CHOICES) == Some(Effect(WON_DB, []))
  {
    WinnerAccepted();
    assert WON.winningBids.Keys == {2} && |WON.winningBids| == |WON.winningBids.Keys|;
  }

  /** The leaked auction is won by provider 5. */
  lemma LeakedAuctionWon()
    ensures BatchAuctioned(REPORTED_DB, 2, WON, WON_CHOICES) == Commit(WON_DB, [PROPOSED], false)
  {
    assert REPORTED_DB.(operations := REPORTED_DB.operations + {2}) == CLOSED_DB;
    WinnerAccepted();
    NoGap();
    WinnerProposed();
    WonOutcome(REPORTED_DB, 2, WON, WON_CHOICES, WON_DB, [2], [PROPOSED]);
  }

  const CLOSING_WON := Attempt(AuctionClosed(2, WON, WON_CHOICES), None)

  lemma WinReported(opOf: Naming)
    requires Named(opOf)
    ensures Admissible(opOf, REPORTED, CLOSING_WON.event)
  {
    assert Attached(REPORTED_DB.requests, 0) == {2} && WON.winningBids.Keys == {2};
    assert |WON.winningBids| == |WON.winningBids.Keys|;
    assert Asks(REPORTED.published, 1, 11);
    assert Reports(REPORTED, WON);
  }

  lemma ThirdAttempt(conf: Config, opOf: Naming)
    requires Named(opOf)
    ensures AdmissibleAttempt(opOf, REPORTED, CLOSING_WON) && Deliver(conf, REPORTED, CLOSING_WON) == WINNING
  {
    WinReported(opOf);
    LeakedAuctionWon();
    Committed(conf, REPORTED, CLOSING_WON.event, WON_DB, [PROPOSED]);
  }

  const LOST := ClosedAuction(12, 0, 1, false, map[], "no bids")
  const LOST_DB := DB(map[0 := PACKED.(status := Errored, error := "no bids")],
                      map[2 := REQUEST.(status := RequestBatching, rebatchCount := 1, errorCause := "no bids")],
                      [FAILED_DEAL, WON_DEAL], {1, 3, 2, 6}, [UnpinJob(7, UnpinBatch)])
  const LOSING := World(LOST_DB, WINNING.published + [ReadyToBatch([Rebatched(2, 9, 1)])])
  const CLOSING_LOST := Attempt(AuctionClosed(6, LOST, Choices([], [2], 21, 0, 1, [])), None)

  /** The auction that was asked for when the report was committed fails. */
  lemma SecondAuctionLost()
    ensures BatchAuctioned(WON_DB, 6, LOST, Choices([], [2], 21, 0, 1, []))
            == Commit(LOST_DB, [ReadyToBatch([Rebatched(2, 9, 1)])], false)
  {
    var db1 := WON_DB.(operations := WON_DB.operations + {6});
    var db' := BatchError(db1, 0, "no bids", true).value;
    assert db'.requests == LOST_DB.requests;
    assert db'.unpins == LOST_DB.unpins;
    assert db' == LOST_DB;
    assert RebatchItems(LOST_DB.requests, [2]) == [Rebatched(2, 9, 1)];
  }

  lemma FourthAttempt(conf: Config, opOf: Naming)
    requires Named(opOf)
    ensures AdmissibleAttempt(opOf, WINNING, CLOSING_LOST) && Deliver(conf, WINNING, CLOSING_LOST) == LOSING
  {
    SecondAuctionLost();
    assert Attached(WON_DB.requests, 0) == {2} && LOST.winningBids.Keys == {};
    assert Asks(WINNING.published, 2, 12);
  }

  const SUCCESS := FinalizedDeal(0, 5, 9, 9, "")
  const LAST_REPORT := Attempt(DealFinalized(4, SUCCESS, Choices([], [2], 22, 0, 1, [])), None)

  lemma LastCompletes()
    ensures Completes(LOST_DB, SUCCESS) && EndsAgain(LOST_DB, SUCCESS)
    ensures BatchFinalizedDeal(LOST_DB, 4, SUCCESS, Choices([], [2], 22, 0, 1, [])).Commit?
  {
    var won := Deal(0, 11, 2, 5, 9, 9, "");
    assert Matches(LOST_DB.deals[1], 0, 5);
    assert UpdateDeals(LOST_DB.deals, SUCCESS) == [FAILED_DEAL] + [won];
    SumZero([FAILED_DEAL], ConfirmedIn(0));
    SumAppend([FAILED_DEAL], won, ConfirmedIn(0));
  }

  lemma LastAttempt(conf: Config, opOf: Naming)
    requires Named(opOf)
    ensures AdmissibleAttempt(opOf, LOSING, LAST_REPORT)
    ensures var db := Deliver(conf, LOSING, LAST_REPORT).db;
            && db.batches == map[0 := PACKED.(status := Success, error := "no bids")]
            && db.unpins == [UnpinJob(7, UnpinBatch), UnpinJob(9, UnpinData), UnpinJob(7, UnpinBatch)]
  {
    LastCompletes();
    assert Attached(LOST_DB.requests, 0) == {2};
    EndedAgainJobs(LOST_DB, 4, SUCCESS, LAST_REPORT.event.ch);
    assert DataJobs(LOST_DB.requests, [2]) == [UnpinJob(9, UnpinData)];
  }

  const FAILING := [CUT_REPORT, SECOND_REPORT, CLOSING_WON, CLOSING_LOST]

  lemma FailingRun(conf: Config, opOf: Naming)
    requires Named(opOf)
    ensures AdmissibleAttempts(conf, opOf, ONE_PENDING, FAILING) && DeliverAll(conf, ONE_PENDING, FAILING) == LOSING
  {
    FirstAttempt(conf, opOf);
    SecondAttempt(conf, opOf);
    ThirdAttempt(conf, opOf);
    FourthAttempt(conf, opOf);
    var two := [CUT_REPORT, SECOND_REPORT];
    TwoAttempts(conf, opOf, ONE_PENDING, CUT_REPORT, SECOND_REPORT);
    OneMore(conf, opOf, ONE_PENDING, two, CLOSING_WON);
    OneMore(conf, opOf, ONE_PENDING, two + [CLOSING_WON], CLOSING_LOST);
    assert (two + [CLOSING_WON]) + [CLOSING_LOST] == FAILING;
  }

  /**
   Neither is failure final nor are unpin jobs created once when auctions were leaked. The report of a failed deal is cut
   short after it asked for an auction, and delivered again; the second auction fails and ends the batch, but the first
   one had a winner; its success marks the batch successful, and its payload is unpinned a second time.
   */
  lemma FailureTurnsSuccess(conf: Config, opOf: Naming)
    requires Named(opOf)
    ensures Inv(opOf, ONE_PENDING) && AdmissibleAttempts(conf, opOf, ONE_PENDING, FAILING + [LAST_REPORT])
    ensures var failed := DeliverAll(conf, ONE_PENDING, FAILING).db;
            0 in failed.batches && failed.batches[0].status.Errored? && failed.unpins == [UnpinJob(7, UnpinBatch)]
    ensures var db := DeliverAll(conf, ONE_PENDING, FAILING + [LAST_REPORT]).db;
            && db.batches == map[0 := PACKED.(status := Success, error := "no bids")]
            && db.unpins == [UnpinJob(7, UnpinBatch), UnpinJob(9, UnpinData), UnpinJob(7, UnpinBatch)]
  {
    OnePendingInv(opOf);
    FailingRun(conf, opOf);
    LastAttempt(conf, opOf);
    OneMore(conf, opOf, ONE_PENDING, FAILING, LAST_REPORT);
  }

  // ---------- Requests sent to the packer twice ----------

  /** The requests of a message to the packer. */
  predicate Sends(m: Msg, r: RequestId) {
    m.ReadyToBatch? && exists i | 0 <= i < |m.requests| :: m.requests[i].request == r
  }

  /** A message to the packer changes nothing that closings depend on. */
  lemma StillAdmissible(opOf: Naming, w: World, op: OperationId, au: ClosedAuction, ch: Choices, m: Msg)
    requires Admissible(opOf, w, AuctionClosed(op, au, ch)) && !m.ReadyToAuction?
    ensures Admissible(opOf, World(w.db, w.published + [m]), AuctionClosed(op, au, ch))
  {
    var w' := World(w.db, w.published + [m]);
    forall i | 0 <= i < |w'.published| ensures !Asks(w'.published, i, ch.auctionId) {
      if i < |w.published| { assert !Asks(w.published, i, ch.auctionId); }
    }
    var k: nat :| Asks(w.published, k, au.id) && w.published[k].auctioned == au.batch
      && (au.errorCause == "" ==>
            && |au.winningBids| == w.published[k].replication
            && DistinctProviders(au.winningBids)
            && FreshTargets(w.db, au));
    assert Asks(w'.published, k, au.id);
  }

  /** The message of a closing that failed. */
  lemma FailedClosingSends(db: DB, op: OperationId, au: ClosedAuction, ch: Choices, r: RequestId)
    requires au.batch in db.batches && Live(db.batches[au.batch].status) && !db.batches[au.batch].disallowRebatching
    requires au.errorCause != "" && op !in db.operations && db.batches[au.batch].error == ""
    requires Lists(ch.requestOrder, Attached(db.requests, au.batch)) && r in Attached(db.requests, au.batch)
    ensures var o := BatchAuctioned(db, op, au, ch); o.Commit? && |o.msgs| == 1 && Sends(o.msgs[0], r)
  {
    var db1 := db.(operations := db.operations + {op});
    var items := RebatchItems(BatchError(db1, au.batch, au.errorCause, true).value.requests, ch.requestOrder);
    var i :| 0 <= i < |ch.requestOrder| && ch.requestOrder[i] == r;
    assert items[i].request == r;
    assert BatchAuctioned(db, op, au, ch).msgs == [ReadyToBatch(items)];
  }

  /** A closing that failed is cut short after its message and delivered again: every request of the batch is sent to
      the packer twice, in two messages, and so under two operation ids. */
  lemma SentTwice(conf: Config, opOf: Naming, w: World, op: OperationId, au: ClosedAuction, ch: Choices, ch': Choices, r: RequestId)
    requires au.batch in w.db.batches && Live(w.db.batches[au.batch].status) && !w.db.batches[au.batch].disallowRebatching
    requires au.errorCause != "" && op !in w.db.operations && w.db.batches[au.batch].error == ""
    requires Admissible(opOf, w, AuctionClosed(op, au, ch)) && Admissible(opOf, w, AuctionClosed(op, au, ch'))
    requires r in Attached(w.db.requests, au.batch)
    ensures var attempts := [Attempt(AuctionClosed(op, au, ch), Some(1)), Attempt(AuctionClosed(op, au, ch'), None)];
            var end := DeliverAll(conf, w, attempts);
            && AdmissibleAttempts(conf, opOf, w, attempts)
            && |end.published| == |w.published| + 2
            && Sends(end.published[|w.published|], r) && Sends(end.published[|w.published| + 1], r)
  {
    var a, b := Attempt(AuctionClosed(op, au, ch), Some(1)), Attempt(AuctionClosed(op, au, ch'), None);
    FailedClosingSends(w.db, op, au, ch, r);
    FailedClosingSends(w.db, op, au, ch', r);
    var o := BatchAuctioned(w.db, op, au, ch);
    assert o.msgs[..1] == o.msgs == [o.msgs[0]];
    assert Deliver(conf, w, a) == World(w.db, w.published + [o.msgs[0]]);
    StillAdmissible(opOf, w, op, au, ch', o.msgs[0]);
    TwoAttempts(conf, opOf, w, a, b);
  }
}
