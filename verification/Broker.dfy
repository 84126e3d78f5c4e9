/**
 The broker's handlers. Each attaches a transaction, runs its store operations in it and finishes in a
 deferred call. Messages go out while the transaction is still open, so they are not rolled back with it.

 The handlers are proved to compute the functions of module `BrokerModel`: a run that ends without error
 commits exactly the rows and publishes exactly the messages of the function; a run that ends with an
 error commits nothing, but what it published stays published. Either way it is an attempt in the sense of
 module `BrokerDelivery`.
 */
module Broker {
  import opened Prelude
  import opened TxWrapper
  import opened BrokerModel
  import opened BrokerStore
  import opened BrokerProtocol
  import opened BrokerDelivery

  /** What a handler left to chance, recorded along the way. */
  ghost predicate ListsChoices(ch: Choices, db: DB, b: BatchId, bids: map<BidId, WinningBid>) {
    && Lists(ch.bidOrder, bids.Keys) && Lists(ch.requestOrder, Attached(db.requests, b))
    && forall i | 0 <= i < |ch.lookups| :: Lists(ch.lookups[i], bids.Keys)
  }

  /** A run that ends with an error has published a first part of the messages, if any. */
  ghost predicate PartlySent(sent: seq<Msg>, sent': seq<Msg>, o: Outcome) {
    sent' == sent || (o.Commit? && sent <= sent' && sent'[|sent|..] <= o.msgs)
  }

  /** Such a run is an attempt that was cut short. */
  lemma CutShort(conf: Config, w: World, e: Event, sent': seq<Msg>)
    requires PartlySent(w.published, sent', Handle(conf, w.db, e))
    ensures |sent'| >= |w.published|
    ensures World(w.db, sent') == Deliver(conf, w, Attempt(e, Some(|sent'| - |w.published|)))
  {
    var o := Handle(conf, w.db, e);
    var leaked := sent'[|w.published|..];
    assert sent' == w.published + leaked;
    if o.Commit? && sent' != w.published {
      assert o.msgs[..|leaked|] == leaked;
    } else {
      assert leaked == [];
    }
  }

  /** A successful closing does what the model says; if it fails, it has published at most its gap auction,
      and only because the deals could not be published. */
  ghost predicate WonAsModelled(before: DB, after: DB, au: ClosedAuction, ba: Batch, ch: Choices, faults: set<Fault>,
                                err: Option<Error>, panicked: bool, sent: seq<Msg>, sent': seq<Msg>)
    requires au.batch in before.batches
  {
    var o := BrokerModel.AuctionWon(before, au, ba, ch);
    && sent <= sent'
    && (err.None? ==> o.Commit? && panicked == o.panicked && after == o.db && sent' == sent + o.msgs)
    && (err.Some? ==> !panicked)
    && (err.Some? && faults == {} ==> o.Fail?)
    && (err.Some? && sent' != sent ==>
          && o.Commit? && PublishDeals in faults
          && GapEffect(before, au, ba, ch).Some? && sent' == sent + GapEffect(before, au, ba, ch).value.msgs)
  }

  class Broker {
    const conf: Config
    const conn: Conn<DB>
    var published: seq<Msg>

    constructor (conf: Config, conn: Conn<DB>)
      ensures this.conf == conf && this.conn == conn && published == []
    {
      this.conf, this.conn, published := conf, conn, [];
    }

    /** Draws a fresh identifier. */
    method NewID(faults: set<Fault>) returns (id: nat, err: Option<Error>)
      ensures err.Some? <==> NewId in faults
    {
      id := *;
      err := if NewId in faults then Some(External) else None;
    }

    /** The epoch at which new proposals start. A clock before genesis is an error. */
    method ProposalStartEpoch(faults: set<Fault>) returns (epoch: nat, err: Option<Error>)
      ensures err.Some? <==> Clock in faults
    {
      epoch := *;
      err := if Clock in faults then Some(External) else None;
    }

    method StartAuction(txn: Txn<DB>, b: BatchId, ba: Batch, replication: nat, pieceSize: nat, epoch: nat,
                        ignoreHistory: bool, faults: set<Fault>)
        returns (id: AuctionId, err: Option<Error>)
      modifies this, txn
      ensures var r := BrokerModel.StartAuction(old(txn.working), b, ba, id, replication, pieceSize, epoch, ignoreHistory);
              && (err.None? ==> r.Some? && txn.working == r.value.db && published == old(published) + r.value.msgs)
              && (err.Some? && faults == {} ==> r.None?)
      ensures err.Some? ==> published == old(published)
    {
      id, err := NewID(faults);
      if err.Some? {
        return;
      }
      var excluded := [];
      if !ignoreHistory {
        excluded, err := GetExcludedStorageProviders(txn, ba.pieceCid, ba.origin, faults);
        if err.Some? {
          return;
        }
      }
      ghost var ex := if ignoreHistory then {} else ExcludedProviders(txn.working, ba.pieceCid, ba.origin);
      if |ba.providers| > 0 {
        var unavailable := CountExcluded(ba.providers, excluded);
        assert unavailable == |ba.providers| <==> forall p :: p in ba.providers ==> p in ex;
        if unavailable == |ba.providers| {
          var _, e := BrokerStore.BatchError(txn, b, NO_MINERS, false, faults);
          err := e;
          if err.None? {
            assert published == old(published) + [];
          }
          return;
        }
      }
      if PublishAuction in faults {
        err := Some(External);
        return;
      }
      var out := set p | p in excluded;
      assert out == ex;
      published := published + [ReadyToAuction(id, b, ba.payloadCid, pieceSize, ba.dealDuration, replication,
                                               out, epoch, ba.providers)];
    }

    /** How many of the targeted providers are excluded. */
    method CountExcluded(providers: seq<Provider>, excluded: seq<Provider>) returns (n: nat)
      ensures n <= |providers|
      ensures n == |providers| <==> forall p :: p in providers ==> p in excluded
    {
      n := 0;
      for i := 0 to |providers|
        invariant n <= i
        invariant n == i <==> forall k :: 0 <= k < i ==> providers[k] in excluded
      {
        for j := 0 to |excluded|
          invariant n <= i && providers[i] !in excluded[..j]
          invariant n == i <==> forall k :: 0 <= k < i ==> providers[k] in excluded
        {
          if providers[i] == excluded[j] {
            n := n + 1;
            break;
          }
        }
      }
    }

    /** Moves a batch to error and sends its requests back to the packer. That fails if there are none, as for a batch
        that had succeeded: an empty message is refused. */
    method ErrorBatchAndRebatch(txn: Txn<DB>, b: BatchId, cause: string, faults: set<Fault>)
        returns (err: Option<Error>, ghost order: seq<RequestId>)
      modifies this, txn
      ensures err.None? ==>
                && b in old(txn.working).batches && !old(txn.working).batches[b].status.Success?
                && order != [] && Lists(order, Attached(old(txn.working).requests, b))
      ensures err.None? ==>
                && BrokerModel.BatchError(old(txn.working), b, cause, true) == Some(txn.working)
                && published == old(published) + [ReadyToBatch(RebatchItems(txn.working.requests, order))]
      ensures err.Some? ==> published == old(published)
      ensures err.Some? && faults == {} ==>
                || BrokerModel.BatchError(old(txn.working), b, cause, true) == None
                || old(txn.working).batches[b].status.Success? || Attached(old(txn.working).requests, b) == {}
    {
      order := [];
      var ids;
      ids, err := BrokerStore.BatchError(txn, b, cause, true, faults);
      if err.Some? {
        return;
      }
      order := ids;
      var items: seq<Rebatched> := [];
      ghost var all := RebatchItems(txn.working.requests, ids);
      for i := 0 to |ids|
        invariant items == all[..i]
      {
        if ReadRequest(ids[i]) in faults {
          err := Some(External);
          return;
        }
        assert ids[i] in ids;
        var r := txn.working.requests[ids[i]];
        items := items + [Rebatched(ids[i], r.dataCid, r.origin)];
      }
      assert all[..|ids|] == all;
      if PublishBatch in faults || |items| == 0 {
        assert |ids| == 0 ==> ids == [];
        err := Some(External);
        return;
      }
      published := published + [ReadyToBatch(items)];
    }

    /** Looks up, for every accepted provider, the first winning bid of that provider on a new walk of the bids. */
    method FillProposals(au: ClosedAuction, winners: seq<Provider>, ghost bids: seq<BidId>)
        returns (proposals: seq<Proposal>, ghost lookups: seq<seq<BidId>>)
      requires |bids| == |winners|
      requires forall i :: 0 <= i < |bids| ==> bids[i] in au.winningBids && winners[i] == au.winningBids[bids[i]].provider
      ensures Walks(lookups, |bids|, au.winningBids)
      ensures proposals == ProposalsOf(au, bids, lookups)
    {
      proposals, lookups := seq(|winners|, _ => NO_PROPOSAL), [];
      for i := 0 to |winners|
        invariant |proposals| == |winners| && Walks(lookups, i, au.winningBids)
        invariant forall k :: 0 <= k < i ==> proposals[k] == LookUp(au, lookups[k], winners[k])
        invariant forall k :: i <= k < |winners| ==> proposals[k] == NO_PROPOSAL
      {
        var walk := Enumerate(au.winningBids.Keys);
        var found := FindBid(au, walk, winners[i]);
        proposals := proposals[i := found];
        lookups := lookups + [walk];
      }
      assert proposals == ProposalsOf(au, bids, lookups);
    }

    /** The inner loop: it ends with the first bid of the provider. */
    method FindBid(au: ClosedAuction, walk: seq<BidId>, p: Provider) returns (found: Proposal)
      requires forall x :: x in walk ==> x in au.winningBids
      ensures found == LookUp(au, walk, p)
    {
      for j := 0 to |walk|
        invariant LookUp(au, walk, p) == LookUp(au, walk[j..], p)
      {
        assert walk[j] in walk && walk[j..][1..] == walk[j + 1..];
        var bid := au.winningBids[walk[j]];
        if bid.provider == p {
          return Proposal(bid.provider, bid.price, bid.startEpoch, au.dealVerified, bid.fastRetrieval, au.id, walk[j]);
        }
      }
      found := NO_PROPOSAL;
    }

    /** The part of BatchAuctioned for an auction that failed. */
    method AuctionFailed(txn: Txn<DB>, au: ClosedAuction, ba: Batch, faults: set<Fault>)
        returns (err: Option<Error>, ghost order: seq<RequestId>)
      requires au.batch in txn.working.batches && ba == txn.working.batches[au.batch] && Live(ba.status)
      modifies this, txn
      ensures Lists(order, Attached(old(txn.working).requests, au.batch))
      ensures forall ch: Choices :: ch.requestOrder == order ==>
                var o := BrokerModel.AuctionFailed(old(txn.working), au, ba, ch);
                && (err.None? ==> o.Commit? && !o.panicked && txn.working == o.db && published == old(published) + o.msgs)
                && (err.Some? && faults == {} ==> o.Fail?)
      ensures err.Some? ==> published == old(published)
    {
      ghost var attached := Attached(txn.working.requests, au.batch);
      if ba.disallowRebatching {
        order := ListAll(attached);
        var _, e := BrokerStore.BatchError(txn, au.batch, au.errorCause, false, faults);
        err := e;
        assert published + [] == published;
      } else {
        err, order := ErrorBatchAndRebatch(txn, au.batch, au.errorCause, faults);
        if err.Some? {
          order := ListAll(attached);
          assert order != [] ==> order[0] in attached;
        }
      }
    }

    /** Adds the accepted winners as deals and, if not all were accepted, auctions the rest again. */
    method AddDealsAndFillGap(txn: Txn<DB>, au: ClosedAuction, ba: Batch, adId: nat, faults: set<Fault>)
        returns (winners: seq<Provider>, err: Option<Error>, ghost ch: Choices)
      requires au.batch in txn.working.batches && ba == txn.working.batches[au.batch] && Live(ba.status)
      modifies this, txn
      ensures Lists(ch.bidOrder, au.winningBids.Keys) && ch.dealsId == adId && ch.lookups == []
      ensures var accepted := BrokerModel.AddDeals(old(txn.working), au, ch.bidOrder).accepted;
              && (err.None? ==>
                    && |winners| == |accepted|
                    && forall i :: 0 <= i < |winners| ==> winners[i] == au.winningBids[accepted[i]].provider)
              && var e := GapEffect(old(txn.working), au, ba, ch);
                 && (err.None? ==> e.Some? && txn.working == e.value.db && published == old(published) + e.value.msgs)
                 && (err.Some? && faults == {} ==> e.None?)
      ensures err.Some? ==> published == old(published)
    {
      ch := Choices([], [], 0, adId, 0, []);
      ghost var order;
      winners, err, order := BrokerStore.AddDeals(txn, au, faults);
      ch := ch.(bidOrder := order);
      if err.Some? {
        return;
      }
      ListsSize(order, au.winningBids.Keys);
      if |winners| != |au.winningBids| {
        var epoch, id;
        epoch, err := ProposalStartEpoch(faults);
        if err.Some? {
          return;
        }
        id, err := StartAuction(txn, au.batch, ba, |au.winningBids| - |winners|, ba.pieceSize, epoch, false, faults);
        ch := ch.(auctionId := id, startEpoch := epoch);
      } else {
        assert published + [] == published;
      }
    }

    /** The part of BatchAuctioned for an auction that succeeded. What it publishes before an error is the
        gap auction at most. */
    method AuctionWon(txn: Txn<DB>, au: ClosedAuction, ba: Batch, faults: set<Fault>)
        returns (err: Option<Error>, panicked: bool, ghost ch: Choices)
      requires au.batch in txn.working.batches && ba == txn.working.batches[au.batch] && Live(ba.status)
      modifies this, txn
      ensures Lists(ch.bidOrder, au.winningBids.Keys)
      ensures forall i | 0 <= i < |ch.lookups| :: Lists(ch.lookups[i], au.winningBids.Keys)
      ensures WonAsModelled(old(txn.working), txn.working, au, ba, ch, faults, err, panicked, old(published), published)
    {
      ghost var walk := ListAll(au.winningBids.Keys);
      ch, panicked := Choices(walk, [], 0, 0, 0, []), false;
      if ReadWallet in faults {
        err := Some(External);
        return;
      }
      var adId;
      adId, err := NewID(faults);
      if err.Some? {
        return;
      }
      var winners;
      winners, err, ch := AddDealsAndFillGap(txn, au, ba, adId, faults);
      if err.Some? {
        return;
      }
      ghost var accepted := BrokerModel.AddDeals(old(txn.working), au, ch.bidOrder).accepted;
      ghost var gap := published[|old(published)|..];
      assert gap == GapEffect(old(txn.working), au, ba, ch).value.msgs;

      // No deals to fire.
      if |winners| == 0 {
        assert gap + [] == gap;
        return;
      }
      if ba.carUrl.None? {
        panicked := true;
        assert gap + [] == gap;
        return;
      }
      var proposals;
      ghost var lookups;
      proposals, lookups := FillProposals(au, winners, accepted);
      ghost var before := ch;
      ch := ch.(lookups := lookups);
      assert GapEffect(old(txn.working), au, ba, ch) == GapEffect(old(txn.working), au, ba, before);
      if PublishDeals in faults {
        err := Some(External);
        return;
      }
      published := published + [ReadyToCreateDeals(adId, au.batch, ba.payloadCid, ba.pieceCid, ba.pieceSize,
                                                   au.dealDuration, ba.carUrl.value, proposals)];
      assert published == old(published) + (gap + DealMessages(au, ba, ch, accepted));
    }

    method BatchAuctionedInTx(txn: Txn<DB>, op: OperationId, au: ClosedAuction, faults: set<Fault>)
        returns (err: Option<Error>, panicked: bool, ghost ch: Choices)
      modifies this, txn
      ensures ListsChoices(ch, old(txn.working), au.batch, au.winningBids)
      ensures var o := BrokerModel.BatchAuctioned(old(txn.working), op, au, ch);
              && (err.None? ==>
                    o.Commit? && panicked == o.panicked && txn.working == o.db && published == old(published) + o.msgs)
              && (err.Some? && faults == {} ==> o.Fail?)
              && (err.Some? && published != old(published) ==> PublishDeals in faults)
              && PartlySent(old(published), published, o)
              && (op in old(txn.working).operations ==> err == Some(Error.OperationExists))
      ensures old(published) <= published && (err.Some? ==> !panicked)
    {
      ghost var walk := ListAll(au.winningBids.Keys);
      ghost var attached := ListAll(Attached(txn.working.requests, au.batch));
      ch := Choices(walk, attached, 0, 0, 0, []);
      panicked := false;
      var exists_;
      exists_, err := BrokerStore.OperationExists(txn, op, faults);
      if err.Some? {
        return;
      }
      if exists_ {
        err := Some(Error.OperationExists);
        return;
      }
      var ba: Option<Batch>;
      ba, err := GetBatch(txn, au.batch, faults);
      if err.Some? {
        return;
      }
      if ba.value.status.Errored? || ba.value.status.Success? {
        assert published + [] == published;
        return;
      }
      if !ba.value.status.Auctioning? && !ba.value.status.DealMaking? {
        err := Some(WrongStatus);
        return;
      }
      if au.errorCause != "" {
        ghost var order;
        err, order := AuctionFailed(txn, au, ba.value, faults);
        ch := ch.(requestOrder := order);
        return;
      }
      ghost var chosen;
      err, panicked, chosen := AuctionWon(txn, au, ba.value, faults);
      ch := chosen.(requestOrder := attached);
      assert BrokerModel.AuctionWon(old(txn.working).(operations := old(txn.working).operations + {op}), au, ba.value, ch)
          == BrokerModel.AuctionWon(old(txn.working).(operations := old(txn.working).operations + {op}), au, ba.value, chosen);
    }

    /**
     Handles a closed auction. The run is an attempt: a complete one if there is no error. With an error the
     rows are untouched, but what was published stays published: that happens if the deals could not be
     published, or if only the commit failed, when all messages of the run are out.
     */
    method BatchAuctioned(op: OperationId, au: ClosedAuction, finalized: bool, faults: set<Fault>)
        returns (err: Option<Error>, panicked: bool, ghost ch: Choices, ghost cut: Option<nat>)
      modifies this, conn
      ensures finalized ==> ListsChoices(ch, old(conn.committed), au.batch, au.winningBids)
      ensures World(conn.committed, published)
              == Deliver(conf, World(old(conn.committed), old(published)), Attempt(AuctionClosed(op, au, ch), cut))
      ensures cut.None? <==> err.None?
      ensures var o := BrokerModel.BatchAuctioned(old(conn.committed), op, au, ch);
              && (err.None? ==> finalized && o.Commit? && panicked == o.panicked)
              && (err.Some? && finalized && faults == {} ==> o.Fail?)
              && (err.Some? && published != old(published) ==> o.Commit? && (PublishDeals in faults || CommitTx in faults))
              && (faults == {CommitTx} && finalized && o.Commit? ==> err.Some? && published == old(published) + o.msgs)
              && (op in old(conn.committed).operations ==> err.Some? && published == old(published))
    {
      ch, panicked, cut := Choices([], [], 0, 0, 0, []), false, Some(0);
      assert published + [] == published;
      if !finalized {
        return Some(WrongStatus), false, ch, cut;
      }
      ghost var walk := ListAll(au.winningBids.Keys);
      ghost var attached := ListAll(Attached(conn.committed.requests, au.batch));
      ch := ch.(bidOrder := walk, requestOrder := attached);
      var ctx, ok := CtxWithTx(None, conn, BeginTx in faults);
      if !ok {
        return Some(External), false, ch, cut;
      }
      err, panicked, ch := BatchAuctionedInTx(ctx.value, op, au, faults - {BeginTx, CommitTx});
      err := FinishTxForCtx(ctx, conn, err, CommitTx in faults, External, External);
      if err.None? {
        cut := None;
      } else {
        CutShort(conf, World(old(conn.committed), old(published)), AuctionClosed(op, au, ch), published);
        cut := Some(|published| - |old(published)|);
      }
    }

    method BatchFinalizedDealInTx(txn: Txn<DB>, op: OperationId, fad: FinalizedDeal, faults: set<Fault>)
        returns (err: Option<Error>, ghost ch: Choices)
      modifies this, txn
      ensures Lists(ch.requestOrder, Attached(old(txn.working).requests, fad.batch))
      ensures var o := BrokerModel.BatchFinalizedDeal(old(txn.working), op, fad, ch);
              && (err.None? ==> o.Commit? && !o.panicked && txn.working == o.db && published == old(published) + o.msgs)
              && (err.Some? ==> published == old(published))
              && (err.Some? && faults == {} ==> o.Fail?)
              && (op in old(txn.working).operations ==> err == Some(Error.OperationExists))
    {
      ghost var attached := ListAll(Attached(txn.working.requests, fad.batch));
      ghost var db := txn.working;
      ch := Choices([], attached, 0, 0, 0, []);
      var exists_;
      exists_, err := BrokerStore.OperationExists(txn, op, faults);
      if err.Some? {
        return;
      }
      if exists_ {
        err := Some(Error.OperationExists);
        return;
      }
      err := SaveDeals(txn, fad, faults);
      if err.Some? {
        return;
      }
      ghost var db1 := db.(operations := db.operations + {op}, deals := UpdateDeals(db.deals, fad));
      assert txn.working == db1;
      var ba: Option<Batch>;
      ba, err := GetBatch(txn, fad.batch, faults);
      if err.Some? {
        return;
      }
      if ReadDeals in faults {
        err := Some(External);
        return;
      }
      var deals := txn.working.deals;
      assert published + [] == published;

      if fad.errorCause != "" {
        var misconfigured := Contains(fad.errorCause, "deal rejected");
        var epoch, id;
        epoch, err := ProposalStartEpoch(faults);
        ch := ch.(startEpoch := epoch);
        if err.Some? {
          return;
        }
        if !misconfigured && ba.value.filEpochDeadline > 0 && ba.value.filEpochDeadline < epoch {
          var _, e := BrokerStore.BatchError(txn, fad.batch, DEADLINE_EXCEEDED, false, faults);
          err := e;
          return;
        }
        if ReadWallet in faults {
          err := Some(External);
          return;
        }
        id, err := StartAuction(txn, fad.batch, ba.value, 1, ba.value.pieceSize, epoch, false, faults);
        ch := ch.(auctionId := id);
        return;
      }

      var confirmed := CountConfirmed(deals, fad.batch);
      if confirmed == ba.value.repFactor {
        ghost var order;
        err, order := BrokerStore.BatchSuccess(txn, fad.batch, faults);
        ch := ch.(requestOrder := order);
      }
    }

    /** Handles a finalized deal. The run is an attempt; it leaves messages without their rows only if the commit
        fails. */
    method BatchFinalizedDeal(op: OperationId, fad: FinalizedDeal, faults: set<Fault>)
        returns (err: Option<Error>, ghost ch: Choices, ghost cut: Option<nat>)
      modifies this, conn
      ensures Lists(ch.requestOrder, Attached(old(conn.committed).requests, fad.batch))
      ensures World(conn.committed, published)
              == Deliver(conf, World(old(conn.committed), old(published)), Attempt(DealFinalized(op, fad, ch), cut))
      ensures cut.None? <==> err.None?
      ensures var o := BrokerModel.BatchFinalizedDeal(old(conn.committed), op, fad, ch);
              && (err.None? ==> o.Commit?)
              && (err.Some? && faults == {} ==> o.Fail?)
              && (err.Some? && published != old(published) ==> o.Commit? && CommitTx in faults)
              && (faults == {CommitTx} && o.Commit? ==> err.Some? && published == old(published) + o.msgs)
              && (op in old(conn.committed).operations ==> err.Some? && published == old(published))
    {
      ghost var attached := ListAll(Attached(conn.committed.requests, fad.batch));
      ch, cut := Choices([], attached, 0, 0, 0, []), Some(0);
      assert published + [] == published;
      var ctx, ok := CtxWithTx(None, conn, BeginTx in faults);
      if !ok {
        return Some(External), ch, cut;
      }
      err, ch := BatchFinalizedDealInTx(ctx.value, op, fad, faults - {BeginTx, CommitTx});
      err := FinishTxForCtx(ctx, conn, err, CommitTx in faults, External, External);
      if err.None? {
        cut := None;
      } else {
        CutShort(conf, World(old(conn.committed), old(published)), DealFinalized(op, fad, ch), published);
        cut := Some(|published| - |old(published)|);
      }
    }

    /** Creates a prepared batch and its request, and auctions it. */
    method CreatePrepared(r: RequestId, b: BatchId, pc: PreparedCar, faults: set<Fault>)
        returns (err: Option<Error>, ghost ch: Choices, ghost cut: Option<nat>)
      modifies this, conn
      ensures World(conn.committed, published)
              == Deliver(conf, World(old(conn.committed), old(published)), Attempt(PreparedCreated(r, b, pc, ch), cut))
      ensures cut.None? <==> err.None?
      ensures var o := BrokerModel.CreatePrepared(conf, old(conn.committed), r, b, pc, ch);
              && (err.None? ==> o.Commit?)
              && (err.Some? && faults == {} ==> o.Fail?)
              && (err.Some? && published != old(published) ==> CommitTx in faults && published == old(published) + o.msgs)
    {
      ch, cut := Choices([], [], 0, 0, 0, []), Some(0);
      assert published + [] == published;
      var ba := PreparedBatch(conf, pc);
      var ctx, ok := CtxWithTx(None, conn, BeginTx in faults);
      if !ok {
        return Some(External), ch, cut;
      }
      var txn := ctx.value;
      var db := txn.working;
      if InsertRequest in faults || r in db.requests {
        err := FinishTxForCtx(ctx, conn, Some(External), CommitTx in faults, External, External);
        return;
      }
      txn.working := db.(requests := db.requests[r := Request(pc.payloadCid, pc.origin, RequestAuctioning, None, 0, "")]);
      err := BrokerStore.CreateBatch(txn, b, ba, [r], faults);
      if err.None? {
        var epoch, id;
        epoch, err := ProposalStartEpoch(faults);
        ch := ch.(startEpoch := epoch);
        if err.None? {
          id, err := StartAuction(txn, b, ba, ba.repFactor, ba.pieceSize, epoch, |ba.providers| > 0, faults);
          ch := ch.(auctionId := id);
        }
      }
      ghost var failed := err.Some?;
      ghost var o := BrokerModel.CreatePrepared(conf, old(conn.committed), r, b, pc, ch);
      assert !failed ==> o.Commit? && txn.working == o.db && published == old(published) + o.msgs;
      err := FinishTxForCtx(ctx, conn, err, CommitTx in faults, External, External);
      if err.None? {
        cut := None;
      } else {
        CutShort(conf, World(old(conn.committed), old(published)), PreparedCreated(r, b, pc, ch), published);
        cut := Some(|published| - |old(published)|);
      }
    }

    /** Creates a batch of packed requests; the store operation runs in a transaction of its own. */
    method CreateNewBatch(b: BatchId, payload: Cid, carUrl: nat, origin: Origin, ids: seq<RequestId>, faults: set<Fault>)
        returns (err: Option<Error>)
      modifies conn
      ensures var o := BrokerModel.CreateNewBatch(conf, old(conn.committed), b, payload, carUrl, origin, ids);
              && (err.None? ==> o.Commit? && conn.committed == o.db && o.msgs == [])
              && (err.Some? ==> conn.committed == old(conn.committed))
              && (err.Some? && faults == {} ==> o.Fail?)
    {
      if |ids| == 0 {
        return Some(External);
      }
      var ba := PackedBatch(conf, payload, carUrl, origin);
      var ctx, ok := CtxWithTx(None, conn, BeginTx in faults);
      if !ok {
        return Some(External);
      }
      err := BrokerStore.CreateBatch(ctx.value, b, ba, ids, faults);
      err := FinishTxForCtx(ctx, conn, err, CommitTx in faults, External, External);
    }

    /** Sets the piece of a batch in preparation and auctions it. */
    method NewBatchPrepared(b: BatchId, piece: Cid, size: nat, faults: set<Fault>)
        returns (err: Option<Error>, ghost ch: Choices, ghost cut: Option<nat>)
      modifies this, conn
      ensures World(conn.committed, published)
              == Deliver(conf, World(old(conn.committed), old(published)), Attempt(BatchPrepared(b, piece, size, ch), cut))
      ensures cut.None? <==> err.None?
      ensures var o := BrokerModel.NewBatchPrepared(old(conn.committed), b, piece, size, ch);
              && (err.None? ==> o.Commit?)
              && (err.Some? && faults == {} ==> o.Fail?)
              && (err.Some? && published != old(published) ==> CommitTx in faults && published == old(published) + o.msgs)
    {
      ch, cut := Choices([], [], 0, 0, 0, []), Some(0);
      assert published + [] == published;
      var ctx, ok := CtxWithTx(None, conn, BeginTx in faults);
      if !ok {
        return Some(External), ch, cut;
      }
      err, ch := NewBatchPreparedInTx(ctx.value, b, piece, size, faults);
      err := FinishTxForCtx(ctx, conn, err, CommitTx in faults, External, External);
      if err.None? {
        cut := None;
      } else {
        CutShort(conf, World(old(conn.committed), old(published)), BatchPrepared(b, piece, size, ch), published);
        cut := Some(|published| - |old(published)|);
      }
    }

    method NewBatchPreparedInTx(txn: Txn<DB>, b: BatchId, piece: Cid, size: nat, faults: set<Fault>)
        returns (err: Option<Error>, ghost ch: Choices)
      modifies this, txn
      ensures var o := BrokerModel.NewBatchPrepared(old(txn.working), b, piece, size, ch);
              && (err.None? ==> o.Commit? && txn.working == o.db && published == old(published) + o.msgs)
              && (err.Some? && faults == {} ==> o.Fail?)
      ensures err.Some? ==> published == old(published)
    {
      ch := Choices([], [], 0, 0, 0, []);
      var ba: Option<Batch>;
      ba, err := GetBatch(txn, b, faults);
      if err.Some? {
        return;
      }
      match ba.value.status {
        case Preparing =>
          if ba.value.pieceCid.Some? || ba.value.pieceSize > 0 {
            err := Some(WrongStatus);
            return;
          }
        case Auctioning =>
          if ba.value.pieceCid != Some(piece) || ba.value.pieceSize != size {
            err := Some(WrongStatus);
          }
          assert published + [] == published;
          return;
        case _ =>
          err := Some(WrongStatus);
          return;
      }
      err := BrokerStore.BatchToAuctioning(txn, b, piece, size, faults);
      if err.Some? {
        return;
      }
      var epoch, id;
      epoch, err := ProposalStartEpoch(faults);
      ch := ch.(startEpoch := epoch);
      if err.Some? {
        return;
      }
      id, err := StartAuction(txn, b, ba.value, ba.value.repFactor, size, epoch, false, faults);
      ch := ch.(auctionId := id);
    }
  }
}
