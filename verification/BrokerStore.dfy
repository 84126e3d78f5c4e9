/**
 The store operations of the broker, inside a transaction. Every one of them computes the function of the
 same name in module `BrokerModel`; `faults` names the queries that fail in this run, and an operation
 that fails half-way leaves its writes behind for the transaction to roll back.
 */
module BrokerStore {
  import opened Prelude
  import opened TxWrapper
  import opened BrokerModel

  datatype Fault =
    | BeginTx | CommitTx
    | CreateOperation | ReadBatch | ReadDeals | ReadRequests | ReadRequest(RequestId) | ReadWallet | ReadExcluded
    | InsertRequest | InsertBatch | InsertDeal(BidId) | InsertUnpin(nat)
    | WriteBatch | WriteRequests | WriteRebatch | WriteDeals
    | NewId | Clock
    | PublishAuction | PublishDeals | PublishBatch

  /** Records the operation, unless it is there already. */
  method OperationExists(txn: Txn<DB>, op: OperationId, faults: set<Fault>) returns (exists_: bool, err: Option<Error>)
    modifies txn
    ensures err.Some? <==> CreateOperation in faults && op !in old(txn.working.operations)
    ensures err.None? ==> exists_ == (op in old(txn.working.operations))
    ensures err.None? && !exists_ ==> txn.working == old(txn.working).(operations := old(txn.working.operations) + {op})
  {
    if op in txn.working.operations {
      return true, None;
    }
    if CreateOperation in faults {
      return false, Some(External);
    }
    txn.working := txn.working.(operations := txn.working.operations + {op});
    return false, None;
  }

  method GetBatch(txn: Txn<DB>, b: BatchId, faults: set<Fault>) returns (ba: Option<Batch>, err: Option<Error>)
    ensures err.None? <==> ba.Some?
    ensures err.None? ==> b in txn.working.batches && ba.value == txn.working.batches[b]
    ensures err.Some? && faults == {} ==> b !in txn.working.batches && err.value == NotFound
  {
    if ReadBatch in faults {
      return None, Some(External);
    }
    if b !in txn.working.batches {
      return None, Some(NotFound);
    }
    return Some(txn.working.batches[b]), None;
  }

  method GetExcludedStorageProviders(txn: Txn<DB>, piece: Option<Cid>, origin: Origin, faults: set<Fault>)
      returns (sps: seq<Provider>, err: Option<Error>)
    ensures err.None? ==> Lists(sps, ExcludedProviders(txn.working, piece, origin))
    ensures err.Some? ==> faults != {}
  {
    if ReadExcluded in faults {
      return [], Some(External);
    }
    sps := Enumerate(ExcludedProviders(txn.working, piece, origin));
    err := None;
  }

  method CreateBatch(txn: Txn<DB>, b: BatchId, ba: Batch, ids: seq<RequestId>, faults: set<Fault>) returns (err: Option<Error>)
    modifies txn
    ensures err.None? ==> BrokerModel.CreateBatch(old(txn.working), b, ba, ids) == Some(txn.working)
    ensures err.Some? && faults == {} ==> BrokerModel.CreateBatch(old(txn.working), b, ba, ids) == None
  {
    var s;
    match ba.status {
      case Preparing => s := RequestPreparing;
      case Auctioning => s := RequestAuctioning;
      case _ => return Some(WrongStatus);
    }
    if InsertBatch in faults {
      return Some(External);
    }
    var db := txn.working;
    if b in db.batches {
      return Some(BatchExists);
    }
    txn.working := db.(batches := db.batches[b := ba]);
    if WriteRequests in faults {
      return Some(External);
    }
    var updated := set r | r in ids && r in db.requests;
    txn.working := txn.working.(requests := map r | r in db.requests ::
      if r in ids then db.requests[r].(status := s, batch := Some(b)) else db.requests[r]);
    if |updated| < |ids| {
      return Some(UnknownRequest);
    }
    return None;
  }

  method BatchToAuctioning(txn: Txn<DB>, b: BatchId, piece: Cid, size: nat, faults: set<Fault>) returns (err: Option<Error>)
    requires b in txn.working.batches
    modifies txn
    ensures err.None? ==> txn.working == BrokerModel.BatchToAuctioning(old(txn.working), b, piece, size)
    ensures err.Some? ==> faults != {}
  {
    if WriteBatch in faults {
      return Some(External);
    }
    var db := txn.working;
    txn.working := db.(batches := db.batches[b := db.batches[b].(status := Auctioning, pieceCid := Some(piece), pieceSize := size)]);
    if WriteRequests in faults {
      return Some(External);
    }
    txn.working := txn.working.(requests := MoveRequests(db.requests, b, RequestAuctioning));
    return None;
  }

  /** Also returns the requests of the batch, none if it had succeeded. */
  method BatchError(txn: Txn<DB>, b: BatchId, cause: string, rebatch: bool, faults: set<Fault>)
      returns (ids: seq<RequestId>, err: Option<Error>)
    modifies txn
    ensures err.None? ==> BrokerModel.BatchError(old(txn.working), b, cause, rebatch) == Some(txn.working)
    ensures err.None? ==> if old(txn.working).batches[b].status.Success? then ids == [] else Lists(ids, Attached(old(txn.working).requests, b))
    ensures err.Some? && faults == {} ==> BrokerModel.BatchError(old(txn.working), b, cause, rebatch) == None
  {
    ids := [];
    var ba: Option<Batch>;
    ba, err := GetBatch(txn, b, faults);
    if err.Some? {
      return;
    }
    if ReadRequests in faults {
      return [], Some(External);
    }
    var attached := Attached(txn.working.requests, b);
    match ba.value.status {
      case Auctioning =>
      case DealMaking =>
      case Errored =>
        ids := Enumerate(attached);
        return;
      case Success => return;
      case Preparing => return [], Some(WrongStatus);
    }
    if ba.value.error != "" {
      return [], Some(WrongStatus);
    }

    // The batch gets its error.
    if WriteBatch in faults {
      return [], Some(External);
    }
    var db := txn.working;
    txn.working := db.(batches := db.batches[b := ba.value.(status := Errored, error := cause)]);

    // Its requests are released or fail with it.
    if WriteRequests in faults {
      return [], Some(External);
    }
    if rebatch {
      txn.working := txn.working.(requests := MoveRequests(db.requests, b, RequestBatching));
      if WriteRebatch in faults {
        return [], Some(External);
      }
      txn.working := txn.working.(requests := ReleaseRequests(db.requests, b, cause));
    } else {
      txn.working := txn.working.(requests := MoveRequests(db.requests, b, RequestError));
    }

    // Its payload won't be used anymore.
    if !ba.value.disallowRebatching {
      if InsertUnpin(0) in faults {
        return [], Some(External);
      }
      txn.working := txn.working.(unpins := db.unpins + [UnpinJob(ba.value.payloadCid, UnpinBatch)]);
    }
    ids := Enumerate(attached);
    err := None;
  }

  method BatchSuccess(txn: Txn<DB>, b: BatchId, faults: set<Fault>) returns (err: Option<Error>, ghost order: seq<RequestId>)
    modifies txn
    ensures Lists(order, Attached(old(txn.working).requests, b))
    ensures err.None? ==> b in old(txn.working).batches && txn.working == BrokerModel.BatchSuccess(old(txn.working), b, order)
    ensures err.Some? && faults == {} ==> b !in old(txn.working).batches
  {
    var db := txn.working;
    var brs := Enumerate(Attached(db.requests, b));
    order := brs;
    var ba: Option<Batch>;
    ba, err := GetBatch(txn, b, faults);
    if err.Some? {
      return;
    }
    if faults * {WriteBatch, WriteRequests, ReadRequests} != {} {
      return Some(External), order;
    }
    txn.working := SetStatus(db, b, Success);
    txn.working := txn.working.(requests := MoveRequests(db.requests, b, RequestSuccess));
    if !ba.value.disallowRebatching {
      ghost var all := DataJobs(db.requests, brs);
      for i := 0 to |brs|
        invariant txn.working == SetStatus(db, b, Success).(requests := MoveRequests(db.requests, b, RequestSuccess),
                                                            unpins := db.unpins + all[..i])
      {
        if InsertUnpin(i) in faults {
          return Some(External), order;
        }
        assert brs[i] in brs;
        txn.working := txn.working.(unpins := txn.working.unpins + [UnpinJob(db.requests[brs[i]].dataCid, UnpinData)]);
        assert all[..i + 1] == all[..i] + [all[i]];
      }
      assert all[..|brs|] == all;
      if InsertUnpin(|brs|) in faults {
        return Some(External), order;
      }
      txn.working := txn.working.(unpins := txn.working.unpins + [UnpinJob(ba.value.payloadCid, UnpinBatch)]);
    }
    err := None;
  }

  method AlreadyWon(excluded: seq<Provider>, p: Provider) returns (won: bool)
    ensures won <==> p in excluded
  {
    for j := 0 to |excluded|
      invariant p !in excluded[..j]
    {
      if excluded[j] == p {
        return true;
      }
    }
    won := false;
  }

  /** A row for each winner, in the order of the walk, whose provider is not excluded. */
  method InsertDeals(txn: Txn<DB>, au: ClosedAuction, walk: seq<BidId>, excluded: seq<Provider>, ghost ex: set<Provider>, faults: set<Fault>)
      returns (winners: seq<Provider>, err: Option<Error>)
    requires forall x :: x in walk ==> x in au.winningBids
    requires forall p :: p in excluded <==> p in ex
    modifies txn
    ensures var kept := AcceptedBids(walk, au.winningBids, ex);
            err.None? ==>
              && txn.working == old(txn.working).(deals := old(txn.working).deals + NewDeals(au, kept))
              && |winners| == |kept| && forall k :: 0 <= k < |kept| ==> winners[k] == au.winningBids[kept[k]].provider
    ensures err.Some? ==> faults != {}
  {
    var db := txn.working;
    ghost var kept := [];
    winners, err := [], None;
    for i := 0 to |walk|
      invariant err.None? && kept == AcceptedBids(walk[..i], au.winningBids, ex)
      invariant txn.working == db.(deals := db.deals + NewDeals(au, kept))
      invariant |winners| == |kept| && forall k :: 0 <= k < |kept| ==> winners[k] == au.winningBids[kept[k]].provider
    {
      assert walk[i] in walk;
      assert walk[..i + 1][..i] == walk[..i];
      var bid := au.winningBids[walk[i]];
      var alreadyWon := AlreadyWon(excluded, bid.provider);
      if alreadyWon {
        continue;
      }
      winners := winners + [bid.provider];
      if InsertDeal(walk[i]) in faults {
        err := Some(External);
        return;
      }
      txn.working := txn.working.(deals := txn.working.deals + [NewDeal(au, walk[i])]);
      assert NewDeals(au, kept + [walk[i]]) == NewDeals(au, kept) + [NewDeal(au, walk[i])];
      kept := kept + [walk[i]];
    }
    assert walk[..|walk|] == walk;
  }

  /** Walks the winning bids once, keeping those whose provider holds no deal yet. The providers kept are
      returned in the order of the walk. */
  method AddDeals(txn: Txn<DB>, au: ClosedAuction, faults: set<Fault>)
      returns (winners: seq<Provider>, err: Option<Error>, ghost order: seq<BidId>)
    modifies txn
    ensures Lists(order, au.winningBids.Keys)
    ensures err.None? ==>
              && au.batch in old(txn.working).batches
              && var added := BrokerModel.AddDeals(old(txn.working), au, order);
                 && txn.working == added.db
                 && |winners| == |added.accepted|
                 && forall i :: 0 <= i < |winners| ==> winners[i] == au.winningBids[added.accepted[i]].provider
    ensures err.Some? && faults == {} ==>
              au.batch !in old(txn.working).batches
              || (!old(txn.working).batches[au.batch].status.Auctioning? && !old(txn.working).batches[au.batch].status.DealMaking?)
  {
    var walk := Enumerate(au.winningBids.Keys);
    winners, order := [], walk;
    var ba: Option<Batch>;
    ba, err := GetBatch(txn, au.batch, faults);
    if err.Some? {
      return;
    }
    if !ba.value.status.Auctioning? && !ba.value.status.DealMaking? {
      err := Some(WrongStatus);
      return;
    }
    var excluded := [];
    if |ba.value.providers| == 0 {
      excluded, err := GetExcludedStorageProviders(txn, ba.value.pieceCid, ba.value.origin, faults);
      if err.Some? {
        return;
      }
    }
    var db := txn.working;
    ghost var ex := AuctionExclusions(db, ba.value);
    winners, err := InsertDeals(txn, au, walk, excluded, ex, faults);
    if err.Some? {
      return;
    }
    if ba.value.status.Auctioning? {
      if WriteBatch in faults {
        err := Some(External);
        return;
      }
      txn.working := SetStatus(txn.working, au.batch, DealMaking);
      if WriteRequests in faults {
        err := Some(External);
        return;
      }
      txn.working := txn.working.(requests := MoveRequests(db.requests, au.batch, RequestDealMaking));
    }
    err := None;
  }

  method SaveDeals(txn: Txn<DB>, fad: FinalizedDeal, faults: set<Fault>) returns (err: Option<Error>)
    modifies txn
    ensures err.None? ==> HasDeal(old(txn.working).deals, fad.batch, fad.provider)
    ensures err.None? ==> txn.working == old(txn.working).(deals := UpdateDeals(old(txn.working).deals, fad))
    ensures err.Some? && faults == {} ==> !HasDeal(old(txn.working).deals, fad.batch, fad.provider) && err.value == NotFound
  {
    if WriteDeals in faults {
      return Some(External);
    }
    var found := HasDeal(txn.working.deals, fad.batch, fad.provider);
    txn.working := txn.working.(deals := UpdateDeals(txn.working.deals, fad));
    return if found then None else Some(NotFound);
  }

  /** Counts the deals that are confirmed on chain. */
  method CountConfirmed(deals: seq<Deal>, b: BatchId) returns (n: nat)
    ensures n == SumOf(deals, ConfirmedIn(b))
  {
    n := 0;
    for i := 0 to |deals|
      invariant n == SumOf(deals[..i], ConfirmedIn(b))
    {
      SumAppend(deals[..i], deals[i], ConfirmedIn(b));
      assert deals[..i + 1] == deals[..i] + [deals[i]];
      if deals[i].batch == b && deals[i].errorCause == "" && deals[i].dealId > 0 {
        n := n + 1;
      }
    }
    assert deals[..|deals|] == deals;
  }
}
