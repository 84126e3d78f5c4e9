/**
 The broker's tables and what each committed handler does to them.

 A database value holds the rows of the five tables the protocol uses. Every store operation and
 every handler is a function from rows to rows plus the messages it publishes; the imperative
 handlers of module `Broker` are proved to compute exactly these functions.
 */
module BrokerModel {
  import opened Prelude

  // Identifiers, cids and addresses are opaque: only equality is used.
  type BatchId = nat
  type RequestId = nat
  type AuctionId = nat
  type BidId = nat
  type OperationId = nat
  type Provider = nat
  type Cid = nat
  type Origin = nat

  datatype BatchStatus = Preparing | Auctioning | DealMaking | Success | Errored

  datatype RequestStatus =
    | RequestBatching
    | RequestPreparing
    | RequestAuctioning
    | RequestDealMaking
    | RequestSuccess
    | RequestError

  datatype Batch = Batch(
    status: BatchStatus,
    repFactor: nat,
    dealDuration: nat,
    payloadCid: Cid,
    pieceCid: Option<Cid>,
    pieceSize: nat,
    carUrl: Option<nat>,
    disallowRebatching: bool,
    filEpochDeadline: nat,
    origin: Origin,
    providers: seq<Provider>,
    error: string)

  datatype Request = Request(
    dataCid: Cid,
    origin: Origin,
    status: RequestStatus,
    batch: Option<BatchId>,
    rebatchCount: nat,
    errorCause: string)

  datatype Deal = Deal(
    batch: BatchId,
    auction: AuctionId,
    bid: BidId,
    provider: Provider,
    dealId: int,
    expiration: nat,
    errorCause: string)

  datatype UnpinKind = UnpinBatch | UnpinData
  datatype UnpinJob = UnpinJob(cid: Cid, kind: UnpinKind)

  datatype DB = DB(
    batches: map<BatchId, Batch>,
    requests: map<RequestId, Request>,
    deals: seq<Deal>,
    operations: set<OperationId>,
    unpins: seq<UnpinJob>)

  datatype WinningBid = WinningBid(provider: Provider, price: int, startEpoch: nat, fastRetrieval: bool)

  datatype ClosedAuction = ClosedAuction(
    id: AuctionId,
    batch: BatchId,
    dealDuration: nat,
    dealVerified: bool,
    winningBids: map<BidId, WinningBid>,
    errorCause: string)

  datatype FinalizedDeal = FinalizedDeal(
    batch: BatchId,
    provider: Provider,
    dealId: int,
    expiration: nat,
    errorCause: string)

  datatype Proposal = Proposal(
    provider: Provider,
    price: int,
    startEpoch: nat,
    verified: bool,
    fastRetrieval: bool,
    auction: AuctionId,
    bid: BidId)

  datatype Rebatched = Rebatched(request: RequestId, dataCid: Cid, origin: Origin)

  datatype Msg =
    | ReadyToAuction(id: AuctionId, auctioned: BatchId, payloadCid: Cid, pieceSize: nat, dealDuration: nat,
                     replication: nat, excluded: set<Provider>, startEpoch: nat, providers: seq<Provider>)
    | ReadyToCreateDeals(id: nat, batch: BatchId, payloadCid: Cid, pieceCid: Option<Cid>, pieceSize: nat,
                         dealDuration: nat, carUrl: nat, proposals: seq<Proposal>)
    | ReadyToBatch(requests: seq<Rebatched>)

  datatype Config = Config(dealReplication: nat, dealDuration: nat)

  datatype PreparedCar = PreparedCar(
    payloadCid: Cid,
    pieceCid: Cid,
    pieceSize: nat,
    repFactor: nat,
    deadline: nat,
    carUrl: Option<nat>,
    origin: Origin,
    providers: seq<Provider>)

  datatype Error = OperationExists | BatchExists | UnknownRequest | NotFound | WrongStatus | External

  /** What is left to chance or to the clock in one run of a handler: the order in which Go walks the
      winning bids and SQL returns requests, the ids drawn, the epoch computed for new proposals, and the order
      in which the winning bids are walked again to look up each accepted provider. */
  datatype Choices = Choices(
    bidOrder: seq<BidId>,
    requestOrder: seq<RequestId>,
    auctionId: AuctionId,
    dealsId: nat,
    startEpoch: nat,
    lookups: seq<seq<BidId>>)

  /** A handler run without infrastructure failures. `panicked` marks a run that dies after its last
      database write; its deferred commit still happens. */
  datatype Outcome =
    | Commit(db: DB, msgs: seq<Msg>, panicked: bool)
    | Fail(error: Error)

  datatype Effect = Effect(db: DB, msgs: seq<Msg>)
  datatype Added = Added(db: DB, accepted: seq<BidId>)

  // ---------- Queries ----------

  predicate Confirmed(d: Deal) {
    d.errorCause == "" && d.dealId > 0
  }

  predicate Pending(d: Deal) {
    d.errorCause == "" && d.dealId <= 0
  }

  function ConfirmedIn(b: BatchId): Deal -> nat {
    (d: Deal) => if d.batch == b && Confirmed(d) then 1 else 0
  }

  function PendingIn(b: BatchId): Deal -> nat {
    (d: Deal) => if d.batch == b && Pending(d) then 1 else 0
  }

  /** The deal was made for this piece and origin. */
  predicate DealFor(db: DB, d: Deal, piece: Cid, origin: Origin) {
    && d.batch in db.batches
    && db.batches[d.batch].pieceCid == Some(piece)
    && db.batches[d.batch].origin == origin
  }

  /** Providers that hold a deal for the piece and origin, successful or not. An undefined piece matches
      no row. */
  function ExcludedProviders(db: DB, piece: Option<Cid>, origin: Origin): set<Provider> {
    if piece.None? then {} else
    set d | d in db.deals && DealFor(db, d, piece.value, origin) :: d.provider
  }

  function Attached(requests: map<RequestId, Request>, b: BatchId): set<RequestId> {
    set r | r in requests && requests[r].batch == Some(b)
  }

  predicate Matches(d: Deal, b: BatchId, p: Provider) {
    d.batch == b && d.provider == p
  }

  predicate HasDeal(deals: seq<Deal>, b: BatchId, p: Provider) {
    exists i | 0 <= i < |deals| :: Matches(deals[i], b, p)
  }

  // ---------- Store operations ----------

  /** Writes `s` to every request of the batch. */
  function MoveRequests(requests: map<RequestId, Request>, b: BatchId, s: RequestStatus): map<RequestId, Request> {
    map r | r in requests ::
      if requests[r].batch == Some(b) then requests[r].(status := s) else requests[r]
  }

  /** Sends every request of the batch back to batching. */
  function ReleaseRequests(requests: map<RequestId, Request>, b: BatchId, cause: string): map<RequestId, Request> {
    map r | r in requests ::
      if requests[r].batch == Some(b)
      then requests[r].(status := RequestBatching, rebatchCount := requests[r].rebatchCount + 1, errorCause := cause)
      else requests[r]
  }

  function SetStatus(db: DB, b: BatchId, s: BatchStatus): DB
    requires b in db.batches
  {
    db.(batches := db.batches[b := db.batches[b].(status := s)])
  }

  function CreateBatch(db: DB, b: BatchId, ba: Batch, ids: seq<RequestId>): (r: Option<DB>) {
    if b in db.batches then None else
    if !(ba.status.Preparing? || ba.status.Auctioning?) then None else
    if |set r | r in ids && r in db.requests| < |ids| then None else
    var s := if ba.status.Preparing? then RequestPreparing else RequestAuctioning;
    Some(db.(batches := db.batches[b := ba],
             requests := map r | r in db.requests ::
               if r in ids then db.requests[r].(status := s, batch := Some(b)) else db.requests[r]))
  }

  function BatchToAuctioning(db: DB, b: BatchId, piece: Cid, size: nat): DB
    requires b in db.batches
  {
    var ba := db.batches[b].(status := Auctioning, pieceCid := Some(piece), pieceSize := size);
    db.(batches := db.batches[b := ba], requests := MoveRequests(db.requests, b, RequestAuctioning))
  }

  function BatchError(db: DB, b: BatchId, cause: string, rebatch: bool): Option<DB> {
    if b !in db.batches then None else
    var ba := db.batches[b];
    match ba.status
    case Preparing => None
    case Errored => Some(db)
    case Success => Some(db)
    case _ =>
      if ba.error != "" then None else
      Some(db.(batches := db.batches[b := ba.(status := Errored, error := cause)],
               requests := if rebatch then ReleaseRequests(db.requests, b, cause)
                           else MoveRequests(db.requests, b, RequestError),
               unpins := if ba.disallowRebatching then db.unpins
                         else db.unpins + [UnpinJob(ba.payloadCid, UnpinBatch)]))
  }

  function DataJobs(requests: map<RequestId, Request>, order: seq<RequestId>): seq<UnpinJob> {
    seq(|order|, i requires 0 <= i < |order| =>
      UnpinJob(if order[i] in requests then requests[order[i]].dataCid else 0, UnpinData))
  }

  /** Note that the batch's current status is not looked at. */
  function BatchSuccess(db: DB, b: BatchId, order: seq<RequestId>): DB
    requires b in db.batches
  {
    var ba := db.batches[b];
    var db1 := SetStatus(db, b, Success);
    db1.(requests := MoveRequests(db.requests, b, RequestSuccess),
         unpins := if ba.disallowRebatching then db.unpins
                   else db.unpins + DataJobs(db.requests, order) + [UnpinJob(ba.payloadCid, UnpinBatch)])
  }

  /** The winning bids, in iteration order, whose provider is not excluded. */
  function AcceptedBids(order: seq<BidId>, bids: map<BidId, WinningBid>, excluded: set<Provider>): (r: seq<BidId>)
    ensures forall i :: 0 <= i < |r| ==> r[i] in order && r[i] in bids && bids[r[i]].provider !in excluded
    ensures |r| <= |order|
  {
    if order == [] then [] else
    var rest := AcceptedBids(order[..|order| - 1], bids, excluded);
    var last := order[|order| - 1];
    if last in bids && bids[last].provider !in excluded then rest + [last] else rest
  }

  function NewDeal(au: ClosedAuction, bid: BidId): Deal
    requires bid in au.winningBids
  {
    Deal(au.batch, au.id, bid, au.winningBids[bid].provider, 0, 0, "")
  }

  function NewDeals(au: ClosedAuction, bids: seq<BidId>): (r: seq<Deal>)
    requires forall i :: 0 <= i < |bids| ==> bids[i] in au.winningBids
    ensures |r| == |bids| && forall i :: 0 <= i < |r| ==> r[i] == NewDeal(au, bids[i])
  {
    seq(|bids|, i requires 0 <= i < |bids| => NewDeal(au, bids[i]))
  }

  /** History is consulted only for batches that do not target providers. */
  function AuctionExclusions(db: DB, ba: Batch): set<Provider> {
    if ba.providers == [] then ExcludedProviders(db, ba.pieceCid, ba.origin) else {}
  }

  function AddDeals(db: DB, au: ClosedAuction, order: seq<BidId>): (r: Added)
    requires au.batch in db.batches
  {
    var ba := db.batches[au.batch];
    var accepted := AcceptedBids(order, au.winningBids, AuctionExclusions(db, ba));
    var db1 := db.(deals := db.deals + NewDeals(au, accepted));
    var db2 := if ba.status.Auctioning?
               then SetStatus(db1, au.batch, DealMaking).(requests := MoveRequests(db.requests, au.batch, RequestDealMaking))
               else db1;
    Added(db2, accepted)
  }

  /** Updates every row of the batch and provider. */
  function UpdateDeals(deals: seq<Deal>, fad: FinalizedDeal): (r: seq<Deal>)
    ensures |r| == |deals|
  {
    seq(|deals|, i requires 0 <= i < |deals| =>
      if Matches(deals[i], fad.batch, fad.provider)
      then deals[i].(dealId := fad.dealId, expiration := fad.expiration, errorCause := fad.errorCause)
      else deals[i])
  }

  // ---------- Broker operations ----------

  const NO_MINERS := "no available miners can be selected for auctioning"
  const DEADLINE_EXCEEDED := "auction deadline exceeded"

  predicate OccursAt(s: string, sub: string, i: nat) {
    i + |sub| <= |s| && s[i..i + |sub|] == sub
  }

  predicate Contains(s: string, sub: string) {
    exists i | 0 <= i <= |s| :: OccursAt(s, sub, i)
  }

  /** Publishes an auction, unless every targeted provider is excluded: then the batch is moved to error. */
  function StartAuction(db: DB, b: BatchId, ba: Batch, id: AuctionId, replication: nat, pieceSize: nat, epoch: nat,
                        ignoreHistory: bool): Option<Effect>
  {
    var excluded := if ignoreHistory then {} else ExcludedProviders(db, ba.pieceCid, ba.origin);
    if ba.providers != [] && (forall p | p in ba.providers :: p in excluded) then
      match BatchError(db, b, NO_MINERS, false)
      case None => None
      case Some(db') => Some(Effect(db', []))
    else
      Some(Effect(db, [ReadyToAuction(id, b, ba.payloadCid, pieceSize, ba.dealDuration, replication, excluded, epoch,
                                      ba.providers)]))
  }

  function ProposalOf(au: ClosedAuction, bid: BidId): Proposal
    requires bid in au.winningBids
  {
    var wb := au.winningBids[bid];
    Proposal(wb.provider, wb.price, wb.startEpoch, au.dealVerified, wb.fastRetrieval, au.id, bid)
  }

  /** What a slot of the proposals holds until a bid is found for it. */
  const NO_PROPOSAL := Proposal(0, 0, 0, false, false, 0, 0)

  /** The first winning bid of the provider on the walk. */
  function LookUp(au: ClosedAuction, walk: seq<BidId>, p: Provider): Proposal
    decreases |walk|
  {
    if walk == [] then NO_PROPOSAL else
    if walk[0] in au.winningBids && au.winningBids[walk[0]].provider == p then ProposalOf(au, walk[0])
    else LookUp(au, walk[1..], p)
  }

  /** One complete walk of the bids for each of `n` lookups. */
  ghost predicate Walks(lookups: seq<seq<BidId>>, n: nat, bids: map<BidId, WinningBid>) {
    |lookups| == n && forall i | 0 <= i < n :: Lists(lookups[i], bids.Keys)
  }

  /** One walk per accepted bid. The bid is not remembered when deals are added, only its provider, which is
      looked up again. */
  function ProposalsOf(au: ClosedAuction, bids: seq<BidId>, lookups: seq<seq<BidId>>): (r: seq<Proposal>)
    requires forall i :: 0 <= i < |bids| ==> bids[i] in au.winningBids
    ensures |r| == |bids|
  {
    seq(|bids|, i requires 0 <= i < |bids| =>
      LookUp(au, if i < |lookups| then lookups[i] else [], au.winningBids[bids[i]].provider))
  }

  function RebatchItems(requests: map<RequestId, Request>, order: seq<RequestId>): seq<Rebatched> {
    seq(|order|, i requires 0 <= i < |order| =>
      if order[i] in requests then Rebatched(order[i], requests[order[i]].dataCid, requests[order[i]].origin)
      else Rebatched(order[i], 0, 0))
  }

  function Create(db: DB, id: RequestId, dataCid: Cid, origin: Origin): Outcome {
    if id in db.requests then Fail(External) else
    Commit(db.(requests := db.requests[id := Request(dataCid, origin, RequestBatching, None, 0, "")]),
           [ReadyToBatch([Rebatched(id, dataCid, origin)])], false)
  }

  /** The batch of a prepared CAR: it has a deadline and can't be rebatched. */
  function PreparedBatch(conf: Config, pc: PreparedCar): Batch {
    Batch(Auctioning, if pc.repFactor == 0 then conf.dealReplication else pc.repFactor, conf.dealDuration,
          pc.payloadCid, Some(pc.pieceCid), pc.pieceSize, pc.carUrl, true, pc.deadline, pc.origin, pc.providers, "")
  }

  /** The batch of the packer: no deadline, no targeted providers, free to be rebatched. */
  function PackedBatch(conf: Config, payload: Cid, carUrl: nat, origin: Origin): Batch {
    Batch(Preparing, conf.dealReplication, conf.dealDuration, payload, None, 0, Some(carUrl), false, 0, origin, [], "")
  }

  function CreatePrepared(conf: Config, db: DB, r: RequestId, b: BatchId, pc: PreparedCar, ch: Choices): Outcome {
    if r in db.requests then Fail(External) else
    var ba := PreparedBatch(conf, pc);
    var db1 := db.(requests := db.requests[r := Request(pc.payloadCid, pc.origin, RequestAuctioning, None, 0, "")]);
    match CreateBatch(db1, b, ba, [r])
    case None => Fail(BatchExists)
    case Some(db2) =>
      match StartAuction(db2, b, ba, ch.auctionId, ba.repFactor, ba.pieceSize, ch.startEpoch, ba.providers != [])
      case None => Fail(WrongStatus)
      case Some(e) => Commit(e.db, e.msgs, false)
  }

  function CreateNewBatch(conf: Config, db: DB, b: BatchId, payload: Cid, carUrl: nat, origin: Origin,
                          ids: seq<RequestId>): Outcome
  {
    if ids == [] then Fail(External) else
    match CreateBatch(db, b, PackedBatch(conf, payload, carUrl, origin), ids)
    case None => Fail(BatchExists)
    case Some(db') => Commit(db', [], false)
  }

  function NewBatchPrepared(db: DB, b: BatchId, piece: Cid, size: nat, ch: Choices): Outcome {
    if b !in db.batches then Fail(NotFound) else
    var ba := db.batches[b];
    match ba.status
    case Preparing =>
      if ba.pieceCid.Some? || ba.pieceSize > 0 then Fail(WrongStatus) else
      var db1 := BatchToAuctioning(db, b, piece, size);
      // The batch handed on was loaded before its piece was set.
      (match StartAuction(db1, b, ba, ch.auctionId, ba.repFactor, size, ch.startEpoch, false)
       case None => Fail(WrongStatus)
       case Some(e) => Commit(e.db, e.msgs, false))
    case Auctioning =>
      if ba.pieceCid != Some(piece) || ba.pieceSize != size then Fail(WrongStatus) else Commit(db, [], false)
    case _ => Fail(WrongStatus)
  }

  function BatchAuctioned(db: DB, op: OperationId, au: ClosedAuction, ch: Choices): Outcome {
    if op in db.operations then Fail(OperationExists) else
    var db1 := db.(operations := db.operations + {op});
    if au.batch !in db1.batches then Fail(NotFound) else
    var ba := db1.batches[au.batch];
    match ba.status
    case Errored => Commit(db1, [], false)
    case Success => Commit(db1, [], false)
    case Preparing => Fail(WrongStatus)
    case _ =>
      if au.errorCause != "" then AuctionFailed(db1, au, ba, ch) else AuctionWon(db1, au, ba, ch)
  }

  /** Without requests there is nothing to send to the packer, and an empty message is refused. */
  function AuctionFailed(db: DB, au: ClosedAuction, ba: Batch, ch: Choices): Outcome {
    match BatchError(db, au.batch, au.errorCause, !ba.disallowRebatching)
    case None => Fail(WrongStatus)
    case Some(db') =>
      if !ba.disallowRebatching && ch.requestOrder == [] then Fail(External) else
      Commit(db', if ba.disallowRebatching then [] else [ReadyToBatch(RebatchItems(db'.requests, ch.requestOrder))],
             false)
  }

  /** A won auction up to and including the auction that fills the gap. */
  function GapEffect(db: DB, au: ClosedAuction, ba: Batch, ch: Choices): Option<Effect>
    requires au.batch in db.batches
  {
    var added := AddDeals(db, au, ch.bidOrder);
    var gap := |au.winningBids| - |added.accepted|;
    if gap > 0 then StartAuction(added.db, au.batch, ba, ch.auctionId, gap, ba.pieceSize, ch.startEpoch, false)
    else Some(Effect(added.db, []))
  }

  function DealMessages(au: ClosedAuction, ba: Batch, ch: Choices, accepted: seq<BidId>): seq<Msg>
    requires forall i :: 0 <= i < |accepted| ==> accepted[i] in au.winningBids
  {
    if accepted == [] || ba.carUrl.None? then [] else
    [ReadyToCreateDeals(ch.dealsId, au.batch, ba.payloadCid, ba.pieceCid, ba.pieceSize, au.dealDuration,
                        ba.carUrl.value, ProposalsOf(au, accepted, ch.lookups))]
  }

  /** The CAR URL is dereferenced once deals were accepted: a batch with only an IPFS source panics there. */
  function AuctionWon(db: DB, au: ClosedAuction, ba: Batch, ch: Choices): Outcome
    requires au.batch in db.batches
  {
    var accepted := AddDeals(db, au, ch.bidOrder).accepted;
    match GapEffect(db, au, ba, ch)
    case None => Fail(WrongStatus)
    case Some(e) => Commit(e.db, e.msgs + DealMessages(au, ba, ch, accepted), accepted != [] && ba.carUrl.None?)
  }

  /** The re-auction of a failed deal would start after the batch's deadline. A rejected deal is always
      re-auctioned. */
  predicate PastDeadline(ba: Batch, fad: FinalizedDeal, epoch: nat) {
    !Contains(fad.errorCause, "deal rejected") && ba.filEpochDeadline > 0 && ba.filEpochDeadline < epoch
  }

  function BatchFinalizedDeal(db: DB, op: OperationId, fad: FinalizedDeal, ch: Choices): Outcome {
    if op in db.operations then Fail(OperationExists) else
    if !HasDeal(db.deals, fad.batch, fad.provider) then Fail(NotFound) else
    var db1 := db.(operations := db.operations + {op}, deals := UpdateDeals(db.deals, fad));
    if fad.batch !in db1.batches then Fail(NotFound) else
    var ba := db1.batches[fad.batch];
    if fad.errorCause != "" then
      if PastDeadline(ba, fad, ch.startEpoch) then
        match BatchError(db1, fad.batch, DEADLINE_EXCEEDED, false)
        case None => Fail(WrongStatus)
        case Some(db2) => Commit(db2, [], false)
      else
        match StartAuction(db1, fad.batch, ba, ch.auctionId, 1, ba.pieceSize, ch.startEpoch, false)
        case None => Fail(WrongStatus)
        case Some(e) => Commit(e.db, e.msgs, false)
    else if SumOf(db1.deals, ConfirmedIn(fad.batch)) == ba.repFactor then
      Commit(BatchSuccess(db1, fad.batch, ch.requestOrder), [], false)
    else
      Commit(db1, [], false)
  }
}
