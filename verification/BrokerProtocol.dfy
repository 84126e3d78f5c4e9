/**
 The broker as a state machine: its database, everything it has published, and the messages that drive
 it. States what the environment is trusted with, and the invariant every run keeps.
 */
module BrokerProtocol {
  import opened Prelude
  import opened BrokerModel

  /** What a message with an operation id reports on. */
  datatype Subject =
    | AuctionClosing(id: AuctionId)
    | DealFinalization(batch: BatchId, provider: Provider)

  /** The operation id under which a subject is reported, first time and every redelivery. */
  type Naming = Subject -> OperationId

  ghost predicate OneOperationEach(opOf: Naming) {
    forall s: Subject, t: Subject :: opOf(s) == opOf(t) ==> s == t
  }

  datatype World = World(db: DB, published: seq<Msg>)

  datatype Event =
    | RequestCreated(request: RequestId, dataCid: Cid, origin: Origin)
    | PreparedCreated(request: RequestId, batch: BatchId, pc: PreparedCar, ch: Choices)
    | BatchCreated(batch: BatchId, payloadCid: Cid, carUrl: nat, origin: Origin, requests: seq<RequestId>)
    | BatchPrepared(batch: BatchId, piece: Cid, size: nat, ch: Choices)
    | AuctionClosed(op: OperationId, au: ClosedAuction, ch: Choices)
    | DealFinalized(op: OperationId, fad: FinalizedDeal, ch: Choices)

  function Handle(conf: Config, db: DB, e: Event): Outcome {
    match e
    case RequestCreated(r, c, o) => Create(db, r, c, o)
    case PreparedCreated(r, b, pc, ch) => CreatePrepared(conf, db, r, b, pc, ch)
    case BatchCreated(b, c, u, o, rs) => CreateNewBatch(conf, db, b, c, u, o, rs)
    case BatchPrepared(b, p, s, ch) => NewBatchPrepared(db, b, p, s, ch)
    case AuctionClosed(op, au, ch) => BatchAuctioned(db, op, au, ch)
    case DealFinalized(op, fad, ch) => BatchFinalizedDeal(db, op, fad, ch)
  }

  /** A handler that fails leaves the world as it was. */
  function Step(conf: Config, w: World, e: Event): World {
    match Handle(conf, w.db, e)
    case Commit(db, msgs, _) => World(db, w.published + msgs)
    case Fail(_) => w
  }

  // ---------- Environment ----------

  /** Message `i` of the log asks for the auction `id`. */
  predicate Asks(published: seq<Msg>, i: nat, id: AuctionId) {
    i < |published| && published[i].ReadyToAuction? && published[i].id == id
  }

  predicate FreshAuction(w: World, id: AuctionId) {
    forall i | 0 <= i < |w.published| :: !Asks(w.published, i, id)
  }

  predicate DistinctProviders(bids: map<BidId, WinningBid>) {
    forall x, y | x in bids && y in bids && x != y :: bids[x].provider != bids[y].provider
  }

  /** A targeted batch never wins with a provider that it already has a deal with. */
  predicate FreshTargets(db: DB, au: ClosedAuction) {
    au.batch in db.batches && db.batches[au.batch].providers != [] ==>
      forall x | x in au.winningBids :: !HasDeal(db.deals, au.batch, au.winningBids[x].provider)
  }

  /** The auction was asked for, and if it succeeded it has as many winners as were asked for, all
      different providers. */
  ghost predicate Reports(w: World, au: ClosedAuction) {
    exists k: nat :: Asks(w.published, k, au.id) && w.published[k].auctioned == au.batch
      && (au.errorCause == "" ==>
            && |au.winningBids| == w.published[k].replication
            && DistinctProviders(au.winningBids)
            && FreshTargets(w.db, au))
  }

  predicate NoneStored(db: DB, ids: seq<RequestId>) {
    forall r | r in ids && r in db.requests :: !StoredIn(db, r)
  }

  ghost predicate Admissible(opOf: Naming, w: World, e: Event) {
    match e
    case RequestCreated(_, _, _) => true
    case PreparedCreated(_, _, _, ch) => FreshAuction(w, ch.auctionId)
    // The packer does not pack what is already stored.
    case BatchCreated(_, _, _, _, rs) => NoneStored(w.db, rs)
    case BatchPrepared(_, _, _, ch) => FreshAuction(w, ch.auctionId)
    case AuctionClosed(op, au, ch) =>
      && op == opOf(AuctionClosing(au.id))
      && FreshAuction(w, ch.auctionId)
      && Lists(ch.bidOrder, au.winningBids.Keys)
      && Lists(ch.requestOrder, Attached(w.db.requests, au.batch))
      && Reports(w, au)
    case DealFinalized(op, fad, ch) =>
      && op == opOf(DealFinalization(fad.batch, fad.provider))
      && FreshAuction(w, ch.auctionId)
      && Lists(ch.requestOrder, Attached(w.db.requests, fad.batch))
  }

  // ---------- Slot accounting ----------

  predicate Live(s: BatchStatus) {
    s.Auctioning? || s.DealMaking?
  }

  predicate Terminal(s: BatchStatus) {
    s.Success? || s.Errored?
  }

  /** Replicas that an auction still open may yield for the batch: none once its closing is recorded. */
  function OpenWeight(opOf: Naming, ops: set<OperationId>, b: BatchId): Msg -> nat {
    (m: Msg) => if m.ReadyToAuction? && m.auctioned == b && opOf(AuctionClosing(m.id)) !in ops then m.replication else 0
  }

  function OpenReplicas(opOf: Naming, w: World, b: BatchId): nat {
    SumOf(w.published, OpenWeight(opOf, w.db.operations, b))
  }

  function PendingDeals(w: World, b: BatchId): nat {
    SumOf(w.db.deals, PendingIn(b))
  }

  function ConfirmedDeals(w: World, b: BatchId): nat {
    SumOf(w.db.deals, ConfirmedIn(b))
  }

  function Slots(opOf: Naming, w: World, b: BatchId): nat {
    OpenReplicas(opOf, w, b) + PendingDeals(w, b) + ConfirmedDeals(w, b)
  }

  /** Every replica of a live or successful batch is being auctioned, made or confirmed; a failed batch
      has lost at least one; success is exactly the replication factor confirmed. */
  predicate SlotsOk(opOf: Naming, w: World, b: BatchId)
    requires b in w.db.batches
  {
    var ba := w.db.batches[b];
    match ba.status
    case Preparing => Slots(opOf, w, b) == 0
    case Errored => Slots(opOf, w, b) < ba.repFactor
    case Success => Slots(opOf, w, b) == ba.repFactor == ConfirmedDeals(w, b)
    case _ => Slots(opOf, w, b) == ba.repFactor && ConfirmedDeals(w, b) < ba.repFactor
  }

  // ---------- The invariant ----------

  ghost predicate Known(w: World, s: Subject) {
    match s
    case AuctionClosing(id) => exists k: nat :: Asks(w.published, k, id)
    case DealFinalization(b, p) => HasDeal(w.db.deals, b, p)
  }

  predicate DistinctAuctions(published: seq<Msg>) {
    forall i, j | 0 <= i < j < |published| && published[i].ReadyToAuction? && published[j].ReadyToAuction? ::
      published[i].id != published[j].id
  }

  /** Auctions have distinct ids, ask for something, and belong to a batch. */
  predicate AuctionsOk(w: World) {
    && DistinctAuctions(w.published)
    && (forall i | 0 <= i < |w.published| && w.published[i].ReadyToAuction? ::
          w.published[i].replication >= 1 && w.published[i].auctioned in w.db.batches)
  }

  /** One row per batch and provider, of a batch past preparation, still pending until its own
      finalization is recorded. */
  predicate DealsOk(opOf: Naming, db: DB) {
    && (forall i | 0 <= i < |db.deals| ::
          && db.deals[i].batch in db.batches
          && !db.batches[db.deals[i].batch].status.Preparing?
          && (opOf(DealFinalization(db.deals[i].batch, db.deals[i].provider)) !in db.operations ==> Pending(db.deals[i])))
    && UniqueRows(db.deals)
  }

  predicate UniqueRows(deals: seq<Deal>) {
    forall i, j | 0 <= i < j < |deals| :: !Matches(deals[j], deals[i].batch, deals[i].provider)
  }

  ghost predicate OperationsOk(opOf: Naming, w: World) {
    forall op :: op in w.db.operations ==> exists s :: opOf(s) == op && Known(w, s)
  }

  /** What holds of a batch whatever is published for it. */
  predicate BatchSane(ba: Batch) {
    && ba.repFactor >= 1
    && (!Terminal(ba.status) ==> ba.error == "")
    && (ba.filEpochDeadline > 0 || ba.providers != [] ==> ba.disallowRebatching)
    && (ba.status.Preparing? ==> ba.providers == [])
    && (!ba.status.Preparing? ==> ba.pieceCid.Some?)
  }

  predicate BatchesSane(db: DB) {
    forall b | b in db.batches :: BatchSane(db.batches[b])
  }

  predicate BatchOk(ba: Batch) {
    BatchSane(ba) && (ba.status.Success? ==> ba.error == "")
  }

  /** The status of the requests of a batch. */
  function Mirror(ba: Batch): RequestStatus {
    match ba.status
    case Preparing => RequestPreparing
    case Auctioning => RequestAuctioning
    case DealMaking => RequestDealMaking
    case Success => RequestSuccess
    case Errored => if ba.disallowRebatching then RequestError else RequestBatching
  }

  predicate MirrorOk(db: DB) {
    forall r | r in db.requests && db.requests[r].batch.Some? ::
      && db.requests[r].batch.value in db.batches
      && db.requests[r].status == Mirror(db.batches[db.requests[r].batch.value])
  }

  predicate SamePiece(x: Batch, y: Batch) {
    x.pieceCid == y.pieceCid && x.origin == y.origin
  }

  /** A deal of an untargeted batch never repeats the provider of an earlier deal for its piece and
      origin. */
  predicate NoRepeatedProvider(db: DB) {
    forall i, j | 0 <= i < j < |db.deals| ::
      && db.deals[i].batch in db.batches && db.deals[j].batch in db.batches
      && (db.batches[db.deals[j].batch].providers == []
          && SamePiece(db.batches[db.deals[i].batch], db.batches[db.deals[j].batch])
          ==> db.deals[i].provider != db.deals[j].provider)
  }

  function IsJob(c: Cid, kind: UnpinKind): UnpinJob -> nat {
    (j: UnpinJob) => if j == UnpinJob(c, kind) then 1 else 0
  }

  /** Rebatchable batches that reached their end with this payload. */
  function EndedBatches(db: DB, c: Cid): set<BatchId> {
    set b | b in db.batches && Terminal(db.batches[b].status) && !db.batches[b].disallowRebatching
            && db.batches[b].payloadCid == c
  }

  predicate StoredIn(db: DB, r: RequestId)
    requires r in db.requests
  {
    var b := db.requests[r].batch;
    && b.Some? && b.value in db.batches
    && db.batches[b.value].status.Success? && !db.batches[b.value].disallowRebatching
  }

  /** Requests of successful rebatchable batches with this data. */
  function StoredRequests(db: DB, c: Cid): set<RequestId> {
    set r | r in db.requests && StoredIn(db, r) && db.requests[r].dataCid == c
  }

  /** One batch-unpin job per ended rebatchable batch, one data-unpin job per request it stored, and no
      others: in particular none for prepared batches. */
  ghost predicate UnpinsOk(db: DB) {
    forall c: Cid ::
      && SumOf(db.unpins, IsJob(c, UnpinBatch)) == |EndedBatches(db, c)|
      && SumOf(db.unpins, IsJob(c, UnpinData)) == |StoredRequests(db, c)|
  }

  predicate BatchesOk(db: DB) {
    forall b | b in db.batches :: BatchOk(db.batches[b])
  }

  predicate AllSlotsOk(opOf: Naming, w: World) {
    forall b | b in w.db.batches :: SlotsOk(opOf, w, b)
  }

  ghost predicate Inv(opOf: Naming, w: World) {
    && AuctionsOk(w)
    && DealsOk(opOf, w.db)
    && OperationsOk(opOf, w)
    && BatchesOk(w.db)
    && AllSlotsOk(opOf, w)
    && MirrorOk(w.db)
    && NoRepeatedProvider(w.db)
    && UnpinsOk(w.db)
  }

  const EMPTY := World(DB(map[], map[], [], {}, []), [])

  ghost predicate AdmissibleRun(conf: Config, opOf: Naming, w: World, es: seq<Event>)
    decreases |es|
  {
    es == [] || (Admissible(opOf, w, es[0]) && AdmissibleRun(conf, opOf, Step(conf, w, es[0]), es[1..]))
  }

  function Run(conf: Config, w: World, es: seq<Event>): World
    decreases |es|
  {
    if es == [] then w else Run(conf, Step(conf, w, es[0]), es[1..])
  }
}
