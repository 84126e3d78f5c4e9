/** Concurrent bid handlers of one auction, from the first bid to the closed auction that is published. */
module BidIntake {
  import opened Prelude
  import opened Comparators
  import opened WinnerSelection

  /** How far the handler of a bid is, once the bidder is marked. */
  datatype Phase = Marked | Saved | Appended | Failed

  datatype Handler = Handler(bid: Bid, phase: Phase)

  /** `handlers` holds the bids whose bidder was marked; `saved` is the bid map of the auction; `bids` the list
      that the selection reads, until `closed`, when the selection keeps the lock; `started` is the status. */
  datatype Intake = Intake(
    bidders: set<Peer>,
    handlers: map<BidId, Handler>,
    saved: map<BidId, Bid>,
    bids: seq<Bid>,
    closed: bool,
    started: bool)

  const OPENED := Intake({}, map[], map[], [], false, true)

  /** What a handler does between two points where another handler may come in, and what the auction does. */
  datatype Event =
    | Receive(bid: Bid, verified: bool)
    | AddBid(id: BidId, written: bool)
    | Append(id: BidId)
    | Close
    | Finalize

  // ---------- Accepting a bid ----------

  /** `verified`: the provider, the signature and the peer id are well formed and belong together. */
  predicate ValidBid(b: Bid, verified: bool) {
    b.askPrice >= 0 && b.verifiedAskPrice >= 0 && b.startEpoch > 0 && verified
  }

  predicate Accepted(au: Auction, b: Bid) {
    && (au.filEpochDeadline > 0 ==> 0 < b.startEpoch <= au.filEpochDeadline)
    && b.provider !in au.excluded
  }

  method AcceptBid(au: Auction, b: Bid) returns (ok: bool)
    ensures ok <==> Accepted(au, b)
  {
    if au.filEpochDeadline > 0 && (b.startEpoch <= 0 || au.filEpochDeadline < b.startEpoch) {
      return false;
    }
    for i := 0 to |au.excluded|
      invariant forall k | 0 <= k < i :: au.excluded[k] != b.provider
    {
      if b.provider == au.excluded[i] {
        return false;
      }
    }
    ok := true;
  }

  // ---------- Steps ----------

  function Receiving(au: Auction, s: Intake, b: Bid, verified: bool): Intake {
    if !ValidBid(b, verified) || !Accepted(au, b) || s.closed || b.bidder in s.bidders then s
    else s.(bidders := s.bidders + {b.bidder}, handlers := s.handlers[b.id := Handler(b, Marked)])
  }

  function Adding(s: Intake, id: BidId, written: bool): Intake {
    if id !in s.handlers || !s.handlers[id].phase.Marked? then s
    else if !s.started then s.(handlers := s.handlers[id := s.handlers[id].(phase := Failed)])
    else s.(saved := s.saved[id := s.handlers[id].bid],
            handlers := s.handlers[id := s.handlers[id].(phase := if written then Saved else Failed)])
  }

  function Appending(s: Intake, id: BidId): Intake {
    if id !in s.handlers || !s.handlers[id].phase.Saved? || s.closed then s
    else s.(bids := s.bids + [s.handlers[id].bid], handlers := s.handlers[id := s.handlers[id].(phase := Appended)])
  }

  function Step(au: Auction, s: Intake, e: Event): Intake {
    match e
    case Receive(b, verified) => Receiving(au, s, b, verified)
    case AddBid(id, written) => Adding(s, id, written)
    case Append(id) => Appending(s, id)
    case Close => s.(closed := true)
    case Finalize => s.(started := false)
  }

  /** A bid gets an id that no handler has. */
  predicate FreshBid(s: Intake, e: Event) {
    e.Receive? ==> e.bid.id !in s.handlers
  }

  predicate FreshBids(au: Auction, s: Intake, es: seq<Event>)
    decreases |es|
  {
    es == [] || (FreshBid(s, es[0]) && FreshBids(au, Step(au, s, es[0]), es[1..]))
  }

  function Run(au: Auction, s: Intake, es: seq<Event>): Intake
    decreases |es|
  {
    if es == [] then s else Run(au, Step(au, s, es[0]), es[1..])
  }

  // ---------- Invariant ----------

  ghost predicate HandlerOk(au: Auction, s: Intake, id: BidId)
    requires id in s.handlers
  {
    var h := s.handlers[id];
    && h.bid.id == id && Accepted(au, h.bid) && h.bid.bidder in s.bidders
    && (h.phase.Saved? || h.phase.Appended? ==> id in s.saved && s.saved[id] == h.bid)
  }

  ghost predicate OneBidEach(s: Intake) {
    forall i, j | i in s.handlers && j in s.handlers && i != j :: s.handlers[i].bid.bidder != s.handlers[j].bid.bidder
  }

  ghost predicate Listed(s: Intake, b: Bid) {
    b.id in s.handlers && s.handlers[b.id] == Handler(b, Appended)
  }

  ghost predicate Inv(au: Auction, s: Intake) {
    HandlersOk(au, s) && OneBidEach(s) && ListOk(s)
  }

  ghost predicate HandlersOk(au: Auction, s: Intake) {
    forall id | id in s.handlers :: HandlerOk(au, s, id)
  }

  ghost predicate ListOk(s: Intake) {
    && DistinctIds(s.bids) && (forall k | 0 <= k < |s.bids| :: Listed(s, s.bids[k]))
    && (forall id | id in s.handlers && s.handlers[id].phase.Appended? :: s.handlers[id].bid in s.bids)
  }

  lemma StepKeepsHandlers(au: Auction, s: Intake, e: Event)
    requires HandlersOk(au, s) && FreshBid(s, e)
    ensures HandlersOk(au, Step(au, s, e))
  {
    var s' := Step(au, s, e);
    forall id | id in s'.handlers ensures HandlerOk(au, s', id) {
      if id in s.handlers { assert HandlerOk(au, s, id); }
    }
  }

  lemma StepKeepsOneBidEach(au: Auction, s: Intake, e: Event)
    requires HandlersOk(au, s) && OneBidEach(s) && FreshBid(s, e)
    ensures OneBidEach(Step(au, s, e))
  {
    if e.Receive? && Step(au, s, e) != s {
      forall id | id in s.handlers ensures s.handlers[id].bid.bidder != e.bid.bidder { assert HandlerOk(au, s, id); }
    }
  }

  lemma StepKeepsList(au: Auction, s: Intake, e: Event)
    requires HandlersOk(au, s) && ListOk(s) && FreshBid(s, e)
    ensures ListOk(Step(au, s, e))
  {
    var s' := Step(au, s, e);
    var grew := e.Append? && s' != s;
    if grew { assert HandlerOk(au, s, e.id); }
    forall k | 0 <= k < |s.bids| ensures Listed(s', s.bids[k]) && (grew ==> s.bids[k].id != e.id) {
      assert Listed(s, s.bids[k]);
    }
  }

  lemma StepKeepsInv(au: Auction, s: Intake, e: Event)
    requires Inv(au, s) && FreshBid(s, e)
    ensures Inv(au, Step(au, s, e))
  {
    StepKeepsHandlers(au, s, e);
    StepKeepsOneBidEach(au, s, e);
    StepKeepsList(au, s, e);
  }

  /** Every interleaving of the handlers keeps the invariant; once closed, the list of bids stays as it is. */
  lemma {:induction false} RunKeepsInv(au: Auction, s: Intake, es: seq<Event>)
    requires Inv(au, s) && FreshBids(au, s, es)
    ensures Inv(au, Run(au, s, es))
    ensures s.closed ==> Run(au, s, es).closed && Run(au, s, es).bids == s.bids
    decreases |es|
  {
    if es != [] {
      StepKeepsInv(au, s, es[0]);
      RunKeepsInv(au, Step(au, s, es[0]), es[1..]);
    }
  }

  /** A bid is put in the bid map if and only if the auction is still started, and is saved if its row can be written too;
      otherwise its handler has failed. */
  lemma BidAdded(au: Auction, s: Intake, id: BidId, written: bool)
    requires id in s.handlers && s.handlers[id].phase.Marked?
    ensures var s', b := Step(au, s, AddBid(id, written)), s.handlers[id].bid;
            && s'.saved == (if s.started then s.saved[id := b] else s.saved)
            && s'.handlers == s.handlers[id := Handler(b, if s.started && written then Saved else Failed)]
            && s' == s.(saved := s'.saved, handlers := s'.handlers)
  {
  }

  /** Once the auction is finalized, whatever the handlers still do, the bid map stays as it is. */
  lemma {:induction false} FinalizedStays(au: Auction, s: Intake, es: seq<Event>)
    requires !s.started || (es != [] && es[0].Finalize?)
    ensures !Run(au, s, es).started && Run(au, s, es).saved == s.saved
    decreases |es|
  {
    if es != [] {
      FinalizedStays(au, Step(au, s, es[0]), es[1..]);
    }
  }

  // ---------- The closed auction ----------

  datatype WonBid = WonBid(provider: Provider, price: int, startEpoch: nat, fastRetrieval: bool)

  /** The terms of a winning bid are its own. */
  predicate TermsOf(au: Auction, b: Bid, won: WonBid) {
    && won.provider == b.provider && won.startEpoch == b.startEpoch && won.fastRetrieval == b.fastRetrieval
    && won.price == if au.dealVerified then b.verifiedAskPrice else b.askPrice
  }

  /** The winning bids that are in the bid map, with their terms; the others are skipped. */
  method ToClosedAuction(au: Auction, winners: map<BidId, WinningBid>, saved: map<BidId, Bid>)
      returns (wbids: map<BidId, WonBid>)
    ensures wbids.Keys == winners.Keys * saved.Keys
    ensures forall id | id in wbids :: TermsOf(au, saved[id], wbids[id])
  {
    wbids := map[];
    var order := Enumerate(winners.Keys);
    for i := 0 to |order|
      invariant forall id :: id in wbids <==> id in order[..i] && id in saved
      invariant forall id | id in wbids :: TermsOf(au, saved[id], wbids[id])
    {
      var id := order[i];
      assert order[..i + 1] == order[..i] + [id];
      if id in saved {
        var price;
        if au.dealVerified {
          price := saved[id].verifiedAskPrice;
        } else {
          price := saved[id].askPrice;
        }
        wbids := wbids[id := WonBid(saved[id].provider, price, saved[id].startEpoch, saved[id].fastRetrieval)];
      }
    }
    assert order[..|order|] == order;
  }

  /** Which bids may win: free ones, of the targeted providers if there are any; and if there are none but a deadline,
      of providers that take less time to get a deal on chain than is left. */
  predicate CanWin(au: Auction, cx: Context, b: Bid) {
    && (if au.dealVerified then b.verifiedAskPrice == 0 else b.askPrice == 0)
    && (au.providers != [] ==> exists i :: 0 <= i < |au.providers| && au.providers[i] == b.provider)
    && (au.providers == [] && au.filEpochDeadline > 0 ==>
          && cx.epoch < au.filEpochDeadline
          && (b.provider in cx.onChainEpochs ==> cx.epoch + cx.onChainEpochs[b.provider] < au.filEpochDeadline))
  }

  lemma EligibleCanWin(au: Auction, cx: Context, b: Bid)
    requires !Late(au, cx)
    ensures Eligible(au, cx, b) <==> CanWin(au, cx, b)
  {
    if b.provider in au.providers {
      var i :| 0 <= i < |au.providers| && au.providers[i] == b.provider;
    }
  }

  /** What the auction promises of a bid that won. */
  ghost predicate WonFairly(au: Auction, cx: Context, b: Bid, won: WonBid) {
    && TermsOf(au, b, won) && CanWin(au, cx, b) && won.price == 0
    && (forall i | 0 <= i < |au.excluded| :: au.excluded[i] != won.provider)
    && (au.filEpochDeadline > 0 ==> 0 < won.startEpoch <= au.filEpochDeadline)
  }

  /** Every winning bid was selected from bids that are listed, so it is in the bid map. */
  lemma WinnersAreSaved(au: Auction, cx: Context, s: Intake, pool: seq<Bid>, won: set<Bid>, winners: map<BidId, WinningBid>)
    requires Inv(au, s) && Records(won, winners)
    requires forall b :: b in pool <==> b in s.bids && Eligible(au, cx, b)
    requires !Late(au, cx) && forall b | b in won :: b in pool
    ensures winners.Keys <= s.saved.Keys
    ensures forall id | id in winners ::
              && s.saved[id].id == id && s.saved[id].bidder == winners[id].bidder
              && forall terms | TermsOf(au, s.saved[id], terms) :: WonFairly(au, cx, s.saved[id], terms)
    ensures forall i, j | i in winners && j in winners && i != j :: winners[i].bidder != winners[j].bidder
  {
    forall id | id in winners
      ensures id in s.saved && id in s.handlers && s.handlers[id].bid == s.saved[id] && s.saved[id].id == id
      ensures s.saved[id].bidder == winners[id].bidder && Accepted(au, s.saved[id]) && CanWin(au, cx, s.saved[id])
    {
      assert id in Ids(won);
      var b :| b in won && b.id == id;
      assert b in pool;
      var k :| 0 <= k < |s.bids| && s.bids[k] == b;
      assert Listed(s, s.bids[k]);
      assert HandlerOk(au, s, id);
      EligibleCanWin(au, cx, b);
    }
  }

  /** The handlers' shared state, changed in sections that each hold a lock. */
  class Auctioning {
    const au: Auction
    var bidders: set<Peer>
    var handlers: map<BidId, Handler>
    var saved: map<BidId, Bid>
    var bids: seq<Bid>
    var closed: bool
    var started: bool

    constructor (au: Auction)
      ensures this.au == au && View() == OPENED
    {
      this.au := au;
      bidders, handlers, saved, bids, closed, started := {}, map[], map[], [], false, true;
    }

    function View(): Intake
      reads this
    {
      Intake(bidders, handlers, saved, bids, closed, started)
    }

    /** Validates and accepts the bid, and marks its bidder under the lock. */
    method ReceiveBid(b: Bid, verified: bool)
      modifies this
      ensures View() == Receiving(au, old(View()), b, verified)
    {
      if b.askPrice < 0 || b.verifiedAskPrice < 0 || b.startEpoch <= 0 || !verified {
        return;
      }
      var accepted := AcceptBid(au, b);
      if !accepted || closed {
        return;
      }
      if b.bidder !in bidders {
        bidders := bidders + {b.bidder};
        handlers := handlers[b.id := Handler(b, Marked)];
      }
    }

    /** Puts the bid in the bid map, then writes its row. */
    method SaveBid(id: BidId, written: bool)
      modifies this
      ensures View() == Adding(old(View()), id, written)
    {
      if id in handlers && handlers[id].phase.Marked? {
        var b := handlers[id].bid;
        handlers := handlers[id := Handler(b, Failed)];
        if started {
          saved := saved[id := b];
          if written {
            handlers := handlers[id := Handler(b, Saved)];
          }
        }
      }
    }

    /** Appends the bid under the lock, which the selection does not give back: a closed list stays as it is. What is
        appended is a bid that was accepted and is in the bid map, and it is the only one of its bidder. */
    method AppendBid(id: BidId)
      modifies this
      ensures View() == Appending(old(View()), id)
      ensures old(closed) ==> bids == old(bids)
      ensures old(bids) <= bids && |bids| <= |old(bids)| + 1
      ensures old(Inv(au, View())) ==> Inv(au, View())
      ensures old(Inv(au, View())) && bids != old(bids) ==>
                var b := bids[|bids| - 1];
                && b.id == id && id in saved && saved[id] == b && Accepted(au, b)
                && forall i | 0 <= i < |old(bids)| :: old(bids)[i].bidder != b.bidder
    {
      ghost var s := View();
      if Inv(au, s) {
        StepKeepsInv(au, s, Append(id));
        if id in handlers && handlers[id].phase.Saved? {
          assert HandlerOk(au, s, id);
          forall i | 0 <= i < |bids| ensures bids[i].bidder != handlers[id].bid.bidder {
            assert Listed(s, bids[i]);
          }
        }
      }
      if id in handlers && handlers[id].phase.Saved? && !closed {
        bids := bids + [handlers[id].bid];
        handlers := handlers[id := handlers[id].(phase := Appended)];
      }
    }

    /** Runs sections in the given order. */
    method Play(es: seq<Event>)
      modifies this
      ensures View() == Run(au, old(View()), es)
    {
      for i := 0 to |es|
        invariant Run(au, View(), es[i..]) == Run(au, old(View()), es)
      {
        assert es[i..][1..] == es[i + 1..];
        match es[i] {
          case Receive(b, verified) => ReceiveBid(b, verified);
          case AddBid(id, written) => SaveBid(id, written);
          case Append(id) => AppendBid(id);
          case Close => closed := true;
          case Finalize => started := false;
        }
      }
    }
  }

  /** The bids with a finished handler that are eligible and would acknowledge the win. */
  ghost function Winnable(au: Auction, cx: Context, s: Intake, ack: Bid -> bool): set<Bid> {
    set id | id in s.handlers && s.handlers[id].phase.Appended? && Eligible(au, cx, s.handlers[id].bid) && ack(s.handlers[id].bid) ::
      s.handlers[id].bid
  }

  /** The handlers before and after the lock is taken for good. */
  lemma Interleaved(au: Auction, before: seq<Event>, during: seq<Event>)
    requires FreshBids(au, OPENED, before + [Close] + during)
    ensures Inv(au, Run(au, OPENED, before + [Close]))
    ensures Inv(au, Run(au, OPENED, before + [Close] + during))
    ensures Run(au, OPENED, before + [Close] + during) == Run(au, Run(au, OPENED, before + [Close]), during)
    ensures Run(au, OPENED, before + [Close] + during).bids == Run(au, OPENED, before + [Close]).bids
  {
    RunSplit(au, OPENED, before + [Close], during);
    assert OPENED.handlers == map[];
    RunKeepsInv(au, OPENED, before + [Close]);
    RunSplit(au, OPENED, before, [Close]);
    assert Run(au, Run(au, OPENED, before), [Close]).closed by { assert [Close][1..] == []; }
    RunKeepsInv(au, Run(au, OPENED, before + [Close]), during);
  }

  /**
   One auction, from its start to the closed auction: handlers run interleaved in any way before the lock is
   taken for good (`before`) and while winners are selected (`during`). A successful one carries exactly as many
   winning bids as replicas wanted, none dropped, from different bidders, and each won fairly. The rounds go by the
   recent failures and wins of the providers, as in a selection from the eligible bids of the list.
   */
  method ProcessAuction(au: Auction, cx: Context, before: seq<Event>, during: seq<Event>, sorted: seq<Provider>, ack: Bid -> bool)
      returns (wbids: map<BidId, WonBid>, winners: map<BidId, WinningBid>, ok: bool, s: Intake, ghost pool: seq<Bid>, ghost end: Selection)
    requires FreshBids(au, OPENED, before + [Close] + during)
    requires Ascending(sorted) && multiset(sorted) == multiset(au.providers)
    ensures s == Run(au, OPENED, before + [Close] + during)
    ensures ok <==> !Late(au, cx) && |Winnable(au, cx, s, ack)| >= au.dealReplication
    ensures ok ==> |wbids| == au.dealReplication && wbids.Keys == winners.Keys
    ensures ok ==> forall id | id in wbids ::
                     id in s.saved && s.saved[id].bidder == winners[id].bidder && WonFairly(au, cx, s.saved[id], wbids[id])
    ensures ok ==> forall i, j | i in winners && j in winners && i != j :: winners[i].bidder != winners[j].bidder
    ensures !ok ==> wbids == map[]
    ensures !Late(au, cx) ==>
              && (forall b :: b in pool <==> b in s.bids && Eligible(au, cx, b))
              && end.winners == winners && ByRounds(cx, au.dealReplication, ack, pool, end, ok)
  {
    Interleaved(au, before, during);
    var a := new Auctioning(au);
    a.Play(before + [Close]);
    var bids := a.bids;
    a.Play(during);
    s := a.View();
    ghost var offered;
    winners, ok, offered, pool, end := SelectWinners(au, cx, bids, sorted, ack);
    wbids := map[];
    if !Late(au, cx) {
      PoolIsWinnable(au, cx, s, pool, ack);
    }
    if ok {
      SelectedAreInPool(pool, end.left, offered, ack);
      wbids := CloseAuction(au, cx, s, pool, Acking(offered, ack), winners);
    }
  }

  /** The winning bids of a successful selection. */
  method CloseAuction(au: Auction, ghost cx: Context, s: Intake, ghost pool: seq<Bid>, ghost won: set<Bid>, winners: map<BidId, WinningBid>)
      returns (wbids: map<BidId, WonBid>)
    requires Inv(au, s) && Records(won, winners)
    requires forall b :: b in pool <==> b in s.bids && Eligible(au, cx, b)
    requires !Late(au, cx) && forall b | b in won :: b in pool
    ensures |wbids| == |winners| && wbids.Keys == winners.Keys
    ensures forall id | id in wbids ::
              id in s.saved && s.saved[id].bidder == winners[id].bidder && WonFairly(au, cx, s.saved[id], wbids[id])
    ensures forall i, j | i in winners && j in winners && i != j :: winners[i].bidder != winners[j].bidder
  {
    WinnersAreSaved(au, cx, s, pool, won, winners);
    wbids := ToClosedAuction(au, winners, s.saved);
    assert winners.Keys * s.saved.Keys == winners.Keys;
    assert |wbids| == |wbids.Keys| && |winners| == |winners.Keys|;
  }

  lemma PoolIsWinnable(au: Auction, cx: Context, s: Intake, pool: seq<Bid>, ack: Bid -> bool)
    requires Inv(au, s) && forall b :: b in pool <==> b in s.bids && Eligible(au, cx, b)
    ensures Winnable(au, cx, s, ack) == Acking(pool, ack)
  {
    forall b | b in Acking(pool, ack) ensures b in Winnable(au, cx, s, ack) {
      var k :| 0 <= k < |s.bids| && s.bids[k] == b;
      assert Listed(s, s.bids[k]);
    }
  }

  lemma SelectedAreInPool(pool: seq<Bid>, left: seq<Bid>, offered: seq<Bid>, ack: Bid -> bool)
    requires multiset(pool) == multiset(left) + multiset(offered)
    ensures forall b | b in Acking(offered, ack) :: b in pool
  {
    forall b | b in Acking(offered, ack) ensures b in pool {
      assert b in multiset(offered);
      assert b in multiset(pool);
    }
  }

  lemma {:induction false} RunSplit(au: Auction, s: Intake, es: seq<Event>, more: seq<Event>)
    ensures Run(au, s, es + more) == Run(au, Run(au, s, es), more)
    ensures FreshBids(au, s, es + more) <==> FreshBids(au, s, es) && FreshBids(au, Run(au, s, es), more)
    decreases |es|
  {
    if es == [] {
      assert es + more == more;
    } else {
      assert (es + more)[1..] == es[1..] + more;
      RunSplit(au, Step(au, s, es[0]), es[1..], more);
    }
  }

  // ---------- Different bidders, same provider ----------

  ghost predicate OneProviderEach(bids: set<Bid>) {
    forall x, y | x in bids && y in bids && x != y :: x.provider != y.provider
  }

  /** A well-formed bid of a new bidder, not after the deadline, and not of an excluded provider. */
  predicate Welcome(au: Auction, s: Intake, b: Bid, verified: bool) {
    && verified && b.askPrice >= 0 && b.verifiedAskPrice >= 0 && b.startEpoch > 0
    && (au.filEpochDeadline == 0 || b.startEpoch <= au.filEpochDeadline)
    && (forall i | 0 <= i < |au.excluded| :: au.excluded[i] != b.provider)
    && b.bidder !in s.bidders
  }

  /** A bid whose handler is not interrupted gets in if and only if it is welcome; otherwise nothing changes. */
  lemma BidGetsIn(au: Auction, s: Intake, b: Bid, verified: bool)
    requires !s.closed && s.started && b.id !in s.handlers
    ensures var es := [Receive(b, verified), AddBid(b.id, true), Append(b.id)];
            && FreshBids(au, s, es)
            && (Run(au, s, es) ==
                if Welcome(au, s, b, verified)
                then s.(bidders := s.bidders + {b.bidder}, handlers := s.handlers[b.id := Handler(b, Appended)],
                        saved := s.saved[b.id := b], bids := s.bids + [b])
                else s)
  {
    var es := [Receive(b, verified), AddBid(b.id, true), Append(b.id)];
    var s1 := Step(au, s, es[0]);
    var s2 := Step(au, s1, es[1]);
    var s3 := Step(au, s2, es[2]);
    ThreeSteps(au, s, es[0], es[1], es[2]);
    if Welcome(au, s, b, verified) {
      assert b.provider !in au.excluded;
      assert s3.handlers == s.handlers[b.id := Handler(b, Appended)];
    } else {
      assert s1 == s;
    }
  }

  lemma ThreeSteps(au: Auction, s: Intake, e: Event, f: Event, g: Event)
    ensures Run(au, s, [e, f, g]) == Step(au, Step(au, Step(au, s, e), f), g)
    ensures FreshBids(au, s, [e, f, g]) <==>
            FreshBid(s, e) && FreshBid(Step(au, s, e), f) && FreshBid(Step(au, Step(au, s, e), f), g)
  {
    var s1 := Step(au, s, e);
    var s2 := Step(au, s1, f);
    var s3 := Step(au, s2, g);
    assert [e, f, g][1..] == [f, g] && [f, g][1..] == [g] && [g][1..] == [];
    assert Run(au, s3, []) == s3 && FreshBids(au, s3, []);
    assert Run(au, s2, [g]) == s3 && (FreshBids(au, s2, [g]) <==> FreshBid(s2, g));
    assert Run(au, s1, [f, g]) == s3 && (FreshBids(au, s1, [f, g]) <==> FreshBid(s1, f) && FreshBid(s2, g));
  }

  /** A bidder bids once, but a provider may have several bidders. */
  lemma TwoBiddersOneProvider(au: Auction)
    requires au.excluded == [] && au.filEpochDeadline == 0
    ensures exists es :: FreshBids(au, OPENED, es) && |Run(au, OPENED, es).bids| == 2
                         && Run(au, OPENED, es).bids[0].provider == Run(au, OPENED, es).bids[1].provider
  {
    var x, y := Bid(1, 7, 1, 0, 0, 1, false), Bid(2, 7, 2, 0, 0, 1, false);
    var xs := [Receive(x, true), AddBid(1, true), Append(1)];
    var ys := [Receive(y, true), AddBid(2, true), Append(2)];
    BidGetsIn(au, OPENED, x, true);
    BidGetsIn(au, Run(au, OPENED, xs), y, true);
    RunSplit(au, OPENED, xs, ys);
  }

  /** Any bids that can win, of the right number, are the winners if they are the ones to acknowledge. */
  method SelectThese(au: Auction, cx: Context, bids: seq<Bid>, sorted: seq<Provider>, chosen: set<Bid>) returns (winners: map<BidId, WinningBid>)
    requires DistinctIds(bids) && Ascending(sorted) && multiset(sorted) == multiset(au.providers)
    requires |chosen| == au.dealReplication > 0
    requires forall b | b in chosen :: b in bids && CanWin(au, cx, b)
    ensures winners.Keys == Ids(chosen)
  {
    var some :| some in chosen;
    assert CanWin(au, cx, some);
    forall b | b in chosen ensures Eligible(au, cx, b) { EligibleCanWin(au, cx, b); }
    var ok;
    ghost var pool, offered, end;
    var ack := (b: Bid) => b in chosen;
    winners, ok, offered, pool, end := SelectWinners(au, cx, bids, sorted, ack);
    ChosenWin(pool, end.left, offered, winners, chosen, ack);
  }

  lemma ChosenWin(pool: seq<Bid>, left: seq<Bid>, offered: seq<Bid>, winners: map<BidId, WinningBid>, chosen: set<Bid>, ack: Bid -> bool)
    requires multiset(pool) == multiset(left) + multiset(offered) && Records(Acking(offered, ack), winners)
    requires (forall b :: ack(b) <==> b in chosen) && (forall b | b in chosen :: b in pool)
    requires |Acking(pool, ack)| >= |chosen| ==> |winners| == |chosen|
    ensures winners.Keys == Ids(chosen)
  {
    SelectedAreInPool(pool, left, offered, ack);
    assert Acking(pool, ack) == chosen;
    assert Acking(offered, ack) <= chosen;
    Full(Acking(offered, ack), chosen);
  }

  lemma Full(xs: set<Bid>, ys: set<Bid>)
    requires xs <= ys && |xs| == |ys|
    ensures xs == ys
  {
    assert ys == xs + (ys - xs);
  }

  ghost function EligibleBids(au: Auction, cx: Context, bids: seq<Bid>): set<Bid> {
    set b | b in bids && Eligible(au, cx, b)
  }

  /** The winning bids are of different providers. */
  ghost predicate ProvidersApart(bids: seq<Bid>, winners: map<BidId, WinningBid>) {
    forall x, y | x in bids && y in bids && x.id in winners && y.id in winners && x != y :: x.provider != y.provider
  }

  /** So the selection for two replicas or more ends with a different provider for each of them, whoever acknowledges
      and whatever is drawn, if and only if no two of the eligible bids share a provider. */
  lemma DistinctProvidersIff(au: Auction, cx: Context, bids: seq<Bid>)
    requires DistinctIds(bids) && 2 <= au.dealReplication <= |EligibleBids(au, cx, bids)|
    ensures (forall ack: Bid -> bool, winners | Selected(au, cx, bids, ack, winners) :: ProvidersApart(bids, winners))
            <==> OneProviderEach(EligibleBids(au, cx, bids))
  {
    if OneProviderEach(EligibleBids(au, cx, bids)) {
      forall ack: Bid -> bool, winners | Selected(au, cx, bids, ack, winners)
        ensures ProvidersApart(bids, winners)
      {
        SelectedApart(au, cx, bids, ack, winners);
      }
    } else {
      var ack, winners := SharedProviderWins(au, cx, bids);
    }
  }

  /** The bids with the ids of the winners are the ones that won. */
  lemma WinnersAre(bids: seq<Bid>, won: set<Bid>, winners: map<BidId, WinningBid>, x: Bid)
    requires DistinctIds(bids) && Records(won, winners) && (forall b | b in won :: b in bids) && x in bids
    ensures x.id in winners <==> x in won
  {
    if x.id in winners {
      assert x.id in Ids(won);
      var b :| b in won && b.id == x.id;
      SameId(bids, b, x);
    }
  }

  lemma SelectedApart(au: Auction, cx: Context, bids: seq<Bid>, ack: Bid -> bool, winners: map<BidId, WinningBid>)
    requires DistinctIds(bids) && OneProviderEach(EligibleBids(au, cx, bids)) && Selected(au, cx, bids, ack, winners)
    ensures ProvidersApart(bids, winners)
  {
    var won: set<Bid> :| Records(won, winners) && |won| == au.dealReplication && MayWin(au, cx, bids, ack, won);
    forall x, y | x in bids && y in bids && x.id in winners && y.id in winners && x != y
      ensures x.provider != y.provider
    {
      WinnersAre(bids, won, winners, x);
      WinnersAre(bids, won, winners, y);
      assert x in EligibleBids(au, cx, bids) && y in EligibleBids(au, cx, bids);
    }
  }

  /** If two eligible bids share a provider, there are acknowledgements with which both win. */
  lemma SharedProviderWins(au: Auction, cx: Context, bids: seq<Bid>) returns (ack: Bid -> bool, winners: map<BidId, WinningBid>)
    requires DistinctIds(bids) && 2 <= au.dealReplication <= |EligibleBids(au, cx, bids)|
    requires !OneProviderEach(EligibleBids(au, cx, bids))
    ensures Selected(au, cx, bids, ack, winners) && !ProvidersApart(bids, winners)
  {
    var eligible := EligibleBids(au, cx, bids);
    var x, y :| x in eligible && y in eligible && x != y && x.provider == y.provider;
    assert |{x, y}| == 2;
    var chosen := Extended({x, y}, eligible, au.dealReplication);
    winners := RecordsOf(bids, chosen);
    ack := (b: Bid) => b in chosen;
    assert MayWin(au, cx, bids, ack, chosen);
    WinnersAre(bids, chosen, winners, x);
    WinnersAre(bids, chosen, winners, y);
  }

  lemma SameId(bids: seq<Bid>, x: Bid, y: Bid)
    requires DistinctIds(bids) && x in bids && y in bids && x.id == y.id
    ensures x == y
  {
    var i :| 0 <= i < |bids| && bids[i] == x;
    var j :| 0 <= j < |bids| && bids[j] == y;
  }

  /** Winners that record given bids. */
  lemma {:induction false} RecordsOf(bids: seq<Bid>, chosen: set<Bid>) returns (winners: map<BidId, WinningBid>)
    requires DistinctIds(bids) && forall b | b in chosen :: b in bids
    ensures Records(chosen, winners)
    decreases |chosen|
  {
    if chosen == {} {
      winners := map[];
    } else {
      var b :| b in chosen;
      var rest := chosen - {b};
      var before := RecordsOf(bids, rest);
      forall x | x in rest ensures x.id != b.id {
        if x.id == b.id { SameId(bids, x, b); }
      }
      Recorded(rest, before, b, "");
      assert rest + {b} == chosen;
      winners := before[b.id := WinningBid(b.bidder, "")];
    }
  }

  lemma {:induction false} Extended(core: set<Bid>, all: set<Bid>, n: nat) returns (xs: set<Bid>)
    requires core <= all && |core| <= n <= |all|
    ensures core <= xs <= all && |xs| == n
    decreases n - |core|
  {
    if |core| == n {
      xs := core;
    } else {
      assert all == core + (all - core);
      var b :| b in all - core;
      xs := Extended(core + {b}, all, n);
    }
  }
}
