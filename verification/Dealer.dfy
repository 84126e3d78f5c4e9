/** The dealer's store and handlers, as they run. */
module Dealer {
  import opened Prelude
  import B = BrokerModel
  import opened DealLifecycle

  /** What the broker asks for. The flags tell whether a name, a cid or an address is there at all. */
  datatype NewData = NewData(
    id: nat,
    batch: B.BatchId,
    duration: int,
    pieceSize: int,
    idSet: bool,
    batchSet: bool,
    payloadSet: bool,
    pieceSet: bool)

  /** A deal as the broker proposes it. */
  datatype NewDeal = NewDeal(provider: B.Provider, providerSet: bool, price: int, startEpoch: nat)

  datatype Wallet = Wallet(peerValid: bool, tokenSet: bool, addressSet: bool)

  predicate ValidData(ad: NewData, rw: Option<Wallet>) {
    && ad.duration > 0 && ad.pieceSize > 0 && ad.idSet && ad.batchSet && ad.payloadSet && ad.pieceSet
    && (rw.Some? ==> rw.value.peerValid && rw.value.tokenSet && rw.value.addressSet)
  }

  predicate ValidDeal(n: NewDeal) {
    n.providerSet && n.price >= 0 && n.startEpoch > 0
  }

  method Validate(ad: NewData, news: seq<NewDeal>, rw: Option<Wallet>) returns (ok: bool)
    ensures ok <==> ValidData(ad, rw) && forall i | 0 <= i < |news| :: ValidDeal(news[i])
  {
    if ad.duration <= 0 || !ad.idSet || !ad.batchSet || !ad.payloadSet || !ad.pieceSet || ad.pieceSize <= 0 {
      return false;
    }
    for i := 0 to |news|
      invariant forall k | 0 <= k < i :: ValidDeal(news[k])
    {
      if !news[i].providerSet || news[i].price < 0 || news[i].startEpoch <= 0 {
        return false;
      }
    }
    if rw.Some? && (!rw.value.peerValid || !rw.value.tokenSet || !rw.value.addressSet) {
      return false;
    }
    ok := true;
  }

  /** Some report says what the row says. */
  ghost predicate Told(published: seq<B.FinalizedDeal>, d: AuctionDeal) {
    exists i :: 0 <= i < |published| && Tells(published[i], d)
  }

  ghost predicate RowOk(conf: Settings, d: AuctionDeal, published: seq<B.FinalizedDeal>) {
    match d.status
    case DealMaking => d.errorCause == "" && d.dealId == 0 && d.retries <= conf.maxRetries
    case Confirmation => d.errorCause == "" && d.dealId >= 0
    case ReportFinalized => HasOutcome(d)
    case Finalized => HasOutcome(d) && Told(published, d)
  }

  /** A run keeps the row in order, by what is proved of one deal's life. */
  lemma EffectsKeepRow(conf: Settings, d: AuctionDeal, published: seq<B.FinalizedDeal>, h: Handling)
    requires RowOk(conf, d, published) && d.executing && d.status == Stage(h) && ChainPromise(h)
    ensures RowOk(conf, RowAfter(d, Effects(conf, d, h)), published + ReportsIn(Effects(conf, d, h)))
    ensures Rank(RowAfter(d, Effects(conf, d, h)).status) >= Rank(d.status)
  {
    var w := World(d, [], if d.status.DealMaking? then d.retries else 0, 0);
    var es := Effects(conf, d, h);
    var e := Event(h, |es|);
    assert Claimed(w) == d && es[..|es|] == es;
    StepKeepsInv(conf, w, e);
    var w' := Step(conf, w, e);
    if w'.row.status.Finalized? {
      assert w'.reports[0] == ReportOf(w'.row) && w'.reports == ReportsIn(es);
      assert Tells((published + ReportsIn(es))[|published|], w'.row);
    }
  }

  lemma {:induction false} RowAfterConcat(row: AuctionDeal, es: seq<Effect>, more: seq<Effect>)
    ensures RowAfter(row, es + more) == RowAfter(RowAfter(row, es), more)
    decreases |more|
  {
    if more == [] {
      assert es + more == es;
    } else {
      assert (es + more)[..|es + more| - 1] == es + more[..|more| - 1];
      RowAfterConcat(row, es, more[..|more| - 1]);
    }
  }

  function Pending(deals: map<nat, AuctionDeal>, id: nat, s: Status, now: nat, stuck: set<nat>): bool {
    id in deals && deals[id].status == s && if deals[id].executing then id in stuck else deals[id].readyAt < now
  }

  ghost function Waiting(deals: map<nat, AuctionDeal>): set<nat> {
    set id | id in deals && deals[id].status.ReportFinalized?
  }

  class Dealer {
    const conf: Settings
    var datas: set<nat>
    var deals: map<nat, AuctionDeal>
    var published: seq<B.FinalizedDeal>

    constructor (conf: Settings)
      ensures this.conf == conf && Valid() && datas == {} && deals == map[] && published == []
    {
      this.conf := conf;
      datas, deals, published := {}, map[], [];
    }

    /** No deal is to be reported without an outcome, and none is finalized without a report. */
    ghost predicate Valid()
      reads this
    {
      forall id | id in deals :: deals[id].id == id && RowOk(conf, deals[id], published)
    }

    // ---------- Store ----------

    /** All deals or none, and no auction data twice. */
    method Create(ad: NewData, news: seq<NewDeal>, rw: Option<Wallet>, written: bool) returns (ok: bool, ids: seq<nat>)
      requires Valid()
      modifies this
      ensures Valid() && published == old(published)
      ensures ok <==> ValidData(ad, rw) && (forall i | 0 <= i < |news| :: ValidDeal(news[i])) && ad.id !in old(datas) && written
      ensures !ok ==> deals == old(deals) && datas == old(datas)
      ensures ok ==> datas == old(datas) + {ad.id} && |ids| == |news|
      ensures ok ==> (forall i | 0 <= i < |ids| :: ids[i] !in old(deals)) && forall i, j | 0 <= i < j < |ids| :: ids[i] != ids[j]
      ensures ok ==> forall id :: id in deals <==> id in old(deals) || id in ids
      ensures ok ==> forall id | id in old(deals) :: deals[id] == old(deals)[id]
      ensures ok ==> forall i | 0 <= i < |ids| :: ids[i] in deals && IsNew(deals[ids[i]], ad.batch, news[i])
    {
      ids := [];
      var valid := Validate(ad, news, rw);
      if !valid || ad.id in datas || !written {
        return false, ids;
      }
      datas := datas + {ad.id};
      for i := 0 to |news|
        invariant Valid() && published == old(published) && datas == old(datas) + {ad.id}
        invariant Inserted(old(deals), deals, ids, ad.batch, news[..i])
      {
        ghost var before := deals;
        var id := Insert(ad.batch, news[i]);
        OneInserted(old(deals), before, deals, ids, ad.batch, news[..i], id, news[i]);
        assert news[..i + 1] == news[..i] + [news[i]];
        ids := ids + [id];
      }
      assert news[..|news|] == news;
      ok := true;
    }

    /** A row for a new deal. */
    method Insert(batch: B.BatchId, n: NewDeal) returns (id: nat)
      requires Valid()
      modifies this`deals
      ensures Valid() && id !in old(deals) && id in deals && deals == old(deals)[id := deals[id]] && IsNew(deals[id], batch, n)
    {
      id := FreshId(deals.Keys);
      deals := deals[id := AuctionDeal(id, batch, n.provider, n.startEpoch, DealMaking, false, "", 0, NoIdentifier, 0, 0, 0)];
    }

    /** Takes the pending row that has been ready longest and marks it as executing. */
    method GetNextPending(s: Status, now: nat, stuck: set<nat>) returns (next: Option<AuctionDeal>)
      requires Valid()
      modifies this`deals
      ensures Valid()
      ensures next.None? ==> deals == old(deals) && forall id :: !Pending(deals, id, s, now, stuck)
      ensures next.Some? ==>
                var id := next.value.id;
                && Pending(old(deals), id, s, now, stuck)
                && (forall k | Pending(old(deals), k, s, now, stuck) :: old(deals)[id].readyAt <= old(deals)[k].readyAt)
                && next.value == old(deals)[id].(executing := true) && deals == old(deals)[id := next.value]
    {
      var order := Enumerate(deals.Keys);
      next := None;
      for i := 0 to |order|
        invariant deals == old(deals)
        invariant next.None? ==> forall k | k in order[..i] :: !Pending(deals, k, s, now, stuck)
        invariant next.Some? ==> Pending(deals, next.value.id, s, now, stuck) && next.value == deals[next.value.id]
        invariant next.Some? ==> forall k | k in order[..i] && Pending(deals, k, s, now, stuck) :: next.value.readyAt <= deals[k].readyAt
      {
        var id := order[i];
        assert order[..i + 1] == order[..i] + [id];
        if Pending(deals, id, s, now, stuck) && (next.None? || deals[id].readyAt < next.value.readyAt) {
          next := Some(deals[id]);
        }
      }
      assert order[..|order|] == order;
      assert forall k | Pending(deals, k, s, now, stuck) :: k in order;
      if next.Some? {
        next := Some(next.value.(executing := true));
        deals := deals[next.value.id := next.value];
      }
    }

    method SaveAndMoveAuctionDeal(d: AuctionDeal, s: Status, written: bool) returns (ok: bool)
      modifies this`deals
      ensures ok <==> d.id in old(deals) && SaveAndMove(d, s, written) != []
      ensures d.id in old(deals) ==> deals == old(deals)[d.id := RowAfter(old(deals)[d.id], SaveAndMove(d, s, written))]
      ensures d.id !in old(deals) ==> deals == old(deals)
    {
      if !AreAllExpectedFieldsSet(d) || !written || d.id !in deals {
        return false;
      }
      deals := deals[d.id := d.(status := s, executing := false)];
      ok := true;
    }

    // ---------- Deal making ----------

    method ExecutePending(d: AuctionDeal, a: MakeAnswers) returns (failed: bool)
      requires d.id in deals
      modifies this`deals
      ensures (failed <==> ExecutePendingDealMaking(conf, d, a).1)
      ensures deals == old(deals)[d.id := RowAfter(old(deals)[d.id], ExecutePendingDealMaking(conf, d, a).0)]
    {
      if !a.data || !a.wallet {
        return true;
      }
      match a.execution {
        case Refused => return true;
        case TryAgain =>
          var d' := d.(retries := d.retries + 1);
          if d'.retries > conf.maxRetries {
            var ok := SaveAndMoveAuctionDeal(d'.(errorCause := MAX_RETRIES, readyAt := 0), ReportFinalized, a.saves(0));
            return !ok;
          }
          var ok := SaveAndMoveAuctionDeal(d'.(readyAt := a.now + conf.retryDelay * d'.retries), DealMaking, a.saves(0));
          return !ok;
        case Taken(proposal) =>
          var ok := SaveAndMoveAuctionDeal(d.(retries := 0, proposal := proposal, readyAt := 0), Confirmation, a.saves(0));
          if !ok || proposal.NoIdentifier? || proposal.Garbage? {
            return true;
          }
          failed := !a.published;
      }
    }

    method MakeDeal(d: AuctionDeal, a: MakeAnswers)
      requires d.id in deals
      modifies this`deals
      ensures deals == old(deals)[d.id := RowAfter(old(deals)[d.id], Make(conf, d, a))]
    {
      var failed := ExecutePending(d, a);
      ghost var es := ExecutePendingDealMaking(conf, d, a).0;
      if failed {
        var _ := SaveAndMoveAuctionDeal(d.(errorCause := a.failure, readyAt := 0), ReportFinalized, a.saves(1));
        RowAfterConcat(old(deals)[d.id], es, SaveAndMove(d.(errorCause := a.failure, readyAt := 0), ReportFinalized, a.saves(1)));
      } else {
        assert Make(conf, d, a) == es;
      }
    }

    // ---------- Confirmation ----------

    method AskTheChain(d: AuctionDeal, a: ConfirmAnswers)
      requires d.id in deals
      modifies this`deals
      ensures deals == old(deals)[d.id := RowAfter(old(deals)[d.id], AskChain(conf, d, a))]
    {
      if a.chain.NoAnswer? {
        var _ := SaveAndMoveAuctionDeal(d.(readyAt := a.now + conf.chainDelay), Confirmation, a.saves(2));
        return;
      }
      var d' := d;
      ghost var es := [];
      if a.chain.slashed {
        d' := d.(errorCause := SLASHED, readyAt := 0);
        es := SaveAndMove(d', ReportFinalized, a.saves(1));
        var ok := SaveAndMoveAuctionDeal(d', ReportFinalized, a.saves(1));
        if !ok {
          return;
        }
      }
      ghost var more;
      if a.chain.active {
        d' := d'.(expiration := a.chain.expiration, readyAt := 0);
        more := SaveAndMove(d', ReportFinalized, a.saves(2));
        var _ := SaveAndMoveAuctionDeal(d', ReportFinalized, a.saves(2));
      } else if d.startEpoch > a.height {
        d' := d'.(readyAt := a.now + conf.chainDelay);
        more := SaveAndMove(d', Confirmation, a.saves(2));
        var _ := SaveAndMoveAuctionDeal(d', Confirmation, a.saves(2));
      } else {
        d' := d'.(errorCause := UNFULFILLED, readyAt := 0);
        more := SaveAndMove(d', ReportFinalized, a.saves(2));
        var _ := SaveAndMoveAuctionDeal(d', ReportFinalized, a.saves(2));
      }
      RowAfterConcat(old(deals)[d.id], es, more);
      assert AskChain(conf, d, a) == es + more;
    }

    method ExecuteWaitingConfirmation(d: AuctionDeal, a: ConfirmAnswers)
      requires d.id in deals
      modifies this`deals
      ensures deals == old(deals)[d.id := RowAfter(old(deals)[d.id], Confirm(conf, d, a))]
    {
      if !a.wallet || !a.marketStatus {
        return;
      }
      var d' := d;
      ghost var es := [];
      if d.dealId == 0 {
        if a.resolved == 0 {
          if d.startEpoch >= a.height {
            var _ := SaveAndMoveAuctionDeal(d.(readyAt := a.now + conf.resolveDelay), Confirmation, a.saves(0));
          } else {
            var _ := SaveAndMoveAuctionDeal(d.(errorCause := UNFULFILLED, readyAt := 0), ReportFinalized, a.saves(0));
          }
          return;
        }
        d' := d.(dealId := a.resolved);
        es := SaveAndMove(d', d.status, a.saves(0));
        var ok := SaveAndMoveAuctionDeal(d', d.status, a.saves(0));
        if !ok {
          return;
        }
      }
      AskTheChain(d', a);
      RowAfterConcat(old(deals)[d.id], es, AskChain(conf, d', a));
      assert Confirm(conf, d, a) == es + AskChain(conf, d', a);
    }

    // ---------- Loops of the deal maker and the monitor ----------

    /** One deal claimed and proposed. `until` is a time that the retry delay does not end before. */
    method MakeNext(now: nat, until: nat, stuck: set<nat>, answers: nat -> MakeAnswers) returns (next: Option<nat>)
      requires Valid() && now <= until && forall id :: answers(id).now + conf.retryDelay >= until
      modifies this`deals
      ensures Valid() && Forward(old(deals), deals)
      ensures next.None? ==> forall id :: !Pending(deals, id, DealMaking, now, stuck)
      ensures next.Some? ==> TakenOut(old(deals), deals, next.value, DealMaking, until, stuck)
    {
      ghost var before := deals;
      var claimed := GetNextPending(DealMaking, now, stuck);
      if claimed.None? {
        return None;
      }
      var d := claimed.value;
      ghost var mid := deals;
      MakeDeal(d, answers(d.id));
      Handled(conf, mid, deals, published, d, Making(answers(d.id)));
      OneLess(before, deals, d.id, DealMaking, until, stuck);
      next := Some(d.id);
    }

    /** Handles pending deals until none is pending, as the clock goes on from claim to claim. As long as the turn is
        shorter than the retry delay, each deal is handled once, whatever fails. */
    method DealMakerTick(clock: nat -> nat, until: nat, stuck: set<nat>, answers: nat -> MakeAnswers) returns (handled: seq<nat>)
      requires Valid() && (forall k :: clock(k) <= until) && forall id :: answers(id).now + conf.retryDelay >= until
      modifies this`deals
      ensures Valid() && Forward(old(deals), deals)
      ensures forall id :: !Pending(deals, id, DealMaking, clock(|handled|), stuck - Elements(handled))
      ensures Distinct(handled)
    {
      handled := [];
      var left := stuck;
      while true
        invariant Valid() && Forward(old(deals), deals) && left == stuck - Elements(handled) && Distinct(handled)
        invariant forall id | id in handled :: !Pending(deals, id, DealMaking, until, left)
        decreases AllPending(deals, DealMaking, until, left)
      {
        var next := MakeNext(clock(|handled|), until, left, answers);
        if next.None? {
          return;
        }
        left := left - {next.value};
        ElementsAdded(handled, next.value);
        handled := handled + [next.value];
      }
    }

    /** One deal claimed and checked. It is put off, or its deal id was saved and what followed was not. */
    method ConfirmNext(now: nat, until: nat, stuck: set<nat>, a: ConfirmAnswers) returns (next: Option<nat>)
      requires Valid() && now <= until && a.now + Delay(conf, Confirming(a)) >= until && ChainPromise(Confirming(a))
      modifies this`deals
      ensures Valid() && Forward(old(deals), deals)
      ensures next.None? ==> deals == old(deals) && forall id :: !Pending(deals, id, Confirmation, now, stuck)
      ensures next.Some? ==> Checked(old(deals), deals, next.value, until, stuck, SavesTillTheEnd(Confirming(a)))
    {
      ghost var before := deals;
      var claimed := GetNextPending(Confirmation, now, stuck);
      if claimed.None? {
        return None;
      }
      var d := claimed.value;
      ghost var mid := deals;
      ExecuteWaitingConfirmation(d, a);
      Handled(conf, mid, deals, published, d, Confirming(a));
      CheckedOne(before, deals, d.id, until, stuck, SavesTillTheEnd(Confirming(a)));
      next := Some(d.id);
    }

    /** One more deal, with the deals handled before it counted. */
    method ConfirmOneMore(now: nat, until: nat, stuck: set<nat>, a: ConfirmAnswers, ghost handled: seq<nat>, ghost allSave: bool)
      returns (next: Option<nat>)
      requires Valid() && now <= until && a.now + Delay(conf, Confirming(a)) >= until && ChainPromise(Confirming(a))
      requires Counted(deals, handled, until, stuck, allSave) && (allSave ==> SavesTillTheEnd(Confirming(a)))
      modifies this`deals
      ensures Valid() && Forward(old(deals), deals)
      ensures next.None? ==> deals == old(deals) && forall id :: !Pending(deals, id, Confirmation, now, stuck)
      ensures next.Some? ==> Counted(deals, handled + [next.value], until, stuck - {next.value}, allSave)
      ensures next.Some? ==> Further(old(deals), deals, next.value, until, stuck)
    {
      next := ConfirmNext(now, until, stuck, a);
      if next.Some? {
        HandledAgain(old(deals), deals, handled, next.value, until, stuck, SavesTillTheEnd(Confirming(a)), allSave);
      }
    }

    /** The same for confirmations, with `answers(k)` what the `k`-th run meets. Each deal is handled twice at most,
        whatever fails; and once, if a run that can save a deal id can also save what follows. */
    method DealMonitorTick(clock: nat -> nat, until: nat, stuck: set<nat>, answers: nat -> ConfirmAnswers) returns (handled: seq<nat>)
      requires Valid() && (forall k :: clock(k) <= until) && forall k :: ChainPromise(Confirming(answers(k)))
      requires forall k :: answers(k).now + Delay(conf, Confirming(answers(k))) >= until
      modifies this`deals
      ensures Valid() && Forward(old(deals), deals)
      ensures forall id :: !Pending(deals, id, Confirmation, clock(|handled|), stuck - Elements(handled))
      ensures forall id :: multiset(handled)[id] <= 2
      ensures (forall k :: SavesTillTheEnd(Confirming(answers(k)))) ==> Distinct(handled)
    {
      handled := [];
      var left := stuck;
      ghost var allSave := forall k :: SavesTillTheEnd(Confirming(answers(k)));
      while true
        invariant Valid() && Forward(old(deals), deals) && left == stuck - Elements(handled)
        invariant Counted(deals, handled, until, left, allSave)
        decreases Unresolved(deals), AllPending(deals, Confirmation, until, left)
      {
        var next := ConfirmOneMore(clock(|handled|), until, left, answers(|handled|), handled, allSave);
        if next.None? {
          CountsOf(deals, handled, until, left, allSave);
          return;
        }
        ElementsAdded(handled, next.value);
        left, handled := left - {next.value}, handled + [next.value];
      }
    }

    // ---------- Reporting ----------

    method ReportFinalizedDeal(d: AuctionDeal, a: ReportAnswers) returns (ok: bool)
      requires d.id in deals
      modifies this`deals, this`published
      ensures ok <==> a.data && a.published && SaveAndMove(d, Finalized, a.saves(0)) != []
      ensures published == old(published) + if a.data && a.published then [ReportOf(d)] else []
      ensures a.data && a.published ==> Tells(published[|published| - 1], d)
      ensures deals == if a.data && a.published
                       then old(deals)[d.id := RowAfter(old(deals)[d.id], SaveAndMove(d, Finalized, a.saves(0)))] else old(deals)
    {
      if !a.data || !a.published {
        return false;
      }
      published := published + [B.FinalizedDeal(d.batch, d.provider, d.dealId, d.expiration, d.errorCause)];
      ok := SaveAndMoveAuctionDeal(d, Finalized, a.saves(0));
    }

    /** One turn of the reporter's loop. */
    method ReportDeal(d: AuctionDeal, a: ReportAnswers) returns (ok: bool)
      requires d.id in deals && d.status.ReportFinalized? && d.executing
      modifies this`deals, this`published
      ensures deals == old(deals)[d.id := RowAfter(old(deals)[d.id], Report(conf, d, a))]
      ensures published == old(published) + ReportsIn(Report(conf, d, a))
      ensures forall i | |old(published)| <= i < |published| :: Tells(published[i], d)
      ensures d == old(deals)[d.id] ==> SameOutcome(d, deals[d.id])
      ensures ok ==> deals[d.id].status.Finalized?
    {
      ReportKeepsOutcome(conf, d, a);
      ReportRow(conf, d, a, deals[d.id]);
      ok := ReportFinalizedDeal(d, a);
      if !ok {
        var _ := SaveAndMoveAuctionDeal(d.(readyAt := a.now + conf.reportDelay), ReportFinalized, a.saves(1));
      }
    }

    /** One deal claimed and reported. */
    method ReportNext(now: nat, stuck: set<nat>, answers: nat -> ReportAnswers) returns (found: bool, ok: bool)
      requires Valid()
      modifies this`deals, this`published
      ensures Valid() && deals.Keys == old(deals).Keys && old(published) <= published
      ensures forall id | id in deals :: Rank(deals[id].status) >= Rank(old(deals)[id].status)
      ensures SameOutcomes(old(deals), deals) && AllTold(deals, published, |old(published)|)
      ensures !found ==> deals == old(deals) && published == old(published) && forall id :: !Pending(deals, id, ReportFinalized, now, stuck)
      ensures found && ok ==> Waiting(deals) < Waiting(old(deals))
    {
      var next := GetNextPending(ReportFinalized, now, stuck);
      if next.None? {
        return false, true;
      }
      found := true;
      var d := next.value;
      ghost var before := deals;
      EffectsKeepRow(conf, d, published, Reporting(answers(d.id)));
      ok := ReportDeal(d, answers(d.id));
      KeepsOthers(conf, before, deals, d.id, old(published), published);
      AfterReporting(old(deals), deals, d, |old(published)|, published);
      if ok {
        assert d.id in Waiting(old(deals)) && d.id !in Waiting(deals);
      }
    }

    /** Reports pending deals one after the other, until none is pending or one cannot be reported. Every report says what
        the row of a deal says, and no row changes in what is reported of it. */
    method ReporterTick(now: nat, stuck: set<nat>, answers: nat -> ReportAnswers) returns (clean: bool)
      requires Valid()
      modifies this`deals, this`published
      ensures Valid() && deals.Keys == old(deals).Keys && old(published) <= published
      ensures SameOutcomes(old(deals), deals) && AllTold(deals, published, |old(published)|)
      ensures forall id | id in deals :: Rank(deals[id].status) >= Rank(old(deals)[id].status)
      ensures clean ==> forall id :: !Pending(deals, id, ReportFinalized, now, stuck)
    {
      while true
        invariant Valid() && deals.Keys == old(deals).Keys && old(published) <= published
        invariant SameOutcomes(old(deals), deals) && AllTold(deals, published, |old(published)|)
        invariant forall id | id in deals :: Rank(deals[id].status) >= Rank(old(deals)[id].status)
        decreases Waiting(deals)
      {
        ghost var before, sent := deals, published;
        var found, ok := ReportNext(now, stuck, answers);
        MoreTold(before, deals, sent, published, |old(published)|);
        if !found || !ok {
          return !found;
        }
      }
    }
  }

  /** The same batch, provider, id, expiration and error. */
  predicate SameOutcome(d: AuctionDeal, d': AuctionDeal) {
    && d'.batch == d.batch && d'.provider == d.provider
    && d'.dealId == d.dealId && d'.expiration == d.expiration && d'.errorCause == d.errorCause
  }

  predicate SameOutcomes(before: map<nat, AuctionDeal>, after: map<nat, AuctionDeal>) {
    after.Keys == before.Keys && forall id | id in before :: SameOutcome(before[id], after[id])
  }

  lemma ReportKeepsOutcome(conf: Settings, d: AuctionDeal, a: ReportAnswers)
    requires d.status.ReportFinalized? && d.executing
    ensures SameOutcome(d, RowAfter(d, Report(conf, d, a)))
  {
    ReportShape(conf, d, a);
    ReportApplied(d, Report(conf, d, a));
  }

  lemma AfterReporting(before: map<nat, AuctionDeal>, after: map<nat, AuctionDeal>, d: AuctionDeal, sent: nat, published: seq<B.FinalizedDeal>)
    requires d.id in before && d.id in after && after == before[d.id := after[d.id]]
    requires SameOutcome(before[d.id], d) && SameOutcome(d, after[d.id])
    requires forall i | sent <= i < |published| :: Tells(published[i], d)
    ensures SameOutcomes(before, after) && AllTold(after, published, sent)
  {
    forall i | sent <= i < |published| ensures TellsOf(after, published[i]) {
      assert Tells(published[i], after[d.id]);
    }
  }

  /** The report says what the row of some deal says. */
  ghost predicate TellsOf(deals: map<nat, AuctionDeal>, m: B.FinalizedDeal) {
    exists id :: id in deals && Tells(m, deals[id])
  }

  /** All reports from this one on do. */
  ghost predicate AllTold(deals: map<nat, AuctionDeal>, published: seq<B.FinalizedDeal>, from: nat) {
    forall i | from <= i < |published| :: TellsOf(deals, published[i])
  }

  lemma MoreTold(before: map<nat, AuctionDeal>, after: map<nat, AuctionDeal>, sent: seq<B.FinalizedDeal>, published: seq<B.FinalizedDeal>, from: nat)
    requires SameOutcomes(before, after) && sent <= published && from <= |sent|
    requires AllTold(before, sent, from) && AllTold(after, published, |sent|)
    ensures AllTold(after, published, from)
  {
    forall i | from <= i < |published| ensures TellsOf(after, published[i]) {
      if i < |sent| {
        assert TellsOf(before, sent[i]);
        var id :| id in before && Tells(sent[i], before[id]);
        assert Tells(published[i], after[id]);
      }
    }
  }

  lemma ReportRow(conf: Settings, d: AuctionDeal, a: ReportAnswers, row: AuctionDeal)
    ensures var later := SaveAndMove(d.(readyAt := a.now + conf.reportDelay), ReportFinalized, a.saves(1));
            var moved := SaveAndMove(d, Finalized, a.saves(0));
            && (moved == [] ==> RowAfter(row, moved) == row)
            && (moved != [] ==> RowAfter(row, moved).status.Finalized?)
            && (RowAfter(row, Report(conf, d, a)) ==
                if a.data && a.published && moved != [] then RowAfter(row, moved) else RowAfter(row, later))
            && (ReportsIn(Report(conf, d, a)) == if a.data && a.published then [ReportOf(d)] else [])
  {
    var later := SaveAndMove(d.(readyAt := a.now + conf.reportDelay), ReportFinalized, a.saves(1));
    var moved := SaveAndMove(d, Finalized, a.saves(0));
    AfterReport(row, ReportOf(d), moved);
    AfterReport(row, ReportOf(d), later);
  }

  /** A report does not change the row, and a save publishes nothing. */
  lemma AfterReport(row: AuctionDeal, report: B.FinalizedDeal, last: seq<Effect>)
    requires last == [] || (|last| == 1 && last[0].Save?)
    ensures RowAfter(row, last) == (if last == [] then row else last[0].row)
    ensures RowAfter(row, [Publish(report)] + last) == RowAfter(row, last)
    ensures ReportsIn(last) == [] && ReportsIn([Publish(report)] + last) == [report]
  {
    OneEffect(row, Publish(report));
    if last == [] {
      assert [Publish(report)] + last == [Publish(report)];
    } else {
      assert last == [last[0]];
      OneEffect(row, last[0]);
      LastEffect(row, [Publish(report)], last[0]);
    }
  }

  lemma KeepsOthers(conf: Settings, before: map<nat, AuctionDeal>, after: map<nat, AuctionDeal>, id: nat,
                    reports: seq<B.FinalizedDeal>, published: seq<B.FinalizedDeal>)
    requires id in before && id in after && after == before[id := after[id]] && reports <= published
    requires after[id].id == id && RowOk(conf, after[id], published)
    requires forall k | k in before :: before[k].id == k && RowOk(conf, before[k], reports)
    ensures forall k | k in after :: after[k].id == k && RowOk(conf, after[k], published)
  {
  }

  function Elements(ids: seq<nat>): set<nat> {
    set id | id in ids
  }

  lemma ElementsAdded(ids: seq<nat>, id: nat)
    ensures Elements(ids + [id]) == Elements(ids) + {id}
  {
  }

  ghost function AllPending(deals: map<nat, AuctionDeal>, s: Status, now: nat, stuck: set<nat>): set<nat> {
    set id | id in deals && Pending(deals, id, s, now, stuck)
  }

  /** The same deals, none of them moved back. */
  ghost predicate Forward(before: map<nat, AuctionDeal>, after: map<nat, AuctionDeal>) {
    before.Keys == after.Keys && forall id | id in before :: Rank(after[id].status) >= Rank(before[id].status)
  }

  /** A row that was pending is not pending any more, once it does not count as stuck, and no other row is now. */
  ghost predicate TakenOut(before: map<nat, AuctionDeal>, after: map<nat, AuctionDeal>, id: nat, s: Status, now: nat, stuck: set<nat>) {
    && Pending(before, id, s, now, stuck) && !Pending(after, id, s, now, stuck - {id})
    && (forall k | Pending(after, k, s, now, stuck - {id}) :: Pending(before, k, s, now, stuck))
    && AllPending(after, s, now, stuck - {id}) < AllPending(before, s, now, stuck)
  }

  lemma OneLess(before: map<nat, AuctionDeal>, after: map<nat, AuctionDeal>, id: nat, s: Status, now: nat, stuck: set<nat>)
    requires id in before && id in after && after == before[id := after[id]] && Pending(before, id, s, now, stuck)
    requires after[id].executing || after[id].status != s || after[id].readyAt >= now
    ensures TakenOut(before, after, id, s, now, stuck)
  {
    assert id in AllPending(before, s, now, stuck);
  }

  /** Deals whose deal id is not known yet. */
  ghost function Unresolved(deals: map<nat, AuctionDeal>): set<nat> {
    set id | id in deals && deals[id].status.Confirmation? && deals[id].dealId == 0
  }

  /** A row waiting for confirmation was taken out, or got its deal id; if saves work till the end, it was taken out. */
  ghost predicate Checked(before: map<nat, AuctionDeal>, after: map<nat, AuctionDeal>, id: nat, now: nat, stuck: set<nat>, saves: bool) {
    && Pending(before, id, Confirmation, now, stuck) && id in after && after == before[id := after[id]]
    && (TakenOut(before, after, id, Confirmation, now, stuck) || (!saves && before[id].dealId == 0 && after[id].dealId != 0))
    && (before[id].dealId != 0 ==> after[id].dealId != 0)
  }

  lemma CheckedOne(before: map<nat, AuctionDeal>, after: map<nat, AuctionDeal>, id: nat, now: nat, stuck: set<nat>, saves: bool)
    requires id in before && id in after && after == before[id := after[id]] && Pending(before, id, Confirmation, now, stuck)
    requires || after[id].executing || !after[id].status.Confirmation? || after[id].readyAt >= now
             || (before[id].dealId == 0 && after[id].dealId != 0 && !saves)
    requires before[id].dealId != 0 ==> after[id].dealId != 0
    ensures Checked(before, after, id, now, stuck, saves)
  {
    if after[id].executing || !after[id].status.Confirmation? || after[id].readyAt >= now {
      OneLess(before, after, id, Confirmation, now, stuck);
    }
  }

  /** Who was handled once is not pending or has a deal id; who was handled twice is not pending. */
  ghost predicate TwiceAtMost(deals: map<nat, AuctionDeal>, handled: seq<nat>, now: nat, stuck: set<nat>) {
    forall id | id in handled ::
      && multiset(handled)[id] <= 2
      && (Pending(deals, id, Confirmation, now, stuck) ==> multiset(handled)[id] == 1 && deals[id].dealId != 0)
  }

  ghost predicate OnceEach(deals: map<nat, AuctionDeal>, handled: seq<nat>, now: nat, stuck: set<nat>) {
    Distinct(handled) && forall id | id in handled :: !Pending(deals, id, Confirmation, now, stuck)
  }

  ghost predicate Counted(deals: map<nat, AuctionDeal>, handled: seq<nat>, now: nat, stuck: set<nat>, allSave: bool) {
    TwiceAtMost(deals, handled, now, stuck) && (allSave ==> OnceEach(deals, handled, now, stuck))
  }

  lemma CountsOf(deals: map<nat, AuctionDeal>, handled: seq<nat>, now: nat, stuck: set<nat>, allSave: bool)
    requires Counted(deals, handled, now, stuck, allSave)
    ensures forall id :: multiset(handled)[id] <= 2
    ensures allSave ==> Distinct(handled)
  {
  }

  lemma CountAdded(ids: seq<nat>, id: nat, k: nat)
    ensures multiset(ids + [id])[k] == multiset(ids)[k] + if k == id then 1 else 0
  {
  }

  /** Fewer deals wait for their deal id, or as many and fewer are pending. */
  ghost predicate Further(before: map<nat, AuctionDeal>, after: map<nat, AuctionDeal>, id: nat, now: nat, stuck: set<nat>) {
    || Unresolved(after) < Unresolved(before)
    || (Unresolved(after) == Unresolved(before)
        && AllPending(after, Confirmation, now, stuck - {id}) < AllPending(before, Confirmation, now, stuck))
  }

  /** A row that was checked adds one to its count, and takes the loop further. */
  lemma HandledAgain(before: map<nat, AuctionDeal>, after: map<nat, AuctionDeal>, handled: seq<nat>, id: nat, now: nat, stuck: set<nat>, saves: bool,
                     allSave: bool)
    requires Checked(before, after, id, now, stuck, saves) && Counted(before, handled, now, stuck, allSave) && (allSave ==> saves)
    ensures Counted(after, handled + [id], now, stuck - {id}, allSave)
    ensures Further(before, after, id, now, stuck)
  {
    forall k | k in handled + [id]
      ensures multiset(handled + [id])[k] <= 2
      ensures Pending(after, k, Confirmation, now, stuck - {id}) ==> multiset(handled + [id])[k] == 1 && after[k].dealId != 0
    {
      CountAdded(handled, id, k);
    }
    FewerLeft(before, after, id, now, stuck, saves);
  }

  lemma FewerLeft(before: map<nat, AuctionDeal>, after: map<nat, AuctionDeal>, id: nat, now: nat, stuck: set<nat>, saves: bool)
    requires Checked(before, after, id, now, stuck, saves)
    ensures Further(before, after, id, now, stuck)
  {
    assert Unresolved(after) <= Unresolved(before);
    if id in Unresolved(before) && id !in Unresolved(after) {
      assert Unresolved(after) < Unresolved(before);
    } else {
      assert Unresolved(after) == Unresolved(before);
    }
  }

  /** A run of the deal maker or the monitor on a claimed row keeps all rows in order. */
  lemma Handled(conf: Settings, before: map<nat, AuctionDeal>, after: map<nat, AuctionDeal>, published: seq<B.FinalizedDeal>,
                d: AuctionDeal, h: Handling)
    requires d.id in before && before[d.id] == d && after == before[d.id := RowAfter(d, Effects(conf, d, h))]
    requires forall k | k in before :: before[k].id == k && RowOk(conf, before[k], published)
    requires d.executing && d.status == Stage(h) && !h.Reporting? && ChainPromise(h)
    ensures forall k | k in after :: after[k].id == k && RowOk(conf, after[k], published)
    ensures Rank(after[d.id].status) >= Rank(d.status)
    ensures PutOff(conf, d, after[d.id], h) || (h.Confirming? && d.dealId == 0 && after[d.id].dealId != 0 && !SavesTillTheEnd(h))
    ensures h.Confirming? && d.dealId != 0 ==> after[d.id].dealId != 0
  {
    EffectsKeepRow(conf, d, published, h);
    NotReadyAgain(conf, d, h);
    SavesOnly(conf, d, published, h);
  }

  /** The deal maker and the monitor finalize nothing, and do not rename rows. */
  lemma SavesOnly(conf: Settings, d: AuctionDeal, published: seq<B.FinalizedDeal>, h: Handling)
    requires RowOk(conf, d, published) && d.status == Stage(h) && !h.Reporting? && ChainPromise(h)
    ensures var r := RowAfter(d, Effects(conf, d, h)); r.id == d.id && !r.status.Finalized?
  {
    var es := Effects(conf, d, h);
    match h {
      case Making(a) => MakeSaves(conf, d, a);
      case Confirming(a) => ConfirmSaves(conf, d, a);
    }
    OnlySaves(d, es);
    if es != [] { assert es[|es| - 1] in es; }
  }

  predicate IsNew(d: AuctionDeal, batch: B.BatchId, n: NewDeal) {
    && d.batch == batch && d.provider == n.provider && d.startEpoch == n.startEpoch
    && d.status.DealMaking? && !d.executing && d.errorCause == "" && d.retries == 0 && d.dealId == 0 && d.expiration == 0
  }

  /** One new row for each of the deals, and no other change. */
  ghost predicate Inserted(before: map<nat, AuctionDeal>, after: map<nat, AuctionDeal>, ids: seq<nat>, batch: B.BatchId, news: seq<NewDeal>) {
    && |ids| == |news| && Distinct(ids) && (forall k | 0 <= k < |ids| :: ids[k] !in before)
    && (forall id :: id in after <==> id in before || id in ids)
    && (forall id | id in before :: id in after && after[id] == before[id])
    && (forall k | 0 <= k < |ids| :: ids[k] in after && IsNew(after[ids[k]], batch, news[k]))
  }

  lemma OneInserted(start: map<nat, AuctionDeal>, before: map<nat, AuctionDeal>, after: map<nat, AuctionDeal>, ids: seq<nat>,
                    batch: B.BatchId, news: seq<NewDeal>, id: nat, n: NewDeal)
    requires Inserted(start, before, ids, batch, news)
    requires id !in before && id in after && after == before[id := after[id]] && IsNew(after[id], batch, n)
    ensures Inserted(start, after, ids + [id], batch, news + [n])
  {
  }

  /** A new unique id. */
  method FreshId(used: set<nat>) returns (id: nat)
    ensures id !in used
  {
    id := 0;
    var left := used;
    while left != {}
      invariant forall k | k in used :: k in left || k < id
      decreases |left|
    {
      var k :| k in left;
      left := left - {k};
      if id <= k {
        id := k + 1;
      }
    }
  }
}
