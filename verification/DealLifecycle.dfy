/** The dealer: one deal on its way from deal making over confirmation to the report to the broker. */
module DealLifecycle {
  import opened Prelude
  import B = BrokerModel

  datatype Status = DealMaking | Confirmation | ReportFinalized | Finalized

  /** What a provider's client gave back for an accepted deal. */
  datatype Identifier = NoIdentifier | ProposalCid(n: nat) | DealUuid(n: nat) | Garbage(n: nat)

  datatype AuctionDeal = AuctionDeal(
    id: nat,
    batch: B.BatchId,
    provider: B.Provider,
    startEpoch: nat,
    status: Status,
    executing: bool,
    errorCause: string,
    retries: nat,
    proposal: Identifier,
    dealId: int,
    expiration: nat,
    readyAt: nat)

  datatype Settings = Settings(maxRetries: nat, retryDelay: nat, resolveDelay: nat, chainDelay: nat, reportDelay: nat)

  const MAX_RETRIES := "deal rejected" + ": reached maximum amount of deal-making retries"
  const UNFULFILLED := "the deal won't be active on-chain"
  const SLASHED := "the deal was slashed"

  function Rank(s: Status): nat {
    match s
    case DealMaking => 0
    case Confirmation => 1
    case ReportFinalized => 2
    case Finalized => 3
  }

  // ---------- Effects of a handler ----------

  /** What a handler leaves behind, in order: rows saved and reports published. */
  datatype Effect = Save(row: AuctionDeal) | Publish(report: B.FinalizedDeal)

  /** Which of a run's attempts to save succeed, counted from zero. */
  type Saves = nat -> bool

  /** A row is checked against the status it was read with, not the one it moves to. */
  predicate AreAllExpectedFieldsSet(d: AuctionDeal) {
    match d.status
    case DealMaking => true
    case Confirmation => d.proposal.ProposalCid? || d.proposal.DealUuid?
    case ReportFinalized => d.executing && (d.errorCause == "" ==> d.dealId != 0 && d.expiration != 0)
    case Finalized => false
  }

  function SaveAndMove(d: AuctionDeal, s: Status, written: bool): seq<Effect> {
    if AreAllExpectedFieldsSet(d) && written then [Save(d.(status := s, executing := false))] else []
  }

  // ---------- Deal making ----------

  datatype Execution = Refused | TryAgain | Taken(proposal: Identifier)

  /** The text of an error. */
  type Cause = s: string | s != "" witness "failed"

  /** `failure` is the error that the run returns, if it fails. */
  datatype MakeAnswers = MakeAnswers(data: bool, wallet: bool, execution: Execution, published: bool, saves: Saves, now: nat, failure: Cause)

  /** The effects, and whether the run fails. */
  function ExecutePendingDealMaking(conf: Settings, d: AuctionDeal, a: MakeAnswers): (seq<Effect>, bool) {
    if !a.data || !a.wallet || a.execution.Refused? then ([], true)
    else if a.execution.TryAgain? then
      var es := if d.retries + 1 > conf.maxRetries
                then SaveAndMove(d.(retries := d.retries + 1, errorCause := MAX_RETRIES, readyAt := 0), ReportFinalized, a.saves(0))
                else SaveAndMove(d.(retries := d.retries + 1, readyAt := a.now + conf.retryDelay * (d.retries + 1)), DealMaking, a.saves(0));
      (es, es == [])
    else
      var es := SaveAndMove(d.(retries := 0, proposal := a.execution.proposal, readyAt := 0), Confirmation, a.saves(0));
      (es, es == [] || a.execution.proposal.Garbage? || a.execution.proposal.NoIdentifier? || !a.published)
  }

  /** A run that fails moves the row as it was read to the report, with the failure as its cause. */
  function Make(conf: Settings, d: AuctionDeal, a: MakeAnswers): seq<Effect> {
    var (es, failed) := ExecutePendingDealMaking(conf, d, a);
    es + if failed then SaveAndMove(d.(errorCause := a.failure, readyAt := 0), ReportFinalized, a.saves(1)) else []
  }

  // ---------- Confirmation ----------

  /** What the chain has to say about a deal id. */
  datatype ChainState = Unreachable | NotFound | Found(slashEpoch: int, sectorStartEpoch: int, endEpoch: nat)

  datatype ChainAnswer = NoAnswer | Answer(active: bool, expiration: nat, slashed: bool)

  /** A slashed deal comes back as an error. */
  function CheckChainDeal(s: ChainState): ChainAnswer {
    match s
    case Unreachable => NoAnswer
    case NotFound => Answer(false, 0, false)
    case Found(slashEpoch, sectorStartEpoch, endEpoch) =>
      if slashEpoch > 0 then NoAnswer
      else if sectorStartEpoch > 0 then Answer(true, endEpoch, false)
      else Answer(false, 0, false)
  }

  /** `resolved` is zero when the deal id cannot be resolved. */
  datatype ConfirmAnswers = ConfirmAnswers(wallet: bool, marketStatus: bool, resolved: nat, chain: ChainAnswer, saves: Saves, now: nat, height: nat)

  /** The chain decides. After a slashed answer the code goes on to the other checks. */
  function AskChain(conf: Settings, d: AuctionDeal, a: ConfirmAnswers): seq<Effect> {
    if a.chain.NoAnswer? then SaveAndMove(d.(readyAt := a.now + conf.chainDelay), Confirmation, a.saves(2))
    else
      var d1 := if a.chain.slashed then d.(errorCause := SLASHED, readyAt := 0) else d;
      var es := if a.chain.slashed then SaveAndMove(d1, ReportFinalized, a.saves(1)) else [];
      if a.chain.slashed && es == [] then []
      else if !a.chain.active then
        if d.startEpoch > a.height then es + SaveAndMove(d1.(readyAt := a.now + conf.chainDelay), Confirmation, a.saves(2))
        else es + SaveAndMove(d1.(errorCause := UNFULFILLED, readyAt := 0), ReportFinalized, a.saves(2))
      else es + SaveAndMove(d1.(expiration := a.chain.expiration, readyAt := 0), ReportFinalized, a.saves(2))
  }

  function Confirm(conf: Settings, d: AuctionDeal, a: ConfirmAnswers): seq<Effect> {
    if !a.wallet || !a.marketStatus then []
    else if d.dealId != 0 then AskChain(conf, d, a)
    else if a.resolved == 0 then
      if d.startEpoch >= a.height then SaveAndMove(d.(readyAt := a.now + conf.resolveDelay), Confirmation, a.saves(0))
      else SaveAndMove(d.(errorCause := UNFULFILLED, readyAt := 0), ReportFinalized, a.saves(0))
    else
      var es := SaveAndMove(d.(dealId := a.resolved), d.status, a.saves(0));
      if es == [] then [] else es + AskChain(conf, d.(dealId := a.resolved), a)
  }

  // ---------- Reporting ----------

  datatype ReportAnswers = ReportAnswers(data: bool, published: bool, saves: Saves, now: nat)

  function ReportOf(d: AuctionDeal): B.FinalizedDeal {
    B.FinalizedDeal(d.batch, d.provider, d.dealId, d.expiration, d.errorCause)
  }

  /** The report says of the deal what its row says: batch, provider, deal id, expiration and error. */
  predicate Tells(m: B.FinalizedDeal, d: AuctionDeal) {
    && m.batch == d.batch && m.provider == d.provider
    && m.dealId == d.dealId && m.expiration == d.expiration && m.errorCause == d.errorCause
  }

  /** Published first and moved to finalized then; if either fails, the report is left for later. */
  function Report(conf: Settings, d: AuctionDeal, a: ReportAnswers): seq<Effect> {
    var later := SaveAndMove(d.(readyAt := a.now + conf.reportDelay), ReportFinalized, a.saves(1));
    if !a.data || !a.published then later else
    var moved := SaveAndMove(d, Finalized, a.saves(0));
    [Publish(ReportOf(d))] + if moved == [] then later else moved
  }

  // ---------- Runs ----------

  datatype Handling = Making(making: MakeAnswers) | Confirming(confirming: ConfirmAnswers) | Reporting(reporting: ReportAnswers)

  function Stage(h: Handling): Status {
    match h
    case Making(_) => DealMaking
    case Confirming(_) => Confirmation
    case Reporting(_) => ReportFinalized
  }

  function Effects(conf: Settings, d: AuctionDeal, h: Handling): seq<Effect> {
    match h
    case Making(a) => Make(conf, d, a)
    case Confirming(a) => Confirm(conf, d, a)
    case Reporting(a) => Report(conf, d, a)
  }

  function RowAfter(row: AuctionDeal, es: seq<Effect>): AuctionDeal
    decreases |es|
  {
    if es == [] then row else
    if es[|es| - 1].Save? then es[|es| - 1].row else RowAfter(row, es[..|es| - 1])
  }

  function ReportsIn(es: seq<Effect>): seq<B.FinalizedDeal>
    decreases |es|
  {
    if es == [] then [] else
    ReportsIn(es[..|es| - 1]) + if es[|es| - 1].Publish? then [es[|es| - 1].report] else []
  }

  /** The row, the reports published for it, how often the deal was proposed to the provider, and how many of
      these proposals left no trace in the row. */
  datatype World = World(row: AuctionDeal, reports: seq<B.FinalizedDeal>, executions: nat, lost: nat)

  function Claimed(w: World): AuctionDeal {
    w.row.(executing := true)
  }

  predicate Proposes(h: Handling) {
    h.Making? && h.making.data && h.making.wallet
  }

  /** One run: the row is claimed, and the first `done` of the run's effects take place. Fewer than all of them:
      the process stopped, and the row is claimed again when it is found stuck. */
  datatype Event = Event(handling: Handling, done: nat)

  predicate Enabled(conf: Settings, w: World, e: Event) {
    w.row.status == Stage(e.handling) && e.done <= |Effects(conf, Claimed(w), e.handling)|
  }

  function Step(conf: Settings, w: World, e: Event): World
    requires Enabled(conf, w, e)
  {
    var d := Claimed(w);
    var es := Effects(conf, d, e.handling)[..e.done];
    World(RowAfter(d, es), w.reports + ReportsIn(es),
          w.executions + (if Proposes(e.handling) then 1 else 0),
          w.lost + (if Proposes(e.handling) && es == [] then 1 else 0))
  }

  /** What the chain client promises: slashed comes with an error, and an active deal has an expiration. */
  predicate ChainPromise(h: Handling) {
    h.Confirming? && h.confirming.chain.Answer? ==>
      !h.confirming.chain.slashed && (h.confirming.chain.active ==> h.confirming.chain.expiration > 0)
  }

  predicate AllEnabled(conf: Settings, w: World, es: seq<Event>)
    decreases |es|
  {
    es == [] || (Enabled(conf, w, es[0]) && ChainPromise(es[0].handling) && AllEnabled(conf, Step(conf, w, es[0]), es[1..]))
  }

  function Run(conf: Settings, w: World, es: seq<Event>): World
    requires AllEnabled(conf, w, es)
    decreases |es|
  {
    if es == [] then w else Run(conf, Step(conf, w, es[0]), es[1..])
  }

  /** A row as it is created. */
  predicate Created(w: World) {
    && w.row.status.DealMaking? && w.row.errorCause == "" && w.row.retries == 0 && w.row.dealId == 0 && w.row.expiration == 0
    && w.reports == [] && w.executions == 0 && w.lost == 0
  }

  // ---------- Invariant ----------

  /** The deal failed for a reason, or it is on chain until some epoch. */
  predicate HasOutcome(d: AuctionDeal) {
    d.errorCause != "" || (d.dealId > 0 && d.expiration > 0)
  }

  ghost predicate Inv(conf: Settings, w: World) {
    && w.executions <= conf.maxRetries + 1 + w.lost
    && (forall i | 0 <= i < |w.reports| :: w.reports[i] == ReportOf(w.row))
    && match w.row.status
       case DealMaking => w.row.errorCause == "" && w.row.dealId == 0 && w.reports == []
                          && w.executions == w.row.retries + w.lost && w.row.retries <= conf.maxRetries
       case Confirmation => w.row.errorCause == "" && w.row.dealId >= 0 && w.reports == []
       case ReportFinalized => HasOutcome(w.row)
       case Finalized => HasOutcome(w.row) && w.reports != []
  }

  lemma OneEffect(row: AuctionDeal, e: Effect)
    ensures RowAfter(row, [e]) == if e.Save? then e.row else row
    ensures ReportsIn([e]) == if e.Publish? then [e.report] else []
  {
    assert [e][..0] == [];
  }

  lemma LastEffect(row: AuctionDeal, es: seq<Effect>, e: Effect)
    ensures RowAfter(row, es + [e]) == if e.Save? then e.row else RowAfter(row, es)
    ensures ReportsIn(es + [e]) == ReportsIn(es) + if e.Publish? then [e.report] else []
  {
    assert (es + [e])[..|es|] == es;
  }

  /** What no run ever changes. */
  predicate SameDeal(d: AuctionDeal, r: AuctionDeal) {
    r.id == d.id && r.batch == d.batch && r.provider == d.provider && r.startEpoch == d.startEpoch
  }

  /** A row that a deal-making run saves: one more try, the proposal taken, or a failure. */
  ghost predicate MadeRow(conf: Settings, d: AuctionDeal, a: MakeAnswers, r: AuctionDeal) {
    SameDeal(d, r) && r.dealId == 0 &&
    match r.status
    case DealMaking => a.data && a.wallet && r.errorCause == "" && r.dealId == 0 && r.retries == d.retries + 1 <= conf.maxRetries
    case Confirmation => a.data && a.wallet && r.errorCause == "" && r.dealId == 0
    case ReportFinalized => r.errorCause != ""
    case Finalized => false
  }

  lemma MakeSaves(conf: Settings, d: AuctionDeal, a: MakeAnswers)
    requires d.status.DealMaking? && d.errorCause == "" && d.dealId == 0
    ensures |Make(conf, d, a)| <= 2
    ensures forall e | e in Make(conf, d, a) :: e.Save? && MadeRow(conf, d, a, e.row)
  {
  }

  /** Nothing but saves: the last one stays, and nothing is reported. */
  lemma {:induction false} OnlySaves(row: AuctionDeal, es: seq<Effect>)
    requires forall e | e in es :: e.Save?
    ensures RowAfter(row, es) == (if es == [] then row else es[|es| - 1].row)
    ensures ReportsIn(es) == []
    decreases |es|
  {
    if es != [] {
      OnlySaves(row, es[..|es| - 1]);
    }
  }

  lemma MakeKeepsInv(conf: Settings, w: World, a: MakeAnswers, done: nat)
    requires Inv(conf, w) && Enabled(conf, w, Event(Making(a), done))
    ensures var w' := Step(conf, w, Event(Making(a), done)); Inv(conf, w') && Rank(w'.row.status) >= Rank(w.row.status)
  {
    var d := Claimed(w);
    MakeSaves(conf, d, a);
    var es := Make(conf, d, a)[..done];
    OnlySaves(d, es);
    if es != [] {
      assert es[|es| - 1] in Make(conf, d, a);
    }
  }

  /** The chain answered that the deal is active until this epoch. */
  predicate FoundActive(a: ConfirmAnswers, expiration: nat) {
    a.chain.Answer? && a.chain.active && a.chain.expiration == expiration
  }

  /** The market resolved this deal id. */
  predicate Resolved(a: ConfirmAnswers, dealId: int) {
    a.wallet && a.marketStatus && a.resolved > 0 && a.resolved == dealId
  }

  lemma AskChainSaves(conf: Settings, d: AuctionDeal, a: ConfirmAnswers)
    requires ChainPromise(Confirming(a)) && d.errorCause == "" && d.status.Confirmation? && d.dealId > 0
    ensures |AskChain(conf, d, a)| <= 1
    ensures forall e | e in AskChain(conf, d, a) ::
              && e.Save? && (e.row.status.Confirmation? || e.row.status.ReportFinalized?)
              && SameDeal(d, e.row) && e.row.dealId == d.dealId
              && (if e.row.status.Confirmation? then e.row.errorCause == "" else HasOutcome(e.row))
              && (e.row.status.ReportFinalized? && e.row.errorCause == "" ==> FoundActive(a, e.row.expiration))
  {
  }

  lemma ConfirmSaves(conf: Settings, d: AuctionDeal, a: ConfirmAnswers)
    requires ChainPromise(Confirming(a)) && d.errorCause == "" && d.status.Confirmation? && d.dealId >= 0
    ensures forall e | e in Confirm(conf, d, a) ::
              && e.Save? && (e.row.status.Confirmation? || e.row.status.ReportFinalized?)
              && SameDeal(d, e.row) && e.row.dealId >= 0 && (e.row.dealId == d.dealId || Resolved(a, e.row.dealId))
              && (if e.row.status.Confirmation? then e.row.errorCause == "" else HasOutcome(e.row))
              && (e.row.status.ReportFinalized? && e.row.errorCause == "" ==> FoundActive(a, e.row.expiration))
  {
    if d.dealId != 0 {
      AskChainSaves(conf, d, a);
    } else if a.resolved != 0 {
      AskChainSaves(conf, d.(dealId := a.resolved), a);
    }
  }

  lemma ConfirmKeepsInv(conf: Settings, w: World, a: ConfirmAnswers, done: nat)
    requires Inv(conf, w) && Enabled(conf, w, Event(Confirming(a), done)) && ChainPromise(Confirming(a))
    ensures var w' := Step(conf, w, Event(Confirming(a), done)); Inv(conf, w') && Rank(w'.row.status) >= Rank(w.row.status)
  {
    var d := Claimed(w);
    ConfirmSaves(conf, d, a);
    var es := Confirm(conf, d, a)[..done];
    OnlySaves(d, es);
    if es != [] {
      assert es[|es| - 1] in Confirm(conf, d, a);
    }
  }

  /** At most a report and then a save, which changes nothing that is reported. */
  ghost predicate ReportLike(d: AuctionDeal, es: seq<Effect>) {
    && |es| <= 2 && (|es| == 2 ==> es[0].Publish? && es[1].Save?)
    && (forall i | 0 <= i < |es| && es[i].Publish? :: es[i].report == ReportOf(d))
    && (forall i | 0 <= i < |es| && es[i].Save? ::
          && ReportOf(es[i].row) == ReportOf(d) && SameDeal(d, es[i].row)
          && (es[i].row.status.ReportFinalized? || (es[i].row.status.Finalized? && i == 1)))
  }

  lemma ReportShape(conf: Settings, d: AuctionDeal, a: ReportAnswers)
    requires d.status.ReportFinalized? && d.executing
    ensures var es := Report(conf, d, a);
            && ReportLike(d, es)
            && ((|es| > 0 && es[0].Publish?) <==> a.data && a.published)
            && (HasOutcome(d) ==> ((|es| == 2 && es[1].row.status.Finalized?) <==> a.data && a.published && a.saves(0)))
  {
  }

  lemma ReportApplied(d: AuctionDeal, es: seq<Effect>)
    requires d.status.ReportFinalized? && ReportLike(d, es)
    ensures ReportOf(RowAfter(d, es)) == ReportOf(d) && SameDeal(d, RowAfter(d, es))
    ensures ReportsIn(es) == if |es| > 0 && es[0].Publish? then [ReportOf(d)] else []
    ensures RowAfter(d, es).status == if |es| == 2 && es[1].row.status.Finalized? then Finalized else ReportFinalized
  {
    if |es| == 1 {
      assert es == [es[0]];
      OneEffect(d, es[0]);
    } else if |es| == 2 {
      assert es == [es[0]] + [es[1]];
      OneEffect(d, es[0]);
      LastEffect(d, [es[0]], es[1]);
    }
  }

  lemma ReportKeepsInv(conf: Settings, w: World, a: ReportAnswers, done: nat)
    requires Inv(conf, w) && Enabled(conf, w, Event(Reporting(a), done))
    ensures var w' := Step(conf, w, Event(Reporting(a), done)); Inv(conf, w') && Rank(w'.row.status) >= Rank(w.row.status)
  {
    var d := Claimed(w);
    ReportShape(conf, d, a);
    ReportApplied(d, Report(conf, d, a)[..done]);
    assert ReportOf(d) == ReportOf(w.row);
  }

  lemma StepKeepsInv(conf: Settings, w: World, e: Event)
    requires Inv(conf, w) && Enabled(conf, w, e) && ChainPromise(e.handling)
    ensures Inv(conf, Step(conf, w, e)) && Rank(Step(conf, w, e).row.status) >= Rank(w.row.status)
  {
    match e.handling {
      case Making(a) => MakeKeepsInv(conf, w, a, e.done);
      case Confirming(a) => ConfirmKeepsInv(conf, w, a, e.done);
      case Reporting(a) => ReportKeepsInv(conf, w, a, e.done);
    }
  }

  /**
   Every run, whatever the answers, failed saves and stops, keeps the invariant, and the status never moves back.
   */
  lemma {:induction false} RunKeepsInv(conf: Settings, w: World, es: seq<Event>)
    requires Inv(conf, w) && AllEnabled(conf, w, es)
    ensures Inv(conf, Run(conf, w, es)) && Rank(Run(conf, w, es).row.status) >= Rank(w.row.status)
    decreases |es|
  {
    if es != [] {
      StepKeepsInv(conf, w, es[0]);
      RunKeepsInv(conf, Step(conf, w, es[0]), es[1..]);
    }
  }

  // ---------- What is reported ----------

  /** Some run resolved the deal id. */
  ghost predicate IdResolved(past: seq<Event>, dealId: int) {
    exists k :: 0 <= k < |past| && past[k].handling.Confirming? && Resolved(past[k].handling.confirming, dealId)
  }

  /** Some run found the deal active until this epoch. */
  ghost predicate ActiveUntil(past: seq<Event>, expiration: nat) {
    exists k :: 0 <= k < |past| && past[k].handling.Confirming? && FoundActive(past[k].handling.confirming, expiration)
  }

  /** The deal id of a row was resolved, and the expiration of a success is what the chain said, in runs up to now. */
  ghost predicate Learned(past: seq<Event>, d: AuctionDeal) {
    && (d.dealId != 0 ==> IdResolved(past, d.dealId))
    && (Rank(d.status) >= 2 && d.errorCause == "" ==> ActiveUntil(past, d.expiration))
  }

  lemma LearnedStays(past: seq<Event>, e: Event, d: AuctionDeal)
    requires Learned(past, d)
    ensures Learned(past + [e], d)
  {
    var more := past + [e];
    if d.dealId != 0 {
      var k :| 0 <= k < |past| && past[k].handling.Confirming? && Resolved(past[k].handling.confirming, d.dealId);
      assert more[k] == past[k];
    }
    if Rank(d.status) >= 2 && d.errorCause == "" {
      var k :| 0 <= k < |past| && past[k].handling.Confirming? && FoundActive(past[k].handling.confirming, d.expiration);
      assert more[k] == past[k];
    }
  }

  lemma MakeLearns(conf: Settings, w: World, a: MakeAnswers, done: nat, past: seq<Event>)
    requires Inv(conf, w) && Enabled(conf, w, Event(Making(a), done)) && Learned(past, w.row)
    ensures var r := Step(conf, w, Event(Making(a), done)).row; Learned(past, r) && SameDeal(w.row, r)
  {
    var d := Claimed(w);
    MakeSaves(conf, d, a);
    var es := Make(conf, d, a)[..done];
    OnlySaves(d, es);
    if es != [] { assert es[|es| - 1] in Make(conf, d, a); }
  }

  lemma ConfirmLearns(conf: Settings, w: World, a: ConfirmAnswers, done: nat, past: seq<Event>)
    requires Inv(conf, w) && Enabled(conf, w, Event(Confirming(a), done)) && ChainPromise(Confirming(a)) && Learned(past, w.row)
    ensures var r := Step(conf, w, Event(Confirming(a), done)).row;
            Learned(past + [Event(Confirming(a), done)], r) && SameDeal(w.row, r)
  {
    var d, e := Claimed(w), Event(Confirming(a), done);
    ConfirmSaves(conf, d, a);
    var es := Confirm(conf, d, a)[..done];
    OnlySaves(d, es);
    LearnedStays(past, e, w.row);
    assert (past + [e])[|past|] == e;
    if es != [] { assert es[|es| - 1] in Confirm(conf, d, a); }
  }

  lemma ReportLearns(conf: Settings, w: World, a: ReportAnswers, done: nat, past: seq<Event>)
    requires Inv(conf, w) && Enabled(conf, w, Event(Reporting(a), done)) && Learned(past, w.row)
    ensures var r := Step(conf, w, Event(Reporting(a), done)).row; Learned(past, r) && SameDeal(w.row, r)
  {
    var d := Claimed(w);
    ReportShape(conf, d, a);
    ReportApplied(d, Report(conf, d, a)[..done]);
  }

  lemma StepLearns(conf: Settings, w: World, e: Event, past: seq<Event>)
    requires Inv(conf, w) && Enabled(conf, w, e) && ChainPromise(e.handling) && Learned(past, w.row)
    ensures Learned(past + [e], Step(conf, w, e).row) && SameDeal(w.row, Step(conf, w, e).row)
  {
    match e.handling {
      case Making(a) =>
        MakeLearns(conf, w, a, e.done, past);
        LearnedStays(past, e, Step(conf, w, e).row);
      case Confirming(a) => ConfirmLearns(conf, w, a, e.done, past);
      case Reporting(a) =>
        ReportLearns(conf, w, a, e.done, past);
        LearnedStays(past, e, Step(conf, w, e).row);
    }
  }

  lemma {:induction false} RunLearns(conf: Settings, w: World, es: seq<Event>, past: seq<Event>)
    requires Inv(conf, w) && AllEnabled(conf, w, es) && Learned(past, w.row)
    ensures Learned(past + es, Run(conf, w, es).row) && SameDeal(w.row, Run(conf, w, es).row)
    decreases |es|
  {
    if es == [] {
      assert past + es == past;
    } else {
      StepKeepsInv(conf, w, es[0]);
      StepLearns(conf, w, es[0], past);
      RunLearns(conf, Step(conf, w, es[0]), es[1..], past + [es[0]]);
      assert past + es == (past + [es[0]]) + es[1..];
    }
  }

  /**
   The life of a deal, over every run: proposed as often as retries allow and once more, not counting proposals that left
   no trace; to be reported with an outcome only, and finalized with a report only. Every report says what the row says:
   the batch and the provider the deal was created with, and the id, expiration and error it ended up with. A report
   without an error carries the id that the market resolved and the expiration that the chain gave for an active deal.
   */
  lemma DealLife(conf: Settings, w: World, es: seq<Event>)
    requires Created(w) && AllEnabled(conf, w, es)
    ensures var w' := Run(conf, w, es);
            && w'.executions <= conf.maxRetries + 1 + w'.lost
            && (Rank(w'.row.status) >= 2 ==> HasOutcome(w'.row))
            && (w'.row.status.Finalized? ==> w'.reports != [])
            && SameDeal(w.row, w'.row)
            && (forall i | 0 <= i < |w'.reports| :: Tells(w'.reports[i], w'.row))
            && (forall i | 0 <= i < |w'.reports| && w'.reports[i].errorCause == "" ::
                  && w'.reports[i].dealId > 0 && IdResolved(es, w'.reports[i].dealId)
                  && w'.reports[i].expiration > 0 && ActiveUntil(es, w'.reports[i].expiration))
  {
    RunKeepsInv(conf, w, es);
    RunLearns(conf, w, es, []);
    assert [] + es == es;
    var w' := Run(conf, w, es);
    if w'.reports != [] { assert w'.reports[0] == ReportOf(w'.row); }
  }

  /** Which states of the chain the run's answers come from. */
  ghost predicate AnswersFrom(es: seq<Event>, states: seq<ChainState>) {
    && |states| == |es|
    && forall k | 0 <= k < |es| && es[k].handling.Confirming? :: es[k].handling.confirming.chain == CheckChainDeal(states[k])
  }

  /** A state of a deal that is not slashed and in a sector that has started. */
  predicate Proven(s: ChainState, expiration: nat) {
    s.Found? && s.slashEpoch <= 0 && s.sectorStartEpoch > 0 && s.endEpoch == expiration
  }

  /** So a success that is reported was on chain at some time, not slashed, in a sector that had started, and with this
      end epoch. */
  lemma SuccessWasOnChain(conf: Settings, w: World, es: seq<Event>, states: seq<ChainState>, i: nat)
    requires Created(w) && AllEnabled(conf, w, es) && AnswersFrom(es, states)
    requires i < |Run(conf, w, es).reports| && Run(conf, w, es).reports[i].errorCause == ""
    ensures exists k :: 0 <= k < |states| && Proven(states[k], Run(conf, w, es).reports[i].expiration)
  {
    DealLife(conf, w, es);
    var expiration := Run(conf, w, es).reports[i].expiration;
    assert ActiveUntil(es, expiration);
    var k :| 0 <= k < |es| && es[k].handling.Confirming? && FoundActive(es[k].handling.confirming, expiration);
    ChainAnswered(states[k]);
    assert Proven(states[k], expiration);
  }

  // ---------- Saves that fail ----------

  /** The row has what its status calls for: an identifier to look the deal up by while it waits for confirmation; an error,
      or a deal id and an expiration, while it is claimed to be reported. A finalized row is never saved. */
  predicate Complete(d: AuctionDeal) {
    || d.status.DealMaking?
    || (d.status.Confirmation? && (d.proposal.ProposalCid? || d.proposal.DealUuid?))
    || (d.status.ReportFinalized? && d.executing && (d.errorCause != "" || (d.dealId != 0 && d.expiration != 0)))
  }

  /** A row is saved, in its new status and released, if and only if it is complete and the write works. */
  lemma SavedWhen(d: AuctionDeal, s: Status, written: bool)
    ensures var es := SaveAndMove(d, s, written);
            && (es != [] <==> Complete(d) && written)
            && (es != [] ==> |es| == 1 && es[0] == Save(d.(status := s, executing := false)))
  {
  }

  /** A deal-making run whose first save fails: the deal is reported as failed, if at least that can be saved. A run that
      saves nothing leaves the row claimed. */
  lemma MakeUnsaved(conf: Settings, d: AuctionDeal, a: MakeAnswers)
    requires d.status.DealMaking? && a.data && a.wallet && !a.execution.Refused? && !a.saves(0)
    ensures RowAfter(d, Make(conf, d, a)) ==
            if a.saves(1) then d.(errorCause := a.failure, readyAt := 0, status := ReportFinalized, executing := false) else d
  {
    var es := Make(conf, d, a);
    if a.saves(1) {
      assert es == [es[0]];
      OneEffect(d, es[0]);
    }
  }

  /** Which saves of a confirmation run count: without a deal id the first one only; with one, old or new, the last; and a
      new one is not followed up if it can't be saved. */
  lemma ConfirmUnsaved(conf: Settings, d: AuctionDeal, a: ConfirmAnswers)
    requires d.status.Confirmation? && Complete(d) && a.wallet && a.marketStatus && ChainPromise(Confirming(a))
    ensures var es := Confirm(conf, d, a);
            && (d.dealId == 0 && a.resolved == 0 ==> (es == [] <==> !a.saves(0)))
            && (d.dealId != 0 ==> (es == [] <==> !a.saves(2)))
            && (d.dealId == 0 && a.resolved != 0 ==>
                  if !a.saves(0) then es == [] else
                  |es| == (if a.saves(2) then 2 else 1) && es[0] == Save(d.(dealId := a.resolved, executing := false)))
  {
  }

  /** A reporting run that does not end the deal puts it off by the delay, if that can be saved. */
  lemma ReportPutOff(conf: Settings, d: AuctionDeal, a: ReportAnswers)
    requires d.status.ReportFinalized? && Complete(d) && !(a.data && a.published && a.saves(0))
    ensures RowAfter(d, Report(conf, d, a)) == if a.saves(1) then d.(readyAt := a.now + conf.reportDelay, executing := false) else d
  {
    var es, later := Report(conf, d, a), d.(readyAt := a.now + conf.reportDelay, executing := false);
    if a.data && a.published {
      OneEffect(d, Publish(ReportOf(d)));
      if a.saves(1) {
        assert es == [Publish(ReportOf(d))] + [Save(later)];
        LastEffect(d, [Publish(ReportOf(d))], Save(later));
      } else {
        assert es == [Publish(ReportOf(d))];
      }
    } else if a.saves(1) {
      assert es == [Save(later)];
      OneEffect(d, es[0]);
    }
  }

  /** What the branch for slashed deals would do with an answer that says so: it saves the failure, if it can, and then goes
      on to the other checks, of which the last word is saved over it. */
  lemma SlashedGoesOn(conf: Settings, d: AuctionDeal, a: ConfirmAnswers)
    requires d.status.Confirmation? && Complete(d) && a.wallet && a.marketStatus && d.dealId != 0
    requires a.chain.Answer? && a.chain.slashed
    ensures var es := Confirm(conf, d, a);
            && (es == [] <==> !a.saves(1))
            && (es != [] ==>
                  && es[0] == Save(d.(errorCause := SLASHED, readyAt := 0, status := ReportFinalized, executing := false))
                  && |es| == (if a.saves(2) then 2 else 1)
                  && (a.saves(2) ==>
                        es[1] == Save(if a.chain.active then es[0].row.(expiration := a.chain.expiration)
                                      else if d.startEpoch > a.height
                                      then es[0].row.(readyAt := a.now + conf.chainDelay, status := Confirmation)
                                      else es[0].row.(errorCause := UNFULFILLED))))
  {
  }

  // ---------- When a confirmation run decides ----------

  /** All that a run needs besides the chain: its lookups and its saves succeed. */
  predicate Works(a: ConfirmAnswers) {
    a.wallet && a.marketStatus && a.saves(0) && a.saves(1) && a.saves(2)
  }

  /** A deal without an id is given up after its start epoch, one with an id already in it; a deal that is active
      is done; and as long as the chain does not answer, nothing is decided. */
  predicate Decides(d: AuctionDeal, a: ConfirmAnswers) {
    if d.dealId == 0 && a.resolved == 0 then d.startEpoch < a.height
    else a.chain.Answer? && (a.chain.active || d.startEpoch <= a.height)
  }

  /** The row that a confirmation run leaves: with its deal id, if it is known by now; put off, if nothing is decided, by the
      delay for what is missing; and otherwise a success until the epoch the chain gave, or a failure. */
  predicate ConfirmedRow(conf: Settings, d: AuctionDeal, a: ConfirmAnswers, r: AuctionDeal) {
    && (r.status == if Decides(d, a) then ReportFinalized else Confirmation)
    && SameDeal(d, r) && !r.executing && r.dealId == (if d.dealId == 0 then a.resolved else d.dealId)
    && (!Decides(d, a) ==>
          && r.readyAt == a.now + (if r.dealId == 0 then conf.resolveDelay else conf.chainDelay)
          && r.errorCause == d.errorCause && r.expiration == d.expiration)
    && (Decides(d, a) ==>
          && r.readyAt == 0
          && (if r.dealId != 0 && a.chain.active then r.errorCause == d.errorCause && r.expiration == a.chain.expiration
              else r.errorCause == UNFULFILLED && r.expiration == d.expiration))
  }

  lemma AskChainDecides(conf: Settings, d: AuctionDeal, a: ConfirmAnswers)
    requires d.status.Confirmation? && AreAllExpectedFieldsSet(d) && a.saves(2) && ChainPromise(Confirming(a)) && d.dealId != 0
    ensures var es := AskChain(conf, d, a); |es| == 1 && es[0].Save? && ConfirmedRow(conf, d, a, es[0].row)
  {
  }

  lemma UnresolvedDecides(conf: Settings, d: AuctionDeal, a: ConfirmAnswers)
    requires d.status.Confirmation? && AreAllExpectedFieldsSet(d) && Works(a) && d.dealId == 0 && a.resolved == 0
    ensures var es := Confirm(conf, d, a); |es| == 1 && es[0].Save? && ConfirmedRow(conf, d, a, es[0].row)
  {
  }

  lemma ConfirmDecides(conf: Settings, d: AuctionDeal, a: ConfirmAnswers)
    requires d.status.Confirmation? && AreAllExpectedFieldsSet(d) && Works(a) && ChainPromise(Confirming(a))
    ensures ConfirmedRow(conf, d, a, RowAfter(d, Confirm(conf, d, a)))
  {
    if d.dealId != 0 {
      AskChainDecides(conf, d, a);
      OneSave(d, Confirm(conf, d, a));
    } else if a.resolved == 0 {
      UnresolvedDecides(conf, d, a);
      OneSave(d, Confirm(conf, d, a));
    } else {
      var d1 := d.(dealId := a.resolved);
      var es := AskChain(conf, d1, a);
      AskChainDecides(conf, d1, a);
      assert es == [es[0]];
      LastEffect(d, SaveAndMove(d1, Confirmation, true), es[0]);
    }
  }

  /** What the chain client makes of the state of a deal: active is a deal in a sector that has started, until its end
      epoch; a slashed one comes back as no answer. */
  lemma ChainAnswered(s: ChainState)
    ensures var answer := CheckChainDeal(s);
            && (answer.NoAnswer? <==> s.Unreachable? || (s.Found? && s.slashEpoch > 0))
            && (answer.Answer? ==> !answer.slashed && (answer.active <==> s.Found? && s.sectorStartEpoch > 0))
            && (answer.Answer? ==> answer.expiration == if answer.active then s.endEpoch else 0)
  {
  }

  /** The chain client keeps its promise for every state of a deal that ends after epoch zero. */
  lemma ChainPromiseKept(s: ChainState, a: ConfirmAnswers)
    requires s.Found? ==> s.endEpoch > 0
    requires a.chain == CheckChainDeal(s)
    ensures ChainPromise(Confirming(a))
  {
  }

  /** A deal that is slashed after its id was found is not decided at any height: asked past its start epoch, the
      run decides exactly for the chain states that are not slashed. */
  lemma SlashedIsNeverDecided(conf: Settings, d: AuctionDeal, a: ConfirmAnswers, s: ChainState)
    requires d.status.Confirmation? && AreAllExpectedFieldsSet(d) && Works(a) && d.dealId > 0
    requires s != Unreachable && (s.Found? ==> s.endEpoch > 0) && a.chain == CheckChainDeal(s) && a.height >= d.startEpoch
    ensures RowAfter(d, Confirm(conf, d, a)).status.ReportFinalized? <==> !(s.Found? && s.slashEpoch > 0)
  {
    ConfirmDecides(conf, d, a);
  }

  // ---------- Retries and rescheduling ----------

  /** A deal-making run that is told to try again, with saves that work. */
  predicate ToldToTryAgain(a: MakeAnswers) {
    a.data && a.wallet && a.execution.TryAgain? && a.saves(0)
  }

  function Repeated(a: MakeAnswers, n: nat): seq<Event> {
    seq(n, _ => Event(Making(a), 1))
  }

  /** The bound on proposals is reached: told to try again every time, the deal is proposed as often as retries
      are allowed and once more, and then given up. */
  lemma {:induction false} RetriesUsedUp(conf: Settings, w: World, a: MakeAnswers)
    requires Inv(conf, w) && w.row.status.DealMaking? && ToldToTryAgain(a)
    ensures var es := Repeated(a, conf.maxRetries + 1 - w.row.retries);
            && AllEnabled(conf, w, es)
            && Run(conf, w, es).row.status.ReportFinalized? && Run(conf, w, es).row.errorCause == MAX_RETRIES
            && Run(conf, w, es).executions == w.executions + |es| && Run(conf, w, es).lost == w.lost
    decreases conf.maxRetries - w.row.retries
  {
    var es := Repeated(a, conf.maxRetries + 1 - w.row.retries);
    var d := Claimed(w);
    var saved := Make(conf, d, a);
    assert saved == [saved[0]] && saved[..1] == saved;
    OneEffect(d, saved[0]);
    StepKeepsInv(conf, w, es[0]);
    var w1 := Step(conf, w, es[0]);
    if w.row.retries == conf.maxRetries {
      assert es[1..] == [];
    } else {
      assert es[1..] == Repeated(a, conf.maxRetries + 1 - w1.row.retries);
      RetriesUsedUp(conf, w1, a);
    }
  }

  function NowOf(h: Handling): nat {
    match h
    case Making(a) => a.now
    case Confirming(a) => a.now
    case Reporting(a) => a.now
  }

  /** How long a run puts a row off at least. */
  function Delay(conf: Settings, h: Handling): nat {
    match h
    case Making(_) => conf.retryDelay
    case Confirming(_) => if conf.resolveDelay < conf.chainDelay then conf.resolveDelay else conf.chainDelay
    case Reporting(_) => conf.reportDelay
  }

  /** If the deal id could be saved, so can what follows. */
  predicate SavesTillTheEnd(h: Handling) {
    h.Confirming? && h.confirming.saves(0) ==> h.confirming.saves(2)
  }

  /** The row has moved on, is still marked as executing, or is put off by the delay. */
  predicate PutOff(conf: Settings, d: AuctionDeal, r: AuctionDeal, h: Handling) {
    r.executing || r.status != d.status || r.readyAt >= NowOf(h) + Delay(conf, h)
  }

  /** The deal id was resolved and saved, and what followed was not: the row is released as ready as it was. */
  predicate LeftReady(conf: Settings, d: AuctionDeal, a: ConfirmAnswers) {
    && a.wallet && a.marketStatus && d.dealId == 0 && a.resolved != 0 && AreAllExpectedFieldsSet(d) && a.saves(0) && !a.saves(2)
    && d.readyAt < a.now + Delay(conf, Confirming(a))
  }

  /** A daemon does not come across a row again before its delay is over, if and only if it is not left ready. That
      happens to a row once, as it has a deal id then. */
  lemma NotReadyAgain(conf: Settings, d: AuctionDeal, h: Handling)
    requires d.executing && d.status == Stage(h) && ChainPromise(h)
    requires d.status.Confirmation? ==> d.errorCause == "" && d.dealId >= 0
    ensures var r := RowAfter(d, Effects(conf, d, h));
            && (PutOff(conf, d, r, h) <==> !(h.Confirming? && LeftReady(conf, d, h.confirming)))
            && (!PutOff(conf, d, r, h) ==> d.dealId == 0 && r.dealId != 0)
    ensures h.Confirming? && d.dealId != 0 ==> RowAfter(d, Effects(conf, d, h)).dealId != 0
  {
    match h {
      case Making(a) => MakeReschedules(conf, d, a);
      case Confirming(a) => ConfirmReschedules(conf, d, a);
      case Reporting(a) => ReportReschedules(conf, d, a);
    }
  }

  lemma MakeRetries(conf: Settings, d: AuctionDeal, a: MakeAnswers)
    requires d.status.DealMaking?
    ensures forall e | e in Make(conf, d, a) :: e.Save? && (e.row.status.DealMaking? ==> e.row.readyAt >= a.now + conf.retryDelay)
  {
    assert conf.retryDelay * (d.retries + 1) == conf.retryDelay * d.retries + conf.retryDelay;
    assert conf.retryDelay * d.retries >= 0;
  }

  lemma MakeReschedules(conf: Settings, d: AuctionDeal, a: MakeAnswers)
    requires d.executing && d.status.DealMaking?
    ensures var r := RowAfter(d, Make(conf, d, a)); r.executing || !r.status.DealMaking? || r.readyAt >= a.now + conf.retryDelay
  {
    var es := Make(conf, d, a);
    MakeRetries(conf, d, a);
    OnlySaves(d, es);
    if es != [] { assert es[|es| - 1] in es; }
  }

  /** The one row saved once the deal id is known. */
  lemma AskChainReschedules(conf: Settings, d: AuctionDeal, a: ConfirmAnswers)
    requires d.status.Confirmation? && ChainPromise(Confirming(a)) && d.errorCause == "" && d.dealId > 0
    ensures var es := AskChain(conf, d, a);
            && |es| <= 1
            && (es != [] ==> es[0].Save? && es[0].row.dealId == d.dealId && PutOff(conf, d, es[0].row, Confirming(a)))
            && (es != [] <==> a.saves(2) && AreAllExpectedFieldsSet(d))
  {
  }

  lemma ConfirmReschedules(conf: Settings, d: AuctionDeal, a: ConfirmAnswers)
    requires d.executing && d.status.Confirmation? && ChainPromise(Confirming(a)) && d.errorCause == "" && d.dealId >= 0
    ensures var r := RowAfter(d, Confirm(conf, d, a));
            && (PutOff(conf, d, r, Confirming(a)) <==> !LeftReady(conf, d, a))
            && (LeftReady(conf, d, a) ==> r.dealId != 0)
            && (d.dealId != 0 ==> r.dealId != 0)
  {
    if d.dealId != 0 {
      AskChainReschedules(conf, d, a);
      OneSave(d, AskChain(conf, d, a));
    } else if a.resolved == 0 {
      OneSave(d, Confirm(conf, d, a));
    } else if a.wallet && a.marketStatus {
      ResolvedReschedules(conf, d, a);
    }
  }

  lemma OneSave(row: AuctionDeal, es: seq<Effect>)
    requires |es| <= 1 && (es != [] ==> es[0].Save?)
    ensures RowAfter(row, es) == if es == [] then row else es[0].row
  {
    if es != [] { assert es == [es[0]]; }
  }

  lemma ResolvedReschedules(conf: Settings, d: AuctionDeal, a: ConfirmAnswers)
    requires d.executing && d.status.Confirmation? && ChainPromise(Confirming(a)) && d.errorCause == "" && d.dealId == 0
    requires a.wallet && a.marketStatus && a.resolved != 0
    ensures var r := RowAfter(d, Confirm(conf, d, a));
            (PutOff(conf, d, r, Confirming(a)) <==> !LeftReady(conf, d, a)) && (LeftReady(conf, d, a) ==> r.dealId != 0)
  {
    var known := d.(dealId := a.resolved);
    var first, rest := SaveAndMove(known, d.status, a.saves(0)), AskChain(conf, known, a);
    AskChainReschedules(conf, known, a);
    if first == [] {
      OneSave(d, Confirm(conf, d, a));
    } else if rest == [] {
      assert first + rest == first;
      OneSave(d, first);
    } else {
      assert rest == [rest[0]];
      LastEffect(d, first, rest[0]);
    }
  }

  lemma ReportReschedules(conf: Settings, d: AuctionDeal, a: ReportAnswers)
    requires d.executing && d.status.ReportFinalized?
    ensures var r := RowAfter(d, Report(conf, d, a)); r.executing || !r.status.ReportFinalized? || r.readyAt >= a.now + conf.reportDelay
  {
    var es := Report(conf, d, a);
    ReportShape(conf, d, a);
    if |es| == 1 {
      assert es == [es[0]];
      OneEffect(d, es[0]);
    } else if |es| == 2 {
      assert es == [es[0]] + [es[1]];
      LastEffect(d, [es[0]], es[1]);
    }
  }

  // ---------- One report or more ----------

  /** After a run of the reporter that was not stopped. */
  function Reported(conf: Settings, w: World, a: ReportAnswers): World {
    if w.row.status.ReportFinalized? then Step(conf, w, Event(Reporting(a), |Report(conf, Claimed(w), a)|)) else w
  }

  /** A complete run of the reporter ends the deal if and only if the report went out and the save after it worked;
      if only the save fails, the report is out and the next run publishes it again. */
  lemma ReportedAgain(conf: Settings, w: World, a: ReportAnswers, again: ReportAnswers)
    requires w.row.status.ReportFinalized? && HasOutcome(w.row)
    requires again.data && again.published && again.saves(0)
    ensures var w1 := Reported(conf, w, a);
            && (w1.row.status.Finalized? <==> a.data && a.published && a.saves(0))
            && (!w1.row.status.Finalized? ==>
                  && Reported(conf, w1, again).row.status.Finalized?
                  && Reported(conf, w1, again).reports ==
                     w.reports + (if a.data && a.published then [ReportOf(w.row)] else []) + [ReportOf(w.row)])
  {
    CompleteReport(conf, w, a);
    if !Reported(conf, w, a).row.status.Finalized? {
      CompleteReport(conf, Reported(conf, w, a), again);
    }
  }

  lemma CompleteReport(conf: Settings, w: World, a: ReportAnswers)
    requires w.row.status.ReportFinalized? && HasOutcome(w.row)
    ensures var w' := Reported(conf, w, a);
            && (w'.row.status == if a.data && a.published && a.saves(0) then Finalized else ReportFinalized)
            && (w'.reports == w.reports + if a.data && a.published then [ReportOf(w.row)] else [])
            && ReportOf(w'.row) == ReportOf(w.row) && HasOutcome(w'.row)
  {
    var d := Claimed(w);
    var all := Report(conf, d, a);
    assert all[..|all|] == all;
    ReportShape(conf, d, a);
    ReportApplied(d, all);
  }

  // ---------- A row claimed twice ----------

  /** Saving a deal id releases the row while its run goes on, so that it can be claimed again. What a run saves
      late then replaces the row, whatever became of it. */
  lemma LateSave(conf: Settings, row: AuctionDeal, d: AuctionDeal, a: ConfirmAnswers)
    requires d.status.Confirmation? && AreAllExpectedFieldsSet(d) && Works(a) && ChainPromise(Confirming(a))
    ensures Rank(RowAfter(row, Confirm(conf, d, a)).status) < Rank(row.status) <==>
            row.status.Finalized? || (row.status.ReportFinalized? && !Decides(d, a))
  {
    ConfirmDecides(conf, d, a);
    var es := Confirm(conf, d, a);
    assert es != [] && es[|es| - 1].Save?;
  }

  /** Two runs that overlap take a finalized deal back to confirmation, from where it is reported again: the
      first one resolves the id, which releases the row to the second, and finds the deal active. */
  lemma ClaimedTwice(conf: Settings, d: AuctionDeal, first: ConfirmAnswers, second: ConfirmAnswers, r: ReportAnswers)
    requires d.status.Confirmation? && d.executing && AreAllExpectedFieldsSet(d) && d.dealId == 0 && d.errorCause == ""
    requires Works(first) && first.resolved > 0 && first.chain.Answer? && first.chain.active
    requires first.chain.expiration > 0 && !first.chain.slashed
    requires Works(second) && second.chain.NoAnswer?
    requires r.data && r.published && r.saves(0)
    ensures var es := Confirm(conf, d, first);
            && |es| == 2 && es[0].Save? && es[1].Save?
            && es[0].row.status.Confirmation? && !es[0].row.executing
            && var reporting := Report(conf, es[1].row.(executing := true), r);
               var reported := RowAfter(es[1].row, reporting);
               && reported.status.Finalized? && |ReportsIn(reporting)| == 1
               && RowAfter(reported, Confirm(conf, es[0].row.(executing := true), second)).status.Confirmation?
  {
    var d1 := d.(dealId := first.resolved);
    var es := Confirm(conf, d, first);
    assert es == SaveAndMove(d1, Confirmation, true) + AskChain(conf, d1, first);
    var w := World(es[1].row, [], 0, 0);
    var reporting := Report(conf, Claimed(w), r);
    ReportShape(conf, Claimed(w), r);
    ReportApplied(Claimed(w), reporting);
    assert reporting == [reporting[0]] + [reporting[1]];
    LastEffect(es[1].row, [reporting[0]], reporting[1]);
    ConfirmDecides(conf, es[0].row.(executing := true), second);
  }

  // ---------- A deal-making run that ends late ----------

  /** The identifier can be told from garbage. */
  predicate Usable(i: Identifier) {
    i.ProposalCid? || i.DealUuid?
  }

  /** Where a deal-making run leaves the deal, if its saves work. */
  function MakeStatus(conf: Settings, d: AuctionDeal, a: MakeAnswers): Status {
    if !a.data || !a.wallet || a.execution.Refused? then ReportFinalized
    else if a.execution.TryAgain? then if d.retries >= conf.maxRetries then ReportFinalized else DealMaking
    else if Usable(a.execution.proposal) && a.published then Confirmation
    else ReportFinalized
  }

  lemma MakeDecides(conf: Settings, d: AuctionDeal, a: MakeAnswers)
    requires d.status.DealMaking? && d.errorCause == "" && d.dealId == 0 && a.saves(0) && a.saves(1)
    ensures var r := RowAfter(d, Make(conf, d, a));
            && r.status == MakeStatus(conf, d, a)
            && SameDeal(d, r) && !r.executing && r.dealId == 0 && r.expiration == d.expiration
            && (r.status.DealMaking? ==>
                  r.errorCause == "" && r.retries == d.retries + 1 && r.readyAt == a.now + conf.retryDelay * r.retries)
            && (r.status.Confirmation? ==> r.errorCause == "" && r.retries == 0 && r.proposal == a.execution.proposal && r.readyAt == 0)
            && (r.status.ReportFinalized? ==>
                  && r.readyAt == 0
                  && (if a.data && a.wallet && a.execution.TryAgain? then r.errorCause == MAX_RETRIES && r.retries == d.retries + 1
                      else r.errorCause == a.failure && r.retries == d.retries))
  {
    var es := Make(conf, d, a);
    MakeSaves(conf, d, a);
    OnlySaves(d, es);
    assert es[|es| - 1] in es;
  }

  /** A deal-making run that accepted the proposal saves the row for the monitor, which releases it, and then
      publishes. If that fails it saves the row again, as it was read, with an error. */
  lemma FailsAfterRelease(conf: Settings, d: AuctionDeal, a: MakeAnswers)
    requires d.status.DealMaking? && d.errorCause == "" && d.dealId == 0 && a.saves(0) && a.saves(1)
    requires a.data && a.wallet && a.execution.Taken? && !(Usable(a.execution.proposal) && a.published)
    ensures var es := Make(conf, d, a);
            && |es| == 2 && es[0].Save? && es[1].Save?
            && es[0].row.status.Confirmation? && !es[0].row.executing && es[0].row.proposal == a.execution.proposal
            && es[0].row.errorCause == "" && es[0].row.dealId == 0
            && es[1].row.status.ReportFinalized? && es[1].row.errorCause != "" && es[1].row.dealId == 0
  {
  }

  /** What such a run saves late moves the row back if and only if the monitor and the reporter have finalized it in the
      meantime; and the row gets an error, whatever they found. */
  lemma LateFailure(conf: Settings, row: AuctionDeal, d: AuctionDeal, a: MakeAnswers)
    requires d.status.DealMaking? && d.errorCause == "" && d.dealId == 0 && a.saves(0) && a.saves(1)
    requires a.data && a.wallet && a.execution.Taken? && !(Usable(a.execution.proposal) && a.published)
    ensures var r := RowAfter(row, Make(conf, d, a)[1..]);
            && (Rank(r.status) < Rank(row.status) <==> row.status.Finalized?)
            && r.errorCause != ""
  {
    var es := Make(conf, d, a);
    FailsAfterRelease(conf, d, a);
    assert es[1..] == [es[1]];
    OneEffect(row, es[1]);
  }

  /** A whole deal-making run on a row that another run has moved on, as after it was taken for stuck: it moves the row
      back if and only if it decides on an earlier status. */
  lemma LateMake(conf: Settings, row: AuctionDeal, d: AuctionDeal, a: MakeAnswers)
    requires d.status.DealMaking? && d.errorCause == "" && d.dealId == 0 && a.saves(0) && a.saves(1)
    ensures Rank(RowAfter(row, Make(conf, d, a)).status) < Rank(row.status) <==>
            Rank(MakeStatus(conf, d, a)) < Rank(row.status)
  {
    MakeDecides(conf, d, a);
    var es := Make(conf, d, a);
    MakeSaves(conf, d, a);
    OnlySaves(d, es);
    OnlySaves(row, es);
  }

  /** The monitor finds the released deal active and it is reported as a success; then the run that made it saves its
      failure, and the deal is reported again: two reports of one deal that contradict each other. */
  lemma ReportsDisagree(conf: Settings, d: AuctionDeal, a: MakeAnswers, c: ConfirmAnswers, r: ReportAnswers)
    requires d.status.DealMaking? && d.errorCause == "" && d.dealId == 0 && a.saves(0) && a.saves(1)
    requires a.data && a.wallet && a.execution.Taken? && Usable(a.execution.proposal) && !a.published
    requires Works(c) && c.resolved > 0 && c.chain.Answer? && c.chain.active && c.chain.expiration > 0 && !c.chain.slashed
    requires r.data && r.published && r.saves(0)
    ensures var es := Make(conf, d, a);
            && |es| == 2 && es[0].Save?
            && var confirmed := RowAfter(es[0].row, Confirm(conf, es[0].row.(executing := true), c));
               var reported := RowAfter(confirmed, Report(conf, confirmed.(executing := true), r));
               var late := RowAfter(reported, es[1..]);
               && reported.status.Finalized? && late.status.ReportFinalized?
               && ReportsIn(Report(conf, confirmed.(executing := true), r)) == [ReportOf(confirmed)]
               && ReportsIn(Report(conf, late.(executing := true), r)) == [ReportOf(late)]
               && ReportOf(confirmed).errorCause == "" && ReportOf(late).errorCause != ""
  {
    var es := Make(conf, d, a);
    FailsAfterRelease(conf, d, a);
    var released := es[0].row.(executing := true);
    var confirming := Confirm(conf, released, c);
    ConfirmDecides(conf, released, c);
    ConfirmSaves(conf, released, c);
    OnlySaves(es[0].row, confirming);
    OnlySaves(released, confirming);
    assert confirming != [];
    var confirmed := RowAfter(es[0].row, confirming);
    assert confirming[|confirming| - 1] in confirming;
    ReportSucceeds(conf, confirmed, r);
    var reported := RowAfter(confirmed, Report(conf, confirmed.(executing := true), r));
    LateFailure(conf, reported, d, a);
    ReportSucceeds(conf, RowAfter(reported, es[1..]), r);
  }

  /** A report of a row with an outcome that works. */
  lemma ReportSucceeds(conf: Settings, row: AuctionDeal, r: ReportAnswers)
    requires row.status.ReportFinalized? && HasOutcome(row) && r.data && r.published && r.saves(0)
    ensures var es := Report(conf, row.(executing := true), r);
            RowAfter(row, es).status.Finalized? && ReportsIn(es) == [ReportOf(row)]
  {
    var d := row.(executing := true);
    var es := Report(conf, d, r);
    ReportShape(conf, d, r);
    ReportApplied(d, es);
    assert es == [es[0]] + [es[1]];
    LastEffect(row, [es[0]], es[1]);
    LastEffect(d, [es[0]], es[1]);
  }
}
