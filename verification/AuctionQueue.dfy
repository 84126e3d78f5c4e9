/** The auction queue: rows with a status, a bounded job channel, a bounded tick channel, workers and a start timer. */
module AuctionQueue {
  import opened Prelude

  type AuctionId = nat

  datatype Status = Queued | Started | Finalized

  datatype Row = Row(deadline: nat, status: Status)

  /** `limit` is the number of workers and the capacity of both channels. `taken` lists the auctions handed to the
      handler, `closed` the ones handed to the finalizer. */
  datatype Queue = Queue(
    limit: nat,
    rows: map<AuctionId, Row>,
    jobs: seq<AuctionId>,
    ticks: nat,
    timer: bool,
    busy: set<AuctionId>,
    taken: seq<AuctionId>,
    closed: seq<AuctionId>)

  predicate IsQueued(rows: map<AuctionId, Row>, a: AuctionId) {
    a in rows && rows[a].status.Queued?
  }

  predicate IsStarted(rows: map<AuctionId, Row>, a: AuctionId) {
    a in rows && rows[a].status.Started?
  }

  /** Queued, or started so long ago that it counts as stuck. */
  predicate IsReady(rows: map<AuctionId, Row>, stuck: set<AuctionId>, a: AuctionId) {
    IsQueued(rows, a) || (IsStarted(rows, a) && a in stuck)
  }

  /** A ready row with the earliest deadline, if there is a ready one. */
  ghost predicate IsNextOf(rows: map<AuctionId, Row>, stuck: set<AuctionId>, pick: Option<AuctionId>) {
    match pick
    case None => forall a :: !IsReady(rows, stuck, a)
    case Some(a) => IsReady(rows, stuck, a) && forall b | IsReady(rows, stuck, b) :: rows[a].deadline <= rows[b].deadline
  }

  /** The next row to execute below the stuck timeout: a queued one with the earliest deadline, if there is a queued
      one. */
  ghost predicate IsNext(rows: map<AuctionId, Row>, pick: Option<AuctionId>) {
    match pick
    case None => forall a :: !IsQueued(rows, a)
    case Some(a) => IsQueued(rows, a) && forall b | IsQueued(rows, b) :: rows[a].deadline <= rows[b].deadline
  }

  // ---------- Steps ----------

  function SetStatus(rows: map<AuctionId, Row>, a: AuctionId, s: Status): map<AuctionId, Row>
    requires a in rows
  {
    rows[a := rows[a].(status := s)]
  }

  /** Started if the job channel takes it, queued if the channel is full. */
  function Enqueue(q: Queue, a: AuctionId): Queue
    requires a in q.rows
  {
    if |q.jobs| < q.limit then q.(rows := SetStatus(q.rows, a, Started), jobs := q.jobs + [a])
    else q.(rows := SetStatus(q.rows, a, Queued))
  }

  function Create(q: Queue, a: AuctionId, deadline: nat, valid: bool): Queue {
    if !valid || a in q.rows then q else Enqueue(q.(rows := q.rows[a := Row(deadline, Queued)]), a)
  }

  function Dispatch(q: Queue, pick: Option<AuctionId>): Queue
    requires pick.Some? ==> pick.value in q.rows
  {
    if pick.None? then q else Enqueue(q, pick.value)
  }

  function Take(q: Queue): Queue
    requires q.jobs != []
  {
    q.(jobs := q.jobs[1..], busy := q.busy + {q.jobs[0]}, taken := q.taken + [q.jobs[0]])
  }

  function Finish(q: Queue, a: AuctionId): Queue
    requires a in q.rows
  {
    q.(rows := SetStatus(q.rows, a, Finalized), closed := q.closed + [a], busy := q.busy - {a},
       ticks := if q.ticks < q.limit then q.ticks + 1 else q.ticks)
  }

  datatype Event =
    | Created(a: AuctionId, deadline: nat, valid: bool)
    | JobTaken
    | JobDone(a: AuctionId)
    | TimerFired(pick: Option<AuctionId>)
    | Ticked(pick: Option<AuctionId>)

  ghost predicate Enabled(q: Queue, e: Event) {
    match e
    case Created(_, _, _) => true
    case JobTaken => q.jobs != [] && |q.busy| < q.limit
    case JobDone(a) => a in q.busy && a in q.rows
    case TimerFired(pick) => q.timer && IsNext(q.rows, pick)
    case Ticked(pick) => q.ticks > 0 && IsNext(q.rows, pick)
  }

  ghost function Step(q: Queue, e: Event): Queue
    requires Enabled(q, e)
  {
    match e
    case Created(a, deadline, valid) => Create(q, a, deadline, valid)
    case JobTaken => Take(q)
    case JobDone(a) => Finish(q, a)
    case TimerFired(pick) => Dispatch(q.(timer := false), pick)
    case Ticked(pick) => Dispatch(q.(ticks := q.ticks - 1), pick)
  }

  ghost predicate AllEnabled(q: Queue, es: seq<Event>)
    decreases |es|
  {
    es == [] || (Enabled(q, es[0]) && AllEnabled(Step(q, es[0]), es[1..]))
  }

  ghost function Run(q: Queue, es: seq<Event>): Queue
    requires AllEnabled(q, es)
    decreases |es|
  {
    if es == [] then q else Run(Step(q, es[0]), es[1..])
  }

  // ---------- Invariant ----------

  ghost predicate NoLostWakeup(q: Queue) {
    (exists a :: IsQueued(q.rows, a)) ==> q.timer || q.ticks > 0 || q.jobs != [] || q.busy != {}
  }

  ghost predicate Bounded(q: Queue) {
    0 < q.limit && |q.jobs| <= q.limit && |q.busy| <= q.limit && q.ticks <= q.limit
  }

  /** Started means waiting in the job channel or being handled, and each at most once. */
  ghost predicate StartedOk(q: Queue) {
    && Distinct(q.jobs) && (forall a | a in q.jobs :: a !in q.busy)
    && (forall a :: IsStarted(q.rows, a) <==> a in q.jobs || a in q.busy)
  }

  /** Handled once, and closed once, after being handled. */
  ghost predicate ClosedOk(q: Queue) {
    && Distinct(q.taken) && Distinct(q.closed)
    && (forall a :: a in q.taken <==> a in q.busy || a in q.closed)
    && (forall a | a in q.closed :: a in q.rows && q.rows[a].status.Finalized?)
  }

  ghost predicate Inv(q: Queue) {
    Bounded(q) && StartedOk(q) && ClosedOk(q) && NoLostWakeup(q)
  }

  /** After a restart: rows that are queued or finalized, nothing under way, and the start timer set. Rows left
      started by a crash wait for the stuck timeout, which is not modelled. */
  ghost predicate Restarted(q: Queue) {
    && q.limit > 0 && q.timer && q.jobs == [] && q.busy == {} && q.ticks == 0 && q.taken == [] && q.closed == []
    && forall a :: !IsStarted(q.rows, a)
  }

  lemma RestartedInv(q: Queue)
    requires Restarted(q)
    ensures Inv(q)
  {
  }

  lemma EnqueueKeeps(q: Queue, a: AuctionId)
    requires Bounded(q) && StartedOk(q) && ClosedOk(q) && IsQueued(q.rows, a)
    ensures var q' := Enqueue(q, a); Bounded(q') && StartedOk(q') && ClosedOk(q') && q'.jobs != []
  {
    var q' := Enqueue(q, a);
    assert a !in q.jobs && a !in q.busy by { assert !IsStarted(q.rows, a); }
    forall b
      ensures IsStarted(q'.rows, b) <==> b in q'.jobs || b in q'.busy
    {
      assert IsStarted(q.rows, b) <==> b in q.jobs || b in q.busy;
    }
  }

  lemma CreateKeeps(q: Queue, a: AuctionId, deadline: nat, valid: bool)
    requires Inv(q)
    ensures Inv(Create(q, a, deadline, valid))
  {
    if valid && a !in q.rows {
      var q1 := q.(rows := q.rows[a := Row(deadline, Queued)]);
      assert !IsStarted(q.rows, a);
      forall b
        ensures IsStarted(q1.rows, b) <==> b in q1.jobs || b in q1.busy
      {
        assert IsStarted(q.rows, b) <==> b in q.jobs || b in q.busy;
      }
      EnqueueKeeps(q1, a);
    }
  }

  lemma DispatchKeeps(q: Queue, pick: Option<AuctionId>)
    requires Bounded(q) && StartedOk(q) && ClosedOk(q) && IsNext(q.rows, pick)
    ensures Inv(Dispatch(q, pick))
  {
    if pick.Some? {
      EnqueueKeeps(q, pick.value);
    }
  }

  lemma TakeKeeps(q: Queue)
    requires Inv(q) && q.jobs != [] && |q.busy| < q.limit
    ensures Inv(Take(q))
  {
    var a := q.jobs[0];
    var q' := Take(q);
    assert q.jobs == [a] + q'.jobs;
    assert IsStarted(q.rows, a);
    assert a !in q.taken by {
      if a in q.closed { assert false; }
    }
    assert a in q'.busy;
  }

  lemma FinishKeeps(q: Queue, a: AuctionId)
    requires Inv(q) && a in q.busy && a in q.rows
    ensures Inv(Finish(q, a))
  {
    var q' := Finish(q, a);
    assert IsStarted(q.rows, a);
    assert |q'.busy| == |q.busy| - 1;
    forall b
      ensures IsStarted(q'.rows, b) <==> b in q'.jobs || b in q'.busy
    {
      assert IsStarted(q.rows, b) <==> b in q.jobs || b in q.busy;
    }
  }

  lemma StepKeepsInv(q: Queue, e: Event)
    requires Inv(q) && Enabled(q, e)
    ensures Inv(Step(q, e))
  {
    match e {
      case Created(a, deadline, valid) => CreateKeeps(q, a, deadline, valid);
      case JobTaken => TakeKeeps(q);
      case JobDone(a) => FinishKeeps(q, a);
      case TimerFired(pick) => DispatchKeeps(q.(timer := false), pick);
      case Ticked(pick) => DispatchKeeps(q.(ticks := q.ticks - 1), pick);
    }
  }

  /** No wakeup is lost and nothing is handled or closed twice, in every run, for any number of workers. */
  lemma {:induction false} RunKeepsInv(q: Queue, es: seq<Event>)
    requires Inv(q) && AllEnabled(q, es)
    ensures Inv(Run(q, es))
    decreases |es|
  {
    if es != [] {
      StepKeepsInv(q, es[0]);
      RunKeepsInv(Step(q, es[0]), es[1..]);
    }
  }

  // ---------- Order ----------

  function Rank(s: Status): nat {
    match s
    case Queued => 0
    case Started => 1
    case Finalized => 2
  }

  /** Auctions stay, with their deadline, and never go back; and those started so far are handled in this order, before
      any that is started later. */
  ghost predicate Forward(q: Queue, q': Queue) {
    && (forall a | a in q.rows :: a in q'.rows && q'.rows[a].deadline == q.rows[a].deadline
                                  && Rank(q'.rows[a].status) >= Rank(q.rows[a].status))
    && q.taken + q.jobs <= q'.taken + q'.jobs && q.taken <= q'.taken && q.closed <= q'.closed
  }

  lemma EnqueueForward(q: Queue, a: AuctionId)
    requires IsQueued(q.rows, a)
    ensures Forward(q, Enqueue(q, a))
  {
    assert q.taken + (q.jobs + [a]) == (q.taken + q.jobs) + [a];
  }

  lemma CreateForward(q: Queue, a: AuctionId, deadline: nat, valid: bool)
    ensures Forward(q, Create(q, a, deadline, valid))
  {
    assert q.taken + (q.jobs + [a]) == (q.taken + q.jobs) + [a];
  }

  lemma TakeForward(q: Queue)
    requires q.jobs != []
    ensures Forward(q, Take(q))
  {
    assert q.taken + q.jobs == Take(q).taken + Take(q).jobs;
  }

  lemma FinishForward(q: Queue, a: AuctionId)
    requires IsStarted(q.rows, a)
    ensures Forward(q, Finish(q, a))
  {
  }

  lemma StepForward(q: Queue, e: Event)
    requires Inv(q) && Enabled(q, e)
    ensures Forward(q, Step(q, e))
  {
    match e {
      case Created(a, deadline, valid) => CreateForward(q, a, deadline, valid);
      case JobTaken => TakeForward(q);
      case JobDone(a) => FinishForward(q, a);
      case TimerFired(pick) => if pick.Some? { EnqueueForward(q.(timer := false), pick.value); }
      case Ticked(pick) => if pick.Some? { EnqueueForward(q.(ticks := q.ticks - 1), pick.value); }
    }
  }

  /** Over every run. */
  lemma {:induction false} RunForward(q: Queue, es: seq<Event>)
    requires Inv(q) && AllEnabled(q, es)
    ensures Forward(q, Run(q, es))
    decreases |es|
  {
    if es != [] {
      StepKeepsInv(q, es[0]);
      StepForward(q, es[0]);
      RunForward(Step(q, es[0]), es[1..]);
    }
  }

  /** An auction is taken in if and only if its data is valid and its id is new, with the deadline it asks for; it is
      started if and only if there is room in the job channel, and queued otherwise. */
  lemma AuctionTakenIn(q: Queue, a: AuctionId, deadline: nat, valid: bool)
    requires Enabled(q, Created(a, deadline, valid))
    ensures var q' := Step(q, Created(a, deadline, valid)); var room := |q.jobs| < q.limit;
            if valid && a !in q.rows then
              && q'.rows == q.rows[a := Row(deadline, if room then Started else Queued)]
              && q'.jobs == (if room then q.jobs + [a] else q.jobs)
              && q' == q.(rows := q'.rows, jobs := q'.jobs)
            else q' == q
  {
  }

  // ---------- Progress ----------

  ghost function QueuedRows(rows: map<AuctionId, Row>): set<AuctionId> {
    set a | a in rows && IsQueued(rows, a)
  }

  ghost function Measure(q: Queue): nat {
    4 * |QueuedRows(q.rows)| + 3 * |q.jobs| + 2 * |q.busy| + q.ticks + if q.timer then 1 else 0
  }

  lemma EnqueueMeasure(q: Queue, a: AuctionId)
    requires IsQueued(q.rows, a)
    ensures Measure(Enqueue(q, a)) <= Measure(q)
  {
    var q' := Enqueue(q, a);
    if |q.jobs| < q.limit {
      assert QueuedRows(q'.rows) == QueuedRows(q.rows) - {a};
    } else {
      assert q'.rows == q.rows;
    }
  }

  /** Every step of the queue itself uses something up: only new auctions keep it going. */
  lemma StepDecreases(q: Queue, e: Event)
    requires Inv(q) && Enabled(q, e) && !e.Created?
    ensures Measure(Step(q, e)) < Measure(q)
  {
    match e {
      case JobTaken =>
        assert |Take(q).busy| <= |q.busy| + 1;
      case JobDone(a) =>
        assert IsStarted(q.rows, a);
        assert QueuedRows(Finish(q, a).rows) == QueuedRows(q.rows);
        assert |Finish(q, a).busy| == |q.busy| - 1;
      case TimerFired(pick) =>
        if pick.Some? { EnqueueMeasure(q.(timer := false), pick.value); }
      case Ticked(pick) =>
        if pick.Some? { EnqueueMeasure(q.(ticks := q.ticks - 1), pick.value); }
    }
  }

  ghost predicate AllFinalized(q: Queue) {
    forall a | a in q.rows :: q.rows[a].status.Finalized?
  }

  /** There is always a next row to execute, or none is queued. */
  lemma {:induction false} NextExists(rows: map<AuctionId, Row>, among: set<AuctionId>) returns (pick: Option<AuctionId>)
    requires among <= rows.Keys
    ensures pick.None? ==> forall a | a in among :: !IsQueued(rows, a)
    ensures pick.Some? ==> IsQueued(rows, pick.value) && forall b | b in among && IsQueued(rows, b) :: rows[pick.value].deadline <= rows[b].deadline
    decreases among
  {
    if among == {} {
      pick := None;
    } else {
      var a :| a in among;
      pick := NextExists(rows, among - {a});
      if IsQueued(rows, a) && (pick.None? || rows[a].deadline < rows[pick.value].deadline) {
        pick := Some(a);
      }
    }
  }

  /** As long as an auction is not finalized, the queue can take a step of its own. */
  lemma NeverStuck(q: Queue) returns (e: Event)
    requires Inv(q) && !AllFinalized(q)
    ensures !e.Created? && Enabled(q, e)
  {
    if q.busy != {} {
      var a :| a in q.busy;
      assert IsStarted(q.rows, a);
      e := JobDone(a);
    } else if q.jobs != [] {
      e := JobTaken;
    } else {
      var a :| a in q.rows && !q.rows[a].status.Finalized?;
      assert !IsStarted(q.rows, a);
      assert IsQueued(q.rows, a);
      var pick := NextExists(q.rows, q.rows.Keys);
      assert IsNext(q.rows, pick);
      e := if q.timer then TimerFired(pick) else Ticked(pick);
    }
  }

  lemma IdleIsFinalized(q: Queue)
    requires Inv(q) && q.jobs == [] && q.busy == {} && !q.timer && q.ticks == 0
    ensures AllFinalized(q)
  {
    forall a | a in q.rows ensures q.rows[a].status.Finalized? {
      assert !IsStarted(q.rows, a) && !IsQueued(q.rows, a);
    }
  }

  /** From a restart on: no wakeup is lost, nothing is handled or closed twice; and once no new auctions come, the queue
      stops with every auction finalized. */
  lemma FromRestart(q: Queue, es: seq<Event>, own: seq<Event>)
    requires Restarted(q) && AllEnabled(q, es) && AllEnabled(Run(q, es), own) && OwnSteps(own)
    ensures Inv(Run(q, es)) && Inv(Run(Run(q, es), own))
    ensures |own| <= Measure(Run(q, es))
    ensures (forall e: Event | !e.Created? :: !Enabled(Run(Run(q, es), own), e)) ==> AllFinalized(Run(Run(q, es), own))
  {
    RestartedInv(q);
    RunKeepsInv(q, es);
    RunKeepsInv(Run(q, es), own);
    EveryAuctionFinalized(Run(q, es), own);
  }

  ghost predicate OwnSteps(es: seq<Event>) {
    forall i | 0 <= i < |es| :: !es[i].Created?
  }

  /** Whatever the order of its steps, the queue stops within the measure; and where it stops, every auction is
      finalized, and each one taken by a worker was closed once. */
  lemma {:induction false} EveryAuctionFinalized(q: Queue, es: seq<Event>)
    requires Inv(q) && AllEnabled(q, es) && OwnSteps(es)
    ensures |es| + Measure(Run(q, es)) <= Measure(q)
    ensures (forall e: Event | !e.Created? :: !Enabled(Run(q, es), e)) ==>
              && AllFinalized(Run(q, es)) && Distinct(Run(q, es).closed)
              && forall a :: a in Run(q, es).taken <==> a in Run(q, es).closed
    decreases |es|
  {
    if es != [] {
      StepKeepsInv(q, es[0]);
      StepDecreases(q, es[0]);
      EveryAuctionFinalized(Step(q, es[0]), es[1..]);
    } else if forall e: Event | !e.Created? :: !Enabled(q, e) {
      if !AllFinalized(q) {
        var e := NeverStuck(q);
      }
      forall a ensures a !in q.busy {
        assert !Enabled(q, JobDone(a));
      }
    }
  }

  /** Every auction that was queued at the start, or created, and is finalized, was closed. */
  lemma {:induction false} FinalizedWasClosed(q: Queue, es: seq<Event>, a: AuctionId)
    requires Inv(q) && AllEnabled(q, es)
    requires a in Run(q, es).rows && Run(q, es).rows[a].status.Finalized?
    requires a !in q.rows || !q.rows[a].status.Finalized?
    ensures a in Run(q, es).closed
    decreases |es|
  {
    if es == [] {
    } else {
      var q1 := Step(q, es[0]);
      StepKeepsInv(q, es[0]);
      if a in q1.rows && q1.rows[a].status.Finalized? {
        assert es[0] == JobDone(a);
        ClosedStays(q1, es[1..], a);
      } else {
        FinalizedWasClosed(q1, es[1..], a);
      }
    }
  }

  lemma {:induction false} ClosedStays(q: Queue, es: seq<Event>, a: AuctionId)
    requires AllEnabled(q, es) && a in q.closed
    ensures a in Run(q, es).closed
    decreases |es|
  {
    if es != [] {
      ClosedStays(Step(q, es[0]), es[1..], a);
    }
  }

  // ---------- The running queue ----------

  /** The query for the next row to execute. */
  method GetNextReadyToExecute(rows: map<AuctionId, Row>, stuck: set<AuctionId>) returns (pick: Option<AuctionId>)
    ensures IsNextOf(rows, stuck, pick)
  {
    var order := Enumerate(rows.Keys);
    pick := None;
    for i := 0 to |order|
      invariant pick.None? ==> forall a | a in order[..i] :: !IsReady(rows, stuck, a)
      invariant pick.Some? ==> IsReady(rows, stuck, pick.value)
      invariant pick.Some? ==> forall b | b in order[..i] && IsReady(rows, stuck, b) :: rows[pick.value].deadline <= rows[b].deadline
    {
      var a := order[i];
      assert order[..i + 1] == order[..i] + [a];
      if IsReady(rows, stuck, a) && (pick.None? || rows[a].deadline < rows[pick.value].deadline) {
        pick := Some(a);
      }
    }
    assert order[..|order|] == order;
    assert forall a | IsReady(rows, stuck, a) :: a in order;
  }

  lemma NoneStuck(rows: map<AuctionId, Row>, pick: Option<AuctionId>)
    requires IsNextOf(rows, {}, pick)
    ensures IsNext(rows, pick)
  {
    forall a ensures IsReady(rows, {}, a) <==> IsQueued(rows, a) {}
  }

  class AuctionQueue {
    const limit: nat
    var rows: map<AuctionId, Row>
    var jobs: seq<AuctionId>
    var ticks: nat
    var timer: bool
    var busy: set<AuctionId>
    var taken: seq<AuctionId>
    var closed: seq<AuctionId>

    constructor (limit: nat, rows: map<AuctionId, Row>)
      ensures View() == Queue(limit, rows, [], 0, true, {}, [], [])
    {
      this.limit, this.rows := limit, rows;
      jobs, ticks, timer, busy, taken, closed := [], 0, true, {}, [], [];
    }

    function View(): Queue
      reads this
    {
      Queue(limit, rows, jobs, ticks, timer, busy, taken, closed)
    }

    /** The status is saved only when it changes. The deadline, by which auctions are picked, stays, and so does every
        other row. */
    method SaveAndTransitionStatus(a: AuctionId, s: Status) returns (saved: bool)
      requires a in rows
      modifies this`rows
      ensures a in rows && rows[a].status == s && rows[a].deadline == old(rows)[a].deadline
      ensures rows.Keys == old(rows).Keys && forall b | b in rows && b != a :: rows[b] == old(rows)[b]
      ensures saved <==> rows != old(rows)
    {
      saved := rows[a].status != s;
      if saved {
        rows := rows[a := rows[a].(status := s)];
      }
    }

    method EnqueueJob(a: AuctionId)
      requires a in rows
      modifies this
      ensures View() == Enqueue(old(View()), a)
    {
      var _ := SaveAndTransitionStatus(a, Started);
      if |jobs| < limit {
        jobs := jobs + [a];
        assert rows == SetStatus(old(rows), a, Started);
      } else {
        var _ := SaveAndTransitionStatus(a, Queued);
        assert rows == SetStatus(old(rows), a, Queued);
      }
    }

    method CreateAuction(a: AuctionId, deadline: nat, valid: bool) returns (ok: bool)
      modifies this
      ensures ok <==> valid && a !in old(rows)
      ensures View() == Create(old(View()), a, deadline, valid)
    {
      if !valid || a in rows {
        return false;
      }
      rows := rows[a := Row(deadline, Queued)];
      EnqueueJob(a);
      ok := true;
    }

    /** A worker takes the first job: an auction that is started, that nobody is handling and nobody has handled, and
        that it is the only one to handle from now on. */
    method TakeJob() returns (a: AuctionId)
      requires Inv(View()) && jobs != [] && |busy| < limit
      modifies this
      ensures Inv(View()) && View() == Take(old(View())) && a == old(jobs)[0]
      ensures IsStarted(rows, a) && a in busy && a !in jobs && a !in old(busy) && a !in old(taken) && a !in closed
    {
      TakeKeeps(View());
      assert IsStarted(rows, jobs[0]);
      a := jobs[0];
      jobs, busy, taken := jobs[1..], busy + {a}, taken + [a];
    }

    /** The worker saves the auction as finalized, hands it to the finalizer, and ticks unless a tick waits. */
    method FinishJob(a: AuctionId)
      requires a in rows
      modifies this
      ensures View() == Finish(old(View()), a)
    {
      var _ := SaveAndTransitionStatus(a, Finalized);
      assert rows == SetStatus(old(rows), a, Finalized);
      closed := closed + [a];
      busy := busy - {a};
      if ticks < limit {
        ticks := ticks + 1;
      }
    }

    method ProcessNext() returns (pick: Option<AuctionId>)
      modifies this
      ensures IsNext(old(rows), pick) && View() == Dispatch(old(View()), pick)
    {
      pick := GetNextReadyToExecute(rows, {});
      NoneStuck(rows, pick);
      if pick.Some? {
        EnqueueJob(pick.value);
      }
    }

    /** The scheduler wakes up by the timer, which fires once, or by a tick. */
    method Wake(byTimer: bool) returns (e: Event)
      requires if byTimer then timer else ticks > 0
      modifies this
      ensures !e.Created? && Enabled(old(View()), e) && View() == Step(old(View()), e)
    {
      var pick;
      if byTimer {
        timer := false;
        pick := ProcessNext();
        e := TimerFired(pick);
      } else {
        ticks := ticks - 1;
        pick := ProcessNext();
        e := Ticked(pick);
      }
    }

    /** Some worker or the scheduler takes a step. */
    method Work() returns (ghost e: Event)
      requires Inv(View()) && (jobs != [] || busy != {} || timer || ticks > 0)
      modifies this
      ensures !e.Created? && Enabled(old(View()), e) && View() == Step(old(View()), e)
    {
      assert |busy| == 0 <==> busy == {};
      if {
        case jobs != [] && |busy| < limit =>
          e := JobTaken;
          var _ := TakeJob();
        case busy != {} =>
          var a :| a in busy;
          assert IsStarted(rows, a);
          e := JobDone(a);
          FinishJob(a);
        case timer =>
          e := Wake(true);
        case ticks > 0 =>
          e := Wake(false);
      }
    }

    /** Workers and scheduler in any order, until none of them has anything to do. */
    method Drain()
      requires Inv(View())
      modifies this
      ensures Inv(View()) && AllFinalized(View())
      ensures forall a :: a in taken <==> a in closed
    {
      while jobs != [] || busy != {} || timer || ticks > 0
        invariant Inv(View())
        decreases Measure(View())
      {
        ghost var q := View();
        ghost var e := Work();
        StepKeepsInv(q, e);
        StepDecreases(q, e);
      }
      IdleIsFinalized(View());
    }
  }
}
