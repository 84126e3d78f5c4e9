/**
 The packer over whole runs. Several runs of the packing job may be in flight at once: a batch whose run takes too
 long counts as stuck and is claimed again.
 */
module PackerRuns {
  import opened Prelude
  import opened PackerModel

  /** `flights` are the runs that have claimed a batch and not ended, each with the message it is going to publish. */
  datatype World = World(store: Store, flights: seq<NewBatch>, announced: seq<NewBatch>)

  const EMPTY := World(NO_BATCHES, [], [])

  /** How a run ends: whether the DAG is built, the batch is marked done, and the message is published. A process that
      stops fails at one of them. `doneAt` is the time written to the batch, which is the retry delay from then. */
  datatype Answers = Answers(dag: bool, moved: bool, published: bool, doneAt: nat)

  datatype Event =
    | Batched(op: Operation, ds: seq<Data>, now: nat)
    | ClosedOld(ages: nat -> nat, closedAt: nat)
    | Claimed(pick: Option<nat>, stuck: nat -> bool)
    | Finished(flight: nat, a: Answers)

  ghost predicate Enabled(w: World, e: Event) {
    match e
    case Claimed(pick, stuck) => NextReady(w.store.batches, stuck, pick)
    case Finished(k, _) => k < |w.flights| && w.flights[k].batch < |w.store.batches|
    case _ => true
  }

  function Claim(w: World, i: nat): World
    requires i < |w.store.batches|
  {
    var s := SetStatus(w.store, i, Executing, w.store.batches[i].readyAt);
    w.(store := s, flights := w.flights + [Announcement(s, i)])
  }

  /** The batch is marked done, whatever became of it since it was claimed, and then announced. */
  function Finish(w: World, k: nat, a: Answers): World
    requires k < |w.flights| && w.flights[k].batch < |w.store.batches|
  {
    var m := w.flights[k];
    if !a.dag || !a.moved then w.(flights := Without(w.flights, k))
    else World(SetStatus(w.store, m.batch, Done, a.doneAt), Without(w.flights, k),
               w.announced + if a.published then [m] else [])
  }

  ghost function Step(conf: Limits, w: World, e: Event): World
    requires Enabled(w, e)
  {
    match e
    case Batched(op, ds, now) =>
      var s := ReadyToBatch(conf, w.store, op, ds, now);
      if s.Some? then w.(store := s.value) else w
    case ClosedOld(ages, now) =>
      w.(store := w.store.(batches := TimeBasedClose(conf, w.store.batches, ages, now)))
    case Claimed(pick, _) => if pick.None? then w else Claim(w, pick.value)
    case Finished(k, a) => Finish(w, k, a)
  }

  ghost predicate AllEnabled(conf: Limits, w: World, es: seq<Event>)
    decreases |es|
  {
    es == [] || (Enabled(w, es[0]) && AllEnabled(conf, Step(conf, w, es[0]), es[1..]))
  }

  ghost function Run(conf: Limits, w: World, es: seq<Event>): World
    requires AllEnabled(conf, w, es)
    decreases |es|
  {
    if es == [] then w else Run(conf, Step(conf, w, es[0]), es[1..])
  }

  // ---------- Invariant ----------

  /** The message is of a claimed batch, as it is. */
  ghost predicate True(s: Store, m: NewBatch) {
    && m.batch < |s.batches| && Rank(s.batches[m.batch].status) >= Rank(Executing)
    && m == Announcement(s, m.batch)
  }

  ghost predicate MessagesOk(w: World) {
    && (forall k | 0 <= k < |w.flights| :: True(w.store, w.flights[k]))
    && (forall k | 0 <= k < |w.announced| ::
          True(w.store, w.announced[k]) && w.store.batches[w.announced[k].batch].status.Done?)
  }

  ghost predicate Inv(conf: Limits, w: World) {
    StoreOk(conf, w.store) && MessagesOk(w)
  }

  /** What is true of a claimed batch stays true of it. */
  lemma StaysTrue(s: Store, s': Store, m: NewBatch)
    requires True(s, m) && Extends(s, s')
    ensures True(s', m) && (s.batches[m.batch].status.Done? ==> s'.batches[m.batch].status.Done?)
  {
    assert Moves(s, s', m.batch);
  }

  lemma MessagesStay(w: World, s': Store)
    requires MessagesOk(w) && Extends(w.store, s')
    ensures MessagesOk(w.(store := s'))
  {
    forall k | 0 <= k < |w.flights| ensures True(s', w.flights[k]) {
      StaysTrue(w.store, s', w.flights[k]);
    }
    forall k | 0 <= k < |w.announced| ensures True(s', w.announced[k]) && s'.batches[w.announced[k].batch].status.Done? {
      StaysTrue(w.store, s', w.announced[k]);
    }
  }

  lemma ClaimKeeps(conf: Limits, w: World, i: nat)
    requires Inv(conf, w) && i < |w.store.batches| && Rank(w.store.batches[i].status) <= Rank(Executing)
    ensures Inv(conf, Claim(w, i)) && Extends(w.store, Claim(w, i).store)
  {
    var s := Claim(w, i).store;
    SetStatusMoves(w.store, i, Executing, w.store.batches[i].readyAt);
    StatusesMoveKeeps(conf, w.store, s);
    MessagesStay(w, s);
    assert True(s, Announcement(s, i));
  }

  lemma FinishKeeps(conf: Limits, w: World, k: nat, a: Answers)
    requires Inv(conf, w) && k < |w.flights| && w.flights[k].batch < |w.store.batches|
    ensures Inv(conf, Finish(w, k, a)) && Extends(w.store, Finish(w, k, a).store)
  {
    var m, w' := w.flights[k], Finish(w, k, a);
    assert True(w.store, m);
    if a.dag && a.moved {
      SetStatusMoves(w.store, m.batch, Done, a.doneAt);
    } else {
      assert StatusesMove(w.store, w.store);
    }
    StatusesMoveKeeps(conf, w.store, w'.store);
    MessagesStay(w, w'.store);
    StaysTrue(w.store, w'.store, m);
  }

  lemma StepKeepsInv(conf: Limits, w: World, e: Event)
    requires Inv(conf, w) && Enabled(w, e)
    ensures Inv(conf, Step(conf, w, e)) && Extends(w.store, Step(conf, w, e).store)
  {
    match e {
      case Batched(op, ds, now) =>
        if ReadyToBatch(conf, w.store, op, ds, now).Some? {
          ReadyToBatchKeeps(conf, w.store, op, ds, now);
          MessagesStay(w, ReadyToBatch(conf, w.store, op, ds, now).value);
        }
      case ClosedOld(ages, now) =>
        ClosingMoves(conf, w.store, ages, now);
        StatusesMoveKeeps(conf, w.store, Step(conf, w, e).store);
        MessagesStay(w, Step(conf, w, e).store);
      case Claimed(pick, _) => if pick.Some? { ClaimKeeps(conf, w, pick.value); }
      case Finished(k, a) => FinishKeeps(conf, w, k, a);
    }
  }

  /** Over every interleaving of additions, closings and packing runs. */
  lemma {:induction false} RunKeepsInv(conf: Limits, w: World, es: seq<Event>)
    requires Inv(conf, w) && AllEnabled(conf, w, es)
    ensures Inv(conf, Run(conf, w, es)) && Extends(w.store, Run(conf, w, es).store)
    decreases |es|
  {
    if es != [] {
      StepKeepsInv(conf, w, es[0]);
      RunKeepsInv(conf, Step(conf, w, es[0]), es[1..]);
      ExtendsTransitive(w.store, Step(conf, w, es[0]).store, Run(conf, w, es).store);
    }
  }

  /** In every reachable state: a batch with several requests fits in the sector, a batch that does not has one
      request only, and its size is what its requests add up to. */
  lemma BatchesFit(conf: Limits, sectorSize: nat, es: seq<Event>, i: nat)
    requires conf.max == CalcBatchLimit(sectorSize) && AllEnabled(conf, EMPTY, es)
    requires i < |Run(conf, EMPTY, es).store.batches|
    ensures var s := Run(conf, EMPTY, es).store;
            && (|InBatch(s.rows, i)| >= 2 ==> FitsSector(s.batches[i].size, sectorSize))
            && (!FitsSector(s.batches[i].size, sectorSize) ==> |InBatch(s.rows, i)| == 1)
            && s.batches[i].size == SumOf(s.rows, SizeIn(i))
            && (forall r | r in InBatch(s.rows, i) :: r.origin == s.batches[i].origin)
  {
    RunKeepsInv(conf, EMPTY, es);
    var s := Run(conf, EMPTY, es).store;
    assert BatchOk(conf, s, i);
    LimitIsExact(sectorSize, s.batches[i].size);
  }

  // ---------- What a run changes ----------

  /** Closing by time makes the open batches ready that have waited enough, and changes nothing else. */
  lemma ClosingChanges(conf: Limits, w: World, ages: nat -> nat, now: nat, i: nat)
    requires i < |w.store.batches|
    ensures var b, w' := w.store.batches[i], Step(conf, w, ClosedOld(ages, now));
            && w' == w.(store := w'.store) && w'.store.rows == w.store.rows && |w'.store.batches| == |w.store.batches|
            && (w'.store.batches[i] == if b.status.Open? && WaitedEnough(conf, b.size, ages(i))
                                       then Batch(b.origin, Ready, b.size, now) else b)
  {
    ClosedOnes(conf, w.store.batches, ages, now, i);
  }

  /** A claim marks its batch as executing, and it keeps its place in the order; nothing else changes in the store. */
  lemma ClaimChanges(w: World, i: nat)
    requires i < |w.store.batches|
    ensures var b, w' := w.store.batches[i], Claim(w, i);
            && w'.store == Store(w.store.batches[i := Batch(b.origin, Executing, b.size, b.readyAt)], w.store.rows)
            && |w'.flights| == |w.flights| + 1 && w'.flights[..|w.flights|] == w.flights && w'.flights[|w.flights|].batch == i
            && w'.announced == w.announced
  {
  }

  /** The end of a run takes it out of flight. If it could build the DAG and write, its batch is done, and if it could publish,
      its message is announced; otherwise the batch stays as it was claimed. */
  lemma FinishChanges(w: World, k: nat, a: Answers)
    requires k < |w.flights| && w.flights[k].batch < |w.store.batches|
    ensures var m, w' := w.flights[k], Finish(w, k, a); var b := w.store.batches[m.batch];
            && multiset(w'.flights) == multiset(w.flights) - multiset{m}
            && w'.store == (if a.dag && a.moved
                            then Store(w.store.batches[m.batch := Batch(b.origin, Done, b.size, a.doneAt)], w.store.rows) else w.store)
            && w'.announced == w.announced + if a.dag && a.moved && a.published then [m] else []
  {
    assert w.flights == w.flights[..k] + [w.flights[k]] + w.flights[k + 1..];
    assert w.announced + [] == w.announced;
  }

  // ---------- What is announced ----------

  function RequestIn(i: nat, r: RequestId): Row -> nat {
    (x: Row) => if x.batch == i && x.request == r then 1 else 0
  }

  /** The message has one entry for each row of its batch, with the request of that row; its size is the sum of theirs,
      and its origin is the one they have in common. */
  ghost predicate Faithful(s: Store, m: NewBatch) {
    && |m.requests| == SumOf(s.rows, CountIn(m.batch))
    && (forall r :: multiset(m.requests)[r] == SumOf(s.rows, RequestIn(m.batch, r)))
    && m.size == SumOf(s.rows, SizeIn(m.batch))
    && (forall k | 0 <= k < |s.rows| && s.rows[k].batch == m.batch :: s.rows[k].origin == m.origin)
  }

  lemma {:induction false} RequestsListed(rows: seq<Row>, i: nat, r: RequestId)
    ensures multiset(Requests(InBatch(rows, i)))[r] == SumOf(rows, RequestIn(i, r))
  {
    if rows == [] {
      assert Requests([]) == [];
    } else {
      var init, last := rows[..|rows| - 1], rows[|rows| - 1];
      RequestsListed(init, i, r);
      if last.batch == i {
        assert Requests(InBatch(rows, i)) == Requests(InBatch(init, i)) + [last.request];
      } else {
        assert InBatch(rows, i) == InBatch(init, i);
      }
    }
  }

  lemma AnnouncementFaithful(conf: Limits, s: Store, i: nat)
    requires StoreOk(conf, s) && i < |s.batches|
    ensures Faithful(s, Announcement(s, i)) && Announcement(s, i).batch == i
  {
    assert BatchOk(conf, s, i);
    forall r ensures multiset(Announcement(s, i).requests)[r] == SumOf(s.rows, RequestIn(i, r)) {
      RequestsListed(s.rows, i, r);
    }
  }

  /** Over every run, every message that is announced, or about to be, lists exactly the requests of its batch. */
  lemma AnnouncedFaithfully(conf: Limits, es: seq<Event>, k: nat)
    requires AllEnabled(conf, EMPTY, es)
    ensures var w := Run(conf, EMPTY, es);
            && (k < |w.announced| ==> w.announced[k].batch < |w.store.batches| && Faithful(w.store, w.announced[k]))
            && (k < |w.flights| ==> w.flights[k].batch < |w.store.batches| && Faithful(w.store, w.flights[k]))
  {
    RunKeepsInv(conf, EMPTY, es);
    var w := Run(conf, EMPTY, es);
    if k < |w.announced| {
      assert True(w.store, w.announced[k]);
      AnnouncementFaithful(conf, w.store, w.announced[k].batch);
    }
    if k < |w.flights| {
      assert True(w.store, w.flights[k]);
      AnnouncementFaithful(conf, w.store, w.flights[k].batch);
    }
  }

  // ---------- Operations, once ----------

  lemma {:induction false} RowsStay(conf: Limits, w: World, es: seq<Event>)
    requires AllEnabled(conf, w, es)
    ensures w.store.rows <= Run(conf, w, es).store.rows
    decreases |es|
  {
    if es != [] {
      if es[0].Batched? {
        AllOrNothing(conf, w.store, es[0].op, es[0].ds, es[0].now);
      }
      RowsStay(conf, Step(conf, w, es[0]), es[1..]);
    }
  }

  /** An operation that is delivered again, at any time after it was added, changes nothing. */
  lemma AddedOnce(conf: Limits, w: World, e: Event, es: seq<Event>, later: nat)
    requires e.Batched? && e.ds != [] && Addable(w.store.rows, e.op, e.ds) && AllEnabled(conf, Step(conf, w, e), es)
    ensures var w' := Run(conf, Step(conf, w, e), es); Step(conf, w', Batched(e.op, e.ds, later)) == w'
  {
    AllOrNothing(conf, w.store, e.op, e.ds, e.now);
    var w1 := Step(conf, w, e);
    RowsStay(conf, w1, es);
    var w' := Run(conf, w1, es);
    var k := |w.store.rows|;
    assert w1.store.rows[k] == w1.store.rows[k..][0];
    assert w'.store.rows[k] == w1.store.rows[k];
    assert HasKey(w'.store.rows, e.op, e.ds[0].request);
    AllOrNothing(conf, w'.store, e.op, e.ds, later);
  }

  // ---------- How often a batch is announced ----------

  function OfBatch(i: nat): NewBatch -> nat {
    (m: NewBatch) => if m.batch == i then 1 else 0
  }

  /** The runs in flight on a batch. */
  function InFlight(w: World, i: nat): nat {
    SumOf(w.flights, OfBatch(i))
  }

  function Announcements(w: World, i: nat): nat {
    SumOf(w.announced, OfBatch(i))
  }

  /** The event ends a run on the batch that gets to publish. */
  ghost predicate Publishes(w: World, e: Event, i: nat)
    requires Enabled(w, e)
  {
    e.Finished? && w.flights[e.flight].batch == i && e.a.dag && e.a.moved && e.a.published
  }

  ghost predicate Claims(e: Event, i: nat) {
    e.Claimed? && e.pick == Some(i)
  }

  ghost predicate Ends(w: World, e: Event, i: nat)
    requires Enabled(w, e)
  {
    e.Finished? && w.flights[e.flight].batch == i
  }

  lemma StepCounts(conf: Limits, w: World, e: Event, i: nat)
    requires Enabled(w, e)
    ensures var w' := Step(conf, w, e);
            && InFlight(w', i) + (if Ends(w, e, i) then 1 else 0) == InFlight(w, i) + (if Claims(e, i) then 1 else 0)
            && Announcements(w', i) == Announcements(w, i) + (if Publishes(w, e, i) then 1 else 0)
  {
    match e {
      case Claimed(pick, _) =>
        if pick.Some? {
          SumAppend(w.flights, Claim(w, pick.value).flights[|w.flights|], OfBatch(i));
        }
      case Finished(k, a) =>
        SumWithout(w.flights, k, OfBatch(i));
        SumAppend(w.announced, w.flights[k], OfBatch(i));
        assert w.announced + [] == w.announced;
      case _ =>
    }
  }

  /** The runs on the batch that end with a publication. */
  ghost function PublishingFinishes(conf: Limits, w: World, es: seq<Event>, i: nat): nat
    requires AllEnabled(conf, w, es)
    decreases |es|
  {
    if es == [] then 0 else
    (if Publishes(w, es[0], i) then 1 else 0) + PublishingFinishes(conf, Step(conf, w, es[0]), es[1..], i)
  }

  /** Over every interleaving, a batch is announced once for each run on it that publishes, always with the same
      message: the size, the requests and the origin it has. */
  lemma {:induction false} AnnouncedPerFinish(conf: Limits, w: World, es: seq<Event>, i: nat)
    requires Inv(conf, w) && AllEnabled(conf, w, es)
    ensures var w' := Run(conf, w, es);
            && Announcements(w', i) == Announcements(w, i) + PublishingFinishes(conf, w, es, i)
            && (forall k | 0 <= k < |w'.announced| && w'.announced[k].batch == i ::
                  i < |w'.store.batches| && w'.announced[k] == Announcement(w'.store, i))
    decreases |es|
  {
    RunKeepsInv(conf, w, es);
    if es != [] {
      StepCounts(conf, w, es[0], i);
      StepKeepsInv(conf, w, es[0]);
      AnnouncedPerFinish(conf, Step(conf, w, es[0]), es[1..], i);
    }
  }

  /** The batch is never claimed while a run on it is in flight. */
  ghost predicate NeverClaimedInFlight(conf: Limits, w: World, es: seq<Event>, i: nat)
    requires AllEnabled(conf, w, es)
    decreases |es|
  {
    es == [] || (!(Claims(es[0], i) && InFlight(w, i) > 0) && NeverClaimedInFlight(conf, Step(conf, w, es[0]), es[1..], i))
  }

  /** An announced batch is done, and a done batch is not claimed. */
  lemma NotClaimedAgain(conf: Limits, w: World, e: Event, i: nat)
    requires Inv(conf, w) && Enabled(w, e) && Claims(e, i)
    ensures Announcements(w, i) == 0
  {
    forall k | 0 <= k < |w.announced| ensures OfBatch(i)(w.announced[k]) == 0 {
      assert True(w.store, w.announced[k]);
    }
    SumZero(w.announced, OfBatch(i));
  }

  lemma StepAtMostOne(conf: Limits, w: World, e: Event, i: nat)
    requires Inv(conf, w) && Enabled(w, e) && InFlight(w, i) + Announcements(w, i) <= 1
    ensures var w' := Step(conf, w, e);
            InFlight(w', i) + Announcements(w', i) <= 1 <==> !(Claims(e, i) && InFlight(w, i) > 0)
  {
    StepCounts(conf, w, e, i);
    if Claims(e, i) {
      NotClaimedAgain(conf, w, e, i);
    }
  }

  lemma {:induction false} AtMostOne(conf: Limits, w: World, es: seq<Event>, i: nat)
    requires Inv(conf, w) && AllEnabled(conf, w, es) && NeverClaimedInFlight(conf, w, es, i)
    requires InFlight(w, i) + Announcements(w, i) <= 1
    ensures Announcements(Run(conf, w, es), i) <= 1
    decreases |es|
  {
    if es != [] {
      StepAtMostOne(conf, w, es[0], i);
      StepKeepsInv(conf, w, es[0]);
      AtMostOne(conf, Step(conf, w, es[0]), es[1..], i);
    }
  }

  /** Some run in flight on the batch. */
  lemma {:induction false} SomeFlight(flights: seq<NewBatch>, i: nat) returns (k: nat)
    requires SumOf(flights, OfBatch(i)) > 0
    ensures k < |flights| && flights[k].batch == i
    decreases |flights|
  {
    if flights[|flights| - 1].batch == i {
      k := |flights| - 1;
    } else {
      k := SomeFlight(flights[..|flights| - 1], i);
    }
  }

  /** All runs in flight on a batch may end with a publication. */
  lemma {:induction false} AllMayPublish(conf: Limits, w: World, i: nat) returns (es: seq<Event>)
    requires Inv(conf, w)
    ensures AllEnabled(conf, w, es) && NeverClaimedInFlight(conf, w, es, i)
    ensures Announcements(Run(conf, w, es), i) == Announcements(w, i) + InFlight(w, i)
    decreases InFlight(w, i)
  {
    if InFlight(w, i) == 0 {
      es := [];
    } else {
      var k := SomeFlight(w.flights, i);
      assert True(w.store, w.flights[k]);
      var e := Finished(k, Answers(true, true, true, 0));
      StepCounts(conf, w, e, i);
      StepKeepsInv(conf, w, e);
      var rest := AllMayPublish(conf, Step(conf, w, e), i);
      es := [e] + rest;
      assert es[1..] == rest;
    }
  }

  /** Whatever happens from here, the batch is announced at most once, as long as it is not claimed in flight. */
  ghost predicate Safe(conf: Limits, w: World, i: nat) {
    forall es | AllEnabled(conf, w, es) && NeverClaimedInFlight(conf, w, es, i) :: Announcements(Run(conf, w, es), i) <= 1
  }

  lemma SafeIff(conf: Limits, w: World, i: nat)
    requires Inv(conf, w)
    ensures Safe(conf, w, i) <==> InFlight(w, i) + Announcements(w, i) <= 1
  {
    if InFlight(w, i) + Announcements(w, i) <= 1 {
      forall es | AllEnabled(conf, w, es) && NeverClaimedInFlight(conf, w, es, i)
        ensures Announcements(Run(conf, w, es), i) <= 1
      {
        AtMostOne(conf, w, es, i);
      }
    } else {
      var es := AllMayPublish(conf, w, i);
      assert !(Announcements(Run(conf, w, es), i) <= 1);
    }
  }

  /** Safe at every point of a run. */
  ghost predicate AlwaysSafe(conf: Limits, w: World, es: seq<Event>, i: nat)
    requires AllEnabled(conf, w, es)
    decreases |es|
  {
    Safe(conf, w, i) && (es == [] || AlwaysSafe(conf, Step(conf, w, es[0]), es[1..], i))
  }

  lemma {:induction false} SafeUnlessClaimedInFlight(conf: Limits, w: World, es: seq<Event>, i: nat)
    requires Inv(conf, w) && AllEnabled(conf, w, es) && InFlight(w, i) + Announcements(w, i) <= 1
    ensures AlwaysSafe(conf, w, es, i) <==> NeverClaimedInFlight(conf, w, es, i)
    decreases |es|
  {
    SafeIff(conf, w, i);
    if es != [] {
      var w' := Step(conf, w, es[0]);
      StepAtMostOne(conf, w, es[0], i);
      StepKeepsInv(conf, w, es[0]);
      SafeIff(conf, w', i);
      if !(Claims(es[0], i) && InFlight(w, i) > 0) {
        SafeUnlessClaimedInFlight(conf, w', es[1..], i);
      }
    }
  }

  /** Announced at most once: at every point of a run it is certain that a batch is announced at most once, however its
      runs end, if and only if it is never claimed while a run on it is in flight. */
  lemma AnnouncedOnceIff(conf: Limits, es: seq<Event>, i: nat)
    requires AllEnabled(conf, EMPTY, es)
    ensures AlwaysSafe(conf, EMPTY, es, i) <==> NeverClaimedInFlight(conf, EMPTY, es, i)
    ensures NeverClaimedInFlight(conf, EMPTY, es, i) ==> Announcements(Run(conf, EMPTY, es), i) <= 1
  {
    SafeUnlessClaimedInFlight(conf, EMPTY, es, i);
    if NeverClaimedInFlight(conf, EMPTY, es, i) {
      AtMostOne(conf, EMPTY, es, i);
    }
  }

  // ---------- Done and never announced ----------

  lemma {:induction false} DoneAndIdle(conf: Limits, w: World, es: seq<Event>, i: nat)
    requires Inv(conf, w) && AllEnabled(conf, w, es) && InFlight(w, i) == 0
    requires i < |w.store.batches| && w.store.batches[i].status.Done?
    ensures Announcements(Run(conf, w, es), i) == Announcements(w, i)
    decreases |es|
  {
    if es != [] {
      IdleStep(conf, w, es[0], i);
      StepKeepsInv(conf, w, es[0]);
      DoneAndIdle(conf, Step(conf, w, es[0]), es[1..], i);
    }
  }

  lemma IdleStep(conf: Limits, w: World, e: Event, i: nat)
    requires Inv(conf, w) && Enabled(w, e) && InFlight(w, i) == 0
    requires i < |w.store.batches| && w.store.batches[i].status.Done?
    ensures var w' := Step(conf, w, e);
            && i < |w'.store.batches| && w'.store.batches[i].status.Done?
            && InFlight(w', i) == 0 && Announcements(w', i) == Announcements(w, i)
  {
    DoneNotClaimed(w, e, i);
    StepCounts(conf, w, e, i);
    DoneStays(conf, w, e, i);
  }

  lemma DoneNotClaimed(w: World, e: Event, i: nat)
    requires Enabled(w, e) && i < |w.store.batches| && w.store.batches[i].status.Done?
    ensures !Claims(e, i)
  {
  }

  lemma DoneStays(conf: Limits, w: World, e: Event, i: nat)
    requires Inv(conf, w) && Enabled(w, e) && i < |w.store.batches| && w.store.batches[i].status.Done?
    ensures var s := Step(conf, w, e).store; i < |s.batches| && s.batches[i].status.Done?
  {
    StepKeepsInv(conf, w, e);
    assert Moves(w.store, Step(conf, w, e).store, i);
  }

  /** A run that marks its batch done: if it was the only one in flight, the batch is announced, now or ever, if and only
      if this run publishes. If it does not publish, the batch is never announced if and only if it was the only one. */
  lemma Stranded(conf: Limits, w: World, k: nat, a: Answers)
    requires Inv(conf, w) && Enabled(w, Finished(k, a)) && a.dag && a.moved
    requires Announcements(w, w.flights[k].batch) == 0
    ensures var i, w1 := w.flights[k].batch, Finish(w, k, a);
            && (InFlight(w, i) == 1 ==>
                  forall es | AllEnabled(conf, w1, es) :: Announcements(Run(conf, w1, es), i) == if a.published then 1 else 0)
            && (!a.published ==>
                  ((forall es | AllEnabled(conf, w1, es) :: Announcements(Run(conf, w1, es), i) == 0) <==> InFlight(w, i) == 1))
  {
    var i, w1 := w.flights[k].batch, Finish(w, k, a);
    StepCounts(conf, w, Finished(k, a), i);
    StepKeepsInv(conf, w, Finished(k, a));
    if InFlight(w, i) == 1 {
      forall es | AllEnabled(conf, w1, es)
        ensures Announcements(Run(conf, w1, es), i) == Announcements(w1, i)
      {
        DoneAndIdle(conf, w1, es, i);
      }
    } else {
      var es := AllMayPublish(conf, w1, i);
      assert Announcements(Run(conf, w1, es), i) > 0;
    }
  }

  // ---------- A batch packed twice ----------

  const SMALL := Limits(100, 10, 1, 1)
  const WORKS := Answers(true, true, true, 0)
  const MESSAGE := NewBatch(0, 20, [2], 3)

  function Claimable(status: Status): Store {
    Store([Batch(3, status, 20, 0)], [Row(1, 2, 0, 20, 3)])
  }

  lemma OneBatched()
    ensures Step(SMALL, EMPTY, Batched(1, [Data(2, Some(20), 3)], 0)) == World(Claimable(Ready), [], [])
  {
    var d := Data(2, Some(20), 3);
    var added := AddStorageRequest(SMALL, NO_BATCHES, 1, 2, 20, 3, 0).value;
    assert added.batches == Claimable(Ready).batches && added.rows == Claimable(Ready).rows;
    assert [d][1..] == [];
    assert ReadyToBatch(SMALL, Claimable(Ready), 1, [], 0) == Some(Claimable(Ready));
  }

  lemma OneAnnouncement(status: Status)
    ensures Announcement(Claimable(status), 0) == MESSAGE
  {
    var rows := Claimable(status).rows;
    assert rows[..0] == [] && InBatch([], 0) == [];
    assert InBatch(rows, 0) == rows;
    assert Requests(rows) == [2];
  }

  const FRESH: nat -> bool := (_: nat) => false
  const STUCK: nat -> bool := (_: nat) => true
  const TWICE := [Batched(1, [Data(2, Some(20), 3)], 0), Claimed(Some(0), FRESH), Claimed(Some(0), STUCK),
                  Finished(0, WORKS), Finished(0, WORKS)]

  lemma ClaimedTwice()
    ensures var w := World(Claimable(Ready), [], []); var w' := World(Claimable(Executing), [MESSAGE], []);
            && Enabled(w, TWICE[1]) && Step(SMALL, w, TWICE[1]) == w'
            && Enabled(w', TWICE[2]) && Step(SMALL, w', TWICE[2]) == World(Claimable(Executing), [MESSAGE, MESSAGE], [])
  {
    OneAnnouncement(Executing);
    assert SetStatus(Claimable(Ready), 0, Executing, 0) == Claimable(Executing);
    assert SetStatus(Claimable(Executing), 0, Executing, 0) == Claimable(Executing);
  }

  lemma FinishedTwice()
    ensures var w := World(Claimable(Executing), [MESSAGE, MESSAGE], []); var w' := World(Claimable(Done), [MESSAGE], [MESSAGE]);
            && Enabled(w, TWICE[3]) && Step(SMALL, w, TWICE[3]) == w'
            && Enabled(w', TWICE[4]) && Step(SMALL, w', TWICE[4]) == World(Claimable(Done), [], [MESSAGE, MESSAGE])
  {
    assert SetStatus(Claimable(Executing), 0, Done, 0) == Claimable(Done);
    assert SetStatus(Claimable(Done), 0, Done, 0) == Claimable(Done);
    assert Without([MESSAGE, MESSAGE], 0) == [MESSAGE] && Without([MESSAGE], 0) == [];
  }

  /** The run of a batch takes long, the batch is claimed again, and both runs publish. */
  lemma PackedTwice()
    ensures AllEnabled(SMALL, EMPTY, TWICE) && Run(SMALL, EMPTY, TWICE).announced == [MESSAGE, MESSAGE]
  {
    OneBatched();
    ClaimedTwice();
    FinishedTwice();
    var w1, w2 := World(Claimable(Ready), [], []), World(Claimable(Executing), [MESSAGE], []);
    var w3, w4 := World(Claimable(Executing), [MESSAGE, MESSAGE], []), World(Claimable(Done), [MESSAGE], [MESSAGE]);
    Last(w4, TWICE[4], World(Claimable(Done), [], [MESSAGE, MESSAGE]));
    Chain(w3, TWICE[3], w4, [TWICE[4]]);
    Chain(w2, TWICE[2], w3, [TWICE[3]] + [TWICE[4]]);
    Chain(w1, TWICE[1], w2, [TWICE[2]] + ([TWICE[3]] + [TWICE[4]]));
    Chain(EMPTY, TWICE[0], w1, [TWICE[1]] + ([TWICE[2]] + ([TWICE[3]] + [TWICE[4]])));
    assert TWICE == [TWICE[0]] + ([TWICE[1]] + ([TWICE[2]] + ([TWICE[3]] + [TWICE[4]])));
  }

  lemma Last(w: World, e: Event, w': World)
    requires Enabled(w, e) && Step(SMALL, w, e) == w'
    ensures AllEnabled(SMALL, w, [e]) && Run(SMALL, w, [e]) == w'
  {
    assert [e][1..] == [];
  }

  lemma Chain(w: World, e: Event, w': World, es: seq<Event>)
    requires Enabled(w, e) && Step(SMALL, w, e) == w' && AllEnabled(SMALL, w', es)
    ensures AllEnabled(SMALL, w, [e] + es) && Run(SMALL, w, [e] + es) == Run(SMALL, w', es)
  {
    assert ([e] + es)[1..] == es;
  }
}
