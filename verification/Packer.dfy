/** The packer's store and its two jobs, as they run. */
module Packer {
  import opened Prelude
  import opened TxWrapper
  import opened M = PackerModel
  import R = PackerRuns

  class Packer {
    const conf: Limits
    const conn: Conn<Store>
    ghost var flights: seq<NewBatch>
    var announced: seq<NewBatch>

    constructor (sectorSize: nat, min: nat, minWaiting: nat, scaling: nat)
      ensures conf == Limits(CalcBatchLimit(sectorSize), min, minWaiting, scaling)
      ensures fresh(conn) && View() == R.EMPTY
    {
      conf := Limits(CalcBatchLimit(sectorSize), min, minWaiting, scaling);
      conn := new Conn(NO_BATCHES);
      flights, announced := [], [];
    }

    ghost function View(): R.World
      reads this, conn
    {
      R.World(conn.committed, flights, announced)
    }

    method FindOpenBatchWithSpace(s: Store, size: nat, origin: Origin) returns (i: nat)
      ensures i == FirstFit(conf, s.batches, size, origin)
    {
      i := 0;
      while i < |s.batches| && !HasSpace(conf, s.batches[i], size, origin)
        invariant i <= |s.batches|
        invariant forall k | 0 <= k < i :: !HasSpace(conf, s.batches[k], size, origin)
      {
        i := i + 1;
      }
    }

    /** In the caller's transaction. `written` is false when a query fails. */
    method AddStorageRequestToOpenBatch(txn: Txn<Store>, op: Operation, r: RequestId, size: nat, origin: Origin, now: nat, written: bool)
        returns (ok: bool)
      modifies txn
      ensures ok <==> written && AddStorageRequest(conf, old(txn.working), op, r, size, origin, now).Some?
      ensures ok ==> txn.working == AddStorageRequest(conf, old(txn.working), op, r, size, origin, now).value
    {
      if size == 0 || !written {
        return false;
      }
      var i := FindOpenBatchWithSpace(txn.working, size, origin);
      if i == |txn.working.batches| {
        txn.working := txn.working.(batches := txn.working.batches + [Batch(origin, Open, 0, 0)]);
      }
      var total := txn.working.batches[i].size + size;
      if HasKey(txn.working.rows, op, r) {
        return false;
      }
      txn.working := txn.working.(rows := txn.working.rows + [Row(op, r, i, size, origin)]);
      txn.working := txn.working.(batches := txn.working.batches[i := txn.working.batches[i].(size := total)]);
      if total >= conf.min {
        txn.working := txn.working.(batches := txn.working.batches[i := txn.working.batches[i].(status := Ready, readyAt := now)]);
      }
      ok := true;
    }

    method AddAll(txn: Txn<Store>, op: Operation, ds: seq<Data>, now: nat, written: nat -> bool) returns (ok: bool)
      modifies txn
      ensures ok ==> M.ReadyToBatch(conf, old(txn.working), op, ds, now) == Some(txn.working)
      ensures !ok && (forall k :: written(k)) ==> M.ReadyToBatch(conf, old(txn.working), op, ds, now).None?
    {
      for i := 0 to |ds|
        invariant M.ReadyToBatch(conf, txn.working, op, ds[i..], now) == M.ReadyToBatch(conf, old(txn.working), op, ds, now)
      {
        assert ds[i..][1..] == ds[i + 1..];
        if ds[i].size.None? {
          return false;
        }
        ghost var before := txn.working;
        var added := AddStorageRequestToOpenBatch(txn, op, ds[i].request, ds[i].size.value, ds[i].origin, now, written(i));
        if !added {
          return false;
        }
      }
      ok := true;
    }

    /** All requests of the operation, or none: an error rolls everything back. */
    method ReadyToBatch(op: Operation, ds: seq<Data>, now: nat, begins: bool, written: nat -> bool, commits: bool) returns (ok: bool)
      modifies conn
      ensures ok ==> M.ReadyToBatch(conf, old(conn.committed), op, ds, now) == Some(conn.committed)
      ensures !ok ==> conn.committed == old(conn.committed)
      ensures begins && commits && (forall k :: written(k)) ==> (ok <==> Addable(old(conn.committed).rows, op, ds))
    {
      AllOrNothing(conf, conn.committed, op, ds, now);
      var ctx, begun := CtxWithTx(None, conn, !begins);
      if !begun {
        return false;
      }
      var added := AddAll(ctx.value, op, ds, now, written);
      var err := FinishTxForCtx(ctx, conn, if added then None else Some("not added"), !commits, "no transaction", "not committed");
      ok := err.None?;
    }

    // ---------- Packing ----------

    method TimeBasedBatchClose(ages: nat -> nat, now: nat)
      modifies conn
      ensures conn.committed == old(conn.committed).(batches := TimeBasedClose(conf, old(conn.committed).batches, ages, now))
    {
      var bs := conn.committed.batches;
      for i := 0 to |bs|
        invariant |bs| == |old(conn.committed).batches|
        invariant forall k | 0 <= k < i :: bs[k] == ClosedByTime(conf, old(conn.committed).batches[k], ages(k), now)
        invariant forall k | i <= k < |bs| :: bs[k] == old(conn.committed).batches[k]
      {
        if bs[i].status.Open? && WaitedEnough(conf, bs[i].size, ages(i)) {
          bs := bs[i := bs[i].(status := Ready, readyAt := now)];
        }
      }
      assert bs == TimeBasedClose(conf, old(conn.committed).batches, ages, now);
      conn.committed := conn.committed.(batches := bs);
    }

    method FindNextReady(bs: seq<Batch>, stuck: nat -> bool) returns (pick: Option<nat>)
      ensures NextReady(bs, stuck, pick)
    {
      pick := None;
      for i := 0 to |bs|
        invariant pick.None? ==> forall k | 0 <= k < i :: !MayPack(bs[k], stuck(k))
        invariant pick.Some? ==> pick.value < i && MayPack(bs[pick.value], stuck(pick.value))
        invariant pick.Some? ==> forall k | 0 <= k < i && MayPack(bs[k], stuck(k)) :: bs[pick.value].readyAt <= bs[k].readyAt
      {
        if MayPack(bs[i], stuck(i)) && (pick.None? || bs[i].readyAt < bs[pick.value].readyAt) {
          pick := Some(i);
        }
      }
    }

    method GetStorageRequestsFromBatch(s: Store, i: nat) returns (srs: seq<Row>)
      ensures srs == InBatch(s.rows, i)
    {
      srs := [];
      for k := 0 to |s.rows|
        invariant srs == InBatch(s.rows[..k], i)
      {
        assert s.rows[..k + 1][..k] == s.rows[..k];
        if s.rows[k].batch == i {
          srs := srs + [s.rows[k]];
        }
      }
      assert s.rows[..|s.rows|] == s.rows;
    }

    /** Claims the next ready batch and reads what there is to announce about it. */
    method GetNextReadyBatch(stuck: nat -> bool) returns (next: Option<NewBatch>, ghost pick: Option<nat>)
      modifies this, conn
      ensures var e := R.Claimed(pick, stuck);
              R.Enabled(old(View()), e) && View() == R.Step(conf, old(View()), e)
      ensures next.Some? <==> pick.Some?
      ensures next.Some? ==> flights == old(flights) + [next.value] && next.value.batch < |conn.committed.batches|
      ensures next.Some? && StoreOk(conf, conn.committed) ==> R.Faithful(conn.committed, next.value)
      ensures next.None? ==> View() == old(View())
    {
      var found := FindNextReady(conn.committed.batches, stuck);
      pick := found;
      if found.None? {
        return None, pick;
      }
      var i := found.value;
      var s := conn.committed;
      s := s.(batches := s.batches[i := s.batches[i].(status := Executing)]);
      conn.committed := s;
      var srs := GetStorageRequestsFromBatch(s, i);
      var ids := seq(|srs|, k requires 0 <= k < |srs| => srs[k].request);
      var m := NewBatch(i, s.batches[i].size, ids, s.batches[i].origin);
      assert ids == Requests(srs);
      flights := flights + [m];
      next := Some(m);
      if StoreOk(conf, conn.committed) {
        R.AnnouncementFaithful(conf, conn.committed, i);
      }
    }

    /** The rest of a run: builds the DAG, marks the batch done, and announces it. */
    method Complete(m: NewBatch, a: R.Answers, ghost k: nat)
      requires k < |flights| && flights[k] == m && m.batch < |conn.committed.batches|
      modifies this, conn
      ensures View() == R.Step(conf, old(View()), R.Finished(k, a))
    {
      flights := Without(flights, k);
      if !a.dag || !a.moved {
        return;
      }
      var s := conn.committed;
      conn.committed := s.(batches := s.batches[m.batch := s.batches[m.batch].(status := Done, readyAt := a.doneAt)]);
      if a.published {
        announced := announced + [m];
      }
    }

    /** One run, if no other comes in between: its steps are those of the model, in this order. Between them the model
        lets any other run take steps. */
    method Pack(closes: bool, ages: nat -> nat, now: nat, stuck: nat -> bool, a: R.Answers) returns (ghost es: seq<R.Event>)
      modifies this, conn
      ensures R.AllEnabled(conf, old(View()), es) && View() == R.Run(conf, old(View()), es)
      ensures |flights| == |old(flights)|
    {
      es := [];
      ghost var w := View();
      if closes {
        TimeBasedBatchClose(ages, now);
        RunOn(conf, w, es, R.ClosedOld(ages, now));
        es := es + [R.ClosedOld(ages, now)];
      }
      var next;
      ghost var pick;
      next, pick := GetNextReadyBatch(stuck);
      RunOn(conf, w, es, R.Claimed(pick, stuck));
      es := es + [R.Claimed(pick, stuck)];
      if next.None? {
        return;
      }
      ghost var k := |flights| - 1;
      Complete(next.value, a, k);
      RunOn(conf, w, es, R.Finished(k, a));
      es := es + [R.Finished(k, a)];
    }
  }

  lemma {:induction false} RunOn(conf: Limits, w: R.World, es: seq<R.Event>, e: R.Event)
    requires R.AllEnabled(conf, w, es) && R.Enabled(R.Run(conf, w, es), e)
    ensures R.AllEnabled(conf, w, es + [e]) && R.Run(conf, w, es + [e]) == R.Step(conf, R.Run(conf, w, es), e)
    decreases |es|
  {
    if es == [] {
      assert es + [e] == [e] && [e][1..] == [];
    } else {
      RunOn(conf, R.Step(conf, w, es[0]), es[1..], e);
      assert (es + [e])[1..] == es[1..] + [e];
    }
  }
}
