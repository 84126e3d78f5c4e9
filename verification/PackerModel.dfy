/** The packer: storage requests are put in batches, by origin and size, until a batch is large or old enough. */
module PackerModel {
  import opened Prelude

  type Operation = nat
  type RequestId = nat
  type Origin = nat

  datatype Status = Open | Ready | Executing | Done

  datatype Batch = Batch(origin: Origin, status: Status, size: nat, readyAt: nat)

  /** A row of the request table, whose key is the operation and the request. */
  datatype Row = Row(op: Operation, request: RequestId, batch: nat, size: nat, origin: Origin)

  /** Batches in the order of their creation, which also names them, and the requests in theirs. */
  datatype Store = Store(batches: seq<Batch>, rows: seq<Row>)

  datatype Limits = Limits(max: nat, min: nat, minWaiting: nat, scaling: nat)

  const NO_BATCHES := Store([], [])

  // ---------- The largest batch ----------

  /** The sector size by 127/128 and 1/1.04, rounded down. */
  function CalcBatchLimit(sectorSize: nat): nat {
    sectorSize * 127 * 100 / (128 * 104)
  }

  /** With 4% for the CAR and 128/127 for the padding, the batch fits in the sector. */
  predicate FitsSector(size: nat, sectorSize: nat) {
    size * 104 * 128 <= sectorSize * 100 * 127
  }

  /** The limit is exact: the sizes up to it are the ones that fit. */
  lemma LimitIsExact(sectorSize: nat, size: nat)
    ensures size <= CalcBatchLimit(sectorSize) <==> FitsSector(size, sectorSize)
  {
    var n := sectorSize * 12700;
    var q := n / 13312;
    assert n == 13312 * q + n % 13312;
    if size <= q {
      assert size * 13312 <= q * 13312;
    } else {
      assert size * 13312 >= (q + 1) * 13312;
    }
  }

  // ---------- Adding a request ----------

  predicate HasSpace(conf: Limits, b: Batch, size: nat, origin: Origin) {
    b.status.Open? && b.size <= conf.max - size && b.origin == origin
  }

  /** The oldest open batch of the origin with space, or the number of batches. */
  function FirstFit(conf: Limits, bs: seq<Batch>, size: nat, origin: Origin): (i: nat)
    ensures i <= |bs| && (i < |bs| ==> HasSpace(conf, bs[i], size, origin))
    ensures forall k | 0 <= k < i :: !HasSpace(conf, bs[k], size, origin)
  {
    if bs == [] || HasSpace(conf, bs[0], size, origin) then 0 else 1 + FirstFit(conf, bs[1..], size, origin)
  }

  predicate HasKey(rows: seq<Row>, op: Operation, r: RequestId) {
    exists k | 0 <= k < |rows| :: rows[k].op == op && rows[k].request == r
  }

  function Grown(conf: Limits, b: Batch, size: nat, now: nat): Batch {
    if b.size + size >= conf.min then b.(size := b.size + size, status := Ready, readyAt := now)
    else b.(size := b.size + size)
  }

  function Opened(conf: Limits, s: Store, size: nat, origin: Origin): seq<Batch> {
    if FirstFit(conf, s.batches, size, origin) < |s.batches| then s.batches else s.batches + [Batch(origin, Open, 0, 0)]
  }

  /** Fails on an empty request and on one that the same operation already added. */
  function AddStorageRequest(conf: Limits, s: Store, op: Operation, r: RequestId, size: nat, origin: Origin, now: nat): Option<Store> {
    if size == 0 || HasKey(s.rows, op, r) then None
    else
      var i := FirstFit(conf, s.batches, size, origin);
      var bs := Opened(conf, s, size, origin);
      Some(Store(bs[i := Grown(conf, bs[i], size, now)], s.rows + [Row(op, r, i, size, origin)]))
  }

  /** The request fits in the batch: it is open, of the same origin, and does not get above the limit. */
  predicate Fits(conf: Limits, b: Batch, size: nat, origin: Origin) {
    b.status.Open? && b.origin == origin && b.size + size <= conf.max
  }

  /** A batch with one more request: ready from now on if it has the minimum size, and open as before otherwise. */
  predicate GrewBy(conf: Limits, b: Batch, b': Batch, size: nat, now: nat) {
    && b'.origin == b.origin && b'.size == b.size + size
    && (if b.size + size < conf.min then b'.status == b.status && b'.readyAt == b.readyAt
        else b'.status.Ready? && b'.readyAt == now)
  }

  /** A request is added if and only if it is not empty and its operation has not added it yet: to the oldest batch it fits
      in, or to a new batch of its origin if it fits in none. One row is added, and nothing else changes. */
  lemma RequestWasAdded(conf: Limits, s: Store, op: Operation, r: RequestId, size: nat, origin: Origin, now: nat)
    ensures var t := AddStorageRequest(conf, s, op, r, size, origin, now);
            && (t.Some? <==> size > 0 && forall k | 0 <= k < |s.rows| :: !(s.rows[k].op == op && s.rows[k].request == r))
            && (t.Some? ==>
                  && |t.value.rows| == |s.rows| + 1 && t.value.rows[..|s.rows|] == s.rows
                  && var row := t.value.rows[|s.rows|];
                     && row.op == op && row.request == r && row.size == size && row.origin == origin
                     && (forall k | 0 <= k < |s.batches| && k < row.batch :: !Fits(conf, s.batches[k], size, origin))
                     && (if row.batch < |s.batches| then
                           && Fits(conf, s.batches[row.batch], size, origin) && |t.value.batches| == |s.batches|
                           && t.value.batches == s.batches[row.batch := t.value.batches[row.batch]]
                           && GrewBy(conf, s.batches[row.batch], t.value.batches[row.batch], size, now)
                         else
                           && row.batch == |s.batches| && |t.value.batches| == |s.batches| + 1
                           && t.value.batches[..|s.batches|] == s.batches
                           && GrewBy(conf, Batch(origin, Open, 0, 0), t.value.batches[row.batch], size, now)))
  {
    var i := FirstFit(conf, s.batches, size, origin);
    assert forall k | 0 <= k < |s.batches| :: HasSpace(conf, s.batches[k], size, origin) <==> Fits(conf, s.batches[k], size, origin);
  }

  /** A request to batch; its size comes from the DAG, if that can be read. */
  datatype Data = Data(request: RequestId, size: Option<nat>, origin: Origin)

  /** All requests of the operation, or none. */
  function ReadyToBatch(conf: Limits, s: Store, op: Operation, ds: seq<Data>, now: nat): Option<Store>
    decreases |ds|
  {
    if ds == [] then Some(s) else
    if ds[0].size.None? then None else
    var s1 := AddStorageRequest(conf, s, op, ds[0].request, ds[0].size.value, ds[0].origin, now);
    if s1.None? then None else ReadyToBatch(conf, s1.value, op, ds[1..], now)
  }

  // ---------- Closing by time ----------

  const MIB := 1048576

  /** What a batch has to wait for: the smaller, the longer. */
  predicate WaitedEnough(conf: Limits, size: nat, age: nat) {
    && size >= 65
    && (|| (size > 1024 * MIB && age > conf.minWaiting)
        || (100 * MIB <= size <= 1024 * MIB && age > conf.minWaiting * conf.scaling)
        || (MIB <= size <= 100 * MIB && age > conf.minWaiting * (conf.scaling * conf.scaling)))
  }

  /** When a batch is closed by time: above 1 GiB after the minimum waiting time, from 100 MiB on after that times the scaling
      factor, from 1 MiB on after that times the factor twice, and never below. */
  lemma ClosesWhen(conf: Limits, size: nat, age: nat)
    ensures WaitedEnough(conf, size, age) <==>
            if size > 1024 * MIB then age > conf.minWaiting
            else if size >= 100 * MIB then age > conf.minWaiting * conf.scaling
            else size >= MIB && age > conf.minWaiting * (conf.scaling * conf.scaling)
  {
    var w, f := conf.minWaiting, conf.scaling;
    assert f * f >= f;
    assert w * (f * f) >= w * f;
  }

  /** A batch is closed by time some day if and only if it has a MiB: the lower bound of 65 bytes decides
      nothing. */
  lemma ClosesSomeDay(conf: Limits, size: nat)
    ensures (exists age: nat :: WaitedEnough(conf, size, age)) <==> size >= MIB
  {
    if size >= MIB {
      var w, f := conf.minWaiting, conf.scaling;
      assert WaitedEnough(conf, size, w + w * f + w * (f * f) + 1);
    }
  }

  /** Growing never makes a batch wait longer. */
  lemma LargerClosesNoLater(conf: Limits, size: nat, larger: nat, age: nat)
    requires size <= larger && conf.scaling >= 1 && WaitedEnough(conf, size, age)
    ensures WaitedEnough(conf, larger, age)
  {
    var w, f := conf.minWaiting, conf.scaling;
    assert w * f >= w;
    assert f * f >= f;
    assert w * (f * f) >= w * f;
  }

  function ClosedByTime(conf: Limits, b: Batch, age: nat, now: nat): Batch {
    if b.status.Open? && WaitedEnough(conf, b.size, age) then b.(status := Ready, readyAt := now) else b
  }

  function TimeBasedClose(conf: Limits, bs: seq<Batch>, ages: nat -> nat, now: nat): seq<Batch> {
    seq(|bs|, i requires 0 <= i < |bs| => ClosedByTime(conf, bs[i], ages(i), now))
  }

  /** Closing by time makes exactly the open batches ready that have waited enough, from now on, and leaves the others. */
  lemma ClosedOnes(conf: Limits, bs: seq<Batch>, ages: nat -> nat, now: nat, i: nat)
    requires i < |bs|
    ensures var bs' := TimeBasedClose(conf, bs, ages, now);
            && |bs'| == |bs|
            && (bs'[i] != bs[i] <==> bs[i].status.Open? && WaitedEnough(conf, bs[i].size, ages(i)))
            && (bs'[i] != bs[i] ==> bs'[i] == Batch(bs[i].origin, Ready, bs[i].size, now))
  {
    assert TimeBasedClose(conf, bs, ages, now)[i] == ClosedByTime(conf, bs[i], ages(i), now);
  }

  // ---------- Packing ----------

  /** The message to the broker. */
  datatype NewBatch = NewBatch(batch: nat, size: nat, requests: seq<RequestId>, origin: Origin)

  function InBatch(rows: seq<Row>, i: nat): (r: seq<Row>)
    ensures |r| == SumOf(rows, CountIn(i))
    ensures forall x :: x in r <==> x in rows && x.batch == i
  {
    if rows == [] then [] else
    var init, last := rows[..|rows| - 1], rows[|rows| - 1];
    assert rows == init + [last];
    InBatch(init, i) + if last.batch == i then [last] else []
  }

  function Requests(rows: seq<Row>): seq<RequestId> {
    seq(|rows|, k requires 0 <= k < |rows| => rows[k].request)
  }

  predicate MayPack(b: Batch, stuck: bool) {
    b.status.Ready? || (b.status.Executing? && stuck)
  }

  /** The batch that has been ready longest. */
  ghost predicate NextReady(bs: seq<Batch>, stuck: nat -> bool, pick: Option<nat>) {
    match pick
    case None => forall i | 0 <= i < |bs| :: !MayPack(bs[i], stuck(i))
    case Some(i) => i < |bs| && MayPack(bs[i], stuck(i))
                    && forall k | 0 <= k < |bs| && MayPack(bs[k], stuck(k)) :: bs[i].readyAt <= bs[k].readyAt
  }

  function SetStatus(s: Store, i: nat, st: Status, readyAt: nat): Store
    requires i < |s.batches|
  {
    s.(batches := s.batches[i := s.batches[i].(status := st, readyAt := readyAt)])
  }

  function Announcement(s: Store, i: nat): NewBatch
    requires i < |s.batches|
  {
    NewBatch(i, s.batches[i].size, Requests(InBatch(s.rows, i)), s.batches[i].origin)
  }

  // ---------- Invariant ----------

  function SizeIn(i: nat): Row -> nat {
    (r: Row) => if r.batch == i then r.size else 0
  }

  function CountIn(i: nat): Row -> nat {
    (r: Row) => if r.batch == i then 1 else 0
  }

  /** The recorded size is the sum of the requests; an open batch is small; one above the limit has one request. */
  ghost predicate BatchOk(conf: Limits, s: Store, i: nat)
    requires i < |s.batches|
  {
    var b := s.batches[i];
    && b.size == SumOf(s.rows, SizeIn(i))
    && SumOf(s.rows, CountIn(i)) >= 1
    && (b.status.Open? ==> b.size < conf.min)
    && (b.size > conf.max ==> SumOf(s.rows, CountIn(i)) == 1)
  }

  ghost predicate RowsOk(s: Store) {
    && (forall k | 0 <= k < |s.rows| :: s.rows[k].batch < |s.batches| && s.rows[k].origin == s.batches[s.rows[k].batch].origin)
    && (forall j, k | 0 <= j < k < |s.rows| :: s.rows[j].op != s.rows[k].op || s.rows[j].request != s.rows[k].request)
  }

  ghost predicate StoreOk(conf: Limits, s: Store) {
    RowsOk(s) && forall i | 0 <= i < |s.batches| :: BatchOk(conf, s, i)
  }

  function Rank(s: Status): nat {
    match s
    case Open => 0
    case Ready => 1
    case Executing => 2
    case Done => 3
  }

  /** Batches stay, keep their origin and never go back in status; the size and the requests of a batch that is not
      open any more are fixed. */
  ghost predicate Extends(s: Store, s': Store) {
    && |s.batches| <= |s'.batches|
    && forall i | 0 <= i < |s.batches| :: Moves(s, s', i)
  }

  ghost predicate Moves(s: Store, s': Store, i: nat)
    requires i < |s.batches| && i < |s'.batches|
  {
    && s'.batches[i].origin == s.batches[i].origin
    && Rank(s'.batches[i].status) >= Rank(s.batches[i].status)
    && (!s.batches[i].status.Open? ==> s'.batches[i].size == s.batches[i].size && InBatch(s'.rows, i) == InBatch(s.rows, i))
  }

  lemma ExtendsTransitive(s: Store, s1: Store, s2: Store)
    requires Extends(s, s1) && Extends(s1, s2)
    ensures Extends(s, s2)
  {
    forall i | 0 <= i < |s.batches| ensures Moves(s, s2, i) {
      assert Moves(s, s1, i) && Moves(s1, s2, i);
    }
  }

  // ---------- Adding keeps it ----------

  lemma RowAdded(rows: seq<Row>, row: Row, k: nat)
    ensures SumOf(rows + [row], SizeIn(k)) == SumOf(rows, SizeIn(k)) + if row.batch == k then row.size else 0
    ensures SumOf(rows + [row], CountIn(k)) == SumOf(rows, CountIn(k)) + if row.batch == k then 1 else 0
    ensures row.batch != k ==> InBatch(rows + [row], k) == InBatch(rows, k)
  {
    SumAppend(rows, row, SizeIn(k));
    SumAppend(rows, row, CountIn(k));
    assert (rows + [row])[..|rows|] == rows;
  }

  lemma NoRowsYet(s: Store)
    requires RowsOk(s)
    ensures SumOf(s.rows, SizeIn(|s.batches|)) == 0 && SumOf(s.rows, CountIn(|s.batches|)) == 0
  {
    SumZero(s.rows, SizeIn(|s.batches|));
    SumZero(s.rows, CountIn(|s.batches|));
  }

  lemma AddKeepsRows(conf: Limits, s: Store, op: Operation, r: RequestId, size: nat, origin: Origin, now: nat)
    requires RowsOk(s) && AddStorageRequest(conf, s, op, r, size, origin, now).Some?
    ensures RowsOk(AddStorageRequest(conf, s, op, r, size, origin, now).value)
  {
    var s' := AddStorageRequest(conf, s, op, r, size, origin, now).value;
    forall k | 0 <= k < |s'.rows|
      ensures s'.rows[k].batch < |s'.batches| && s'.rows[k].origin == s'.batches[s'.rows[k].batch].origin
    {
      if k < |s.rows| { assert s'.rows[k] == s.rows[k]; }
    }
  }

  /** What adding a request does to each batch: one grows, or a new one is made; the others stay. */
  ghost predicate AddShape(conf: Limits, s: Store, s': Store, i: nat, row: Row) {
    && i <= |s.batches| && |s'.batches| == (if i < |s.batches| then |s.batches| else i + 1)
    && row.batch == i && s'.rows == s.rows + [row]
    && (forall k | 0 <= k < |s.batches| && k != i :: s'.batches[k] == s.batches[k])
    && (i < |s.batches| ==> HasSpace(conf, s.batches[i], row.size, row.origin))
    && var before := if i < |s.batches| then s.batches[i].size else 0;
       && s'.batches[i].size == before + row.size && s'.batches[i].origin == row.origin
       && (s'.batches[i].status == if s'.batches[i].size >= conf.min then Ready else Open)
  }

  lemma AddHasShape(conf: Limits, s: Store, op: Operation, r: RequestId, size: nat, origin: Origin, now: nat)
    requires AddStorageRequest(conf, s, op, r, size, origin, now).Some?
    ensures var i := FirstFit(conf, s.batches, size, origin);
            AddShape(conf, s, AddStorageRequest(conf, s, op, r, size, origin, now).value, i, Row(op, r, i, size, origin))
  {
  }

  lemma AddKeepsBatch(conf: Limits, s: Store, s': Store, i: nat, row: Row, k: nat)
    requires RowsOk(s) && AddShape(conf, s, s', i, row) && k < |s'.batches|
    requires k < |s.batches| ==> BatchOk(conf, s, k)
    ensures BatchOk(conf, s', k) && (k < |s.batches| ==> Moves(s, s', k))
  {
    RowAdded(s.rows, row, k);
    if k >= |s.batches| {
      NoRowsYet(s);
    }
  }

  lemma AddKeeps(conf: Limits, s: Store, op: Operation, r: RequestId, size: nat, origin: Origin, now: nat)
    requires StoreOk(conf, s) && AddStorageRequest(conf, s, op, r, size, origin, now).Some?
    ensures var s' := AddStorageRequest(conf, s, op, r, size, origin, now).value;
            StoreOk(conf, s') && Extends(s, s')
  {
    var s' := AddStorageRequest(conf, s, op, r, size, origin, now).value;
    var i := FirstFit(conf, s.batches, size, origin);
    AddKeepsRows(conf, s, op, r, size, origin, now);
    AddHasShape(conf, s, op, r, size, origin, now);
    forall k | 0 <= k < |s'.batches| ensures BatchOk(conf, s', k) && (k < |s.batches| ==> Moves(s, s', k)) {
      AddKeepsBatch(conf, s, s', i, Row(op, r, i, size, origin), k);
    }
  }

  // ---------- All or nothing, once ----------

  predicate Addable(rows: seq<Row>, op: Operation, ds: seq<Data>) {
    && (forall k | 0 <= k < |ds| :: ds[k].size.Some? && ds[k].size.value > 0 && !HasKey(rows, op, ds[k].request))
    && (forall j, k | 0 <= j < k < |ds| :: ds[j].request != ds[k].request)
  }

  /** The rows are those of the requests, in order. */
  ghost predicate RowsOf(rows: seq<Row>, op: Operation, ds: seq<Data>) {
    && |rows| == |ds|
    && forall k | 0 <= k < |ds| :: rows[k].op == op && rows[k].request == ds[k].request && ds[k].size == Some(rows[k].size)
                                   && rows[k].origin == ds[k].origin
  }

  lemma KeyAfter(rows: seq<Row>, row: Row, op: Operation, r: RequestId)
    ensures HasKey(rows + [row], op, r) <==> HasKey(rows, op, r) || (row.op == op && row.request == r)
  {
    var all := rows + [row];
    if HasKey(rows, op, r) {
      var k :| 0 <= k < |rows| && rows[k].op == op && rows[k].request == r;
      assert all[k] == rows[k];
    }
    assert all[|rows|] == row;
  }

  lemma AddableAfter(rows: seq<Row>, row: Row, op: Operation, ds: seq<Data>)
    requires ds != [] && row.op == op && row.request == ds[0].request
    requires ds[0].size.Some? && ds[0].size.value > 0 && !HasKey(rows, op, ds[0].request)
    ensures Addable(rows, op, ds) <==> Addable(rows + [row], op, ds[1..])
  {
    var rest := ds[1..];
    forall k | 0 <= k < |rest| ensures HasKey(rows + [row], op, rest[k].request) <==> HasKey(rows, op, ds[k + 1].request) || ds[k + 1].request == ds[0].request {
      KeyAfter(rows, row, op, rest[k].request);
    }
    assert forall k | 0 <= k < |rest| :: rest[k] == ds[k + 1];
    assert forall k | 1 <= k < |ds| :: ds[k] == rest[k - 1];
  }

  /** An operation is added if and only if each of its requests can be read, is not empty and is new; then one row
      is added for each of them. */
  lemma {:induction false} AllOrNothing(conf: Limits, s: Store, op: Operation, ds: seq<Data>, now: nat)
    ensures ReadyToBatch(conf, s, op, ds, now).Some? <==> Addable(s.rows, op, ds)
    ensures Addable(s.rows, op, ds) ==>
              var rows := ReadyToBatch(conf, s, op, ds, now).value.rows;
              s.rows <= rows && RowsOf(rows[|s.rows|..], op, ds)
    decreases |ds|
  {
    if ds != [] && ds[0].size.Some? && ds[0].size.value > 0 && !HasKey(s.rows, op, ds[0].request) {
      var d := ds[0];
      var s1 := AddStorageRequest(conf, s, op, d.request, d.size.value, d.origin, now).value;
      var row := s1.rows[|s.rows|];
      AddableAfter(s.rows, row, op, ds);
      AllOrNothing(conf, s1, op, ds[1..], now);
      if Addable(s.rows, op, ds) {
        var rows := ReadyToBatch(conf, s, op, ds, now).value.rows;
        assert rows[|s.rows|..] == [row] + rows[|s1.rows|..];
        forall k | 0 <= k < |ds| ensures k > 0 ==> ds[k] == ds[1..][k - 1] {}
      }
    }
  }

  /** Under another operation id the same requests are added again: the key is the operation and the request. */
  lemma AddedTwice(conf: Limits, s: Store, op: Operation, op': Operation, ds: seq<Data>, now: nat)
    requires op != op' && Addable(s.rows, op, ds) && Addable(s.rows, op', ds)
    ensures var s1 := ReadyToBatch(conf, s, op, ds, now);
            && s1.Some? && var s2 := ReadyToBatch(conf, s1.value, op', ds, now);
               s2.Some? && |s2.value.rows| == |s.rows| + 2 * |ds|
  {
    AllOrNothing(conf, s, op, ds, now);
    var s1 := ReadyToBatch(conf, s, op, ds, now).value;
    forall k | 0 <= k < |ds| ensures !HasKey(s1.rows, op', ds[k].request) {
      OtherKeys(s.rows, s1.rows, op, op', ds, ds[k].request);
    }
    AllOrNothing(conf, s1, op', ds, now);
  }

  lemma OtherKeys(rows: seq<Row>, rows': seq<Row>, op: Operation, op': Operation, ds: seq<Data>, r: RequestId)
    requires op != op' && rows <= rows' && RowsOf(rows'[|rows|..], op, ds) && !HasKey(rows, op', r)
    ensures !HasKey(rows', op', r)
  {
    forall k | 0 <= k < |rows'| ensures rows'[k].op != op' || rows'[k].request != r {
      if k < |rows| {
        assert rows'[k] == rows[k];
      } else {
        assert rows'[k] == rows'[|rows|..][k - |rows|];
      }
    }
  }

  lemma {:induction false} ReadyToBatchKeeps(conf: Limits, s: Store, op: Operation, ds: seq<Data>, now: nat)
    requires StoreOk(conf, s) && ReadyToBatch(conf, s, op, ds, now).Some?
    ensures StoreOk(conf, ReadyToBatch(conf, s, op, ds, now).value) && Extends(s, ReadyToBatch(conf, s, op, ds, now).value)
    decreases |ds|
  {
    if ds != [] {
      var s1 := AddStorageRequest(conf, s, op, ds[0].request, ds[0].size.value, ds[0].origin, now).value;
      AddKeeps(conf, s, op, ds[0].request, ds[0].size.value, ds[0].origin, now);
      ReadyToBatchKeeps(conf, s1, op, ds[1..], now);
      ExtendsTransitive(s, s1, ReadyToBatch(conf, s, op, ds, now).value);
    }
  }

  // ---------- Moving batches on keeps it ----------

  /** Only statuses move, and forward. */
  ghost predicate StatusesMove(s: Store, s': Store) {
    && s'.rows == s.rows && |s'.batches| == |s.batches|
    && forall i | 0 <= i < |s.batches| ::
         && s'.batches[i].origin == s.batches[i].origin && s'.batches[i].size == s.batches[i].size
         && Rank(s'.batches[i].status) >= Rank(s.batches[i].status)
  }

  lemma StatusesMoveKeeps(conf: Limits, s: Store, s': Store)
    requires StoreOk(conf, s) && StatusesMove(s, s')
    ensures StoreOk(conf, s') && Extends(s, s')
  {
    forall i | 0 <= i < |s'.batches| ensures BatchOk(conf, s', i) && Moves(s, s', i) {
      assert BatchOk(conf, s, i);
    }
  }

  lemma ClosingMoves(conf: Limits, s: Store, ages: nat -> nat, now: nat)
    ensures StatusesMove(s, s.(batches := TimeBasedClose(conf, s.batches, ages, now)))
  {
    var bs := TimeBasedClose(conf, s.batches, ages, now);
    assert forall i | 0 <= i < |bs| :: bs[i] == ClosedByTime(conf, s.batches[i], ages(i), now);
  }

  lemma SetStatusMoves(s: Store, i: nat, st: Status, readyAt: nat)
    requires i < |s.batches| && Rank(s.batches[i].status) <= Rank(st)
    ensures StatusesMove(s, SetStatus(s, i, st, readyAt))
  {
  }
}
