/**
 At-least-once delivery. The rows have exactly-once effect; the messages have it as long as no attempt that was
 cut short had already published, because publishing is not part of the transaction.
 */
module BrokerDelivery {
  import opened Prelude
  import opened BrokerModel
  import opened BrokerProtocol
  import opened BrokerShapes

  /** One attempt to handle a message. `cut` marks an attempt cut short by the infrastructure, that is the
      database, the message broker or the commit, after that many of its messages were out. */
  datatype Attempt = Attempt(event: Event, cut: Option<nat>)

  /** What an attempt that commits nothing has published. */
  function Leaked(conf: Config, w: World, a: Attempt): seq<Msg> {
    match Handle(conf, w.db, a.event)
    case Fail(_) => []
    case Commit(_, msgs, _) =>
      if a.cut.None? then [] else if a.cut.value <= |msgs| then msgs[..a.cut.value] else msgs
  }

  function Deliver(conf: Config, w: World, a: Attempt): World {
    if a.cut.None? then Step(conf, w, a.event) else World(w.db, w.published + Leaked(conf, w, a))
  }

  function DeliverAll(conf: Config, w: World, attempts: seq<Attempt>): World
    decreases |attempts|
  {
    if attempts == [] then w else DeliverAll(conf, Deliver(conf, w, attempts[0]), attempts[1..])
  }

  /** What all attempts that were cut short have published. */
  function AllLeaked(conf: Config, w: World, attempts: seq<Attempt>): seq<Msg>
    decreases |attempts|
  {
    if attempts == [] then [] else
    Leaked(conf, w, attempts[0]) + AllLeaked(conf, Deliver(conf, w, attempts[0]), attempts[1..])
  }

  predicate HasOperation(e: Event) {
    e.AuctionClosed? || e.DealFinalized?
  }

  function Operation(e: Event): OperationId
    requires HasOperation(e)
  {
    e.op
  }

  predicate AllHaveOperations(attempts: seq<Attempt>) {
    forall i :: 0 <= i < |attempts| ==> HasOperation(attempts[i].event)
  }

  predicate Commits(conf: Config, w: World, a: Attempt) {
    a.cut.None? && Handle(conf, w.db, a.event).Commit?
  }

  /** Which attempts commit. */
  function AllCommits(conf: Config, w: World, attempts: seq<Attempt>): (r: seq<bool>)
    ensures |r| == |attempts|
    decreases |attempts|
  {
    if attempts == [] then [] else
    [Commits(conf, w, attempts[0])] + AllCommits(conf, Deliver(conf, w, attempts[0]), attempts[1..])
  }

  /** The first committed attempt of each operation id not seen before, picked by looking only at ids and
      commits. */
  function FirstOfEach(attempts: seq<Attempt>, commits: seq<bool>, seen: set<OperationId>): (r: seq<Event>)
    requires |commits| == |attempts| && AllHaveOperations(attempts)
    ensures forall i :: 0 <= i < |r| ==> HasOperation(r[i]) && Operation(r[i]) !in seen
    ensures forall i, j :: 0 <= i < j < |r| ==> Operation(r[i]) != Operation(r[j])
    decreases |attempts|
  {
    if attempts == [] then [] else
    var e := attempts[0].event;
    if commits[0] && Operation(e) !in seen then [e] + FirstOfEach(attempts[1..], commits[1..], seen + {Operation(e)})
    else FirstOfEach(attempts[1..], commits[1..], seen)
  }

  /** A message is committed only if its operation is new, and then its operation is recorded. */
  lemma CommitRecords(conf: Config, w: World, e: Event)
    requires HasOperation(e)
    ensures Operation(e) in w.db.operations ==> Handle(conf, w.db, e) == Fail(OperationExists)
    ensures Handle(conf, w.db, e).Commit? ==>
              && Operation(e) !in w.db.operations
              && Handle(conf, w.db, e).db.operations == w.db.operations + {Operation(e)}
  {
    if Handle(conf, w.db, e).Commit? {
      match e
      case AuctionClosed(op, au, ch) => AuctionClosedBatch(w.db, op, au, ch);
      case DealFinalized(op, fad, ch) => DealFinalizedBatch(w.db, op, fad, ch);
    }
  }

  lemma StepFrom(conf: Config, db: DB, published: seq<Msg>, e: Event)
    ensures var w := Step(conf, World(db, published), e); var w0 := Step(conf, World(db, []), e);
            w.db == w0.db && w.published == published + w0.published
  {
    assert published + [] == published;
  }

  /** The world of a run that starts with other messages published differs by those messages only. */
  lemma {:induction false} RunFrom(conf: Config, db: DB, published: seq<Msg>, es: seq<Event>)
    ensures var w := Run(conf, World(db, published), es); var w0 := Run(conf, World(db, []), es);
            w.db == w0.db && w.published == published + w0.published
    decreases |es|
  {
    if es == [] {
      assert published + [] == published;
    } else {
      var w0 := Step(conf, World(db, []), es[0]);
      StepFrom(conf, db, published, es[0]);
      RunFrom(conf, w0.db, published + w0.published, es[1..]);
      RunFrom(conf, w0.db, w0.published, es[1..]);
      var rest := Run(conf, World(w0.db, []), es[1..]).published;
      assert (published + w0.published) + rest == published + (w0.published + rest);
    }
  }

  /**
   Exactly once: however often messages are delivered, in whatever order, and however many attempts are cut short
   on the way, the tables end up as if only the first committed attempt of each operation id had been made,
   once. All of those succeed in that cleaned-up run too. What is published is what the cleaned-up run publishes
   and what the attempts cut short have published; so the messages are those of the cleaned-up run if and only if
   no attempt that was cut short had published.
   */
  lemma ExactlyOnce(conf: Config, w: World, attempts: seq<Attempt>)
    requires AllHaveOperations(attempts)
    ensures var kept := FirstOfEach(attempts, AllCommits(conf, w, attempts), w.db.operations);
            var end, clean := DeliverAll(conf, w, attempts), Run(conf, w, kept);
            && AllCommit(conf, w, kept)
            && end.db == clean.db
            && end.db.operations == w.db.operations + OperationsOf(kept)
            && multiset(end.published) == multiset(clean.published) + multiset(AllLeaked(conf, w, attempts))
            && (end.published == clean.published <==> AllLeaked(conf, w, attempts) == [])
  {
    var kept := FirstOfEach(attempts, AllCommits(conf, w, attempts), w.db.operations);
    CleanedUp(conf, w, attempts);
    var end, clean, leaked := DeliverAll(conf, w, attempts), Run(conf, w, kept), AllLeaked(conf, w, attempts);
    assert |multiset(end.published)| == |end.published| && |multiset(clean.published)| == |clean.published|
           && |multiset(leaked)| == |leaked|;
  }

  /** The rows and messages of a run, against those of its cleaned-up run. */
  ghost predicate Cleaned(conf: Config, w: World, kept: seq<Event>, end: World, leaked: seq<Msg>)
    requires forall i :: 0 <= i < |kept| ==> HasOperation(kept[i])
  {
    var clean := Run(conf, w, kept);
    && AllCommit(conf, w, kept)
    && end.db == clean.db && end.db.operations == w.db.operations + OperationsOf(kept)
    && multiset(end.published) == multiset(clean.published) + multiset(leaked)
    && (leaked == [] ==> end.published == clean.published)
  }

  lemma {:induction false} CleanedUp(conf: Config, w: World, attempts: seq<Attempt>)
    requires AllHaveOperations(attempts)
    ensures Cleaned(conf, w, FirstOfEach(attempts, AllCommits(conf, w, attempts), w.db.operations),
                    DeliverAll(conf, w, attempts), AllLeaked(conf, w, attempts))
    decreases |attempts|
  {
    var ops := w.db.operations;
    var commits := AllCommits(conf, w, attempts);
    if attempts != [] {
      var kept := FirstOfEach(attempts, commits, ops);
      var e := attempts[0].event;
      var w' := Deliver(conf, w, attempts[0]);
      CommitRecords(conf, w, e);
      CleanedUp(conf, w', attempts[1..]);
      assert commits[1..] == AllCommits(conf, w', attempts[1..]);
      var end, leaked := DeliverAll(conf, w', attempts[1..]), AllLeaked(conf, w', attempts[1..]);
      if commits[0] {
        var rest := FirstOfEach(attempts[1..], commits[1..], ops + {Operation(e)});
        CleanedCommit(conf, w, e, rest, end, leaked);
        assert AllLeaked(conf, w, attempts) == leaked;
      } else {
        CleanedCut(conf, w, attempts[0], kept, end, leaked);
      }
    }
  }

  lemma CleanedCommit(conf: Config, w: World, e: Event, rest: seq<Event>, end: World, leaked: seq<Msg>)
    requires HasOperation(e) && Handle(conf, w.db, e).Commit?
    requires forall i :: 0 <= i < |rest| ==> HasOperation(rest[i])
    requires Cleaned(conf, Step(conf, w, e), rest, end, leaked)
    ensures Cleaned(conf, w, [e] + rest, end, leaked)
  {
    CommitRecords(conf, w, e);
    assert ([e] + rest)[1..] == rest;
  }

  lemma CleanedCut(conf: Config, w: World, a: Attempt, kept: seq<Event>, end: World, leaked: seq<Msg>)
    requires !Commits(conf, w, a)
    requires forall i :: 0 <= i < |kept| ==> HasOperation(kept[i])
    requires Cleaned(conf, Deliver(conf, w, a), kept, end, leaked)
    ensures Cleaned(conf, w, kept, end, Leaked(conf, w, a) + leaked)
  {
    LeakedApart(conf, w, a, kept);
  }

  /** An attempt that commits nothing leaves the rows, and puts what it leaked before everything that follows. */
  lemma LeakedApart(conf: Config, w: World, a: Attempt, kept: seq<Event>)
    requires !Commits(conf, w, a)
    ensures var w' := Deliver(conf, w, a); var leaked := Leaked(conf, w, a);
            && w' == World(w.db, w.published + leaked)
            && multiset(Run(conf, w', kept).published) == multiset(Run(conf, w, kept).published) + multiset(leaked)
            && Run(conf, w', kept).db == Run(conf, w, kept).db
            && (leaked == [] ==> w' == w)
            && (AllCommit(conf, w', kept) <==> AllCommit(conf, w, kept))
  {
    var leaked := Leaked(conf, w, a);
    assert w.published + [] == w.published;
    RunFrom(conf, w.db, w.published, kept);
    RunFrom(conf, w.db, w.published + leaked, kept);
    AllCommitRows(conf, w, w.published + leaked, kept);
  }

  lemma {:induction false} AllCommitRows(conf: Config, w: World, published: seq<Msg>, es: seq<Event>)
    ensures AllCommit(conf, w, es) <==> AllCommit(conf, w.(published := published), es)
    decreases |es|
  {
    if es != [] {
      var w1 := Step(conf, w, es[0]);
      AllCommitRows(conf, w1, Step(conf, w.(published := published), es[0]).published, es[1..]);
    }
  }

  function OperationsOf(es: seq<Event>): set<OperationId>
    requires forall i :: 0 <= i < |es| ==> HasOperation(es[i])
    decreases |es|
  {
    if es == [] then {} else {Operation(es[0])} + OperationsOf(es[1..])
  }

  predicate AllCommit(conf: Config, w: World, es: seq<Event>)
    decreases |es|
  {
    es == [] || (Handle(conf, w.db, es[0]).Commit? && AllCommit(conf, Step(conf, w, es[0]), es[1..]))
  }

  /** Redelivering anything already recorded changes nothing and publishes nothing, cut short or not. */
  lemma {:induction false} RedeliveryIsSilent(conf: Config, w: World, attempts: seq<Attempt>)
    requires AllHaveOperations(attempts)
    requires forall i :: 0 <= i < |attempts| ==> Operation(attempts[i].event) in w.db.operations
    ensures DeliverAll(conf, w, attempts) == w
    decreases |attempts|
  {
    if attempts != [] {
      CommitRecords(conf, w, attempts[0].event);
      assert w.published + [] == w.published;
      RedeliveryIsSilent(conf, w, attempts[1..]);
    }
  }
}
