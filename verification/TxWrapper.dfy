/** Transactions attached to a context, as the stores use them. */
module TxWrapper {
  import opened Prelude

  /** The database, with the rows every new transaction sees. */
  class Conn<S> {
    var committed: S

    constructor (s: S)
      ensures committed == s
    {
      committed := s;
    }
  }

  /** A transaction works on its own copy of the rows. */
  class Txn<S> {
    var working: S

    constructor (s: S)
      ensures working == s
    {
      working := s;
    }
  }

  /** How a closure ends: it returns, with an error or without, or it panics; either way it has written. */
  datatype Closure<+S, +E> =
    | Returns(state: S, err: Option<E>)
    | Panics(state: S)

  /** Attaches a new transaction. The context stays unchanged if none can be started. */
  method CtxWithTx<S>(ctx: Option<Txn<S>>, conn: Conn<S>, beginFails: bool) returns (r: Option<Txn<S>>, ok: bool)
    ensures ok == !beginFails
    ensures !ok ==> r == ctx
    ensures ok ==> r.Some? && fresh(r.value) && r.value.working == conn.committed
  {
    if beginFails {
      return ctx, false;
    }
    var txn := new Txn(conn.committed);
    return Some(txn), true;
  }

  /** Commits the attached transaction if there is no error, rolls it back otherwise. */
  method FinishTxForCtx<S, E>(ctx: Option<Txn<S>>, conn: Conn<S>, err: Option<E>, commitFails: bool, noTx: E, lost: E)
      returns (r: Option<E>)
    modifies conn
    ensures ctx.None? ==> r == Some(noTx)
    ensures ctx.Some? ==> r == if err.Some? then err else if commitFails then Some(lost) else None
    ensures conn.committed == if r.None? then ctx.value.working else old(conn.committed)
  {
    if ctx.None? {
      return Some(noTx);
    }
    if err.Some? {
      return err;
    }
    if commitFails {
      return Some(lost);
    }
    conn.committed := ctx.value.working;
    return None;
  }

  /** Runs a closure in the attached transaction, leaving commit and rollback to whoever attached it; or,
      when none is attached, in a transaction of its own, which a panic rolls back. */
  method WithTx<S, E>(ctx: Option<Txn<S>>, conn: Conn<S>, f: S -> Closure<S, E>, beginFails: bool, commitFails: bool, lost: E)
      returns (err: Option<E>, panicked: bool)
    modifies conn, set t | ctx == Some(t)
    ensures ctx.Some? ==>
              var c := f(old(ctx.value.working));
              && ctx.value.working == c.state && conn.committed == old(conn.committed)
              && panicked == c.Panics? && err == if c.Panics? then None else c.err
    ensures ctx.None? ==>
              var c := f(old(conn.committed));
              if beginFails then err == Some(lost) && !panicked && conn.committed == old(conn.committed)
              else && panicked == c.Panics?
                   && (c.Returns? ==> err == if c.err.None? && commitFails then Some(lost) else c.err)
                   && conn.committed == if c.Returns? && err.None? then c.state else old(conn.committed)
  {
    if ctx.Some? {
      var c := f(ctx.value.working);
      ctx.value.working := c.state;
      return if c.Panics? then None else c.err, c.Panics?;
    }
    if beginFails {
      return Some(lost), false;
    }
    var txn := new Txn(conn.committed);
    var c := f(txn.working);
    txn.working := c.state;
    if c.Panics? {
      return None, true;
    }
    if c.err.Some? {
      return c.err, false;
    }
    if commitFails {
      return Some(lost), false;
    }
    conn.committed := txn.working;
    return None, false;
  }

  /** Closures one after the other, up to the first that does not return cleanly. */
  function InTurn<S, E>(s: S, fs: seq<S -> Closure<S, E>>): Closure<S, E>
    decreases |fs|
  {
    if fs == [] then Returns(s, None) else
    var c := fs[0](s);
    if c.Returns? && c.err.None? then InTurn(c.state, fs[1..]) else c
  }

  lemma {:induction false} InTurnSnoc<S, E>(s: S, fs: seq<S -> Closure<S, E>>, f: S -> Closure<S, E>)
    ensures var c := InTurn(s, fs);
            InTurn(s, fs + [f]) == if c.Returns? && c.err.None? then f(c.state) else c
    decreases |fs|
  {
    if fs == [] {
      assert (fs + [f])[1..] == [];
    } else {
      assert (fs + [f])[1..] == fs[1..] + [f];
      InTurnSnoc(fs[0](s).state, fs[1..], f);
    }
  }

  /**
   The shape of every handler: attach a transaction, run store operations in it, each of which asks for a
   transaction and joins this one, stop at the first error, and finish in a deferred call.

   It is all or nothing for errors, wherever they occur. A panic is different: the deferred call sees no
   error and commits what was written, unlike a store operation in a transaction of its own.
   */
  method Handler<S, E>(conn: Conn<S>, fs: seq<S -> Closure<S, E>>, beginFails: bool, commitFails: bool, noTx: E, lost: E)
      returns (err: Option<E>, panicked: bool)
    modifies conn
    ensures var c := InTurn(old(conn.committed), fs);
            var done := !beginFails && !commitFails && (c.Panics? || c.err.None?);
            && conn.committed == (if done then c.state else old(conn.committed))
            && panicked == (!beginFails && c.Panics?)
            && (!panicked ==> (err.None? <==> done))
  {
    var ctx, ok := CtxWithTx(None, conn, beginFails);
    if !ok {
      return Some(lost), false;
    }
    var txn := ctx.value;
    err, panicked := None, false;
    ghost var s := txn.working;
    var i := 0;
    assert fs[..0] == [];
    while i < |fs| && err.None? && !panicked
      invariant 0 <= i <= |fs| && conn.committed == old(conn.committed) == s
      invariant var c := InTurn(s, fs[..i]);
                && txn.working == c.state && panicked == c.Panics?
                && err == if c.Panics? then None else c.err
    {
      InTurnSnoc(s, fs[..i], fs[i]);
      assert fs[..i + 1] == fs[..i] + [fs[i]];
      err, panicked := WithTx(ctx, conn, fs[i], false, false, lost);
      i := i + 1;
    }
    StoppedEarly(s, fs, i);
    err := FinishTxForCtx(ctx, conn, err, commitFails, noTx, lost);
  }

  lemma {:induction false} StoppedEarly<S, E>(s: S, fs: seq<S -> Closure<S, E>>, i: nat)
    requires i <= |fs|
    ensures var c := InTurn(s, fs[..i]);
            i == |fs| || c.Panics? || c.err.Some? ==> InTurn(s, fs) == c
    decreases |fs|
  {
    if i == |fs| {
      assert fs[..i] == fs;
    } else if i > 0 {
      assert fs[..i][1..] == fs[1..][..i - 1];
      StoppedEarly(fs[0](s).state, fs[1..], i - 1);
    }
  }
}
