/** A cap on how many functions run at once: a channel of tokens, and the errors of the functions. */
module RateLim {
  import opened Prelude

  /** A function handed to Exec, by name. */
  type Func = nat

  datatype Entry = Entry(f: Func, message: string)

  /** `tokens` are in the channel: one for each function that has not given its token back, whether it runs, is
      about to record its error or is about to leave, and `waited` of Wait. */
  datatype Limiter = Limiter(
    limit: nat,
    tokens: nat,
    running: set<Func>,
    failing: map<Func, string>,
    leaving: set<Func>,
    outcomes: map<Func, Option<string>>,
    errors: seq<Entry>,
    waited: nat)

  datatype Event =
    | Start(f: Func)
    | Return(f: Func, err: Option<string>)
    | Record(f: Func)
    | Release(f: Func)
    | WaitToken

  /** Sending blocks while the channel is full. */
  predicate Enabled(l: Limiter, e: Event) {
    match e
    case Start(f) => l.tokens < l.limit && f !in l.running && f !in l.outcomes
    case Return(f, _) => f in l.running
    case Record(f) => f in l.failing
    case Release(f) => f in l.leaving && l.tokens > 0
    case WaitToken => l.tokens < l.limit && l.waited < l.limit
  }

  function Step(l: Limiter, e: Event): Limiter
    requires Enabled(l, e)
  {
    match e
    case Start(f) => l.(tokens := l.tokens + 1, running := l.running + {f})
    case Return(f, err) =>
      if err.Some? then l.(running := l.running - {f}, outcomes := l.outcomes[f := err], failing := l.failing[f := err.value])
      else l.(running := l.running - {f}, outcomes := l.outcomes[f := err], leaving := l.leaving + {f})
    case Record(f) => l.(failing := l.failing - {f}, errors := l.errors + [Entry(f, l.failing[f])], leaving := l.leaving + {f})
    case Release(f) => l.(leaving := l.leaving - {f}, tokens := l.tokens - 1)
    case WaitToken => l.(tokens := l.tokens + 1, waited := l.waited + 1)
  }

  predicate AllEnabled(l: Limiter, es: seq<Event>)
    decreases |es|
  {
    es == [] || (Enabled(l, es[0]) && AllEnabled(Step(l, es[0]), es[1..]))
  }

  function Run(l: Limiter, es: seq<Event>): Limiter
    requires AllEnabled(l, es)
    decreases |es|
  {
    if es == [] then l else Run(Step(l, es[0]), es[1..])
  }

  function Empty(limit: nat): Limiter {
    Limiter(limit, 0, {}, map[], {}, map[], [], 0)
  }

  // ---------- Invariant ----------

  ghost predicate TokensOk(l: Limiter) {
    l.tokens == |l.running| + |l.failing| + |l.leaving| + l.waited && l.tokens <= l.limit
  }

  ghost predicate Apart(l: Limiter) {
    && (forall f | f in l.running :: f !in l.outcomes)
    && (forall f | f in l.failing :: l.outcomes.Keys >= {f} && l.outcomes[f] == Some(l.failing[f]) && f !in l.leaving)
    && (forall f | f in l.leaving :: f in l.outcomes)
  }

  function Names(errors: seq<Entry>): seq<Func> {
    seq(|errors|, i requires 0 <= i < |errors| => errors[i].f)
  }

  /** The functions that failed. */
  ghost function Failed(outcomes: map<Func, Option<string>>): set<Func> {
    set f | f in outcomes && outcomes[f].Some?
  }

  /** One entry, with its own message, for each function that failed and is past recording it. */
  ghost predicate ErrorsOk(l: Limiter) {
    && Lists(Names(l.errors), Failed(l.outcomes) - l.failing.Keys)
    && forall i | 0 <= i < |l.errors| :: l.errors[i].f in l.outcomes && l.outcomes[l.errors[i].f] == Some(l.errors[i].message)
  }

  ghost predicate Inv(l: Limiter) {
    TokensOk(l) && Apart(l) && ErrorsOk(l)
  }

  lemma EmptyInv(limit: nat)
    ensures Inv(Empty(limit))
  {
  }

  lemma RecordKeepsErrors(l: Limiter, f: Func)
    requires Inv(l) && f in l.failing
    ensures ErrorsOk(Step(l, Record(f)))
  {
    var l' := Step(l, Record(f));
    assert Names(l'.errors) == Names(l.errors) + [f];
    assert l'.failing.Keys == l.failing.Keys - {f};
    assert f !in Names(l.errors);
  }

  lemma ReturnKeepsErrors(l: Limiter, f: Func, err: Option<string>)
    requires Inv(l) && f in l.running
    ensures ErrorsOk(Step(l, Return(f, err)))
  {
    var l' := Step(l, Return(f, err));
    assert l'.errors == l.errors;
    ReturnKeepsRecorded(l, f, err);
  }

  lemma ReturnKeepsRecorded(l: Limiter, f: Func, err: Option<string>)
    requires Apart(l) && f in l.running
    ensures var l' := Step(l, Return(f, err)); Failed(l'.outcomes) - l'.failing.Keys == Failed(l.outcomes) - l.failing.Keys
  {
    FailedAfter(l.outcomes, f, err);
    assert f !in l.failing;
    if err.Some? {
      assert l.failing[f := err.value].Keys == l.failing.Keys + {f};
      BothGrow(Failed(l.outcomes), l.failing.Keys, f);
    }
  }

  lemma BothGrow(xs: set<Func>, ys: set<Func>, f: Func)
    requires f !in xs
    ensures (xs + {f}) - (ys + {f}) == xs - ys
  {
  }

  lemma FailedAfter(outcomes: map<Func, Option<string>>, f: Func, err: Option<string>)
    requires f !in outcomes
    ensures Failed(outcomes[f := err]) == Failed(outcomes) + (if err.Some? then {f} else {})
    ensures f !in Failed(outcomes)
  {
  }

  lemma MapGrows(m: map<Func, string>, f: Func, v: string)
    requires f !in m
    ensures |m[f := v]| == |m| + 1
  {
    assert m[f := v].Keys == m.Keys + {f};
    assert |m.Keys| == |m| && |m[f := v].Keys| == |m[f := v]|;
  }

  lemma MapShrinks(m: map<Func, string>, f: Func)
    requires f in m
    ensures |m - {f}| == |m| - 1
  {
    assert (m - {f}).Keys == m.Keys - {f};
    assert |m.Keys| == |m| && |(m - {f}).Keys| == |m - {f}|;
  }

  /** How many functions are at each point. */
  lemma StepSizes(l: Limiter, e: Event)
    requires Apart(l) && Enabled(l, e)
    ensures var l' := Step(l, e);
            match e
            case Start(_) => |l'.running| == |l.running| + 1
            case Return(_, err) => |l'.running| == |l.running| - 1
                                   && |l'.failing| == |l.failing| + (if err.Some? then 1 else 0)
                                   && |l'.leaving| == |l.leaving| + (if err.Some? then 0 else 1)
            case Record(_) => |l'.failing| == |l.failing| - 1 && |l'.leaving| == |l.leaving| + 1
            case Release(_) => |l'.leaving| == |l.leaving| - 1
            case WaitToken => true
  {
    match e {
      case Return(f, err) =>
        if err.Some? {
          MapGrows(l.failing, f, err.value);
        } else {
          assert f !in l.leaving;
        }
      case Record(f) => MapShrinks(l.failing, f);
      case _ =>
    }
  }

  lemma StepKeepsTokens(l: Limiter, e: Event)
    requires Inv(l) && Enabled(l, e)
    ensures TokensOk(Step(l, e))
  {
    StepSizes(l, e);
  }

  lemma StepKeepsApart(l: Limiter, e: Event)
    requires Apart(l) && Enabled(l, e)
    ensures Apart(Step(l, e))
  {
  }

  lemma StepKeepsInv(l: Limiter, e: Event)
    requires Inv(l) && Enabled(l, e)
    ensures Inv(Step(l, e)) && Step(l, e).limit == l.limit
  {
    StepKeepsTokens(l, e);
    StepKeepsApart(l, e);
    match e {
      case Return(f, err) => ReturnKeepsErrors(l, f, err);
      case Record(f) => RecordKeepsErrors(l, f);
      case _ =>
    }
  }

  /** Under every interleaving, also one where Exec and Wait overlap: at most `limit` functions run; once Wait has
      all its tokens, none is running or about to record an error, there is one entry for each function that failed,
      and none can be started any more. */
  lemma {:induction false} RunKeepsInv(l: Limiter, es: seq<Event>)
    requires Inv(l) && AllEnabled(l, es)
    ensures var l' := Run(l, es);
            && Inv(l') && l'.limit == l.limit && |l'.running| <= l.limit
            && (l'.waited == l.limit ==> Drained(l') && forall f :: !Enabled(l', Start(f)))
    decreases |es|
  {
    if es == [] {
      if l.waited == l.limit {
        FullIsDrained(l);
      }
    } else {
      StepKeepsInv(l, es[0]);
      RunKeepsInv(Step(l, es[0]), es[1..]);
    }
  }

  ghost predicate Drained(l: Limiter) {
    && l.running == {} && l.failing == map[] && l.leaving == {}
    && Lists(Names(l.errors), Failed(l.outcomes)) && |l.errors| == |Failed(l.outcomes)|
    && forall i | 0 <= i < |l.errors| :: l.errors[i].f in l.outcomes && l.outcomes[l.errors[i].f] == Some(l.errors[i].message)
  }

  lemma FullIsDrained(l: Limiter)
    requires Inv(l) && l.waited == l.limit
    ensures Drained(l)
  {
    assert |l.running| == 0 && |l.failing| == 0 && |l.leaving| == 0;
    assert l.failing.Keys == {} by { assert |l.failing.Keys| == |l.failing|; }
    assert Failed(l.outcomes) - l.failing.Keys == Failed(l.outcomes);
    ListsSize(Names(l.errors), Failed(l.outcomes));
  }

  // ---------- Who can go on ----------

  /** A function can be started if and only if fewer than the limit are under way or waited for; and one that was started is
      never held up. */
  lemma NobodyHeldUp(l: Limiter, f: Func)
    requires Inv(l)
    ensures f !in l.running && f !in l.outcomes ==>
              (Enabled(l, Start(f)) <==> |l.running| + |l.failing| + |l.leaving| + l.waited < l.limit)
    ensures f in l.running ==> forall err :: Enabled(l, Return(f, err))
    ensures f in l.failing ==> Enabled(l, Record(f))
    ensures f in l.leaving ==> Enabled(l, Release(f))
  {
    if f in l.leaving { assert |l.leaving| > 0; }
  }

  // ---------- What is returned ----------

  /** The outcomes are those with which functions returned in the run, and a function that was started runs or has
      returned. */
  lemma {:induction false} OutcomesOf(l: Limiter, es: seq<Event>, f: Func)
    requires Inv(l) && AllEnabled(l, es)
    ensures var l' := Run(l, es);
            && (f in l.outcomes ==> f in l'.outcomes && l'.outcomes[f] == l.outcomes[f])
            && (forall err | Return(f, err) in es :: f in l'.outcomes && l'.outcomes[f] == err)
            && (f in l'.outcomes && f !in l.outcomes ==> Return(f, l'.outcomes[f]) in es)
            && (f in l.running || Start(f) in es ==> f in l'.running || f in l'.outcomes)
    decreases |es|
  {
    if es != [] {
      assert es == [es[0]] + es[1..];
      StepKeepsInv(l, es[0]);
      OutcomesOf(Step(l, es[0]), es[1..], f);
    }
  }

  predicate HasError(l: Limiter, f: Func, m: string) {
    exists i :: 0 <= i < |l.errors| && l.errors[i] == Entry(f, m)
  }

  /** When Wait has its tokens, every function that was started has returned, and the errors are exactly those with which
      functions returned, each once and with its message. */
  lemma AllErrors(limit: nat, es: seq<Event>)
    requires AllEnabled(Empty(limit), es) && Run(Empty(limit), es).waited == limit
    ensures var l := Run(Empty(limit), es);
            && (forall f | Start(f) in es :: f in l.outcomes && Return(f, l.outcomes[f]) in es)
            && (forall f, m :: HasError(l, f, m) <==> Return(f, Some(m)) in es)
            && Distinct(Names(l.errors))
  {
    var l := Run(Empty(limit), es);
    EmptyInv(limit);
    RunKeepsInv(Empty(limit), es);
    forall f | Start(f) in es ensures f in l.outcomes && Return(f, l.outcomes[f]) in es {
      OutcomesOf(Empty(limit), es, f);
    }
    forall f, m ensures HasError(l, f, m) <==> Return(f, Some(m)) in es {
      ErrorReturned(l, es, limit, f, m);
    }
  }

  lemma ErrorReturned(l: Limiter, es: seq<Event>, limit: nat, f: Func, m: string)
    requires AllEnabled(Empty(limit), es) && l == Run(Empty(limit), es) && Drained(l)
    ensures HasError(l, f, m) <==> Return(f, Some(m)) in es
  {
    EmptyInv(limit);
    OutcomesOf(Empty(limit), es, f);
    if Return(f, Some(m)) in es {
      assert f in Failed(l.outcomes) && f in Names(l.errors);
      var i :| 0 <= i < |Names(l.errors)| && Names(l.errors)[i] == f;
      assert l.errors[i] == Entry(f, m);
    }
  }

  // ---------- The running limiter ----------

  ghost function Measure(l: Limiter): nat
    requires l.waited <= l.limit
  {
    l.limit - l.waited + 3 * |l.running| + 2 * |l.failing| + |l.leaving|
  }

  class RateLim {
    const limit: nat
    var tokens: nat
    var running: set<Func>
    var failing: map<Func, string>
    var leaving: set<Func>
    var outcomes: map<Func, Option<string>>
    var errors: seq<Entry>
    var waited: nat

    constructor (limit: nat)
      ensures View() == Empty(limit)
    {
      this.limit := limit;
      tokens, running, failing, leaving, outcomes, errors, waited := 0, {}, map[], {}, map[], [], 0;
    }

    function View(): Limiter
      reads this
    {
      Limiter(limit, tokens, running, failing, leaving, outcomes, errors, waited)
    }

    /** Exec goes on once it could send its token. */
    method Exec(f: Func)
      requires tokens < limit && f !in running && f !in outcomes
      modifies this
      ensures View() == Step(old(View()), Start(f))
    {
      tokens := tokens + 1;
      running := running + {f};
    }

    /** A function returns. */
    method Finish(f: Func, err: Option<string>)
      requires f in running
      modifies this
      ensures View() == Step(old(View()), Return(f, err))
    {
      running, outcomes := running - {f}, outcomes[f := err];
      if err.Some? {
        failing := failing[f := err.value];
      } else {
        leaving := leaving + {f};
      }
    }

    /** Its error is appended. */
    method AppendError(f: Func)
      requires f in failing
      modifies this
      ensures View() == Step(old(View()), Record(f))
    {
      errors := errors + [Entry(f, failing[f])];
      failing, leaving := failing - {f}, leaving + {f};
    }

    /** It gives its token back. */
    method GiveBack(f: Func)
      requires f in leaving && tokens > 0
      modifies this
      ensures View() == Step(old(View()), Release(f))
    {
      leaving, tokens := leaving - {f}, tokens - 1;
    }

    /** Some function that was started does its next thing. */
    method Proceed() returns (ghost e: Event)
      requires Inv(View()) && (running != {} || failing.Keys != {} || leaving != {})
      modifies this
      ensures !e.Start? && !e.WaitToken? && Enabled(old(View()), e) && View() == Step(old(View()), e)
    {
      if {
        case running != {} =>
          var f :| f in running;
          var err: Option<string> := *;
          e := Return(f, err);
          Finish(f, err);
        case failing.Keys != {} =>
          var f :| f in failing.Keys;
          e := Record(f);
          AppendError(f);
        case leaving != {} =>
          var f :| f in leaving;
          e := Release(f);
          assert |leaving| > 0;
          GiveBack(f);
      }
    }

    /** Sends as many tokens as the channel holds; while it is full, and at any other time, functions proceed. */
    method Wait() returns (messages: seq<string>)
      requires Inv(View()) && waited == 0
      modifies this
      ensures Drained(View()) && waited == limit
      ensures |messages| == |errors| && forall i | 0 <= i < |errors| :: messages[i] == errors[i].message
    {
      while waited < limit
        invariant Inv(View()) && waited <= limit
        decreases Measure(View())
      {
        ghost var l := View();
        ghost var e;
        assert |failing.Keys| == |failing|;
        assert tokens < limit || running != {} || failing.Keys != {} || leaving != {};
        if {
          case tokens < limit =>
            e := WaitToken;
            tokens, waited := tokens + 1, waited + 1;
          case running != {} || failing.Keys != {} || leaving != {} =>
            e := Proceed();
        }
        StepKeepsInv(l, e);
        StepDecreases(l, e);
      }
      FullIsDrained(View());
      messages := seq(|errors|, i requires 0 <= i < |errors| reads this => errors[i].message);
    }
  }

  lemma StepDecreases(l: Limiter, e: Event)
    requires Inv(l) && Enabled(l, e) && !e.Start? && l.waited <= l.limit
    ensures Step(l, e).waited <= l.limit && Measure(Step(l, e)) < Measure(l)
  {
    StepSizes(l, e);
  }

  /** A limit that is not positive is an error. */
  method New(limit: int) returns (r: Option<RateLim>)
    ensures r.Some? <==> limit > 0
    ensures r.Some? ==> fresh(r.value) && r.value.View() == Empty(limit) && Inv(r.value.View())
  {
    if limit <= 0 {
      return None;
    }
    var rl := new RateLim(limit);
    EmptyInv(limit);
    r := Some(rl);
  }
}
