/** Options and sums over sequences, shared by the other modules. */
module Prelude {

  datatype Option<+T> = None | Some(value: T)

  /** The total weight of the elements of `s`. */
  function SumOf<T>(s: seq<T>, f: T -> nat): nat {
    if s == [] then 0 else SumOf(s[..|s| - 1], f) + f(s[|s| - 1])
  }

  lemma {:induction false} SumAppend<T>(s: seq<T>, x: T, f: T -> nat)
    ensures SumOf(s + [x], f) == SumOf(s, f) + f(x)
  {
    assert (s + [x])[..|s|] == s;
  }

  lemma {:induction false} SumConcat<T>(s: seq<T>, t: seq<T>, f: T -> nat)
    ensures SumOf(s + t, f) == SumOf(s, f) + SumOf(t, f)
  {
    if t == [] {
      assert s + t == s;
    } else {
      SumConcat(s, t[..|t| - 1], f);
      assert (s + t)[..|s + t| - 1] == s + t[..|t| - 1];
    }
  }

  /** Two weights that differ at one position only give sums that differ by that position. */
  lemma {:induction false} SumChangeAt<T>(s: seq<T>, t: seq<T>, f: T -> nat, g: T -> nat, k: nat)
    requires |s| == |t| && k < |s|
    requires forall i :: 0 <= i < |s| && i != k ==> f(s[i]) == g(t[i])
    ensures SumOf(t, g) + f(s[k]) == SumOf(s, f) + g(t[k])
  {
    if k == |s| - 1 {
      SumAgree(s[..k], t[..k], f, g);
    } else {
      SumChangeAt(s[..|s| - 1], t[..|t| - 1], f, g, k);
    }
  }

  lemma {:induction false} SumAgree<T>(s: seq<T>, t: seq<T>, f: T -> nat, g: T -> nat)
    requires |s| == |t|
    requires forall i :: 0 <= i < |s| ==> f(s[i]) == g(t[i])
    ensures SumOf(s, f) == SumOf(t, g)
  {
    if s != [] {
      SumAgree(s[..|s| - 1], t[..|t| - 1], f, g);
    }
  }

  lemma {:induction false} SumAtLeast<T>(s: seq<T>, f: T -> nat, k: nat)
    requires k < |s|
    ensures f(s[k]) <= SumOf(s, f)
  {
    if k < |s| - 1 {
      SumAtLeast(s[..|s| - 1], f, k);
    }
  }

  lemma {:induction false} SumZero<T>(s: seq<T>, f: T -> nat)
    requires forall i :: 0 <= i < |s| ==> f(s[i]) == 0
    ensures SumOf(s, f) == 0
  {
    if s != [] {
      SumZero(s[..|s| - 1], f);
    }
  }

  lemma {:induction false} SumOnes<T>(s: seq<T>, f: T -> nat)
    requires forall i :: 0 <= i < |s| ==> f(s[i]) == 1
    ensures SumOf(s, f) == |s|
  {
    if s != [] {
      SumOnes(s[..|s| - 1], f);
    }
  }

  /** A sequence without the element at `k`. */
  function Without<T>(s: seq<T>, k: nat): seq<T>
    requires k < |s|
  {
    s[..k] + s[k + 1..]
  }

  lemma {:induction false} SumWithout<T>(s: seq<T>, k: nat, f: T -> nat)
    requires k < |s|
    ensures SumOf(Without(s, k), f) + f(s[k]) == SumOf(s, f)
  {
    var init, last := s[..|s| - 1], s[|s| - 1];
    if k == |init| {
      assert Without(s, k) == init;
    } else {
      SumWithout(init, k, f);
      assert Without(s, k) == Without(init, k) + [last];
      SumAppend(Without(init, k), last, f);
    }
  }

  /** `s` lists the elements of `xs`, each once: the order a query or a map iteration happens to take. */
  ghost predicate Lists<T(!new)>(s: seq<T>, xs: set<T>) {
    && (forall x :: x in s <==> x in xs)
    && (forall i, j :: 0 <= i < j < |s| ==> s[i] != s[j])
  }

  lemma {:induction false} ListsSize<T(!new)>(s: seq<T>, xs: set<T>)
    requires Lists(s, xs)
    ensures |s| == |xs|
  {
    if s == [] {
      assert xs == {};
    } else {
      var last := s[|s| - 1];
      var init := s[..|s| - 1];
      assert s == init + [last];
      ListsSize(init, xs - {last});
      assert xs == (xs - {last}) + {last};
    }
  }

  predicate Distinct<T(==)>(s: seq<T>) {
    forall i, j | 0 <= i < j < |s| :: s[i] != s[j]
  }

  /** Some listing of a set. */
  lemma ListAll<T(!new)>(xs: set<T>) returns (s: seq<T>)
    ensures Lists(s, xs)
    decreases xs
  {
    if xs == {} {
      s := [];
    } else {
      var x :| x in xs;
      var rest := ListAll(xs - {x});
      s := rest + [x];
    }
  }

  /** Walks a set in some order, as Go does with a map and SQL with the rows of a query. */
  method Enumerate<T(!new)>(xs: set<T>) returns (s: seq<T>)
    ensures Lists(s, xs)
  {
    s := [];
    var rest := xs;
    while rest != {}
      invariant rest <= xs && Lists(s, xs - rest)
      decreases rest
    {
      var x :| x in rest;
      s, rest := s + [x], rest - {x};
    }
  }
}
