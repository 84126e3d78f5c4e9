/**
 The pool of bids winners are drawn from: a binary heap in a slice, as in Go's container/heap, shared by
 the iterators made over it one after the other.
 */
module Sorter {
  import opened Prelude
  import opened Comparators

  // ---------- Heap order ----------

  predicate Child(p: int, c: int) {
    c == 2 * p + 1 || c == 2 * p + 2
  }

  /** Every parent from `lo` on is no worse than its children below `n`, except possibly parent `skip`. */
  ghost predicate HeapFrom(h: seq<Bid>, cmp: Cmp, lo: int, n: int, skip: int)
    requires 0 <= lo && n <= |h|
  {
    forall p, c | Child(p, c) && lo <= p && c < n && p != skip :: NoWorse(cmp, h[p], h[c])
  }

  ghost predicate IsHeap(h: seq<Bid>, cmp: Cmp) {
    HeapFrom(h, cmp, 0, |h|, -1)
  }

  lemma {:induction false} RootIsBest(h: seq<Bid>, cmp: Cmp, k: nat)
    requires Ranks(cmp, multiset(h)) && IsHeap(h, cmp) && k < |h|
    ensures NoWorse(cmp, h[0], h[k])
  {
    if k == 0 {
      Flip(cmp, multiset(h), h[0], h[0]);
    } else {
      var p := (k - 1) / 2;
      assert Child(p, k);
      RootIsBest(h, cmp, p);
      Transitive(cmp, multiset(h), h[0], h[p], h[k]);
    }
  }

  lemma BestOut(h: seq<Bid>, cmp: Cmp, m: multiset<Bid>, b: Bid)
    requires Ranks(cmp, multiset(h)) && IsHeap(h, cmp) && h != [] && b == h[0] && m <= multiset(h)
    ensures forall x | x in m :: NoWorse(cmp, b, x)
  {
    forall x | x in m
      ensures NoWorse(cmp, b, x)
    {
      assert x in h;
      var k: nat :| k < |h| && h[k] == x;
      RootIsBest(h, cmp, k);
    }
  }

  /** The last bid in the place of the root is the only one out of order. */
  lemma RootOut(h: seq<Bid>, cmp: Cmp)
    requires IsHeap(h, cmp) && h != []
    ensures HeapFrom(Swapped(h, 0, |h| - 1), cmp, 0, |h| - 1, 0)
  {
    var s := Swapped(h, 0, |h| - 1);
    forall p, c | Child(p, c) && 0 <= p && c < |h| - 1 && p != 0
      ensures NoWorse(cmp, s[p], s[c])
    {
      assert s[p] == h[p] && s[c] == h[c];
    }
  }

  function Swapped(h: seq<Bid>, i: nat, j: nat): (r: seq<Bid>)
    requires i < |h| && j < |h|
    ensures |r| == |h| && multiset(r) == multiset(h)
    ensures r[i] == h[j] && r[j] == h[i] && forall k :: 0 <= k < |h| && k != i && k != j ==> r[k] == h[k]
  {
    h[i := h[j]][j := h[i]]
  }

  // ---------- The pool ----------

  /** The iterators: sorted, one of the best `left` at random, or any at random. */
  datatype Iter = Sorted | TopN(left: nat) | Anyone

  class Sorter {
    var h: seq<Bid>
    /** None: compares at random. */
    var cmp: Option<Cmp>

    constructor (bids: seq<Bid>)
      ensures h == bids
    {
      h, cmp := bids, None;
    }

    /** The comparator ranks the bids in the pool. */
    ghost predicate Ranked()
      reads this
    {
      cmp.Some? && Ranks(cmp.value, multiset(h))
    }

    /** The pool is in heap order. */
    ghost predicate Heaped()
      reads this
    {
      Ranked() && IsHeap(h, cmp.value)
    }

    /** Keeps the bids that pass the filter, in a new pool. */
    method Select(filter: Bid -> bool) returns (s: Sorter)
      ensures fresh(s) && s.h == Filtered(h, filter)
    {
      var kept := [];
      for i := 0 to |h|
        invariant kept == Filtered(h[..i], filter)
      {
        assert h[..i + 1][..i] == h[..i];
        if filter(h[i]) {
          kept := kept + [h[i]];
        }
      }
      assert h[..|h|] == h;
      s := new Sorter(kept);
    }

    method Less(i: nat, j: nat) returns (less: bool)
      requires i < |h| && j < |h|
      ensures cmp.Some? ==> less == (cmp.value(h[i], h[j]) < 0)
    {
      if cmp.Some? {
        less := cmp.value(h[i], h[j]) < 0;
      } else {
        less := *;
      }
    }

    method Swap(i: nat, j: nat)
      requires i < |h| && j < |h|
      modifies this`h
      ensures h == Swapped(old(h), i, j)
    {
      h := h[i := h[j]][j := h[i]];
    }

    /** The better of the children of `i`. */
    method BetterChild(i: nat, n: nat) returns (j: nat)
      requires 2 * i + 1 < n <= |h|
      ensures Child(i, j) && j < n
      ensures Ranked() ==> forall c | Child(i, c) && c < n :: NoWorse(cmp.value, h[j], h[c])
    {
      j := 2 * i + 1;
      var j2 := j + 1;
      if j2 < n {
        var second := Less(j2, j);
        if second {
          j := j2;
        }
      }
      if Ranked() {
        BestChild(h, cmp.value, i, n, j);
      }
    }

    /** Moves the bid at `i0` down among the first `n`; tells whether it moved. */
    method Down(i0: nat, n: nat) returns (moved: bool)
      requires i0 <= n <= |h|
      modifies this`h
      ensures multiset(h) == multiset(old(h)) && |h| == |old(h)| && h[n..] == old(h[n..])
      ensures old(Ranked() && HeapFrom(h, cmp.value, i0, n, i0)) ==> HeapFrom(h, cmp.value, i0, n, -1)
    {
      var i: nat := i0;
      ghost var ranked := Ranked() && HeapFrom(h, cmp.value, i0, n, i0);
      while 2 * i + 1 < n
        invariant i0 <= i && |h| == |old(h)| && multiset(h) == multiset(old(h)) && h[n..] == old(h[n..])
        invariant ranked ==> Sinking(h, cmp.value, i0, n, i)
      {
        var j := BetterChild(i, n);
        var less := Less(j, i);
        if !less {
          if ranked {
            AllInOrder(h, cmp.value, i0, n, i, j);
          }
          return i > i0;
        }
        if ranked {
          Flip(cmp.value, multiset(h), h[j], h[i]);
          Flip(cmp.value, multiset(h), h[i], h[j]);
          DownKeepsHeap(h, cmp.value, i0, n, i, j);
        }
        Swap(i, j);
        i := j;
      }
      moved := i > i0;
    }

    /** Moves the bid at `j0` up. */
    method Up(j0: nat)
      requires j0 < |h|
      modifies this`h
      ensures multiset(h) == multiset(old(h)) && |h| == |old(h)| && h[j0 + 1..] == old(h[j0 + 1..])
      ensures old(Ranked() && j0 == |h| - 1 && HeapFrom(h, cmp.value, 0, |h| - 1, -1)) ==> Heaped()
    {
      var j: nat := j0;
      ghost var ranked := Ranked() && j0 == |h| - 1 && HeapFrom(h, cmp.value, 0, |h| - 1, -1);
      while true
        invariant j <= j0 < |h| == |old(h)| && multiset(h) == multiset(old(h)) && h[j0 + 1..] == old(h[j0 + 1..])
        invariant ranked ==> HeapButOne(h, cmp.value, j)
        decreases j
      {
        // Go divides toward zero, so the root is its own parent.
        var i: nat := if j == 0 then 0 else (j - 1) / 2;
        if i == j {
          break;
        }
        assert Child(i, j);
        var less := Less(j, i);
        if !less {
          if ranked {
            Flip(cmp.value, multiset(h), h[i], h[j]);
          }
          break;
        }
        if ranked {
          Flip(cmp.value, multiset(h), h[i], h[j]);
          Flip(cmp.value, multiset(h), h[j], h[i]);
          UpKeepsHeap(h, cmp.value, i, j);
        }
        Swap(i, j);
        j := i;
      }
      if ranked {
        UpDone(h, cmp.value, j);
      }
    }

    method Init()
      modifies this`h
      ensures multiset(h) == multiset(old(h)) && |h| == |old(h)|
      ensures old(Ranked()) ==> Heaped()
    {
      var n := |h|;
      var i := n / 2;
      ghost var ranked := Ranked();
      assert ranked ==> HeapFrom(h, cmp.value, i, n, -1);
      while i > 0
        invariant 0 <= i <= n == |h| && multiset(h) == multiset(old(h))
        invariant ranked ==> HeapFrom(h, cmp.value, i, n, -1)
      {
        i := i - 1;
        var _ := Down(i, n);
      }
    }

    method Push(b: Bid)
      modifies this`h
      ensures multiset(h) == multiset(old(h)) + multiset{b} && |h| == |old(h)| + 1
      ensures old(cmp.Some? && IsHeap(h, cmp.value)) && Ranked() ==> Heaped()
    {
      h := h + [b];
      assert h[..|h| - 1] == old(h);
      Up(|h| - 1);
    }

    /** Takes the last bid of the slice. */
    method Last() returns (b: Bid)
      requires h != []
      modifies this`h
      ensures h == old(h[..|h| - 1]) && b == old(h[|h| - 1])
    {
      b := h[|h| - 1];
      h := h[..|h| - 1];
    }

    /** Takes the best bid. */
    method Pop() returns (b: Bid)
      requires h != []
      modifies this`h
      ensures multiset(old(h)) == multiset(h) + multiset{b} && |h| == |old(h)| - 1
      ensures old(Heaped()) ==> Heaped() && forall x | x in multiset(h) :: NoWorse(cmp.value, b, x)
    {
      var n := |h| - 1;
      ghost var heaped := Heaped();
      if heaped {
        RootOut(h, cmp.value);
      }
      Swap(0, n);
      ghost var swapped := h;
      var _ := Down(0, n);
      assert h[n] == h[n..][0] == swapped[n..][0];
      ghost var all := h;
      b := Last();
      assert all == h + [b];
      if heaped {
        RanksSubset(cmp.value, multiset(old(h)), multiset(h));
        BestOut(old(h), cmp.value, multiset(h), b);
        PrefixHeap(all, cmp.value, n);
      }
    }

    /** Takes the bid at index `i`. */
    method Remove(i: nat) returns (b: Bid)
      requires i < |h|
      modifies this`h
      ensures multiset(old(h)) == multiset(h) + multiset{b} && |h| == |old(h)| - 1
      ensures b == old(h[i])
    {
      var n := |h| - 1;
      if n != i {
        Swap(i, n);
        ghost var swapped := h;
        var moved := Down(i, n);
        assert h[n] == h[n..][0] == swapped[n..][0];
        if !moved {
          ghost var sunk := h;
          Up(i);
          assert h[n] == h[i + 1..][n - i - 1] == sunk[i + 1..][n - i - 1];
        }
      }
      ghost var all := h;
      b := Last();
      assert all == h + [b];
    }

    // ---------- Iterators ----------

    method Iterate(cmp: Cmp) returns (it: Iter)
      modifies this
      ensures it == Sorted && multiset(h) == multiset(old(h)) && |h| == |old(h)|
      ensures this.cmp == Some(cmp) && (Ranks(cmp, multiset(h)) ==> Heaped())
    {
      this.cmp := Some(cmp);
      Init();
      it := Sorted;
    }

    method RandomTopN(n: nat, cmp: Cmp) returns (it: Iter)
      modifies this
      ensures it == TopN(if n < |h| then n else |h|)
      ensures multiset(h) == multiset(old(h)) && |h| == |old(h)|
      ensures this.cmp == Some(cmp) && (Ranks(cmp, multiset(h)) ==> Heaped())
    {
      this.cmp := Some(cmp);
      Init();
      it := TopN(if n > |h| then |h| else n);
    }

    method Random() returns (it: Iter)
      modifies this
      ensures it == Anyone && multiset(h) == multiset(old(h)) && |h| == |old(h)|
    {
      cmp := None;
      Init();
      it := Anyone;
    }

    predicate Fits(it: Iter)
      reads this
    {
      it.TopN? ==> it.left <= |h|
    }

    /** Exhausted: the pool is empty, or no draw from the best is left. */
    predicate Exhausted(it: Iter)
      reads this
    {
      if it.TopN? then it.left == 0 else h == []
    }

    /**
     Takes the next bid. For a ranking comparator a sorted iterator takes the best one; a top-n iterator
     takes one that at most `left - 1` of the bids left behind, `passed`, could be better than.
     */
    method Next(it: Iter) returns (b: Option<Bid>, it': Iter, ghost passed: multiset<Bid>)
      requires Fits(it)
      modifies this`h
      ensures Fits(it') && b.Some? == !old(Exhausted(it))
      ensures b.None? ==> it' == it && h == old(h)
      ensures b.Some? ==> multiset(old(h)) == multiset(h) + multiset{b.value} && |h| == |old(h)| - 1
      ensures b.Some? ==> it' == if it.TopN? then TopN(it.left - 1) else it
      ensures b.Some? && old(Heaped()) && it.Sorted? ==> Heaped() && forall x | x in multiset(h) :: NoWorse(cmp.value, b.value, x)
      ensures b.Some? && old(Heaped()) && it.TopN? ==>
                && Heaped() && passed <= multiset(h) && |passed| < it.left
                && forall x | x in multiset(h) - passed :: NoWorse(cmp.value, b.value, x)
    {
      passed := multiset{};
      match it {
        case Sorted =>
          if |h| == 0 {
            return None, it, passed;
          }
          var x := Pop();
          return Some(x), it, passed;
        case TopN(n) =>
          if n == 0 {
            return None, it, passed;
          }
          var x;
          x, passed := NextOfBest(n);
          return Some(x), TopN(n - 1), passed;
        case Anyone =>
          if |h| == 0 {
            return None, it, passed;
          }
          var i: nat :| i < |h|;
          var x := Remove(i);
          return Some(x), it, passed;
      }
    }

    /** Pops the `i` best bids. */
    method PopMany(i: nat) returns (temp: seq<Bid>)
      requires i <= |h|
      modifies this`h
      ensures |temp| == i && |h| == |old(h)| - i && multiset(old(h)) == multiset(h) + multiset(temp)
      ensures old(Heaped()) ==> Heaped()
    {
      temp := [];
      for j := 0 to i
        invariant |temp| == j && |h| == |old(h)| - j && multiset(old(h)) == multiset(h) + multiset(temp)
        invariant old(Heaped()) ==> Heaped()
      {
        var x := Pop();
        temp := temp + [x];
      }
    }

    /** Pushes bids back that were ranked with the ones in the pool. */
    method PushAll(temp: seq<Bid>)
      modifies this`h
      ensures multiset(h) == multiset(old(h)) + multiset(temp) && |h| == |old(h)| + |temp|
      ensures old(Heaped() && Ranks(cmp.value, multiset(h) + multiset(temp))) ==> Heaped()
    {
      ghost var m := multiset(h);
      ghost var heaped := Heaped() && Ranks(cmp.value, m + multiset(temp));
      for j := 0 to |temp|
        invariant multiset(h) == m + multiset(temp[..j]) && |h| == |old(h)| + j
        invariant heaped ==> Heaped()
      {
        assert temp[..j + 1] == temp[..j] + [temp[j]];
        assert temp == temp[..j + 1] + temp[j + 1..];
        if heaped {
          RanksSubset(cmp.value, m + multiset(temp), m + multiset(temp[..j + 1]));
        }
        Push(temp[j]);
      }
      assert temp[..|temp|] == temp;
    }

    /** Draws `i` below `n`, pops the `i` best bids, takes the next one and pushes the others back. */
    method NextOfBest(n: nat) returns (b: Bid, ghost passed: multiset<Bid>)
      requires 0 < n <= |h|
      modifies this`h
      ensures multiset(old(h)) == multiset(h) + multiset{b} && |h| == |old(h)| - 1
      ensures old(Heaped()) ==>
                && Heaped() && passed <= multiset(h) && |passed| < n
                && forall x | x in multiset(h) - passed :: NoWorse(cmp.value, b, x)
    {
      var i: nat :| i < n;
      var temp := PopMany(i);
      b := Pop();
      ghost var rest := multiset(h);
      passed := multiset(temp);
      if old(Heaped()) {
        RanksSubset(cmp.value, multiset(old(h)), rest + passed);
      }
      PushAll(temp);
      assert multiset(h) - passed == rest;
    }

    // ---------- Whole iterations ----------

    /** Reading a sorted iterator to its end gives all bids, best first. */
    method ReadSorted(cmp: Cmp) returns (drawn: seq<Bid>)
      modifies this
      ensures multiset(drawn) == multiset(old(h)) && h == []
      ensures Ranks(cmp, multiset(old(h))) ==> BestFirst(cmp, drawn)
    {
      ghost var m := multiset(h);
      ghost var ranks := Ranks(cmp, m);
      var it := Iterate(cmp);
      drawn := [];
      while |h| > 0
        invariant it == Sorted && this.cmp == Some(cmp)
        invariant m == multiset(drawn) + multiset(h)
        invariant ranks ==> Heaped() && BestFirst(cmp, drawn) && NoneAhead(cmp, drawn, multiset(h))
        decreases |h|
      {
        ghost var passed;
        var b: Option<Bid>;
        ghost var pool := multiset(h);
        b, it, passed := Next(it);
        if ranks {
          BestDrawn(cmp, drawn, pool, b.value, multiset(h));
        }
        drawn := drawn + [b.value];
      }
    }

    /** Reading a random iterator to its end gives each bid once, although its comparator is no order. */
    method ReadRandom() returns (drawn: seq<Bid>)
      modifies this
      ensures multiset(drawn) == multiset(old(h)) && h == []
    {
      ghost var m := multiset(h);
      var it := Random();
      drawn := [];
      var b: Option<Bid> := None;
      while true
        invariant it == Anyone && m == multiset(drawn) + multiset(h)
        decreases |h|
      {
        ghost var passed;
        b, it, passed := Next(it);
        if b.None? {
          break;
        }
        drawn := drawn + [b.value];
      }
    }

    /** Reading a top-n iterator to its end gives the best n, whatever was drawn: none of the bids left behind
        is better than any of them. */
    method ReadTopN(n: nat, cmp: Cmp) returns (drawn: seq<Bid>)
      modifies this
      ensures |drawn| == if n < |old(h)| then n else |old(h)|
      ensures multiset(old(h)) == multiset(drawn) + multiset(h)
      ensures Ranks(cmp, multiset(old(h))) ==> forall y, x | y in drawn && x in multiset(h) :: NoWorse(cmp, y, x)
    {
      ghost var m := multiset(h);
      ghost var ranks := Ranks(cmp, m);
      var it := RandomTopN(n, cmp);
      ghost var total := it.left;
      drawn := [];
      while it.left > 0
        invariant it.TopN? && Fits(it) && this.cmp == Some(cmp)
        invariant |drawn| + it.left == total && m == multiset(drawn) + multiset(h)
        invariant ranks ==> Heaped() && AllBeat(cmp, drawn, multiset(h), it.left)
        decreases it.left
      {
        ghost var left := it.left;
        ghost var passed;
        var b: Option<Bid>;
        b, it, passed := Next(it);
        if ranks {
          AllStillBeat(cmp, m, drawn, multiset(h), b.value, passed, left);
        }
        drawn := drawn + [b.value];
      }
      if ranks {
        NoneBetter(cmp, drawn, multiset(h));
      }
    }
  }

  function Filtered(h: seq<Bid>, filter: Bid -> bool): (r: seq<Bid>)
    ensures forall b :: b in r <==> b in h && filter(b)
  {
    if h == [] then [] else
    var rest := Filtered(h[..|h| - 1], filter);
    if filter(h[|h| - 1]) then rest + [h[|h| - 1]] else rest
  }

  // ---------- Sifting ----------

  /** Heap order but for `i`, whose parent is no worse than its children. */
  ghost predicate Sinking(h: seq<Bid>, cmp: Cmp, i0: nat, n: nat, i: nat)
    requires n <= |h|
  {
    && HeapFrom(h, cmp, i0, n, i)
    && forall p, c | Child(p, i) && i0 <= p && Child(i, c) && c < n :: NoWorse(cmp, h[p], h[c])
  }

  /** The child chosen by comparing the two is no worse than either. */
  lemma BestChild(h: seq<Bid>, cmp: Cmp, i: nat, n: nat, j: nat)
    requires Ranks(cmp, multiset(h)) && n <= |h| && j < n && Child(i, j)
    requires j == 2 * i + 1 ==> 2 * i + 2 >= n || !(cmp(h[2 * i + 2], h[2 * i + 1]) < 0)
    requires j == 2 * i + 2 ==> cmp(h[2 * i + 2], h[2 * i + 1]) < 0
    ensures forall c | Child(i, c) && c < n :: NoWorse(cmp, h[j], h[c])
  {
    forall c | Child(i, c) && c < n
      ensures NoWorse(cmp, h[j], h[c])
    {
      Flip(cmp, multiset(h), h[j], h[c]);
    }
  }

  /** A bid no worse than its best child is in order. */
  lemma AllInOrder(h: seq<Bid>, cmp: Cmp, i0: nat, n: nat, i: nat, j: nat)
    requires Ranks(cmp, multiset(h)) && i0 <= i && n <= |h| && j < n && Child(i, j)
    requires HeapFrom(h, cmp, i0, n, i) && !(cmp(h[j], h[i]) < 0)
    requires forall c | Child(i, c) && c < n :: NoWorse(cmp, h[j], h[c])
    ensures HeapFrom(h, cmp, i0, n, -1)
  {
    Flip(cmp, multiset(h), h[i], h[j]);
    forall c | Child(i, c) && c < n
      ensures NoWorse(cmp, h[i], h[c])
    {
      Transitive(cmp, multiset(h), h[i], h[j], h[c]);
    }
  }

  /** Swapping a bid with its best child, which is better, moves the exception down. */
  lemma DownKeepsHeap(h: seq<Bid>, cmp: Cmp, i0: nat, n: nat, i: nat, j: nat)
    requires i0 <= i && n <= |h| && j < n && Child(i, j)
    requires Sinking(h, cmp, i0, n, i)
    requires forall c | Child(i, c) && c < n :: NoWorse(cmp, h[j], h[c])
    requires NoWorse(cmp, h[j], h[i])
    ensures Sinking(Swapped(h, i, j), cmp, i0, n, j)
  {
    var s := Swapped(h, i, j);
    forall p, c | Child(p, c) && i0 <= p && c < n && p != j
      ensures NoWorse(cmp, s[p], s[c])
    {
      if c == i {
        assert Child(p, i) && Child(i, j);
      } else if p != i {
        assert c != j && s[p] == h[p] && s[c] == h[c];
      }
    }
    forall p, c | Child(p, j) && i0 <= p && Child(j, c) && c < n
      ensures NoWorse(cmp, s[p], s[c])
    {
      assert p == i && s[p] == h[j] && s[c] == h[c];
      assert NoWorse(cmp, h[j], h[c]);
    }
  }

  /** Heap order except between `j` and its parent, which is still no worse than the children of `j`. */
  ghost predicate HeapButOne(h: seq<Bid>, cmp: Cmp, j: int) {
    && (forall p, c | Child(p, c) && 0 <= p && c < |h| && c != j :: NoWorse(cmp, h[p], h[c]))
    && (forall p, c | Child(p, j) && 0 <= p && Child(j, c) && c < |h| && 0 <= j :: NoWorse(cmp, h[p], h[c]))
  }

  lemma UpDone(h: seq<Bid>, cmp: Cmp, j: nat)
    requires HeapButOne(h, cmp, j) && j < |h|
    requires j > 0 ==> NoWorse(cmp, h[(j - 1) / 2], h[j])
    ensures IsHeap(h, cmp)
  {
  }

  lemma PrefixHeap(h: seq<Bid>, cmp: Cmp, n: nat)
    requires n <= |h| && HeapFrom(h, cmp, 0, n, -1)
    ensures IsHeap(h[..n], cmp)
  {
  }

  lemma UpKeepsHeap(h: seq<Bid>, cmp: Cmp, i: nat, j: nat)
    requires Ranks(cmp, multiset(h)) && j < |h| && Child(i, j) && HeapButOne(h, cmp, j) && NoWorse(cmp, h[j], h[i])
    ensures HeapButOne(Swapped(h, i, j), cmp, i)
  {
    var s := Swapped(h, i, j);
    forall p, c | Child(p, c) && 0 <= p && c < |h| && c != i
      ensures NoWorse(cmp, s[p], s[c])
    {
      if p == i && c != j {
        Transitive(cmp, multiset(h), h[j], h[i], h[c]);
      } else if p == j {
        assert Child(i, j) && Child(j, c);
      }
    }
    forall p, c | Child(p, i) && 0 <= p && Child(i, c) && c < |h|
      ensures NoWorse(cmp, s[p], s[c])
    {
      if c != j {
        Transitive(cmp, multiset(h), h[p], h[i], h[c]);
      }
    }
  }

  // ---------- Sorted ----------

  ghost predicate BestFirst(cmp: Cmp, drawn: seq<Bid>) {
    forall i, j | 0 <= i < j < |drawn| :: NoWorse(cmp, drawn[i], drawn[j])
  }

  ghost predicate NoneAhead(cmp: Cmp, drawn: seq<Bid>, pool: multiset<Bid>) {
    forall i, x | 0 <= i < |drawn| && x in pool :: NoWorse(cmp, drawn[i], x)
  }

  lemma BestDrawn(cmp: Cmp, drawn: seq<Bid>, pool: multiset<Bid>, b: Bid, rest: multiset<Bid>)
    requires pool == rest + multiset{b} && BestFirst(cmp, drawn) && NoneAhead(cmp, drawn, pool)
    requires forall x | x in rest :: NoWorse(cmp, b, x)
    ensures BestFirst(cmp, drawn + [b]) && NoneAhead(cmp, drawn + [b], rest)
  {
    assert b in pool;
    forall x | x in rest ensures x in pool {}
  }

  // ---------- The best n ----------

  /** At most `left` bids of the pool are better than `y`. */
  ghost predicate Beats(cmp: Cmp, y: Bid, pool: multiset<Bid>, left: nat) {
    exists better: multiset<Bid> ::
      better <= pool && |better| <= left && forall x | x in pool - better :: NoWorse(cmp, y, x)
  }

  ghost predicate AllBeat(cmp: Cmp, drawn: seq<Bid>, pool: multiset<Bid>, left: nat) {
    forall y | y in drawn :: Beats(cmp, y, pool, left)
  }

  lemma NoneBetter(cmp: Cmp, drawn: seq<Bid>, pool: multiset<Bid>)
    requires AllBeat(cmp, drawn, pool, 0)
    ensures forall y, x | y in drawn && x in pool :: NoWorse(cmp, y, x)
  {
    forall y, x | y in drawn && x in pool
      ensures NoWorse(cmp, y, x)
    {
      assert Beats(cmp, y, pool, 0);
      var better: multiset<Bid> :| better <= pool && |better| <= 0 && forall x | x in pool - better :: NoWorse(cmp, y, x);
      assert better == multiset{};
      assert pool - better == pool;
    }
  }

  /** Taking one more bid with at most `left - 1` bids passed over leaves at most `left - 1` better ones. */
  lemma StillBeats(cmp: Cmp, m: multiset<Bid>, y: Bid, pool: multiset<Bid>, b: Bid, passed: multiset<Bid>, left: nat)
    requires Ranks(cmp, m) && y in m && pool <= m && b in pool && left > 0
    requires passed <= pool - multiset{b} && |passed| < left
    requires forall x | x in pool - multiset{b} - passed :: NoWorse(cmp, b, x)
    requires Beats(cmp, y, pool, left)
    ensures Beats(cmp, y, pool - multiset{b}, left - 1)
  {
    var rest := pool - multiset{b};
    if NoWorse(cmp, y, b) {
      forall x | x in rest - passed ensures NoWorse(cmp, y, x) { Transitive(cmp, m, y, b, x); }
    } else {
      var better :| better <= pool && |better| <= left && forall x | x in pool - better :: NoWorse(cmp, y, x);
      assert b in better;
      var fewer := better - multiset{b};
      assert rest - fewer == pool - better;
      assert |fewer| == |better| - 1 && fewer <= rest;
    }
  }

  lemma AllStillBeat(cmp: Cmp, m: multiset<Bid>, drawn: seq<Bid>, rest: multiset<Bid>, b: Bid, passed: multiset<Bid>, left: nat)
    requires Ranks(cmp, m) && multiset(drawn) <= m && rest + multiset{b} <= m && left > 0
    requires passed <= rest && |passed| < left
    requires forall x | x in rest - passed :: NoWorse(cmp, b, x)
    requires AllBeat(cmp, drawn, rest + multiset{b}, left)
    ensures AllBeat(cmp, drawn + [b], rest, left - 1)
  {
    var pool := rest + multiset{b};
    assert pool - multiset{b} == rest;
    forall y | y in drawn + [b]
      ensures Beats(cmp, y, rest, left - 1)
    {
      if y in drawn {
        assert y in multiset(drawn);
        StillBeats(cmp, m, y, pool, b, passed, left);
      }
    }
  }
}
