/** Sequence operations that the source takes from JavaScript arrays: `findIndex`, `find`, `filter`
    and de-duplication through a `Set`, which keeps first-insertion order. */
module Seqs {
  import opened Wrappers

  /** The first element satisfying `p` (`Array.prototype.find`). */
  function Find<T>(xs: seq<T>, p: T -> bool): (r: Option<T>)
    ensures r.None? <==> forall i :: 0 <= i < |xs| ==> !p(xs[i])
    ensures r.Some? ==> exists i :: 0 <= i < |xs| && xs[i] == r.value && p(xs[i]) &&
                                   forall j :: 0 <= j < i ==> !p(xs[j])
  {
    if |xs| == 0 then None
    else if p(xs[0]) then Some(xs[0])
    else
      var r := Find(xs[1..], p);
      assert forall i :: 0 < i < |xs| ==> xs[i] == xs[1..][i - 1];
      r
  }

  /** Appending an element changes what `find` reports only when nothing earlier passed. */
  lemma {:induction false} FindAppend<T>(xs: seq<T>, x: T, p: T -> bool)
    ensures Find(xs + [x], p) == if Find(xs, p).Some? then Find(xs, p) else if p(x) then Some(x) else None
  {
    if |xs| > 0 {
      assert (xs + [x])[0] == xs[0] && (xs + [x])[1..] == xs[1..] + [x];
      FindAppend(xs[1..], x, p);
    }
  }

  /** The elements satisfying `p`, in their original order (`Array.prototype.filter`). */
  function Filter<T>(xs: seq<T>, p: T -> bool): (r: seq<T>)
    ensures |r| <= |xs|
    ensures forall i :: 0 <= i < |r| ==> p(r[i]) && r[i] in xs
    ensures forall i :: 0 <= i < |xs| && p(xs[i]) ==> xs[i] in r
  {
    if |xs| == 0 then []
    else (if p(xs[0]) then [xs[0]] else []) + Filter(xs[1..], p)
  }

  /** `filter` distributes over concatenation; with `FilterOne` this fixes order and
      multiplicity. */
  lemma {:induction false} FilterAppend<T>(xs: seq<T>, ys: seq<T>, p: T -> bool)
    ensures Filter([], p) == []
    ensures Filter(xs + ys, p) == Filter(xs, p) + Filter(ys, p)
  {
    if |xs| > 0 {
      assert (xs + ys)[0] == xs[0] && (xs + ys)[1..] == xs[1..] + ys;
      FilterAppend(xs[1..], ys, p);
    } else {
      assert xs + ys == ys;
    }
  }

  /** A single element is kept exactly when it passes. */
  lemma FilterOne<T>(x: T, p: T -> bool)
    ensures Filter([x], p) == if p(x) then [x] else []
  {
  }

  /** Looking for `q` among the elements that pass `p` finds the first element that passes both. */
  lemma {:induction false} FindInFilter<T>(xs: seq<T>, p: T -> bool, q: T -> bool, pq: T -> bool)
    requires forall x :: pq(x) == (p(x) && q(x))
    ensures Find(Filter(xs, p), q) == Find(xs, pq)
  {
    if |xs| > 0 {
      FindInFilter(xs[1..], p, q, pq);
      var f := Filter(xs, p);
      if p(xs[0]) {
        assert f == [xs[0]] + Filter(xs[1..], p);
        assert f[0] == xs[0] && f[1..] == Filter(xs[1..], p);
      } else {
        assert f == Filter(xs[1..], p);
      }
    }
  }

  /** The first element of a filtered sequence is the first element that passes the filter. */
  lemma {:induction false} FilterHead<T>(xs: seq<T>, p: T -> bool)
    ensures |Filter(xs, p)| > 0 ==> Find(xs, p) == Some(Filter(xs, p)[0])
    ensures |Filter(xs, p)| == 0 <==> Find(xs, p).None?
  {
    if |xs| > 0 {
      FilterHead(xs[1..], p);
      if !p(xs[0]) {
        assert Filter(xs, p) == Filter(xs[1..], p);
      }
    }
  }

  /** No element occurs twice. */
  predicate NoDuplicates<T(==)>(xs: seq<T>) {
    forall i, j :: 0 <= i < j < |xs| ==> xs[i] != xs[j]
  }

  /** Position of the first occurrence of `x` in `xs`. */
  function FirstIndexOf<T(==)>(xs: seq<T>, x: T): (r: nat)
    requires x in xs
    ensures r < |xs| && xs[r] == x
    ensures forall j :: 0 <= j < r ==> xs[j] != x
  {
    if xs[0] == x then 0 else 1 + FirstIndexOf(xs[1..], x)
  }

  /** The distinct elements of `xs` in first-occurrence order: `[...new Set(xs)]`. */
  function Dedupe<T(==)>(xs: seq<T>): (r: seq<T>)
    decreases |xs|
  {
    if |xs| == 0 then []
    else
      var r := Dedupe(xs[..|xs| - 1]);
      if xs[|xs| - 1] in r then r else r + [xs[|xs| - 1]]
  }

  lemma {:induction false} FirstIndexOfPrefix<T>(xs: seq<T>, n: nat, x: T)
    requires n <= |xs| && x in xs[..n]
    ensures x in xs && FirstIndexOf(xs, x) == FirstIndexOf(xs[..n], x)
  {
    var k := FirstIndexOf(xs[..n], x);
    assert xs[k] == xs[..n][k];
    var m := FirstIndexOf(xs, x);
  }

  /** `Dedupe` keeps exactly the elements of its input, once each, ordered by first occurrence. */
  lemma {:induction false} DedupeSpec<T>(xs: seq<T>)
    ensures forall i :: 0 <= i < |Dedupe(xs)| ==> Dedupe(xs)[i] in xs
    ensures forall i :: 0 <= i < |xs| ==> xs[i] in Dedupe(xs)
    ensures NoDuplicates(Dedupe(xs))
    ensures forall i, j :: 0 <= i < j < |Dedupe(xs)| ==>
              FirstIndexOf(xs, Dedupe(xs)[i]) < FirstIndexOf(xs, Dedupe(xs)[j])
    decreases |xs|
  {
    if |xs| > 0 {
      var n := |xs| - 1;
      var init := xs[..n];
      var last := xs[n];
      DedupeSpec(init);
      var r := Dedupe(init);
      assert xs == init + [last];
      assert forall i :: 0 <= i < n ==> xs[i] == init[i];
      forall i | 0 <= i < |r| ensures r[i] in xs && FirstIndexOf(xs, r[i]) == FirstIndexOf(init, r[i]) {
        FirstIndexOfPrefix(xs, n, r[i]);
      }
      if last !in r {
        assert last !in init;
        assert FirstIndexOf(xs, last) == n;
        var r' := r + [last];
        forall i, j | 0 <= i < j < |r'|
          ensures FirstIndexOf(xs, r'[i]) < FirstIndexOf(xs, r'[j])
        {
          assert r'[i] == r[i];
          if j < |r| {
            assert r'[j] == r[j];
          } else {
            assert FirstIndexOf(init, r[i]) < n;
          }
        }
      }
    }
  }

  /** A sequence without duplicates is its own de-duplication. */
  lemma {:induction false} DedupeDistinct<T>(xs: seq<T>)
    requires NoDuplicates(xs)
    ensures Dedupe(xs) == xs
    decreases |xs|
  {
    if |xs| > 0 {
      var n := |xs| - 1;
      var init := xs[..n];
      assert NoDuplicates(init) by {
        forall i, j | 0 <= i < j < n ensures init[i] != init[j] {
          assert init[i] == xs[i] && init[j] == xs[j];
        }
      }
      DedupeDistinct(init);
      assert xs[n] !in init by {
        forall i | 0 <= i < n ensures init[i] != xs[n] {
          assert init[i] == xs[i];
        }
      }
      assert init + [xs[n]] == xs;
    }
  }

  /** Filtering with a test every element passes keeps the sequence. */
  lemma {:induction false} FilterAll<T>(xs: seq<T>, p: T -> bool)
    requires forall i :: 0 <= i < |xs| ==> p(xs[i])
    ensures Filter(xs, p) == xs
  {
    if |xs| > 0 {
      FilterAll(xs[1..], p);
      assert [xs[0]] + xs[1..] == xs;
    }
  }
}
