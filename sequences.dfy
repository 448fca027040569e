/** Filtering and flattening of sequences, for any element type. */
module Sequences {

  /** `[x for x in xs if keep(x)]`. */
  function Filter<T>(xs: seq<T>, keep: T -> bool): (r: seq<T>)
    ensures |r| <= |xs|
  {
    if xs == [] then [] else Filter(xs[..|xs| - 1], keep) + (if keep(xs[|xs| - 1]) then [xs[|xs| - 1]] else [])
  }

  /** Filtering commutes with appending. */
  lemma {:induction false} FilterAppend<T>(a: seq<T>, b: seq<T>, keep: T -> bool)
    ensures Filter(a + b, keep) == Filter(a, keep) + Filter(b, keep)
  {
    if b != [] {
      var b' := b[..|b| - 1];
      FilterAppend(a, b', keep);
      assert (a + b)[..|a + b| - 1] == a + b';
    } else {
      assert a + b == a;
    }
  }

  /** When the test gives the same answer on every element, all or nothing is kept. */
  lemma {:induction false} FilterUniform<T>(xs: seq<T>, keep: T -> bool, m: bool)
    requires forall i :: 0 <= i < |xs| ==> keep(xs[i]) == m
    ensures m ==> Filter(xs, keep) == xs
    ensures !m ==> Filter(xs, keep) == []
  {
    if xs != [] {
      FilterUniform(xs[..|xs| - 1], keep, m);
      if m {
        assert xs == xs[..|xs| - 1] + [xs[|xs| - 1]];
      }
    }
  }

  /** Nothing is dropped exactly when every element passes the test. */
  lemma {:induction false} FilterKeepsAll<T>(xs: seq<T>, keep: T -> bool)
    ensures |Filter(xs, keep)| == |xs| <==> forall i :: 0 <= i < |xs| ==> keep(xs[i])
  {
    if xs != [] {
      var init := xs[..|xs| - 1];
      FilterKeepsAll(init, keep);
      if !keep(xs[|xs| - 1]) {
        assert |Filter(xs, keep)| == |Filter(init, keep)| <= |init|;
      } else if |Filter(xs, keep)| == |xs| {
        forall i | 0 <= i < |xs| ensures keep(xs[i]) {
          if i < |xs| - 1 {
            assert xs[i] == init[i];
          }
        }
      } else {
        assert !forall i :: 0 <= i < |init| ==> keep(init[i]);
        var i :| 0 <= i < |init| && !keep(init[i]);
        assert xs[i] == init[i];
      }
    }
  }

  /** Every element that is kept is an element that passes the test. */
  lemma {:induction false} FilterMembers<T>(xs: seq<T>, keep: T -> bool)
    ensures forall x :: x in Filter(xs, keep) <==> x in xs && keep(x)
  {
    if xs != [] {
      FilterMembers(xs[..|xs| - 1], keep);
      assert xs == xs[..|xs| - 1] + [xs[|xs| - 1]];
    }
  }

  /** The first `k` runs of `q`, one after the other. */
  function Flat<T>(q: seq<seq<T>>, k: nat): seq<T>
    requires k <= |q|
  {
    if k == 0 then [] else Flat(q, k - 1) + q[k - 1]
  }

  /** The first `k` runs flattened begin the first `m` runs flattened. */
  lemma {:induction false} FlatPrefix<T>(q: seq<seq<T>>, k: nat, m: nat)
    requires k <= m <= |q|
    ensures |Flat(q, k)| <= |Flat(q, m)|
    ensures Flat(q, m)[..|Flat(q, k)|] == Flat(q, k)
  {
    if k < m {
      FlatPrefix(q, k, m - 1);
      assert Flat(q, m) == Flat(q, m - 1) + q[m - 1];
    }
  }

  /** Empty runs flatten to nothing. */
  lemma {:induction false} FlatEmpty<T>(q: seq<seq<T>>, k: nat)
    requires k <= |q|
    requires forall i :: 0 <= i < k ==> q[i] == []
    ensures Flat(q, k) == []
  {
    if k > 0 {
      FlatEmpty(q, k - 1);
    }
  }

  /** When of the first `k` runs only the `j`-th may be non-empty, they flatten to it. */
  lemma {:induction false} FlatOne<T>(q: seq<seq<T>>, k: nat, j: nat)
    requires j < k <= |q|
    requires forall i :: 0 <= i < k && i != j ==> q[i] == []
    ensures Flat(q, k) == q[j]
  {
    if k - 1 == j {
      FlatEmpty(q, j);
    } else {
      FlatOne(q, k - 1, j);
    }
  }

  /** Each run of `q`, filtered. */
  function FilterEach<T>(q: seq<seq<T>>, keep: T -> bool): (r: seq<seq<T>>)
    ensures |r| == |q|
    ensures forall i :: 0 <= i < |q| ==> r[i] == Filter(q[i], keep)
  {
    seq(|q|, i requires 0 <= i < |q| => Filter(q[i], keep))
  }

  /** Filtering the flattened runs is flattening the filtered runs. */
  lemma {:induction false} FilterFlat<T>(q: seq<seq<T>>, k: nat, keep: T -> bool)
    requires k <= |q|
    ensures Filter(Flat(q, k), keep) == Flat(FilterEach(q, keep), k)
  {
    if k > 0 {
      FilterFlat(q, k - 1, keep);
      FilterAppend(Flat(q, k - 1), q[k - 1], keep);
    }
  }

  /** `[f(x) for x in xs]`. */
  function Map<A, B>(xs: seq<A>, f: A -> B): (r: seq<B>)
    ensures |r| == |xs|
    ensures forall i :: 0 <= i < |xs| ==> r[i] == f(xs[i])
  {
    seq(|xs|, i requires 0 <= i < |xs| => f(xs[i]))
  }

  /** Mapping one more element appends its image. */
  lemma MapSnoc<A, B>(xs: seq<A>, i: nat, f: A -> B)
    requires i < |xs|
    ensures Map(xs[..i + 1], f) == Map(xs[..i], f) + [f(xs[i])]
  {
  }
}
