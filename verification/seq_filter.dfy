/**
 * Order-preserving selection and per-element projection over sequences: the
 * shapes of an ORM `.filter(...).all()` query and of a loop that appends one
 * record per element.
 */
module SeqFilter {
  import opened Wrappers

  /** `a` can be obtained from `b` by deleting elements, keeping the rest in order. */
  predicate IsSubsequence<T(==)>(a: seq<T>, b: seq<T>)
    decreases |b|
  {
    |a| == 0 ||
    (|b| > 0 && ((a[0] == b[0] && IsSubsequence(a[1..], b[1..])) || IsSubsequence(a, b[1..])))
  }

  /** The elements of `xs` that satisfy `p`, in their original order and with their multiplicity. */
  function Filter<T(==,!new)>(xs: seq<T>, p: T -> bool): (r: seq<T>)
    ensures forall i :: 0 <= i < |r| ==> p(r[i])
    ensures forall x :: x in r <==> x in xs && p(x)
    ensures IsSubsequence(r, xs)
    decreases |xs|
  {
    if |xs| == 0 then []
    else
      var rest := Filter(xs[1..], p);
      if p(xs[0]) then
        assert ([xs[0]] + rest)[1..] == rest;
        [xs[0]] + rest
      else
        rest
  }

  /** The filter keeps every copy of each element that satisfies `p`, and nothing else. */
  lemma {:induction false} FilterMultiset<T(!new)>(xs: seq<T>, p: T -> bool)
    ensures forall x :: multiset(Filter(xs, p))[x] == if p(x) then multiset(xs)[x] else 0
    decreases |xs|
  {
    if |xs| > 0 {
      FilterMultiset(xs[1..], p);
      assert xs == [xs[0]] + xs[1..];
    }
  }

  /**
   * One projected record per element of `xs`, in the same order, or nothing
   * when the projection of any element fails.
   */
  function ProjectAll<T(==), D>(xs: seq<T>, f: T -> Option<D>): (r: Option<seq<D>>)
    ensures r.None? <==> exists x :: x in xs && f(x).None?
    ensures r.Some? ==> |r.value| == |xs| && forall i :: 0 <= i < |xs| ==> f(xs[i]) == Some(r.value[i])
    decreases |xs|
  {
    if |xs| == 0 then Some([])
    else
      match f(xs[0])
      case None => None
      case Some(d) =>
        match ProjectAll(xs[1..], f)
        case None =>
          assert exists x :: x in xs[1..] && f(x).None?;
          None
        case Some(rest) => Some([d] + rest)
  }

  /**
   * When every element satisfies exactly one of three predicates, the three
   * filters together hold every element of `xs` exactly as often as `xs` does.
   */
  lemma FilterSplit3<T(!new)>(xs: seq<T>, p: T -> bool, q: T -> bool, e: T -> bool)
    requires forall x :: x in xs ==> (p(x) && !q(x) && !e(x)) || (!p(x) && q(x) && !e(x)) || (!p(x) && !q(x) && e(x))
    ensures multiset(Filter(xs, p)) + multiset(Filter(xs, q)) + multiset(Filter(xs, e)) == multiset(xs)
    ensures |Filter(xs, p)| + |Filter(xs, q)| + |Filter(xs, e)| == |xs|
  {
    var fp, fq, fe := Filter(xs, p), Filter(xs, q), Filter(xs, e);
    FilterMultiset(xs, p);
    FilterMultiset(xs, q);
    FilterMultiset(xs, e);
    forall x
      ensures (multiset(fp) + multiset(fq) + multiset(fe))[x] == multiset(xs)[x]
    {
      if x !in xs {
        assert multiset(xs)[x] == 0;
      }
    }
    assert multiset(fp) + multiset(fq) + multiset(fe) == multiset(xs);
    assert |multiset(fp) + multiset(fq) + multiset(fe)| == |multiset(xs)|;
  }
}
