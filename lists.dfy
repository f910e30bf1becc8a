/** `Array.prototype.filter` and the facts every list view relies on: the result
    is an order-preserving subsequence holding exactly the items that pass. */
module Lists {

  /** `xs.filter(keep)`. */
  function Filter<T>(xs: seq<T>, keep: T -> bool): seq<T> {
    if xs == [] then []
    else (if keep(xs[0]) then [xs[0]] else []) + Filter(xs[1..], keep)
  }

  /** `a` can be obtained from `b` by deleting elements, keeping the order of the rest. */
  predicate IsSubsequence<T(==)>(a: seq<T>, b: seq<T>)
    decreases |b|
  {
    if b == [] then a == []
    else (a != [] && a[0] == b[0] && IsSubsequence(a[1..], b[1..])) || IsSubsequence(a, b[1..])
  }

  /** The filtered list keeps its items in their original order. */
  lemma {:induction false} FilterIsSubsequence<T>(xs: seq<T>, keep: T -> bool)
    ensures IsSubsequence(Filter(xs, keep), xs)
  {
    if xs != [] {
      FilterIsSubsequence(xs[1..], keep);
      var rest := Filter(xs[1..], keep);
      if keep(xs[0]) {
        var f := Filter(xs, keep);
        assert f == [xs[0]] + rest;
        assert f != [] && f[0] == xs[0] && f[1..] == rest;
        assert IsSubsequence(f[1..], xs[1..]);
      } else {
        assert Filter(xs, keep) == rest;
      }
    }
  }

  /** Subsequences compose. */
  lemma {:induction false} SubsequenceTransitive<T>(a: seq<T>, b: seq<T>, c: seq<T>)
    requires IsSubsequence(a, b) && IsSubsequence(b, c)
    ensures IsSubsequence(a, c)
    decreases |c|
  {
    if c != [] {
      if b != [] && b[0] == c[0] && IsSubsequence(b[1..], c[1..]) {
        if a != [] && a[0] == b[0] && IsSubsequence(a[1..], b[1..]) {
          SubsequenceTransitive(a[1..], b[1..], c[1..]);
        } else {
          SubsequenceTransitive(a, b[1..], c[1..]);
        }
      } else {
        SubsequenceTransitive(a, b, c[1..]);
      }
    }
  }

  /** Appending the same item to both keeps a subsequence; appending to the larger one alone does too. */
  lemma {:induction false} SubsequenceAppend<T>(a: seq<T>, b: seq<T>, x: T)
    requires IsSubsequence(a, b)
    ensures IsSubsequence(a + [x], b + [x])
    ensures IsSubsequence(a, b + [x])
    decreases |b|
  {
    if b == [] {
      assert (a + [x])[1..] == [];
      assert ([] + [x])[1..] == [];
    } else {
      assert (b + [x])[1..] == b[1..] + [x];
      if a != [] && a[0] == b[0] && IsSubsequence(a[1..], b[1..]) {
        SubsequenceAppend(a[1..], b[1..], x);
        assert (a + [x])[1..] == a[1..] + [x];
      } else {
        SubsequenceAppend(a, b[1..], x);
      }
    }
  }

  /** An item is in the filtered list exactly when it is in the list and passes. */
  lemma {:induction false} FilterMembership<T>(xs: seq<T>, keep: T -> bool, x: T)
    ensures x in Filter(xs, keep) <==> x in xs && keep(x)
  {
    if xs != [] {
      FilterMembership(xs[1..], keep, x);
      assert xs == [xs[0]] + xs[1..];
    }
  }

  /** `FilterMembership` for every item at once. */
  lemma FilterMembershipAll<T>(xs: seq<T>, keep: T -> bool)
    ensures forall x :: x in Filter(xs, keep) <==> x in xs && keep(x)
  {
    forall x ensures x in Filter(xs, keep) <==> x in xs && keep(x) {
      FilterMembership(xs, keep, x);
    }
  }

  /** The filtered list holds every passing item as often as the list does, and
      no other item. */
  lemma {:induction false} FilterMultiplicity<T>(xs: seq<T>, keep: T -> bool, x: T)
    ensures multiset(Filter(xs, keep))[x] == if keep(x) then multiset(xs)[x] else 0
  {
    if xs != [] {
      FilterMultiplicity(xs[1..], keep, x);
      var head := if keep(xs[0]) then [xs[0]] else [];
      assert xs == [xs[0]] + xs[1..];
      assert multiset(xs) == multiset([xs[0]]) + multiset(xs[1..]);
      assert Filter(xs, keep) == head + Filter(xs[1..], keep);
      assert multiset(Filter(xs, keep)) == multiset(head) + multiset(Filter(xs[1..], keep));
    }
  }

  /** `FilterMultiplicity` for every item at once. */
  lemma FilterMultiplicityAll<T>(xs: seq<T>, keep: T -> bool)
    ensures forall x :: multiset(Filter(xs, keep))[x] == if keep(x) then multiset(xs)[x] else 0
  {
    forall x ensures multiset(Filter(xs, keep))[x] == if keep(x) then multiset(xs)[x] else 0 {
      FilterMultiplicity(xs, keep, x);
    }
  }

  /** When every item passes, nothing is dropped. */
  lemma {:induction false} FilterKeepsAll<T>(xs: seq<T>, keep: T -> bool)
    requires forall i | 0 <= i < |xs| :: keep(xs[i])
    ensures Filter(xs, keep) == xs
  {
    if xs != [] {
      FilterKeepsAll(xs[1..], keep);
    }
  }

  /** Filtering is empty exactly when no item passes. */
  lemma {:induction false} FilterEmptyIffNonePass<T>(xs: seq<T>, keep: T -> bool)
    ensures Filter(xs, keep) == [] <==> forall i | 0 <= i < |xs| :: !keep(xs[i])
  {
    if xs != [] {
      FilterEmptyIffNonePass(xs[1..], keep);
      if !keep(xs[0]) {
        forall i | 0 <= i < |xs[1..]| ensures xs[1..][i] == xs[i + 1] { }
      }
    }
  }

  /** A stricter test keeps a subsequence of what a looser test keeps. */
  lemma {:induction false} FilterNarrowing<T>(xs: seq<T>, strict: T -> bool, loose: T -> bool)
    requires forall x :: strict(x) ==> loose(x)
    ensures IsSubsequence(Filter(xs, strict), Filter(xs, loose))
  {
    if xs != [] {
      FilterNarrowing(xs[1..], strict, loose);
      var a := Filter(xs[1..], strict);
      var b := Filter(xs[1..], loose);
      if strict(xs[0]) {
        var fs, fl := Filter(xs, strict), Filter(xs, loose);
        assert fs == [xs[0]] + a && fl == [xs[0]] + b;
        assert fs != [] && fl != [] && fs[0] == fl[0] && fs[1..] == a && fl[1..] == b;
      } else if loose(xs[0]) {
        assert Filter(xs, strict) == a;
        assert Filter(xs, loose) == [xs[0]] + b && ([xs[0]] + b)[1..] == b;
      } else {
        assert Filter(xs, strict) == a && Filter(xs, loose) == b;
      }
    }
  }

  /** Filtering twice by the same test is filtering once. */
  lemma {:induction false} FilterIdempotent<T>(xs: seq<T>, keep: T -> bool)
    ensures Filter(Filter(xs, keep), keep) == Filter(xs, keep)
  {
    if xs != [] {
      FilterIdempotent(xs[1..], keep);
      var rest := Filter(xs[1..], keep);
      if keep(xs[0]) {
        var f := [xs[0]] + rest;
        assert f != [] && f[0] == xs[0] && f[1..] == rest;
        assert Filter(f, keep) == [xs[0]] + Filter(rest, keep);
      } else {
        assert Filter(xs, keep) == rest;
      }
    }
  }
}
