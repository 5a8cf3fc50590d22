/** Order-preserving filtering of a list, as Python's list comprehensions with an `if`
    and its `for ... if ...: append` loops compute it. */
module Seqs {

  /** The elements of `s` that satisfy `keep`, in their original order. */
  function Filter<T>(keep: T -> bool, s: seq<T>): (r: seq<T>)
    ensures |r| <= |s|
    ensures forall i :: 0 <= i < |r| ==> keep(r[i]) && r[i] in s
    ensures forall i :: 0 <= i < |s| && keep(s[i]) ==> s[i] in r
    decreases |s|
  {
    if s == [] then []
    else
      var last := s[|s| - 1];
      var init := Filter(keep, s[..|s| - 1]);
      assert forall i :: 0 <= i < |s| - 1 ==> s[..|s| - 1][i] == s[i];
      init + (if keep(last) then [last] else [])
  }

  /** One step of the append loop: the filter of a prefix one longer. */
  lemma FilterStep<T>(keep: T -> bool, s: seq<T>, i: int)
    requires 0 <= i < |s|
    ensures Filter(keep, s[..i + 1]) == Filter(keep, s[..i]) + (if keep(s[i]) then [s[i]] else [])
  {
    assert s[..i + 1][..i] == s[..i];
  }

  /** A filter comes back empty exactly when no element satisfies the predicate. */
  lemma {:induction false} FilterEmpty<T>(keep: T -> bool, s: seq<T>)
    ensures Filter(keep, s) == [] <==> forall i :: 0 <= i < |s| ==> !keep(s[i])
    decreases |s|
  {
    if s != [] {
      FilterEmpty(keep, s[..|s| - 1]);
      assert forall i :: 0 <= i < |s| - 1 ==> s[..|s| - 1][i] == s[i];
    }
  }

  /** The filter of a one-element list. */
  lemma FilterSingle<T>(keep: T -> bool, x: T)
    ensures Filter(keep, [x]) == if keep(x) then [x] else []
  {
    assert [x][..0] == [];
  }

  /** Filtering distributes over concatenation, so it keeps the relative order. */
  lemma {:induction false} FilterConcat<T>(keep: T -> bool, a: seq<T>, b: seq<T>)
    ensures Filter(keep, a + b) == Filter(keep, a) + Filter(keep, b)
    decreases |b|
  {
    if b == [] {
      assert a + b == a;
    } else {
      var b' := b[..|b| - 1];
      assert (a + b)[..|a + b| - 1] == a + b';
      FilterConcat(keep, a, b');
    }
  }

  /** A prefix with no element satisfying the predicate filters to nothing. */
  lemma FilterNonePrefix<T>(keep: T -> bool, s: seq<T>, i: int)
    requires 0 <= i <= |s|
    requires forall j :: 0 <= j < i ==> !keep(s[j])
    ensures Filter(keep, s[..i]) == []
  {
    assert forall j :: 0 <= j < |s[..i]| ==> s[..i][j] == s[j];
    FilterEmpty(keep, s[..i]);
  }

  /** A kept element in front stays in front. */
  lemma FilterCons<T>(keep: T -> bool, x: T, rest: seq<T>)
    requires keep(x)
    ensures Filter(keep, [x] + rest) == [x] + Filter(keep, rest)
  {
    FilterSingle(keep, x);
    FilterConcat(keep, [x], rest);
  }

  /** The first element kept is the first element satisfying the predicate. */
  lemma FilterFirst<T>(keep: T -> bool, s: seq<T>, i: int)
    requires 0 <= i < |s| && keep(s[i])
    requires forall j :: 0 <= j < i ==> !keep(s[j])
    ensures Filter(keep, s) != [] && Filter(keep, s)[0] == s[i]
  {
    var rest := s[i + 1..];
    assert s == s[..i] + ([s[i]] + rest);
    FilterNonePrefix(keep, s, i);
    FilterCons(keep, s[i], rest);
    FilterConcat(keep, s[..i], [s[i]] + rest);
  }

  /** Filtering twice with the same predicate changes nothing more. */
  lemma {:induction false} FilterIdempotent<T>(keep: T -> bool, s: seq<T>)
    ensures Filter(keep, Filter(keep, s)) == Filter(keep, s)
    decreases |s|
  {
    if s != [] {
      var last := s[|s| - 1];
      FilterIdempotent(keep, s[..|s| - 1]);
      FilterConcat(keep, Filter(keep, s[..|s| - 1]), if keep(last) then [last] else []);
      if keep(last) {
        assert Filter(keep, [last]) == Filter(keep, [last][..0]) + [last];
        assert [last][..0] == [];
      }
    }
  }

  /** A predicate every element satisfies keeps the whole list. */
  lemma {:induction false} FilterAll<T>(keep: T -> bool, s: seq<T>)
    requires forall i :: 0 <= i < |s| ==> keep(s[i])
    ensures Filter(keep, s) == s
    decreases |s|
  {
    if s != [] {
      FilterAll(keep, s[..|s| - 1]);
      assert s[..|s| - 1] + [s[|s| - 1]] == s;
    }
  }

  /** Predicates that agree on every element filter alike. */
  lemma {:induction false} FilterCongruent<T>(f: T -> bool, g: T -> bool, s: seq<T>)
    requires forall x :: f(x) == g(x)
    ensures Filter(f, s) == Filter(g, s)
    decreases |s|
  {
    if s != [] {
      FilterCongruent(f, g, s[..|s| - 1]);
    }
  }

  /** Two filters in a row are one filter by the conjunction of their predicates. */
  lemma {:induction false} FilterCompose<T>(f: T -> bool, g: T -> bool, both: T -> bool, s: seq<T>)
    requires forall x :: both(x) == (f(x) && g(x))
    ensures Filter(g, Filter(f, s)) == Filter(both, s)
    decreases |s|
  {
    if s != [] {
      var init, last := s[..|s| - 1], s[|s| - 1];
      FilterCompose(f, g, both, init);
      FilterConcat(g, Filter(f, init), if f(last) then [last] else []);
      if f(last) {
        assert Filter(g, [last]) == Filter(g, [last][..0]) + (if g(last) then [last] else []);
        assert [last][..0] == [];
      }
    }
  }
}
