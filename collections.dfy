/** The array operations the catalog is queried with: `Array.prototype.filter`,
    `Array.prototype.find`, and the categorical "all or one value" selector. */
module Collections {

  datatype Option<T> = None | Some(value: T)

  /** A categorical filter choice: the sentinel "all", or one value of the field. */
  datatype Selector<T(==)> = All | Only(value: T)
  {
    /** "all" passes every value; otherwise the field must equal the chosen value. */
    predicate Admits(v: T)
    {
      All? || value == v
    }
  }

  /** One filter button of a catalog page: the value it selects, its title
      and the number shown on its badge. */
  datatype Facet<T(==)> = Facet(value: Selector<T>, title: string, count: nat)

  /** The "Showing X of Y" line of a catalog page: X entries shown out of Y. */
  datatype ResultsSummary = ResultsSummary(shown: nat, total: nat)

  /** `a` is `b` with some elements dropped and the rest kept in their order. */
  predicate IsSubsequence<T(==)>(a: seq<T>, b: seq<T>)
    decreases |b|
  {
    if a == [] then true
    else if b == [] then false
    else (a[0] == b[0] && IsSubsequence(a[1..], b[1..])) || IsSubsequence(a, b[1..])
  }

  lemma {:induction false} SubsequenceBounds<T>(a: seq<T>, b: seq<T>)
    requires IsSubsequence(a, b)
    ensures |a| <= |b|
    ensures forall x :: x in a ==> x in b
    decreases |b|
  {
    if a != [] {
      if a[0] == b[0] && IsSubsequence(a[1..], b[1..]) {
        SubsequenceBounds(a[1..], b[1..]);
        assert forall x :: x in a ==> x == a[0] || x in a[1..];
      } else {
        SubsequenceBounds(a, b[1..]);
      }
    }
  }

  lemma {:induction false} SubsequenceTransitive<T>(a: seq<T>, b: seq<T>, c: seq<T>)
    requires IsSubsequence(a, b) && IsSubsequence(b, c)
    ensures IsSubsequence(a, c)
    decreases |c|
  {
    if a != [] {
      assert b != [] && c != [];
      if b[0] == c[0] && IsSubsequence(b[1..], c[1..]) {
        if a[0] == b[0] && IsSubsequence(a[1..], b[1..]) {
          SubsequenceTransitive(a[1..], b[1..], c[1..]);
        } else {
          SubsequenceTransitive(a, b[1..], c[1..]);
        }
      } else {
        SubsequenceTransitive(a, b, c[1..]);
      }
    }
  }

  /** `xs.filter(keep)`: the elements that pass, in their original order.
      What the result holds is stated by `FilterMembers` and `FilterSubsequence`. */
  function Filter<T>(xs: seq<T>, keep: T -> bool): (r: seq<T>)
    ensures |r| <= |xs|
    ensures forall i :: 0 <= i < |r| ==> keep(r[i])
  {
    if xs == [] then []
    else if keep(xs[0]) then [xs[0]] + Filter(xs[1..], keep)
    else Filter(xs[1..], keep)
  }

  /** An element is kept exactly when it is in `xs` and passes the test. */
  lemma {:induction false} FilterMembers<T>(xs: seq<T>, keep: T -> bool)
    ensures forall i :: 0 <= i < |Filter(xs, keep)| ==> Filter(xs, keep)[i] in xs
    ensures forall i :: 0 <= i < |xs| && keep(xs[i]) ==> xs[i] in Filter(xs, keep)
  {
    if xs != [] {
      FilterMembers(xs[1..], keep);
      assert forall i :: 1 <= i < |xs| ==> xs[i] == xs[1..][i - 1];
    }
  }

  /** The kept elements appear in `xs` in the same order. */
  lemma {:induction false} FilterSubsequence<T>(xs: seq<T>, keep: T -> bool)
    ensures IsSubsequence(Filter(xs, keep), xs)
  {
    if xs != [] {
      FilterSubsequence(xs[1..], keep);
      var rest := Filter(xs[1..], keep);
      if keep(xs[0]) {
        assert ([xs[0]] + rest)[1..] == rest;
      }
    }
  }

  /** Filtering distributes over concatenation. */
  lemma {:induction false} FilterAppend<T>(a: seq<T>, b: seq<T>, keep: T -> bool)
    ensures Filter(a + b, keep) == Filter(a, keep) + Filter(b, keep)
  {
    if a == [] {
      assert a + b == b;
    } else {
      FilterAppend(a[1..], b, keep);
      assert (a + b)[1..] == a[1..] + b;
    }
  }

  /** When every element passes, the filter gives back the whole sequence. */
  lemma {:induction false} FilterKeepsAll<T>(xs: seq<T>, keep: T -> bool)
    requires forall x :: x in xs ==> keep(x)
    ensures Filter(xs, keep) == xs
  {
    if xs != [] {
      FilterKeepsAll(xs[1..], keep);
    }
  }

  /** A stricter test keeps a subsequence of what a looser test keeps. */
  lemma {:induction false} FilterNarrows<T>(xs: seq<T>, loose: T -> bool, strict: T -> bool)
    requires forall x :: x in xs && strict(x) ==> loose(x)
    ensures IsSubsequence(Filter(xs, strict), Filter(xs, loose))
  {
    if xs != [] {
      FilterNarrows(xs[1..], loose, strict);
    }
  }

  /** Two tests that agree on every element keep the same elements. */
  lemma {:induction false} FilterCongruent<T>(xs: seq<T>, p: T -> bool, q: T -> bool)
    requires forall x :: x in xs ==> p(x) == q(x)
    ensures Filter(xs, p) == Filter(xs, q)
  {
    if xs != [] {
      FilterCongruent(xs[1..], p, q);
    }
  }

  /** `xs.find(hit)`: the first element that passes, or nothing when none does. */
  function Find<T>(xs: seq<T>, hit: T -> bool): (r: Option<T>)
    ensures r.None? <==> forall i :: 0 <= i < |xs| ==> !hit(xs[i])
    ensures r.Some? ==>
      (exists i :: 0 <= i < |xs| && xs[i] == r.value && hit(xs[i]) && (forall j :: 0 <= j < i ==> !hit(xs[j])))
  {
    if xs == [] then None
    else if hit(xs[0]) then Some(xs[0])
    else
      var rest := Find(xs[1..], hit);
      assert forall j :: 1 <= j < |xs| ==> xs[j] == xs[1..][j - 1];
      rest
  }

  /** `xs.map(key)`: one field of every element, in order. */
  function Project<T, K>(xs: seq<T>, key: T -> K): (r: seq<K>)
    ensures |r| == |xs|
    ensures forall i :: 0 <= i < |xs| ==> r[i] == key(xs[i])
  {
    if xs == [] then [] else [key(xs[0])] + Project(xs[1..], key)
  }

  /** A test that asks whether an element's field equals `k` keeps as many
      elements as there are occurrences of `k` in that field's column. */
  lemma {:induction false} FilterCountByKey<T, K>(xs: seq<T>, keep: T -> bool, key: T -> K, k: K)
    requires forall x :: keep(x) == (key(x) == k)
    ensures |Filter(xs, keep)| == multiset(Project(xs, key))[k]
  {
    if xs != [] {
      FilterCountByKey(xs[1..], keep, key, k);
      assert Project(xs, key) == [key(xs[0])] + Project(xs[1..], key);
    }
  }

  /** The column of a ten-element sequence, written out. */
  lemma ProjectOfTen<T, K>(xs: seq<T>, key: T -> K)
    requires |xs| == 10
    ensures Project(xs, key) == [key(xs[0]), key(xs[1]), key(xs[2]), key(xs[3]), key(xs[4]),
                                 key(xs[5]), key(xs[6]), key(xs[7]), key(xs[8]), key(xs[9])]
  {
  }

  /** When no element passes, nothing is kept. */
  lemma FilterNone<T>(xs: seq<T>, keep: T -> bool)
    requires forall i :: 0 <= i < |xs| ==> !keep(xs[i])
    ensures Filter(xs, keep) == []
  {
    FilterMembers(xs, keep);
  }
}
