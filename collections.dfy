/**
 * The collection operations the pages use: JavaScript's `Array.prototype.filter`
 * (a stable filter) and `Array.prototype.find`, and optional values.
 */
module Collections {

  datatype Option<+T> = None | Some(value: T)

  /** `r` is an order-preserving subsequence of `s`. */
  predicate Embeds<T(==)>(r: seq<T>, s: seq<T>)
    decreases |s|
  {
    if r == [] then true
    else if s == [] then false
    else if r[0] == s[0] then Embeds(r[1..], s[1..])
    else Embeds(r, s[1..])
  }

  /** `s.filter(keep)`: the elements of `s` for which `keep` holds, in their
      original order, each kept element as often as it occurs in `s`. */
  function Filter<T(==)>(s: seq<T>, keep: T -> bool): (r: seq<T>)
    ensures |r| <= |s|
    ensures forall i :: 0 <= i < |r| ==> r[i] in s && keep(r[i])
    ensures forall i :: 0 <= i < |s| && keep(s[i]) ==> s[i] in r
  {
    if s == [] then []
    else if keep(s[0]) then [s[0]] + Filter(s[1..], keep)
    else Filter(s[1..], keep)
  }

  lemma {:induction false} EmbedsReflexive<T>(s: seq<T>)
    ensures Embeds(s, s)
  {
    if s != [] {
      EmbedsReflexive(s[1..]);
    }
  }

  /** The filtered list is an order-preserving subsequence of the input. */
  lemma {:induction false} FilterEmbeds<T>(s: seq<T>, keep: T -> bool)
    ensures Embeds(Filter(s, keep), s)
  {
    if s != [] {
      FilterEmbeds(s[1..], keep);
    }
  }

  /** The filter keeps every copy of a kept element and no copy of any other. */
  lemma {:induction false} FilterCounts<T>(s: seq<T>, keep: T -> bool)
    ensures forall x :: multiset(Filter(s, keep))[x] == if keep(x) then multiset(s)[x] else 0
  {
    if s != [] {
      FilterCounts(s[1..], keep);
      assert s == [s[0]] + s[1..];
    }
  }

  /** When every element passes, filtering returns the input unchanged. */
  lemma {:induction false} FilterAllKept<T>(s: seq<T>, keep: T -> bool)
    requires forall i :: 0 <= i < |s| ==> keep(s[i])
    ensures Filter(s, keep) == s
  {
    if s != [] {
      FilterAllKept(s[1..], keep);
      assert [s[0]] + s[1..] == s;
    }
  }

  /** Filtering a filtered list again with the same predicate changes nothing. */
  lemma FilterIdempotent<T>(s: seq<T>, keep: T -> bool)
    ensures Filter(Filter(s, keep), keep) == Filter(s, keep)
  {
    var r := Filter(s, keep);
    FilterAllKept(r, keep);
  }

  /** One step of the filter on a list given by its first element. */
  lemma FilterCons<T>(x: T, s: seq<T>, keep: T -> bool)
    ensures Filter([x] + s, keep) == if keep(x) then [x] + Filter(s, keep) else Filter(s, keep)
  {
    assert ([x] + s)[1..] == s;
  }

  /** Filtering a concatenation filters each part. */
  lemma {:induction false} FilterAppend<T>(a: seq<T>, b: seq<T>, keep: T -> bool)
    ensures Filter(a + b, keep) == Filter(a, keep) + Filter(b, keep)
  {
    if a != [] {
      FilterAppend(a[1..], b, keep);
      assert (a + b)[0] == a[0];
      assert (a + b)[1..] == a[1..] + b;
    } else {
      assert a + b == b;
    }
  }

  /** A prefix whose every element passes survives the filter whole. */
  lemma FilterKeptPrefix<T>(s: seq<T>, n: nat, keep: T -> bool)
    requires n <= |s|
    requires forall i :: 0 <= i < n ==> keep(s[i])
    ensures Filter(s, keep) == s[..n] + Filter(s[n..], keep)
  {
    assert s == s[..n] + s[n..];
    FilterAppend(s[..n], s[n..], keep);
    FilterAllKept(s[..n], keep);
  }

  /** Filtering a two-element list. */
  lemma FilterPair<T>(x: T, y: T, keep: T -> bool)
    ensures Filter([x, y], keep) == (if keep(x) then [x] else []) + (if keep(y) then [y] else [])
  {
    assert [x, y][1..] == [y];
    assert [y][1..] == [];
  }

  /** Two predicates that agree on every element filter alike. */
  lemma {:induction false} FilterCongruent<T>(s: seq<T>, keep: T -> bool, keep': T -> bool)
    requires forall i :: 0 <= i < |s| ==> keep(s[i]) == keep'(s[i])
    ensures Filter(s, keep) == Filter(s, keep')
  {
    if s != [] {
      FilterCongruent(s[1..], keep, keep');
    }
  }

  /** `s.find(matches)`: the first element satisfying `matches`, if any. */
  function Find<T>(s: seq<T>, matches: T -> bool): (r: Option<T>)
    ensures r.None? <==> forall i :: 0 <= i < |s| ==> !matches(s[i])
    ensures r.Some? ==> exists i :: 0 <= i < |s| && s[i] == r.value && matches(s[i])
                                   && forall j :: 0 <= j < i ==> !matches(s[j])
  {
    if s == [] then None
    else if matches(s[0]) then Some(s[0])
    else
      var r := Find(s[1..], matches);
      assert r.Some? ==> exists i :: 0 <= i < |s| - 1 && s[1..][i] == r.value && matches(s[1..][i])
                                     && forall j :: 0 <= j < i ==> !matches(s[1..][j]);
      r
  }
}
