/**
 * The three ways the modelled code reads a table: every row that an index range
 * selects (`.collect()`), a prefix of them (`.take(n)`), and the first of them
 * (`.first()`). Rows are kept in insertion order.
 */
module Seqs {
  import opened Wrappers

  /** The elements of `s` that satisfy `p`, in their order in `s`. */
  function Filter<T>(s: seq<T>, p: T -> bool): (r: seq<T>)
    ensures |r| <= |s|
    ensures forall i :: 0 <= i < |r| ==> r[i] in s && p(r[i])
    ensures forall i :: 0 <= i < |s| && p(s[i]) ==> s[i] in r
    decreases |s|
  {
    if s == [] then []
    else Filter(s[..|s| - 1], p) + (if p(s[|s| - 1]) then [s[|s| - 1]] else [])
  }

  /**
   * The indices of the elements that satisfy `p`, in increasing order: every entry
   * is such an index, and every such index is an entry.
   */
  function Positions<T>(s: seq<T>, p: T -> bool): (pos: seq<nat>)
    ensures forall i :: 0 <= i < |pos| ==> pos[i] < |s| && p(s[pos[i]])
    ensures forall i, j :: 0 <= i < j < |pos| ==> pos[i] < pos[j]
    ensures forall k :: 0 <= k < |s| && p(s[k]) ==> k in pos
    decreases |s|
  {
    if s == [] then []
    else
      var n := |s| - 1;
      var init := Positions(s[..n], p);
      assert forall i :: 0 <= i < |init| ==> s[..n][init[i]] == s[init[i]];
      init + (if p(s[n]) then [n] else [])
  }

  /**
   * `Filter` keeps exactly the elements at `Positions`, in that order: the result
   * is the input with the non-matching elements taken out, nothing reordered and
   * nothing repeated.
   */
  lemma {:induction false} FilterAtPositions<T>(s: seq<T>, p: T -> bool)
    ensures |Filter(s, p)| == |Positions(s, p)|
    ensures forall i :: 0 <= i < |Filter(s, p)| ==> Filter(s, p)[i] == s[Positions(s, p)[i]]
    decreases |s|
  {
    if s != [] {
      var n := |s| - 1;
      FilterAtPositions(s[..n], p);
      var f, pos := Filter(s[..n], p), Positions(s[..n], p);
      assert Filter(s, p) == f + (if p(s[n]) then [s[n]] else []);
      assert Positions(s, p) == pos + (if p(s[n]) then [n] else []);
      forall i | 0 <= i < |f|
        ensures Filter(s, p)[i] == s[Positions(s, p)[i]]
      {
        assert s[..n][pos[i]] == s[pos[i]];
      }
    }
  }

  /** Appending an element appends it to the filtered sequence exactly when it is selected. */
  lemma FilterAppend<T>(s: seq<T>, x: T, p: T -> bool)
    ensures Filter(s + [x], p) == Filter(s, p) + (if p(x) then [x] else [])
  {
    assert (s + [x])[..|s + [x]| - 1] == s;
  }

  /** Replacing an element by one that the predicate treats alike keeps the filtered length. */
  lemma {:induction false} FilterUpdateLength<T>(s: seq<T>, i: nat, y: T, p: T -> bool)
    requires i < |s|
    requires p(y) == p(s[i])
    ensures |Filter(s[i := y], p)| == |Filter(s, p)|
    decreases |s|
  {
    var n := |s| - 1;
    if i == n {
      assert s[i := y][..n] == s[..n];
    } else {
      assert s[i := y][..n] == s[..n][i := y];
      FilterUpdateLength(s[..n], i, y, p);
    }
  }

  /** Predicates that agree on every element select the same elements. */
  lemma {:induction false} FilterExt<T>(s: seq<T>, p: T -> bool, q: T -> bool)
    requires forall i :: 0 <= i < |s| ==> p(s[i]) == q(s[i])
    ensures Filter(s, p) == Filter(s, q)
    decreases |s|
  {
    if s != [] {
      FilterExt(s[..|s| - 1], p, q);
    }
  }

  /** Filtering with `p` and then with `q` selects what `pq`, their conjunction, selects. */
  lemma {:induction false} FilterFilter<T>(s: seq<T>, p: T -> bool, q: T -> bool, pq: T -> bool)
    requires forall x :: pq(x) == (p(x) && q(x))
    ensures Filter(Filter(s, p), q) == Filter(s, pq)
    decreases |s|
  {
    if s != [] {
      var n := |s| - 1;
      var x := s[n];
      FilterFilter(s[..n], p, q, pq);
      assert Filter(s, p) == Filter(s[..n], p) + (if p(x) then [x] else []);
      assert Filter(s, pq) == Filter(s[..n], pq) + (if pq(x) then [x] else []);
      if p(x) {
        FilterAppend(Filter(s[..n], p), x, q);
      } else {
        assert Filter(s[..n], p) + [] == Filter(s[..n], p);
      }
    }
  }

  /** Applies `f` to every element. */
  function Map<A, B>(s: seq<A>, f: A -> B): (r: seq<B>)
    ensures |r| == |s|
    ensures forall i :: 0 <= i < |s| ==> r[i] == f(s[i])
  {
    seq(|s|, i requires 0 <= i < |s| => f(s[i]))
  }

  /** JavaScript truthiness of an optional non-negative number. */
  predicate Truthy(limit: Option<nat>) {
    limit.Some? && limit.value != 0
  }

  /**
   * `take(limit)` when `limit` is truthy, `collect()` otherwise: a prefix of the
   * selected rows holding at most `limit` of them, or all of them.
   */
  function TakeOrCollect<T>(s: seq<T>, limit: Option<nat>): (r: seq<T>)
    ensures r <= s
    ensures Truthy(limit) ==> |r| == if limit.value < |s| then limit.value else |s|
    ensures !Truthy(limit) ==> r == s
  {
    if Truthy(limit) && limit.value < |s| then s[..limit.value] else s
  }

  /** The position of the first element satisfying `p`, if there is one (`.first()`). */
  function FirstIndex<T>(s: seq<T>, p: T -> bool): (r: Option<nat>)
    ensures r.None? <==> forall i :: 0 <= i < |s| ==> !p(s[i])
    ensures r.Some? ==> r.value < |s| && p(s[r.value])
    ensures r.Some? ==> forall j :: 0 <= j < r.value ==> !p(s[j])
    decreases |s|
  {
    if s == [] then None
    else if p(s[0]) then Some(0)
    else match FirstIndex(s[1..], p)
      case None => None
      case Some(i) => Some(i + 1)
  }

  /** Sequences whose elements the predicates judge alike position by position have the same first selected position. */
  lemma {:induction false} FirstIndexAlike<T>(s: seq<T>, p: T -> bool, t: seq<T>, q: T -> bool)
    requires |s| == |t|
    requires forall i :: 0 <= i < |s| ==> p(s[i]) == q(t[i])
    ensures FirstIndex(s, p) == FirstIndex(t, q)
    decreases |s|
  {
    if s != [] && !p(s[0]) {
      FirstIndexAlike(s[1..], p, t[1..], q);
    }
  }

  /** The first element satisfying `p`, if there is one. */
  function First<T>(s: seq<T>, p: T -> bool): (r: Option<T>)
    ensures r.None? <==> forall i :: 0 <= i < |s| ==> !p(s[i])
    ensures r.Some? ==> r.value in s && p(r.value)
    ensures r.Some? ==> r.value == Filter(s, p)[0]
  {
    match FirstIndex(s, p)
    case None => None
    case Some(i) => FirstIsFilterHead(s, p, i); Some(s[i])
  }

  /** The first element of `Filter(s, p)` satisfying `q` is the first element of `s` satisfying `pq`, their conjunction. */
  lemma FirstOfFilter<T>(s: seq<T>, p: T -> bool, q: T -> bool, pq: T -> bool)
    requires forall x :: pq(x) == (p(x) && q(x))
    ensures First(Filter(s, p), q) == First(s, pq)
  {
    if First(s, pq).Some? {
      assert First(s, pq).value in Filter(s, p);
    }
    if First(Filter(s, p), q).Some? {
      FilterFilter(s, p, q, pq);
    }
  }

  /** The element at the first selected position heads the filtered sequence. */
  lemma {:induction false} FirstIsFilterHead<T>(s: seq<T>, p: T -> bool, i: nat)
    requires i < |s| && p(s[i])
    requires forall j :: 0 <= j < i ==> !p(s[j])
    ensures |Filter(s, p)| > 0 && Filter(s, p)[0] == s[i]
    decreases |s|
  {
    var n := |s| - 1;
    if i < n {
      FirstIsFilterHead(s[..n], p, i);
    } else {
      FilterNoneSelected(s[..n], p);
    }
  }

  /** Nothing is selected when no element satisfies the predicate. */
  lemma {:induction false} FilterNoneSelected<T>(s: seq<T>, p: T -> bool)
    requires forall i :: 0 <= i < |s| ==> !p(s[i])
    ensures Filter(s, p) == []
    decreases |s|
  {
    if s != [] {
      FilterNoneSelected(s[..|s| - 1], p);
    }
  }
}
