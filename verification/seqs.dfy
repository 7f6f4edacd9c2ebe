/** The array and query operations the handlers use on fetched rows:
    `filter`, `find`, `.single()`, a count by predicate and an
    `order(..., { ascending: false })` on a numeric column. */
module Seqs {
  import opened Wrappers

  /** `s.filter(p)`: the elements satisfying `p`, in their original order. */
  function Filter<T>(s: seq<T>, p: T -> bool): (r: seq<T>)
    ensures |r| <= |s|
    ensures forall i :: 0 <= i < |r| ==> r[i] in s && p(r[i])
    ensures forall i :: 0 <= i < |s| && p(s[i]) ==> s[i] in r
  {
    if s == [] then []
    else (if p(s[0]) then [s[0]] else []) + Filter(s[1..], p)
  }

  lemma {:induction false} FilterAppend<T>(a: seq<T>, b: seq<T>, p: T -> bool)
    ensures Filter(a + b, p) == Filter(a, p) + Filter(b, p)
  {
    if a == [] {
      assert a + b == b;
    } else {
      assert (a + b)[0] == a[0];
      assert (a + b)[1..] == a[1..] + b;
      FilterAppend(a[1..], b, p);
      var h: seq<T> := if p(a[0]) then [a[0]] else [];
      assert Filter(a + b, p) == h + (Filter(a[1..], p) + Filter(b, p));
      assert Filter(a, p) == h + Filter(a[1..], p);
    }
  }

  /** Filtering a two-element list. */
  lemma FilterPair<T>(x: T, y: T, p: T -> bool)
    ensures Filter([x, y], p) == (if p(x) then [x] else []) + (if p(y) then [y] else [])
  {
    assert [x, y][1..] == [y];
    assert [y][1..] == [];
  }

  lemma {:induction false} FilterAll<T>(s: seq<T>, p: T -> bool)
    requires forall i :: 0 <= i < |s| ==> p(s[i])
    ensures Filter(s, p) == s
  {
    if s != [] {
      FilterAll(s[1..], p);
      assert s == [s[0]] + s[1..];
    }
  }

  /** Filtering depends only on what the predicate says about the
      elements present. */
  lemma {:induction false} FilterSame<T>(s: seq<T>, p: T -> bool, q: T -> bool)
    requires forall i :: 0 <= i < |s| ==> p(s[i]) == q(s[i])
    ensures Filter(s, p) == Filter(s, q)
  {
    if s != [] {
      FilterSame(s[1..], p, q);
    }
  }

  /** The positions in `s` of the elements `Filter(s, p)` keeps: the k-th
      kept element is `s[Positions(s, p)[k]]`. */
  function Positions<T>(s: seq<T>, p: T -> bool): (r: seq<nat>)
    ensures |r| == |Filter(s, p)|
    ensures forall k :: 0 <= k < |r| ==> r[k] < |s| && s[r[k]] == Filter(s, p)[k]
    decreases |s|, 1
  {
    if s == [] then []
    else
      var shifted := Shifted(s, p);
      if p(s[0]) then
        assert Filter(s, p) == [s[0]] + Filter(s[1..], p);
        [0] + shifted
      else
        assert Filter(s, p) == Filter(s[1..], p);
        shifted
  }

  /** The positions of the kept elements of `s[1..]`, as positions in `s`. */
  function Shifted<T>(s: seq<T>, p: T -> bool): (r: seq<nat>)
    requires s != []
    ensures |r| == |Filter(s[1..], p)|
    ensures forall k :: 0 <= k < |r| ==> 0 < r[k] < |s| && s[r[k]] == Filter(s[1..], p)[k]
    decreases |s|, 0
  {
    var rest := Positions(s[1..], p);
    seq(|rest|, k requires 0 <= k < |rest| => rest[k] + 1)
  }

  /** `s.map(f).filter(x => x !== null)`: the present results of `f`, in
      the order of `s`. */
  function FilterMap<T, U>(s: seq<T>, f: T -> Option<U>): (r: seq<U>)
    ensures |r| <= |s|
  {
    if s == [] then []
    else (match f(s[0]) case None => [] case Some(u) => [u]) + FilterMap(s[1..], f)
  }

  /** Mapping and filtering two runs is doing each and concatenating. */
  lemma {:induction false} FilterMapAppend<T, U>(a: seq<T>, b: seq<T>, f: T -> Option<U>)
    ensures FilterMap(a + b, f) == FilterMap(a, f) + FilterMap(b, f)
  {
    if a == [] {
      assert a + b == b;
    } else {
      var h: seq<U> := match f(a[0]) case None => [] case Some(u) => [u];
      assert (a + b)[0] == a[0];
      assert (a + b)[1..] == a[1..] + b;
      FilterMapAppend(a[1..], b, f);
      assert FilterMap(a + b, f) == h + (FilterMap(a[1..], f) + FilterMap(b, f));
    }
  }

  /** Every result comes from some element. */
  lemma {:induction false} FilterMapSound<T, U>(s: seq<T>, f: T -> Option<U>, x: U)
    requires x in FilterMap(s, f)
    ensures exists j :: 0 <= j < |s| && f(s[j]) == Some(x)
  {
    if s == [] {
      assert false;
    } else if f(s[0]) == Some(x) {
      assert 0 < |s|;
    } else {
      assert x in FilterMap(s[1..], f);
      FilterMapSound(s[1..], f, x);
      var j :| 0 <= j < |s[1..]| && f(s[1..][j]) == Some(x);
      assert s[1..][j] == s[j + 1];
    }
  }

  /** Every present result is kept. */
  lemma {:induction false} FilterMapComplete<T, U>(s: seq<T>, f: T -> Option<U>)
    ensures forall j :: 0 <= j < |s| && f(s[j]).Some? ==> f(s[j]).value in FilterMap(s, f)
  {
    if s != [] {
      FilterMapComplete(s[1..], f);
      forall j | 1 <= j < |s|
        ensures s[j] == s[1..][j - 1]
      {
      }
    }
  }

  /** When every result is present nothing is dropped and the i-th result
      is that of the i-th element. */
  lemma {:induction false} FilterMapKeepsAll<T, U>(s: seq<T>, f: T -> Option<U>)
    requires forall j :: 0 <= j < |s| ==> f(s[j]).Some?
    ensures |FilterMap(s, f)| == |s|
    ensures forall i :: 0 <= i < |s| ==> Some(FilterMap(s, f)[i]) == f(s[i])
  {
    if s != [] {
      FilterMapKeepsAll(s[1..], f);
      var r := FilterMap(s, f);
      assert r == [f(s[0]).value] + FilterMap(s[1..], f);
      forall i | 1 <= i < |s|
        ensures Some(r[i]) == f(s[i])
      {
        assert s[1..][i - 1] == s[i];
        assert r[1..][i - 1] == r[i];
      }
    }
  }

  /** The number of elements satisfying `p`: `s.filter(p).length`. */
  function Count<T>(s: seq<T>, p: T -> bool): nat
  {
    |Filter(s, p)|
  }

  /** Predicates that no element satisfies twice count at most the length:
      the three status counts of a stats endpoint never exceed the rows. */
  lemma {:induction false} CountThreeBound<T>(s: seq<T>, p: T -> bool, q: T -> bool, u: T -> bool)
    requires forall i :: 0 <= i < |s| ==> !(p(s[i]) && q(s[i])) && !(p(s[i]) && u(s[i])) && !(q(s[i]) && u(s[i]))
    ensures Count(s, p) + Count(s, q) + Count(s, u) <= |s|
  {
    if s != [] {
      CountThreeBound(s[1..], p, q, u);
    }
  }

  /** The index of the first element satisfying `p`, or `|s|`. */
  function FirstIndex<T>(s: seq<T>, p: T -> bool): (i: nat)
    ensures i <= |s|
    ensures forall j :: 0 <= j < i ==> !p(s[j])
    ensures i < |s| ==> p(s[i])
  {
    if s == [] then 0
    else if p(s[0]) then 0
    else 1 + FirstIndex(s[1..], p)
  }

  /** `s.find(p)`: the first element satisfying `p`, if any. */
  function Find<T>(s: seq<T>, p: T -> bool): (r: Option<T>)
    ensures r.Some? <==> exists i :: 0 <= i < |s| && p(s[i])
    ensures r.Some? ==> r.value in s && p(r.value)
    ensures r.Some? ==> exists k :: 0 <= k < |s| && s[k] == r.value && forall j :: 0 <= j < k ==> !p(s[j])
  {
    var i := FirstIndex(s, p);
    if i < |s| then Some(s[i]) else None
  }

  /** A `.single()` query: succeeds only when exactly one row matches. */
  function Single<T>(s: seq<T>): (r: Option<T>)
    ensures r.Some? <==> |s| == 1
    ensures r.Some? ==> r.value == s[0]
  {
    if |s| == 1 then Some(s[0]) else None
  }

  ghost predicate SortedDesc<T>(s: seq<T>, key: T -> int) {
    forall i, j :: 0 <= i < j < |s| ==> key(s[i]) >= key(s[j])
  }

  function InsertDesc<T>(x: T, s: seq<T>, key: T -> int): (r: seq<T>)
    requires SortedDesc(s, key)
    ensures SortedDesc(r, key)
    ensures multiset(r) == multiset(s) + multiset{x}
  {
    if s == [] then [x]
    else if key(x) >= key(s[0]) then [x] + s
    else
      var rest := InsertDesc(x, s[1..], key);
      InsertedBelowHead(x, s, rest, key);
      ConsSortedDesc(s[0], rest, key);
      assert s == [s[0]] + s[1..];
      [s[0]] + rest
  }

  /** What is inserted behind the head of a sorted list stays below it. */
  lemma InsertedBelowHead<T>(x: T, s: seq<T>, rest: seq<T>, key: T -> int)
    requires s != [] && SortedDesc(s, key) && key(x) < key(s[0])
    requires multiset(rest) == multiset(s[1..]) + multiset{x}
    ensures forall k :: 0 <= k < |rest| ==> key(rest[k]) <= key(s[0])
  {
    forall k | 0 <= k < |rest|
      ensures key(rest[k]) <= key(s[0])
    {
      assert rest[k] in multiset(rest);
      if rest[k] != x {
        assert rest[k] in multiset(s[1..]);
        var m :| 0 <= m < |s[1..]| && s[1..][m] == rest[k];
        assert s[m + 1] == rest[k];
      }
    }
  }

  /** A head no smaller than every element keeps a sorted list sorted. */
  lemma ConsSortedDesc<T>(h: T, s: seq<T>, key: T -> int)
    requires SortedDesc(s, key)
    requires forall k :: 0 <= k < |s| ==> key(s[k]) <= key(h)
    ensures SortedDesc([h] + s, key)
  {
    var r := [h] + s;
    forall i, j | 0 <= i < j < |r|
      ensures key(r[i]) >= key(r[j])
    {
      assert r[j] == s[j - 1];
      if i > 0 {
        assert r[i] == s[i - 1];
      }
    }
  }

  /** The rows as an `order(key, { ascending: false })` query returns them:
      the same rows, largest key first. */
  function SortDesc<T>(s: seq<T>, key: T -> int): (r: seq<T>)
    ensures SortedDesc(r, key)
    ensures multiset(r) == multiset(s)
    ensures |r| == |s|
  {
    if s == [] then []
    else
      assert s == [s[0]] + s[1..];
      InsertDesc(s[0], SortDesc(s[1..], key), key)
  }
}
