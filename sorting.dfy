/**
 * A stable sort, the model of ECMAScript's `Array.prototype.sort` with a
 * comparator. Since the 2019 edition the standard requires that sort to be
 * stable, so for a consistent comparator its result is fully determined:
 * `StableSortIsUnique` shows that `SortBy` is that result.
 *
 * A comparator `cmp(a, b)` is modelled by the relation `leq(a, b) == (cmp(a, b) <= 0)`,
 * i.e. "a may stay before b".
 */
module Sorting {
  import opened Seqs

  /** `leq` is total and transitive: what a consistent comparator gives. */
  ghost predicate TotalPreorder<T(!new)>(leq: (T, T) -> bool)
  {
    && (forall x, y :: leq(x, y) || leq(y, x))
    && (forall x, y, z :: leq(x, y) && leq(y, z) ==> leq(x, z))
  }

  /** Every element may stay before every later one. */
  ghost predicate Sorted<T>(s: seq<T>, leq: (T, T) -> bool)
  {
    forall i, j :: 0 <= i < j < |s| ==> leq(s[i], s[j])
  }

  /** The elements that compare equal to `z` (both ways). */
  function SameKey<T>(leq: (T, T) -> bool, z: T): T -> bool
  {
    y => leq(y, z) && leq(z, y)
  }

  /** Elements that compare equal keep, in `r`, the relative order they have in `s`. */
  ghost predicate Stable<T(!new)>(s: seq<T>, r: seq<T>, leq: (T, T) -> bool)
  {
    forall z :: Filter(r, SameKey(leq, z)) == Filter(s, SameKey(leq, z))
  }

  /** Puts `x` in front of the first element of `s` it may precede. */
  function Insert<T>(x: T, s: seq<T>, leq: (T, T) -> bool): (r: seq<T>)
    ensures multiset(r) == multiset(s) + multiset{x}
  {
    if s == [] || leq(x, s[0]) then [x] + s
    else
      assert s == [s[0]] + s[1..];
      [s[0]] + Insert(x, s[1..], leq)
  }

  /** Insertion sort: sorts the tail, then inserts the head in front of its equals. */
  function SortBy<T>(s: seq<T>, leq: (T, T) -> bool): (r: seq<T>)
    ensures multiset(r) == multiset(s)
    ensures |r| == |s|
  {
    if s == [] then []
    else
      assert s == [s[0]] + s[1..];
      Insert(s[0], SortBy(s[1..], leq), leq)
  }

  lemma {:induction false} InsertSorted<T(!new)>(x: T, s: seq<T>, leq: (T, T) -> bool)
    requires TotalPreorder(leq)
    requires Sorted(s, leq)
    ensures Sorted(Insert(x, s, leq), leq)
  {
    if s != [] && !leq(x, s[0]) {
      var t := Insert(x, s[1..], leq);
      InsertSorted(x, s[1..], leq);
      var r := [s[0]] + t;
      forall j | 0 < j < |r|
        ensures leq(s[0], r[j])
      {
        assert r[j] in multiset(t);
        if r[j] != x {
          assert r[j] in s[1..];
          var k :| 0 <= k < |s[1..]| && s[1..][k] == r[j];
          assert s[k + 1] == r[j];
        }
      }
    }
  }

  /** `SortBy` orders its result. */
  lemma {:induction false} SortBySorted<T(!new)>(s: seq<T>, leq: (T, T) -> bool)
    requires TotalPreorder(leq)
    ensures Sorted(SortBy(s, leq), leq)
  {
    if s != [] {
      SortBySorted(s[1..], leq);
      InsertSorted(s[0], SortBy(s[1..], leq), leq);
    }
  }

  /** Two elements in the key class of `z` may precede each other. */
  lemma SameKeyRelated<T(!new)>(leq: (T, T) -> bool, z: T, x: T, y: T)
    requires TotalPreorder(leq)
    requires SameKey(leq, z)(x) && SameKey(leq, z)(y)
    ensures leq(x, y)
  {
    assert leq(x, z) && leq(z, y);
  }

  /** One step of `InsertKeepsClasses`: `x` moves past `s[0]`, which is not in its key class. */
  lemma InsertPastHead<T(!new)>(x: T, s: seq<T>, leq: (T, T) -> bool, e: T -> bool)
    requires s != [] && !leq(x, s[0])
    requires !(e(x) && e(s[0]))
    requires Filter(Insert(x, s[1..], leq), e) == Filter([x] + s[1..], e)
    ensures Filter(Insert(x, s, leq), e) == Filter([x] + s, e)
  {
    var s0, t := s[0], s[1..];
    var i := Insert(x, t, leq);
    assert Insert(x, s, leq) == [s0] + i;
    assert s == [s0] + t;
    FilterCons(s0, i, e);
    FilterCons(x, t, e);
    FilterCons(s0, t, e);
    FilterCons(x, s, e);
    if e(s0) {
      assert Filter(Insert(x, s, leq), e) == [s0] + Filter(t, e);
    } else if e(x) {
      assert Filter(Insert(x, s, leq), e) == [x] + Filter(t, e);
    } else {
      assert Filter(Insert(x, s, leq), e) == Filter(t, e);
    }
  }

  /** Inserting adds `x` to the front of its own key class and leaves the other classes alone. */
  lemma {:induction false} InsertKeepsClasses<T(!new)>(x: T, s: seq<T>, leq: (T, T) -> bool, z: T)
    requires TotalPreorder(leq)
    ensures Filter(Insert(x, s, leq), SameKey(leq, z)) == Filter([x] + s, SameKey(leq, z))
  {
    var e := SameKey(leq, z);
    if s != [] && !leq(x, s[0]) {
      InsertKeepsClasses(x, s[1..], leq, z);
      if e(x) && e(s[0]) {
        SameKeyRelated(leq, z, x, s[0]);
      }
      InsertPastHead(x, s, leq, e);
    }
  }

  /** `SortBy` keeps equal elements in their input order. */
  lemma {:induction false} SortByStable<T(!new)>(s: seq<T>, leq: (T, T) -> bool)
    requires TotalPreorder(leq)
    ensures Stable(s, SortBy(s, leq), leq)
  {
    if s != [] {
      SortByStable(s[1..], leq);
      forall z
        ensures Filter(SortBy(s, leq), SameKey(leq, z)) == Filter(s, SameKey(leq, z))
      {
        var e := SameKey(leq, z);
        InsertKeepsClasses(s[0], SortBy(s[1..], leq), leq, z);
        FilterCons(s[0], SortBy(s[1..], leq), e);
        assert s == [s[0]] + s[1..];
        FilterCons(s[0], s[1..], e);
      }
    }
  }

  /** The first element of a sorted sequence may precede every element of it. */
  lemma HeadIsLeast<T(!new)>(s: seq<T>, leq: (T, T) -> bool, y: T)
    requires TotalPreorder(leq) && Sorted(s, leq)
    requires y in s
    ensures leq(s[0], y)
  {
    var i :| 0 <= i < |s| && s[i] == y;
    if i == 0 {
      assert leq(y, y) || leq(y, y);
    }
  }

  /** Every element is in its own key class. */
  lemma InOwnClass<T(!new)>(s: seq<T>, leq: (T, T) -> bool, i: nat)
    requires TotalPreorder(leq)
    requires i < |s|
    ensures s[i] in Filter(s, SameKey(leq, s[i]))
  {
    var x := s[i];
    assert leq(x, x);
    FilterMembers(s, SameKey(leq, x));
  }

  /** Sorted sequences with the same key classes start with elements that compare equal. */
  lemma HeadsRelated<T(!new)>(a: seq<T>, b: seq<T>, leq: (T, T) -> bool)
    requires TotalPreorder(leq)
    requires Sorted(a, leq) && Sorted(b, leq) && Stable(a, b, leq)
    requires a != [] && b != []
    ensures SameKey(leq, a[0])(b[0])
  {
    InOwnClass(a, leq, 0);
    InOwnClass(b, leq, 0);
    FilterMembers(a, SameKey(leq, b[0]));
    FilterMembers(b, SameKey(leq, a[0]));
    HeadIsLeast(a, leq, b[0]);
    HeadIsLeast(b, leq, a[0]);
  }

  /** Sequences with the same key classes are both empty or both non-empty. */
  lemma EmptyTogether<T(!new)>(a: seq<T>, b: seq<T>, leq: (T, T) -> bool)
    requires TotalPreorder(leq)
    requires Stable(a, b, leq)
    ensures a == [] <==> b == []
  {
    if a != [] {
      InOwnClass(a, leq, 0);
      assert Filter(b, SameKey(leq, a[0])) != [];
    }
    if b != [] {
      InOwnClass(b, leq, 0);
      assert Filter(a, SameKey(leq, b[0])) != [];
    }
  }

  /** Equal heads in the same class: the heads coincide and the tails have the same classes. */
  lemma SameHeadsSameTails<T(!new)>(a: seq<T>, b: seq<T>, leq: (T, T) -> bool)
    requires a != [] && b != []
    requires Stable(a, b, leq)
    requires SameKey(leq, a[0])(a[0]) && SameKey(leq, a[0])(b[0])
    ensures a[0] == b[0] && Stable(a[1..], b[1..], leq)
  {
    var x, y := a[0], b[0];
    assert a == [x] + a[1..] && b == [y] + b[1..];
    FilterCons(x, a[1..], SameKey(leq, x));
    FilterCons(y, b[1..], SameKey(leq, x));
    assert Filter(a, SameKey(leq, x))[0] == Filter(b, SameKey(leq, x))[0];
    forall z
      ensures Filter(b[1..], SameKey(leq, z)) == Filter(a[1..], SameKey(leq, z))
    {
      var e := SameKey(leq, z);
      FilterCons(x, a[1..], e);
      FilterCons(x, b[1..], e);
      if e(x) {
        assert Filter(a, e)[1..] == Filter(a[1..], e);
        assert Filter(b, e)[1..] == Filter(b[1..], e);
      }
    }
  }

  /**
   * Two sorted sequences whose key classes hold the same elements in the same
   * order are equal: a stable sort has exactly one possible result.
   */
  lemma {:induction false} StableSortIsUnique<T(!new)>(a: seq<T>, b: seq<T>, leq: (T, T) -> bool)
    requires TotalPreorder(leq)
    requires Sorted(a, leq) && Sorted(b, leq)
    requires Stable(a, b, leq)
    ensures a == b
  {
    EmptyTogether(a, b, leq);
    if a != [] {
      HeadsRelated(a, b, leq);
      InOwnClass(a, leq, 0);
      SameHeadsSameTails(a, b, leq);
      StableSortIsUnique(a[1..], b[1..], leq);
      assert a == [a[0]] + a[1..] && b == [b[0]] + b[1..];
    }
  }

  /**
   * Any sorted, stable rearrangement of `s` (in particular, the result of a
   * conforming `Array.prototype.sort`) is `SortBy(s, leq)`.
   */
  lemma SortByIsTheStableSort<T(!new)>(s: seq<T>, r: seq<T>, leq: (T, T) -> bool)
    requires TotalPreorder(leq)
    requires Sorted(r, leq) && Stable(s, r, leq)
    ensures r == SortBy(s, leq)
  {
    SortBySorted(s, leq);
    SortByStable(s, leq);
    StableSortIsUnique(r, SortBy(s, leq), leq);
  }
}
