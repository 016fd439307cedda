/** `Array.prototype.filter` and `Array.prototype.sort` on sequences. */
module Seqs {

  /** `s.filter(p)`: the elements satisfying p, in their original order. */
  function Filter<T>(s: seq<T>, p: T -> bool): (r: seq<T>)
    ensures |r| <= |s|
    ensures forall i :: 0 <= i < |r| ==> p(r[i])
  {
    if |s| == 0 then []
    else
      assert s == [s[0]] + s[1..];
      (if p(s[0]) then [s[0]] else []) + Filter(s[1..], p)
  }

  /** Filtering takes a sub-multiset: no element is duplicated or invented. */
  lemma {:induction false} FilterSubMultiset<T>(s: seq<T>, p: T -> bool)
    ensures multiset(Filter(s, p)) <= multiset(s)
  {
    if |s| > 0 {
      FilterSubMultiset(s[1..], p);
      assert s == [s[0]] + s[1..];
    }
  }

  /** Every element satisfying p is kept, and every kept element comes from s. */
  lemma {:induction false} FilterMembers<T>(s: seq<T>, p: T -> bool, x: T)
    ensures x in Filter(s, p) <==> x in s && p(x)
  {
    if |s| > 0 {
      FilterMembers(s[1..], p, x);
      assert s == [s[0]] + s[1..];
    }
  }

  /** Filtering commutes with concatenation, so relative order is kept. */
  lemma {:induction false} FilterAppend<T>(a: seq<T>, b: seq<T>, p: T -> bool)
    ensures Filter(a + b, p) == Filter(a, p) + Filter(b, p)
  {
    if |a| == 0 {
      assert a + b == b;
    } else {
      assert (a + b)[0] == a[0];
      assert (a + b)[1..] == a[1..] + b;
      FilterAppend(a[1..], b, p);
    }
  }

  /** A filter that rejects nothing returns its input unchanged. */
  lemma {:induction false} FilterKeepsAll<T>(s: seq<T>, p: T -> bool)
    requires forall i :: 0 <= i < |s| ==> p(s[i])
    ensures Filter(s, p) == s
  {
    if |s| > 0 {
      FilterKeepsAll(s[1..], p);
    }
  }

  /** Filtering twice by the same predicate changes nothing the second time. */
  lemma FilterIdempotent<T>(s: seq<T>, p: T -> bool)
    ensures Filter(Filter(s, p), p) == Filter(s, p)
  {
    var r := Filter(s, p);
    forall i | 0 <= i < |r| ensures p(r[i]) {
      assert r[i] in r;
    }
    FilterKeepsAll(r, p);
  }

  // ---------------------------------------------------------------------------
  // Sorting. `lt(a, b)` means the comparator puts a strictly before b
  // (`compare(a, b) < 0`). The ECMAScript sort is stable, so with a consistent
  // comparator its result is the stable sorted permutation computed below:
  // SortBySorted proves it ordered and SortByStable proves that elements the
  // comparator ties keep their relative order.
  // ---------------------------------------------------------------------------

  /** lt is a strict weak order: asymmetric, and "not before" is transitive. */
  ghost predicate StrictWeakOrder<T(!new)>(lt: (T, T) -> bool) {
    && (forall a, b :: lt(a, b) ==> !lt(b, a))
    && (forall a, b, c :: !lt(a, b) && !lt(b, c) ==> !lt(a, c))
  }

  /** The reversed comparator: `(a, b) => compare(b, a)`. */
  function Flip<T>(lt: (T, T) -> bool): (T, T) -> bool {
    (a: T, b: T) => lt(b, a)
  }

  /** Reversing a strict weak order gives a strict weak order. */
  lemma FlipStrictWeak<T(!new)>(lt: (T, T) -> bool)
    requires StrictWeakOrder(lt)
    ensures StrictWeakOrder(Flip(lt))
  {
    forall a, b, c | !Flip(lt)(a, b) && !Flip(lt)(b, c) ensures !Flip(lt)(a, c) {
      assert !lt(c, b) && !lt(b, a);
    }
  }

  /** No element is strictly before an earlier one. */
  ghost predicate SortedBy<T>(s: seq<T>, lt: (T, T) -> bool) {
    forall i, j :: 0 <= i < j < |s| ==> !lt(s[j], s[i])
  }

  /** Inserts x before the first element it is not strictly after. */
  function Insert<T>(x: T, s: seq<T>, lt: (T, T) -> bool): (r: seq<T>)
    ensures multiset(r) == multiset(s) + multiset{x}
    ensures |r| == |s| + 1
  {
    if |s| == 0 then [x]
    else if lt(s[0], x) then
      assert s == [s[0]] + s[1..];
      [s[0]] + Insert(x, s[1..], lt)
    else [x] + s
  }

  /** Stable insertion sort: `[...s].sort(compare)`. */
  function SortBy<T>(s: seq<T>, lt: (T, T) -> bool): (r: seq<T>)
    ensures multiset(r) == multiset(s)
    ensures |r| == |s|
  {
    if |s| == 0 then []
    else
      assert s == [s[0]] + s[1..];
      Insert(s[0], SortBy(s[1..], lt), lt)
  }

  lemma {:induction false} InsertSorted<T(!new)>(x: T, s: seq<T>, lt: (T, T) -> bool)
    requires StrictWeakOrder(lt)
    requires SortedBy(s, lt)
    ensures SortedBy(Insert(x, s, lt), lt)
  {
    if |s| > 0 {
      var r := Insert(x, s, lt);
      if lt(s[0], x) {
        var t := s[1..];
        InsertSorted(x, t, lt);
        var rest := Insert(x, t, lt);
        assert r == [s[0]] + rest;
        forall j | 0 <= j < |rest| ensures !lt(rest[j], s[0]) {
          assert rest[j] in multiset(t) + multiset{x} by {
            assert rest[j] in multiset(rest);
          }
          if rest[j] != x {
            assert rest[j] in t;
          }
        }
      } else {
        assert r == [x] + s;
        forall j | 0 <= j < |s| ensures !lt(s[j], x) {
          if j > 0 {
            assert !lt(s[j], s[0]);
          }
        }
      }
    }
  }

  /** The sort's output is ordered. */
  lemma {:induction false} SortBySorted<T(!new)>(s: seq<T>, lt: (T, T) -> bool)
    requires StrictWeakOrder(lt)
    ensures SortedBy(SortBy(s, lt), lt)
  {
    if |s| > 0 {
      SortBySorted(s[1..], lt);
      InsertSorted(s[0], SortBy(s[1..], lt), lt);
    }
  }

  /** Stability: when no element is strictly before another, the order is kept. */
  lemma {:induction false} SortByAllTied<T>(s: seq<T>, lt: (T, T) -> bool)
    requires forall i, j :: 0 <= i < |s| && 0 <= j < |s| ==> !lt(s[i], s[j])
    ensures SortBy(s, lt) == s
  {
    if |s| > 0 {
      SortByAllTied(s[1..], lt);
      assert SortBy(s[1..], lt) == s[1..];
      if |s| > 1 {
        assert !lt(s[1], s[0]);
      }
    }
  }

  /** A class of elements that the order never separates: none is strictly before another. */
  ghost predicate Tied<T(!new)>(lt: (T, T) -> bool, same: T -> bool) {
    forall x, y :: same(x) && same(y) ==> !lt(x, y)
  }

  /** Filtering a single element keeps it exactly when it satisfies the predicate. */
  lemma FilterSingle<T>(x: T, p: T -> bool)
    ensures Filter([x], p) == if p(x) then [x] else []
  {
    assert [x][1..] == [];
  }

  /** Inserting x keeps the members of a tied class in order, x first among them. */
  lemma {:induction false} InsertKeepsClass<T(!new)>(x: T, s: seq<T>, lt: (T, T) -> bool, same: T -> bool)
    requires Tied(lt, same)
    ensures Filter(Insert(x, s, lt), same) == (if same(x) then [x] else []) + Filter(s, same)
  {
    FilterSingle(x, same);
    if |s| == 0 {
      assert Insert(x, s, lt) == [x];
      assert Filter(s, same) == [];
    } else if lt(s[0], x) {
      InsertKeepsClass(x, s[1..], lt, same);
      assert !(same(x) && same(s[0]));
      assert Insert(x, s, lt) == [s[0]] + Insert(x, s[1..], lt);
      ConsPastFilter(s[0], Insert(x, s[1..], lt), s[1..], if same(x) then [x] else [], same);
      assert [s[0]] + s[1..] == s;
    } else {
      assert Insert(x, s, lt) == [x] + s;
      FilterAppend([x], s, same);
    }
  }

  /** An element outside the class can move past the class's leading part without changing the filter. */
  lemma ConsPastFilter<T>(h: T, rest: seq<T>, tail: seq<T>, lead: seq<T>, p: T -> bool)
    requires Filter(rest, p) == lead + Filter(tail, p)
    requires !p(h) || lead == []
    ensures Filter([h] + rest, p) == lead + Filter([h] + tail, p)
  {
    FilterAppend([h], rest, p);
    FilterAppend([h], tail, p);
    FilterSingle(h, p);
    if p(h) {
      assert lead + Filter(tail, p) == Filter(tail, p);
    } else {
      assert Filter([h], p) == [];
    }
  }

  /** Stability: the sort keeps the relative order of every tied class. */
  lemma {:induction false} SortByStable<T(!new)>(s: seq<T>, lt: (T, T) -> bool, same: T -> bool)
    requires Tied(lt, same)
    ensures Filter(SortBy(s, lt), same) == Filter(s, same)
  {
    if |s| > 0 {
      SortByStable(s[1..], lt, same);
      InsertKeepsClass(s[0], SortBy(s[1..], lt), lt, same);
    }
  }
}
