/** Sequence helpers that mirror the JavaScript array operations the storefront
    uses everywhere: `filter`, `filter(..).length`, `find` and `[...new Set(xs)]`. */
module Collections {

  datatype Option<+T> = None | Some(value: T)

  /** `xs.filter(p)`: the elements satisfying `p`, in their original order. */
  function Filter<T>(s: seq<T>, p: T -> bool): (r: seq<T>)
    ensures |r| <= |s|
    ensures forall i :: 0 <= i < |r| ==> r[i] in s && p(r[i])
  {
    if s == [] then []
    else if p(s[0]) then [s[0]] + Filter(s[1..], p)
    else Filter(s[1..], p)
  }

  /** `xs.filter(p).length`. */
  function Count<T>(s: seq<T>, p: T -> bool): nat
  {
    |Filter(s, p)|
  }

  /** `a` is an order-preserving sub-list of `b` (some elements of `b` dropped). */
  predicate IsSublist<T(==)>(a: seq<T>, b: seq<T>)
    decreases |b|
  {
    if a == [] then true
    else if b == [] then false
    else (a[0] == b[0] && IsSublist(a[1..], b[1..])) || IsSublist(a, b[1..])
  }

  /** An element is kept by `Filter` exactly when it is in the input and satisfies `p`. */
  lemma {:induction false} FilterMembership<T>(s: seq<T>, p: T -> bool, x: T)
    ensures x in Filter(s, p) <==> x in s && p(x)
  {
    if s != [] {
      FilterMembership(s[1..], p, x);
      assert s == [s[0]] + s[1..];
    }
  }

  /** Each value occurs in the result as often as in the input when it satisfies `p`,
      and not at all otherwise. */
  lemma {:induction false} FilterMultiset<T>(s: seq<T>, p: T -> bool, x: T)
    ensures multiset(Filter(s, p))[x] == if p(x) then multiset(s)[x] else 0
  {
    if s != [] {
      FilterMultiset(s[1..], p, x);
      assert s == [s[0]] + s[1..];
    }
  }

  /** A filter keeps the input's order: the result is a sub-list of the input. */
  lemma {:induction false} FilterIsSublist<T>(s: seq<T>, p: T -> bool)
    ensures IsSublist(Filter(s, p), s)
  {
    if s != [] {
      FilterIsSublist(s[1..], p);
      if !p(s[0]) && Filter(s[1..], p) != [] {
        // the first kept element is skipped past s[0]
        assert IsSublist(Filter(s, p), s[1..]);
      }
    }
  }

  /** A predicate that holds everywhere keeps the whole list. */
  lemma {:induction false} FilterKeepsAll<T>(s: seq<T>, p: T -> bool)
    requires forall i :: 0 <= i < |s| ==> p(s[i])
    ensures Filter(s, p) == s
  {
    if s != [] {
      FilterKeepsAll(s[1..], p);
    }
  }

  /** Elements pairwise distinct. */
  predicate NoDuplicates<T(==)>(s: seq<T>)
  {
    forall i, j :: 0 <= i < j < |s| ==> s[i] != s[j]
  }

  /** `[...new Set(xs)]`: every value once, in the order of its first occurrence. */
  function Distinct<T(==)>(s: seq<T>): (r: seq<T>)
    ensures NoDuplicates(r)
    ensures forall i :: 0 <= i < |r| ==> r[i] in s
    ensures forall i :: 0 <= i < |s| ==> s[i] in r
    decreases |s|
  {
    if s == [] then []
    else
      var rest := Distinct(s[..|s| - 1]);
      var last := s[|s| - 1];
      assert s == s[..|s| - 1] + [last];
      if last in rest then rest else rest + [last]
  }

  /** The position of the first occurrence of `x` in `s`. */
  function FirstIndex<T(==)>(s: seq<T>, x: T): (k: nat)
    requires x in s
    ensures k < |s| && s[k] == x
    ensures forall j :: 0 <= j < k ==> s[j] != x
  {
    if s[0] == x then 0 else 1 + FirstIndex(s[1..], x)
  }

  /** Appending leaves the first occurrence of a value already present where it was. */
  lemma FirstIndexAppend<T>(s: seq<T>, y: T, x: T)
    requires x in s
    ensures FirstIndex(s + [y], x) == FirstIndex(s, x)
  {
    var k := FirstIndex(s, x);
    var t := s + [y];
    assert t[k] == x;
  }

  /** `Distinct` lists the values by their first occurrence in `s`. */
  lemma {:induction false} DistinctFirstOrder<T>(s: seq<T>)
    ensures forall i, j :: 0 <= i < j < |Distinct(s)| ==>
              FirstIndex(s, Distinct(s)[i]) < FirstIndex(s, Distinct(s)[j])
    decreases |s|
  {
    if s != [] {
      var init := s[..|s| - 1];
      var last := s[|s| - 1];
      assert s == init + [last];
      var rest := Distinct(init);
      DistinctFirstOrder(init);
      forall x | x in rest ensures FirstIndex(s, x) == FirstIndex(init, x) {
        FirstIndexAppend(init, last, x);
      }
      var r := Distinct(s);
      if last !in rest {
        assert last !in init;
        assert FirstIndex(s, last) == |init|;
        assert r == rest + [last];
        forall i, j | 0 <= i < j < |r| ensures FirstIndex(s, r[i]) < FirstIndex(s, r[j]) {
          assert r[i] == rest[i];
          if j < |rest| {
            assert r[j] == rest[j];
          }
        }
      }
    }
  }

  lemma {:induction false} DistinctIsSublist<T>(s: seq<T>)
    ensures IsSublist(Distinct(s), s)
    decreases |s|
  {
    if s != [] {
      var init := s[..|s| - 1];
      var last := s[|s| - 1];
      assert s == init + [last];
      DistinctIsSublist(init);
      SublistExtend(Distinct(init), init, [last]);
      SublistAppendBoth(Distinct(init), init, last);
    }
  }

  /** Every list is a sub-list of itself. */
  lemma {:induction false} SublistRefl<T>(a: seq<T>)
    ensures IsSublist(a, a)
    decreases |a|
  {
    if a != [] {
      SublistRefl(a[1..]);
    }
  }

  /** Adding elements after `b` keeps `a` a sub-list of it. */
  lemma {:induction false} SublistExtend<T>(a: seq<T>, b: seq<T>, d: seq<T>)
    requires IsSublist(a, b)
    ensures IsSublist(a, b + d)
    decreases |b|
  {
    if a != [] {
      assert (b + d)[1..] == b[1..] + d;
      if a[0] == b[0] && IsSublist(a[1..], b[1..]) {
        SublistExtend(a[1..], b[1..], d);
      } else {
        SublistExtend(a, b[1..], d);
      }
    }
  }

  /** The same element appended to both sides keeps the sub-list relation. */
  lemma {:induction false} SublistAppendBoth<T>(a: seq<T>, b: seq<T>, y: T)
    requires IsSublist(a, b)
    ensures IsSublist(a + [y], b + [y])
    decreases |b|
  {
    if a == [] {
      if b == [] {
        assert IsSublist([y][1..], [y][1..]);
      } else {
        assert (b + [y])[1..] == b[1..] + [y];
        SublistAppendBoth(a, b[1..], y);
      }
    } else {
      assert (a + [y])[1..] == a[1..] + [y];
      assert (b + [y])[1..] == b[1..] + [y];
      if a[0] == b[0] && IsSublist(a[1..], b[1..]) {
        SublistAppendBoth(a[1..], b[1..], y);
      } else {
        SublistAppendBoth(a, b[1..], y);
      }
    }
  }
}
