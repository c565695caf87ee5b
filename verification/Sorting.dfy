/** Sorting by a strict order, and why the result does not depend on the input's order. */
module Sorting {

  ghost predicate StrictOrder<T(!new)>(less: (T, T) -> bool) {
    && (forall a, b :: less(a, b) ==> !less(b, a))
    && (forall a, b, c :: less(a, b) && less(b, c) ==> less(a, c))
  }

  lemma Transitive<T(!new)>(less: (T, T) -> bool, a: T, b: T, c: T)
    requires StrictOrder(less) && less(a, b) && less(b, c)
    ensures less(a, c)
  {
  }

  lemma Asymmetric<T(!new)>(less: (T, T) -> bool, a: T, b: T)
    requires StrictOrder(less) && less(a, b)
    ensures !less(b, a)
  {
  }

  // Any two elements at different places are ordered one way or the other.
  ghost predicate Comparable<T(!new)>(less: (T, T) -> bool, s: seq<T>) {
    s == [] || ((forall x :: x in s[1..] ==> less(s[0], x) || less(x, s[0])) && Comparable(less, s[1..]))
  }

  ghost predicate Ascending<T(!new)>(less: (T, T) -> bool, s: seq<T>) {
    s == [] || ((forall x :: x in s[1..] ==> less(s[0], x)) && Ascending(less, s[1..]))
  }

  function Insert<T>(less: (T, T) -> bool, x: T, s: seq<T>): seq<T> {
    if s == [] then [x]
    else if less(s[0], x) then [s[0]] + Insert(less, x, s[1..])
    else [x] + s
  }

  /** A stable sort. */
  function SortBy<T>(less: (T, T) -> bool, s: seq<T>): seq<T> {
    if s == [] then [] else Insert(less, s[0], SortBy(less, s[1..]))
  }

  lemma {:induction false} InsertKeeps<T>(less: (T, T) -> bool, x: T, s: seq<T>)
    ensures multiset(Insert(less, x, s)) == multiset{x} + multiset(s)
    ensures forall y :: y in Insert(less, x, s) <==> y == x || y in s
  {
    if s != [] {
      assert s == [s[0]] + s[1..];
      InsertKeeps(less, x, s[1..]);
    }
  }

  lemma {:induction false} SortKeeps<T>(less: (T, T) -> bool, s: seq<T>)
    ensures multiset(SortBy(less, s)) == multiset(s) && |SortBy(less, s)| == |s|
    ensures forall y :: y in SortBy(less, s) <==> y in s
  {
    if s != [] {
      assert s == [s[0]] + s[1..];
      SortKeeps(less, s[1..]);
      InsertKeeps(less, s[0], SortBy(less, s[1..]));
      assert |SortBy(less, s)| == |multiset(SortBy(less, s))|;
      assert |s| == |multiset(s)|;
    }
  }

  lemma {:induction false} InsertAscends<T(!new)>(less: (T, T) -> bool, x: T, s: seq<T>)
    requires StrictOrder(less) && Ascending(less, s)
    requires forall y :: y in s ==> less(y, x) || less(x, y)
    ensures Ascending(less, Insert(less, x, s))
  {
    hide StrictOrder;
    if s != [] {
      if less(s[0], x) {
        InsertAscends(less, x, s[1..]);
        InsertKeeps(less, x, s[1..]);
        assert Insert(less, x, s)[1..] == Insert(less, x, s[1..]);
      } else {
        forall y | y in s ensures less(x, y) {
          if y != s[0] {
            Transitive(less, x, s[0], y);
          }
        }
        assert Insert(less, x, s)[1..] == s;
      }
    }
  }

  lemma {:induction false} SortAscends<T(!new)>(less: (T, T) -> bool, s: seq<T>)
    requires StrictOrder(less) && Comparable(less, s)
    ensures Ascending(less, SortBy(less, s))
  {
    hide StrictOrder;
    if s != [] {
      SortAscends(less, s[1..]);
      SortKeeps(less, s[1..]);
      InsertAscends(less, s[0], SortBy(less, s[1..]));
    }
  }

  // The first element of an ascending list is the least, so it is the first of every arrangement.
  lemma SameHead<T(!new)>(less: (T, T) -> bool, a: seq<T>, b: seq<T>)
    requires StrictOrder(less) && Ascending(less, a) && Ascending(less, b) && multiset(a) == multiset(b)
    requires a != [] && b != []
    ensures a[0] == b[0]
  {
    hide StrictOrder;
    assert a[0] in multiset(b) && b[0] in multiset(a);
    if a[0] != b[0] {
      assert a[0] in b[1..] && b[0] in a[1..];
      Asymmetric(less, a[0], b[0]);
    }
  }

  lemma TailMultiset<T>(s: seq<T>)
    requires s != []
    ensures multiset(s[1..]) == multiset(s) - multiset{s[0]}
  {
    assert s == [s[0]] + s[1..];
  }

  /** Two ascending arrangements of the same elements are equal. */
  lemma {:induction false} AscendingUnique<T(!new)>(less: (T, T) -> bool, a: seq<T>, b: seq<T>)
    requires StrictOrder(less) && Ascending(less, a) && Ascending(less, b) && multiset(a) == multiset(b)
    ensures a == b
  {
    hide StrictOrder;
    assert |a| == |multiset(a)| == |multiset(b)| == |b|;
    if a == [] || b == [] {
    } else {
      SameHead(less, a, b);
      TailMultiset(a);
      TailMultiset(b);
      AscendingUnique(less, a[1..], b[1..]);
      assert a == [a[0]] + a[1..] && b == [b[0]] + b[1..];
    }
  }

  /** Sorting comparable elements gives the same list for every arrangement of them. */
  lemma SortIsCanonical<T(!new)>(less: (T, T) -> bool, a: seq<T>, b: seq<T>)
    requires StrictOrder(less) && Comparable(less, a) && Comparable(less, b) && multiset(a) == multiset(b)
    ensures SortBy(less, a) == SortBy(less, b)
  {
    hide StrictOrder, Comparable, Ascending;
    SortAscends(less, a);
    SortAscends(less, b);
    SortKeeps(less, a);
    SortKeeps(less, b);
    AscendingUnique(less, SortBy(less, a), SortBy(less, b));
  }

  // Sorting looks only at what the order says.
  lemma {:induction false} SortSame<T(!new)>(less: (T, T) -> bool, other: (T, T) -> bool, s: seq<T>)
    requires forall a, b :: less(a, b) == other(a, b)
    ensures SortBy(less, s) == SortBy(other, s)
  {
    if s != [] {
      SortSame(less, other, s[1..]);
      InsertSame(less, other, s[0], SortBy(less, s[1..]));
    }
  }

  lemma {:induction false} InsertSame<T(!new)>(less: (T, T) -> bool, other: (T, T) -> bool, x: T, s: seq<T>)
    requires forall a, b :: less(a, b) == other(a, b)
    ensures Insert(less, x, s) == Insert(other, x, s)
  {
    if s != [] {
      InsertSame(less, other, x, s[1..]);
    }
  }

  lemma {:induction false} ComparableIfDistinct<T(!new)>(less: (T, T) -> bool, s: seq<T>)
    requires forall i, j :: 0 <= i < j < |s| ==> less(s[i], s[j]) || less(s[j], s[i])
    ensures Comparable(less, s)
  {
    if s != [] {
      var rest := s[1..];
      forall i, j | 0 <= i < j < |rest| ensures less(rest[i], rest[j]) || less(rest[j], rest[i]) {
        assert rest[i] == s[i + 1] && rest[j] == s[j + 1];
      }
      ComparableIfDistinct(less, rest);
      forall x | x in rest ensures less(s[0], x) || less(x, s[0]) {
        var i :| 0 <= i < |rest| && rest[i] == x;
        assert x == s[i + 1];
      }
    }
  }

  lemma {:induction false} AscendingAt<T(!new)>(less: (T, T) -> bool, s: seq<T>, i: nat, j: nat)
    requires Ascending(less, s) && i < j < |s|
    ensures less(s[i], s[j])
  {
    if i == 0 {
      assert s[j] == s[1..][j - 1];
    } else {
      AscendingAt(less, s[1..], i - 1, j - 1);
    }
  }

  // ----- Text -----

  /** String order: by the first differing character, a prefix first. */
  predicate TextLess(a: string, b: string) {
    b != [] && (a == [] || a[0] < b[0] || (a[0] == b[0] && TextLess(a[1..], b[1..])))
  }

  lemma {:induction false} TextOrdered(a: string, b: string)
    ensures TextLess(a, b) ==> !TextLess(b, a)
    ensures a != b ==> TextLess(a, b) || TextLess(b, a)
  {
    if a != [] && b != [] && a[0] == b[0] {
      TextOrdered(a[1..], b[1..]);
      assert a == [a[0]] + a[1..] && b == [b[0]] + b[1..];
    }
  }

  lemma {:induction false} TextTransitive(a: string, b: string, c: string)
    requires TextLess(a, b) && TextLess(b, c)
    ensures TextLess(a, c)
  {
    if a != [] && a[0] == b[0] == c[0] {
      TextTransitive(a[1..], b[1..], c[1..]);
    }
  }
}
