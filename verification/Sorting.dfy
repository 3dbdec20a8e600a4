/**
 Ordering helpers. Go's `sort.Slice` and `sort.Strings` are modelled by one insertion sort;
 what callers rely on is proved here: the result is sorted, holds the same elements with the
 same multiplicities, and a strictly sorted listing of a set is unique.
 */
module Sorting {

  /** What every `less` closure the program hands to the sort package induces. */
  ghost predicate Preorder<T(!new)>(leq: (T, T) -> bool) {
    && (forall x, y :: leq(x, y) || leq(y, x))
    && (forall x, y, z :: leq(x, y) && leq(y, z) ==> leq(x, z))
  }

  ghost predicate TotalOrder<T(!new)>(leq: (T, T) -> bool) {
    Preorder(leq) && forall x, y :: leq(x, y) && leq(y, x) ==> x == y
  }

  ghost predicate Sorted<T>(s: seq<T>, leq: (T, T) -> bool) {
    forall i, j :: 0 <= i < j < |s| ==> leq(s[i], s[j])
  }

  ghost predicate Distinct<T>(s: seq<T>) {
    forall i, j :: 0 <= i < j < |s| ==> s[i] != s[j]
  }

  function Insert<T>(x: T, s: seq<T>, leq: (T, T) -> bool): seq<T> {
    if s == [] then [x]
    else if leq(x, s[0]) then [x] + s
    else [s[0]] + Insert(x, s[1..], leq)
  }

  function Sort<T>(s: seq<T>, leq: (T, T) -> bool): seq<T> {
    if s == [] then [] else Insert(s[0], Sort(s[1..], leq), leq)
  }

  lemma {:induction false} InsertKeeps<T>(x: T, s: seq<T>, leq: (T, T) -> bool)
    ensures multiset(Insert(x, s, leq)) == multiset{x} + multiset(s)
  {
    if s != [] && !leq(x, s[0]) {
      InsertKeeps(x, s[1..], leq);
      assert s == [s[0]] + s[1..];
    }
  }

  lemma {:induction false} InsertSorted<T(!new)>(x: T, s: seq<T>, leq: (T, T) -> bool)
    requires Preorder(leq) && Sorted(s, leq)
    ensures Sorted(Insert(x, s, leq), leq)
  {
    if s != [] && !leq(x, s[0]) {
      InsertSorted(x, s[1..], leq);
      InsertKeeps(x, s[1..], leq);
      var t := Insert(x, s[1..], leq);
      forall k | 0 <= k < |t| ensures leq(s[0], t[k]) {
        assert t[k] in multiset(t);
        assert t[k] == x || t[k] in s[1..];
      }
    }
  }

  /** Sorting permutes: nothing is lost, added or duplicated. */
  lemma {:induction false} SortPermutes<T>(s: seq<T>, leq: (T, T) -> bool)
    ensures multiset(Sort(s, leq)) == multiset(s)
    ensures |Sort(s, leq)| == |s|
    ensures forall x :: x in Sort(s, leq) <==> x in s
  {
    if s != [] {
      SortPermutes(s[1..], leq);
      InsertKeeps(s[0], Sort(s[1..], leq), leq);
      assert s == [s[0]] + s[1..];
    }
    assert |multiset(Sort(s, leq))| == |multiset(s)|;
    forall x ensures x in Sort(s, leq) <==> x in s {
      assert x in Sort(s, leq) <==> x in multiset(Sort(s, leq));
      assert x in s <==> x in multiset(s);
    }
  }

  lemma {:induction false} SortSorts<T(!new)>(s: seq<T>, leq: (T, T) -> bool)
    requires Preorder(leq)
    ensures Sorted(Sort(s, leq), leq)
  {
    if s != [] {
      SortSorts(s[1..], leq);
      InsertSorted(s[0], Sort(s[1..], leq), leq);
    }
  }

  lemma {:induction false} DistinctFromMultiset<T>(s: seq<T>, t: seq<T>)
    requires multiset(s) == multiset(t) && Distinct(s)
    ensures Distinct(t)
  {
    forall i, j | 0 <= i < j < |t| ensures t[i] != t[j] {
      if t[i] == t[j] {
        var a, b, c := t[..i], t[i + 1..j], t[j + 1..];
        assert t == a + [t[i]] + b + [t[j]] + c;
        assert multiset(t)[t[i]] >= 2;
        CountAtMostOne(s, t[i]);
      }
    }
  }

  lemma {:induction false} CountAtMostOne<T>(s: seq<T>, x: T)
    requires Distinct(s)
    ensures multiset(s)[x] <= 1
  {
    if s != [] {
      var d := s[1..];
      assert Distinct(d);
      CountAtMostOne(d, x);
      assert s == [s[0]] + d;
      if s[0] == x {
        assert x !in d;
        assert x !in multiset(d);
      }
    }
  }

  lemma HeadIsMember<T>(t: seq<T>)
    ensures t != [] ==> t[0] in t
  {}

  /** Two sorted duplicate-free listings of the same set are the same sequence. */
  lemma {:induction false} SortedListingUnique<T(!new)>(s: seq<T>, t: seq<T>, leq: (T, T) -> bool)
    requires TotalOrder(leq)
    requires Sorted(s, leq) && Sorted(t, leq) && Distinct(s) && Distinct(t)
    requires forall x :: x in s <==> x in t
    ensures s == t
  {
    if s == [] {
      HeadIsMember(t);
    } else {
      assert s[0] in t;
      assert t[0] in s;
      var i :| 0 <= i < |s| && s[i] == t[0];
      var j :| 0 <= j < |t| && t[j] == s[0];
      assert leq(s[0], t[0]) && leq(t[0], s[0]);
      forall x ensures x in s[1..] <==> x in t[1..] {
        assert x in s <==> x == s[0] || x in s[1..];
        assert x in t <==> x == t[0] || x in t[1..];
      }
      SortedListingUnique(s[1..], t[1..], leq);
      assert s == [s[0]] + s[1..] && t == [t[0]] + t[1..];
    }
  }

  /** Go's `<=` on strings: lexicographic. */
  predicate StrLeq(a: string, b: string) {
    a == [] || (b != [] && (a[0] < b[0] || (a[0] == b[0] && StrLeq(a[1..], b[1..]))))
  }

  lemma {:induction false} StrTotal(a: string, b: string)
    ensures StrLeq(a, b) || StrLeq(b, a)
  {
    if a != [] && b != [] && a[0] == b[0] { StrTotal(a[1..], b[1..]); }
  }

  lemma {:induction false} StrTransitive(a: string, b: string, c: string)
    requires StrLeq(a, b) && StrLeq(b, c)
    ensures StrLeq(a, c)
  {
    if a != [] && a[0] == b[0] && b[0] == c[0] { StrTransitive(a[1..], b[1..], c[1..]); }
  }

  lemma {:induction false} StrAntisymmetric(a: string, b: string)
    requires StrLeq(a, b) && StrLeq(b, a)
    ensures a == b
  {
    if a != [] {
      StrAntisymmetric(a[1..], b[1..]);
      assert a == [a[0]] + a[1..] && b == [b[0]] + b[1..];
    }
  }

  lemma StrOrder()
    ensures TotalOrder(StrLeq)
  {
    forall x, y ensures StrLeq(x, y) || StrLeq(y, x) { StrTotal(x, y); }
    forall x, y, z | StrLeq(x, y) && StrLeq(y, z) ensures StrLeq(x, z) { StrTransitive(x, y, z); }
    forall x, y | StrLeq(x, y) && StrLeq(y, x) ensures x == y { StrAntisymmetric(x, y); }
  }
}
