/** Stable sorting by a comparator, as the library sorts of the source promise it, and the
    two facts the components need: the head of a sorted list is least, and a list that is
    re-sorted and truncated after every insertion never differs from the truncation of the
    sort of everything that was inserted. */
module Sorting {
  import opened Common

  /** A comparator that a library sort may be called with: a strict weak order. */
  ghost predicate WeakOrder<T(!new)>(lt: (T, T) -> bool) {
    && (forall a: T :: !lt(a, a))
    && (forall a: T, b: T, c: T {:trigger lt(a, b), lt(b, c)} :: lt(a, b) && lt(b, c) ==> lt(a, c))
    && (forall a: T, b: T, c: T {:trigger lt(a, c), lt(a, b)} {:trigger lt(a, c), lt(b, c)}
          :: lt(a, c) ==> lt(a, b) || lt(b, c))
  }

  ghost predicate Sorted<T>(lt: (T, T) -> bool, s: seq<T>) {
    forall i, j :: 0 <= i < j < |s| ==> !lt(s[j], s[i])
  }

  /** Places x behind every element that is not greater: later arrivals lose ties. */
  function Insert<T>(lt: (T, T) -> bool, x: T, s: seq<T>): (r: seq<T>)
    ensures |r| == |s| + 1
  {
    if s == [] then [x]
    else if lt(x, s[0]) then [x] + s
    else [s[0]] + Insert(lt, x, s[1..])
  }

  function Sort<T>(lt: (T, T) -> bool, s: seq<T>): (r: seq<T>)
    ensures |r| == |s|
  {
    if s == [] then [] else Insert(lt, s[|s| - 1], Sort(lt, s[..|s| - 1]))
  }

  lemma {:induction false} InsertMembers<T>(lt: (T, T) -> bool, x: T, s: seq<T>)
    ensures multiset(Insert(lt, x, s)) == multiset(s) + multiset{x}
  {
    if s != [] {
      TailMembers(s);
      if !lt(x, s[0]) {
        InsertMembers(lt, x, s[1..]);
      }
    }
  }

  lemma {:induction false} SortMembers<T>(lt: (T, T) -> bool, s: seq<T>)
    ensures multiset(Sort(lt, s)) == multiset(s)
  {
    if s != [] {
      var n := |s| - 1;
      SortMembers(lt, s[..n]);
      InsertMembers(lt, s[n], Sort(lt, s[..n]));
      assert s == s[..n] + [s[n]];
    }
  }

  lemma MembersAgree<T>(r: seq<T>, s: seq<T>)
    requires multiset(r) == multiset(s)
    ensures forall x :: x in r <==> x in s
  {
    forall x ensures x in r <==> x in s {
      assert x in r <==> x in multiset(r);
      assert x in s <==> x in multiset(s);
    }
  }

  lemma {:induction false} InsertSorted<T(!new)>(lt: (T, T) -> bool, x: T, s: seq<T>)
    requires WeakOrder(lt) && Sorted(lt, s)
    ensures Sorted(lt, Insert(lt, x, s))
  {
    if s == [] {
    } else if lt(x, s[0]) {
      var r := [x] + s;
      forall i, j | 0 <= i < j < |r| ensures !lt(r[j], r[i]) {
        if i == 0 && j > 1 {
          assert r[j] == s[j - 1] && !lt(s[j - 1], s[0]);
        }
      }
    } else {
      InsertSorted(lt, x, s[1..]);
      var t := Insert(lt, x, s[1..]);
      InsertMembers(lt, x, s[1..]);
      var r := [s[0]] + t;
      forall j | 1 <= j < |r| ensures !lt(r[j], r[0]) {
        assert t[j - 1] in multiset(t);
        assert t[j - 1] == x || t[j - 1] in s[1..];
      }
    }
  }

  lemma {:induction false} SortSorted<T(!new)>(lt: (T, T) -> bool, s: seq<T>)
    requires WeakOrder(lt)
    ensures Sorted(lt, Sort(lt, s))
  {
    if s != [] {
      SortSorted(lt, s[..|s| - 1]);
      InsertSorted(lt, s[|s| - 1], Sort(lt, s[..|s| - 1]));
    }
  }

  /** Nothing in the list is less than the head of the sorted list. */
  lemma SortHeadLeast<T(!new)>(lt: (T, T) -> bool, s: seq<T>)
    requires WeakOrder(lt) && s != []
    ensures Sort(lt, s)[0] in s
    ensures forall x :: x in s ==> !lt(x, Sort(lt, s)[0])
  {
    var r := Sort(lt, s);
    SortSorted(lt, s);
    SortMembers(lt, s);
    MembersAgree(r, s);
    forall x | x in s ensures !lt(x, r[0]) {
      var i :| 0 <= i < |r| && r[i] == x;
    }
  }

  /** Inserting at the back: an element not less than any other goes last. */
  lemma {:induction false} InsertLast<T>(lt: (T, T) -> bool, x: T, s: seq<T>)
    requires forall y :: y in s ==> !lt(x, y)
    ensures Insert(lt, x, s) == s + [x]
  {
    if s != [] {
      InsertLast(lt, x, s[1..]);
    }
  }

  lemma {:induction false} SortOfSorted<T>(lt: (T, T) -> bool, s: seq<T>)
    requires Sorted(lt, s)
    ensures Sort(lt, s) == s
  {
    if s != [] {
      var n := |s| - 1;
      SortOfSorted(lt, s[..n]);
      InsertLast(lt, s[n], s[..n]);
    }
  }

  lemma {:induction false} TakeInsert<T>(lt: (T, T) -> bool, k: nat, x: T, s: seq<T>)
    ensures Take(k, Insert(lt, x, Take(k, s))) == Take(k, Insert(lt, x, s))
  {
    if k == 0 || |s| <= k {
    } else if lt(x, s[0]) {
      assert Insert(lt, x, s) == [x] + s;
      assert Insert(lt, x, s[..k]) == [x] + s[..k];
    } else {
      TakeInsert(lt, k - 1, x, s[1..]);
      assert s[..k][1..] == s[1..][..k - 1];
      assert Insert(lt, x, s) == [s[0]] + Insert(lt, x, s[1..]);
      assert Insert(lt, x, s[..k]) == [s[0]] + Insert(lt, x, s[..k][1..]);
    }
  }

  /** Re-sorting a truncated sorted list after one arrival loses nothing that the
      truncation of the full sort would have kept. */
  lemma TruncatedSortRefines<T(!new)>(lt: (T, T) -> bool, k: nat, history: seq<T>, x: T)
    requires WeakOrder(lt)
    ensures Take(k, Sort(lt, Take(k, Sort(lt, history)) + [x])) == Take(k, Sort(lt, history + [x]))
  {
    var kept := Take(k, Sort(lt, history));
    SortSorted(lt, history);
    SortOfSorted(lt, kept);
    assert (kept + [x])[..|kept|] == kept;
    assert (history + [x])[..|history|] == history;
    TakeInsert(lt, k, x, Sort(lt, history));
  }

  ghost predicate TotalOn<T>(lt: (T, T) -> bool, s: seq<T>) {
    forall x, y :: x in s && y in s && x != y ==> lt(x, y) || lt(y, x)
  }

  lemma TailTotal<T>(lt: (T, T) -> bool, s: seq<T>)
    requires s != [] && TotalOn(lt, s)
    ensures TotalOn(lt, s[1..])
  {
    TailMembers(s);
  }

  lemma TailSorted<T>(lt: (T, T) -> bool, s: seq<T>)
    requires s != [] && Sorted(lt, s)
    ensures Sorted(lt, s[1..])
  {
  }

  lemma SameHead<T(!new)>(lt: (T, T) -> bool, a: seq<T>, b: seq<T>)
    requires WeakOrder(lt) && Sorted(lt, a) && Sorted(lt, b) && a != [] && b != []
    requires multiset(a) == multiset(b)
    requires TotalOn(lt, a)
    ensures a[0] == b[0]
  {
    MembersAgree(a, b);
    assert b[0] in a && a[0] in b;
    assert !lt(b[0], a[0]) && !lt(a[0], b[0]);
  }

  lemma TailMembers<T>(s: seq<T>)
    requires s != []
    ensures multiset(s[1..]) == multiset(s) - multiset{s[0]}
    ensures forall x :: x in s[1..] ==> x in s
  {
    assert s == [s[0]] + s[1..];
  }

  lemma TailsAgree<T>(a: seq<T>, b: seq<T>)
    requires multiset(a) == multiset(b) && a != [] && b != [] && a[0] == b[0]
    ensures multiset(a[1..]) == multiset(b[1..])
  {
    TailMembers(a);
    TailMembers(b);
  }

  /** Two sorted arrangements of the same elements are equal when the order is total on them. */
  lemma {:induction false} SortedUnique<T(!new)>(lt: (T, T) -> bool, a: seq<T>, b: seq<T>)
    requires WeakOrder(lt) && Sorted(lt, a) && Sorted(lt, b)
    requires multiset(a) == multiset(b)
    requires TotalOn(lt, a)
    ensures a == b
  {
    assert |a| == |multiset(a)| == |multiset(b)| == |b|;
    if a != [] {
      SameHead(lt, a, b);
      TailsAgree(a, b);
      TailTotal(lt, a);
      TailSorted(lt, a);
      TailSorted(lt, b);
      SortedUnique(lt, a[1..], b[1..]);
      assert a == [a[0]] + a[1..] && b == [b[0]] + b[1..];
    }
  }

  /** Where the order decides between any two elements, every sort gives what this one gives,
      stable or not. */
  lemma AnySortAgrees<T(!new)>(lt: (T, T) -> bool, s: seq<T>, arranged: seq<T>)
    requires WeakOrder(lt) && TotalOn(lt, s) && multiset(arranged) == multiset(s) && Sorted(lt, arranged)
    ensures arranged == Sort(lt, s)
  {
    SortSorted(lt, s);
    SortMembers(lt, s);
    MembersAgree(Sort(lt, s), s);
    SortedUnique(lt, Sort(lt, s), arranged);
  }
}
