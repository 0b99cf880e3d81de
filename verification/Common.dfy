/** Small shared vocabulary: optional values, results of calls that may throw, and the
    folds over sequences that several components use. */
module Common {

  datatype Option<+T> = None | Some(value: T)

  /** The outcome of a call that returns normally or throws. */
  datatype Result<+T, +E> = Ok(value: T) | Err(error: E) {
    predicate IsFailure() { Err? }

    function PropagateFailure<U>(): Result<U, E>
      requires Err?
    {
      Err(error)
    }

    function Extract(): T
      requires Ok?
    {
      value
    }
  }

  function Min(a: int, b: int): int { if a <= b then a else b }

  function Max(a: int, b: int): int { if a <= b then b else a }

  /** The elements that `slice(0, k)` keeps. */
  function Take<T>(k: nat, s: seq<T>): seq<T> {
    if |s| <= k then s else s[..k]
  }

  function Lookup<K, V>(m: map<K, V>, k: K): Option<V> {
    if k in m then Some(m[k]) else None
  }

  ghost predicate NoDuplicates<T>(s: seq<T>) {
    forall i, j :: 0 <= i < j < |s| ==> s[i] != s[j]
  }

  lemma SubsetIsSmaller<T>(a: set<T>, b: set<T>)
    requires a <= b
    ensures |a| <= |b| && (|a| == |b| ==> a == b)
  {
    assert b == a + (b - a);
  }

  lemma {:induction false} DistinctCount<T>(s: seq<T>, keys: set<T>)
    requires NoDuplicates(s) && forall x :: x in s <==> x in keys
    ensures |s| == |keys|
  {
    if s == [] {
      assert keys == {};
    } else {
      var rest := s[1..];
      forall x ensures x in rest <==> x in keys - {s[0]} {
        if x in rest { var i :| 0 <= i < |rest| && rest[i] == x; assert s[i + 1] == x; }
        if x in keys - {s[0]} { var i :| 0 <= i < |s| && s[i] == x; assert rest[i - 1] == x; }
      }
      DistinctCount(rest, keys - {s[0]});
    }
  }

  /** A strict total order on strings: what string comparison provides to its callers. */
  ghost predicate StringOrder(less: (string, string) -> bool) {
    && (forall a: string :: !less(a, a))
    && (forall a, b, c :: less(a, b) && less(b, c) ==> less(a, c))
    && (forall a, b :: a != b ==> less(a, b) || less(b, a))
  }
}
