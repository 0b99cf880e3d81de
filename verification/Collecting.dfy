/** Collecting the records of a trie: every record of the map that the trie stands for,
    exactly once, in an order that the map alone determines. */
module Collecting {
  import opened Common
  import opened Objects
  import opened Trie

  function Prefixed(n: Nibble, paths: seq<Path>): seq<Path> {
    seq(|paths|, i requires 0 <= i < |paths| => [n] + paths[i])
  }

  /** The paths of a map in digit order. */
  ghost function Paths(m: Content, levels: nat): seq<Path>
    decreases levels, 0
  {
    if m == map[] then []
    else if levels == 0 then [[]]
    else PathsFrom(m, levels - 1, 0)
  }

  ghost function PathsFrom(m: Content, levels: nat, from: nat): seq<Path>
    requires from <= 16
    decreases levels, 17 - from
  {
    if from == 16 then [] else Prefixed(from, Paths(Below(m, from), levels)) + PathsFrom(m, levels, from + 1)
  }

  /** The records filed under a list of paths. */
  ghost function RecordsAt(m: Content, paths: seq<Path>): seq<Record>
    requires forall p :: p in paths ==> p in m
  {
    seq(|paths|, i requires 0 <= i < |paths| => m[paths[i]])
  }

  /** The listing visits every path of the map exactly once. */
  lemma {:induction false} PathsAreExact(m: Content, levels: nat)
    requires AtLevel(m, levels)
    ensures NoDuplicates(Paths(m, levels))
    ensures forall p :: p in Paths(m, levels) <==> p in m
    decreases levels, 0
  {
    if m == map[] {
    } else if levels == 0 {
      LeafPaths(m);
    } else {
      PathsFromAreExact(m, levels - 1, 0);
      var all := PathsFrom(m, levels - 1, 0);
      assert Paths(m, levels) == all;
      forall p ensures p in all <==> p in m {
        assert p in m ==> p != [] && p[0] >= 0;
      }
    }
  }

  lemma LeafPaths(m: Content)
    requires AtLevel(m, 0) && m != map[]
    ensures Paths(m, 0) == [[]] && forall p :: p in m <==> p == []
  {
    assert [] in m by { var p :| p in m; assert p == []; }
  }

  lemma {:induction false} PathsFromAreExact(m: Content, levels: nat, from: nat)
    requires AtLevel(m, levels + 1) && from <= 16
    ensures NoDuplicates(PathsFrom(m, levels, from))
    ensures forall p :: p in PathsFrom(m, levels, from) <==> p in m && p[0] >= from
    decreases levels, 17 - from
  {
    if from < 16 {
      PathsFromAreExact(m, levels, from + 1);
      BelowLevel(m, from, levels);
      PathsAreExact(Below(m, from), levels);
      JoinPaths(m, levels, from, Paths(Below(m, from), levels), PathsFrom(m, levels, from + 1));
    }
  }

  lemma JoinPaths(m: Content, levels: nat, n: Nibble, here: seq<Path>, rest: seq<Path>)
    requires AtLevel(m, levels + 1)
    requires NoDuplicates(here) && forall p :: p in here <==> p in Below(m, n)
    requires NoDuplicates(rest) && forall p :: p in rest <==> p in m && p[0] >= n + 1
    ensures NoDuplicates(Prefixed(n, here) + rest)
    ensures forall p :: p in Prefixed(n, here) + rest <==> p in m && p[0] >= n
  {
    BelowMembers(m, n);
    PrefixedMembers(n, here);
    DisjointAppend(Prefixed(n, here), rest);
    forall p: Path ensures p in Prefixed(n, here) <==> p in m && p[0] == n {
      assert p != [] && p[0] == n ==> p == [n] + p[1..];
    }
  }

  lemma DisjointAppend<T>(a: seq<T>, b: seq<T>)
    requires NoDuplicates(a) && NoDuplicates(b)
    requires forall x :: x in a ==> x !in b
    ensures NoDuplicates(a + b)
  {
    forall i, j | 0 <= i < j < |a + b| ensures (a + b)[i] != (a + b)[j] {
      if i < |a| <= j {
        assert a[i] in a && b[j - |a|] in b;
      }
    }
  }

  lemma PrefixedMembers(n: Nibble, paths: seq<Path>)
    ensures forall p :: p in Prefixed(n, paths) <==> p != [] && p[0] == n && p[1..] in paths
    ensures NoDuplicates(paths) ==> NoDuplicates(Prefixed(n, paths))
  {
    var r := Prefixed(n, paths);
    forall p | p in r ensures p != [] && p[0] == n && p[1..] in paths {
      var i :| 0 <= i < |r| && r[i] == p;
      assert p[1..] == paths[i];
    }
    forall p: Path | p != [] && p[0] == n && p[1..] in paths ensures p in r {
      var i :| 0 <= i < |paths| && paths[i] == p[1..];
      assert r[i] == p;
    }
    forall i, j | 0 <= i < j < |r| && NoDuplicates(paths) ensures r[i] != r[j] {
      assert r[i][1..] == paths[i] && r[j][1..] == paths[j];
    }
  }

  /** A collection that succeeded with the records under a list of paths of a map. */
  ghost predicate Lists(m: Content, paths: seq<Path>, r: Result<seq<Record>, Fault>) {
    (forall p :: p in paths ==> p in m) && r == Ok(RecordsAt(m, paths))
  }

  lemma CollectLeaf(d: Digests, objects: map<Hash, Object>, m: Content)
    requires AtLevel(m, 0) && m != map[] && Addressed(d, objects) && Stored(d, objects, m, 0)
    ensures Lists(m, Paths(m, 0), CollectTrie(d, objects, Root(d, m, 0), 0))
  {
    LeafPaths(m);
    assert RecordsAt(m, [[]]) == [m[[]]];
  }

  lemma {:induction false} CollectNode(d: Digests, objects: map<Hash, Object>, m: Content, levels: nat)
    requires AtLevel(m, levels) && m != map[] && levels > 0
    requires Addressed(d, objects) && Stored(d, objects, m, levels)
    ensures CollectTrie(d, objects, Root(d, m, levels), levels)
            == CollectChildren(d, objects, OldChildren(d, m, levels), 0, levels - 1)
  {
    ReadChildren(d, objects, m, levels);
  }

  /** Collecting a stored trie yields the record of every path, in the order of the paths. */
  lemma {:induction false} CollectTrieIsExact(d: Digests, objects: map<Hash, Object>, m: Content, levels: nat)
    requires AtLevel(m, levels) && Addressed(d, objects) && Stored(d, objects, m, levels)
    ensures Lists(m, Paths(m, levels), CollectTrie(d, objects, Root(d, m, levels), levels))
    decreases levels, 0
  {
    if m == map[] {
      assert RecordsAt(m, []) == [];
    } else if levels == 0 {
      CollectLeaf(d, objects, m);
    } else {
      CollectNode(d, objects, m, levels);
      CollectChildrenIsExact(d, objects, m, levels, 0);
    }
  }

  lemma {:induction false} CollectChildrenIsExact(d: Digests, objects: map<Hash, Object>, m: Content, levels: nat, from: nat)
    requires AtLevel(m, levels) && m != map[] && from <= 16 && levels > 0
    requires Addressed(d, objects) && Stored(d, objects, m, levels)
    ensures Lists(m, PathsFrom(m, levels - 1, from),
                  CollectChildren(d, objects, OldChildren(d, m, levels), from, levels - 1))
    decreases levels - 1, 18 - from
  {
    if from == 16 {
      CollectNone(d, objects, m, levels - 1, OldChildren(d, m, levels), from);
    } else {
      CollectChildIsExact(d, objects, m, levels, from);
      CollectChildrenIsExact(d, objects, m, levels, from + 1);
      CombineOldChildren(d, objects, m, levels, from);
    }
  }

  lemma {:induction false} CollectChildIsExact(d: Digests, objects: map<Hash, Object>, m: Content, levels: nat, n: Nibble)
    requires AtLevel(m, levels) && levels > 0
    requires Addressed(d, objects) && Stored(d, objects, m, levels)
    ensures AtLevel(Below(m, n), levels - 1)
    ensures Lists(Below(m, n), Paths(Below(m, n), levels - 1),
                  CollectTrie(d, objects, Root(d, Below(m, n), levels - 1), levels - 1))
    decreases levels - 1, 1
  {
    StoredChild(d, objects, m, levels, n);
    CollectTrieIsExact(d, objects, Below(m, n), levels - 1);
  }

  lemma {:induction false} CombineOldChildren(d: Digests, objects: map<Hash, Object>, m: Content, levels: nat, from: nat)
    requires AtLevel(m, levels) && from < 16 && levels > 0 && AtLevel(Below(m, from), levels - 1)
    requires Lists(Below(m, from), Paths(Below(m, from), levels - 1),
                   CollectTrie(d, objects, Root(d, Below(m, from), levels - 1), levels - 1))
    requires Lists(m, PathsFrom(m, levels - 1, from + 1),
                   CollectChildren(d, objects, OldChildren(d, m, levels), from + 1, levels - 1))
    ensures Lists(m, PathsFrom(m, levels - 1, from),
                  CollectChildren(d, objects, OldChildren(d, m, levels), from, levels - 1))
  {
    OldChild(d, m, levels, from);
    CombineChildren(d, objects, m, levels - 1, from, OldChildren(d, m, levels));
  }

  lemma CollectNone(d: Digests, objects: map<Hash, Object>, m: Content, levels: nat, children: map<Nibble, Hash>,
                    from: nat)
    requires from == 16
    ensures Lists(m, PathsFrom(m, levels, from), CollectChildren(d, objects, children, from, levels))
  {
    assert RecordsAt(m, []) == [];
  }

  lemma {:induction false} CombineChildren(d: Digests, objects: map<Hash, Object>, m: Content, levels: nat, from: nat,
                                           children: map<Nibble, Hash>)
    requires AtLevel(m, levels + 1) && from < 16
    requires Lists(Below(m, from), Paths(Below(m, from), levels),
                   CollectTrie(d, objects, Lookup(children, from), levels))
    requires Lists(m, PathsFrom(m, levels, from + 1), CollectChildren(d, objects, children, from + 1, levels))
    ensures Lists(m, PathsFrom(m, levels, from), CollectChildren(d, objects, children, from, levels))
  {
    BelowMembers(m, from);
    var here, rest := Paths(Below(m, from), levels), PathsFrom(m, levels, from + 1);
    RecordsAppend(m, Below(m, from), from, here, rest);
    CollectStep(d, objects, children, from, levels, RecordsAt(Below(m, from), here), RecordsAt(m, rest));
  }

  lemma CollectStep(d: Digests, objects: map<Hash, Object>, children: map<Nibble, Hash>, from: nat, levels: nat,
                    first: seq<Record>, rest: seq<Record>)
    requires from < 16
    requires CollectTrie(d, objects, Lookup(children, from), levels) == Ok(first)
    requires CollectChildren(d, objects, children, from + 1, levels) == Ok(rest)
    ensures CollectChildren(d, objects, children, from, levels) == Ok(first + rest)
  {
  }

  lemma RecordsAppend(m: Content, child: Content, n: Nibble, here: seq<Path>, rest: seq<Path>)
    requires forall p :: p in here ==> p in child
    requires forall p :: p in rest ==> p in m
    requires forall p :: p in child ==> [n] + p in m && child[p] == m[[n] + p]
    ensures forall p :: p in Prefixed(n, here) + rest ==> p in m
    ensures RecordsAt(m, Prefixed(n, here) + rest) == RecordsAt(child, here) + RecordsAt(m, rest)
  {
    var whole := Prefixed(n, here) + rest;
    forall p | p in whole ensures p in m {
      var i :| 0 <= i < |whole| && whole[i] == p;
      if i < |here| { assert whole[i] == [n] + here[i] && here[i] in here; }
    }
    forall i | 0 <= i < |here| ensures m[whole[i]] == child[here[i]] {
      assert whole[i] == [n] + here[i];
      assert here[i] in here;
    }
  }
}
