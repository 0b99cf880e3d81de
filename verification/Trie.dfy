/** The content-addressed trie: sixty-four levels of nodes keyed by the digits of a key's
    path, updated by path copying. The trie over a store is compared with the finite map
    from paths to records that it stands for. */
module Trie {
  import opened Common
  import opened Objects

  type Content = map<Path, Record>

  // ---- what the code does -------------------------------------------------------------

  function ChildrenAt(d: Digests, objects: map<Hash, Object>, root: Option<Hash>): Result<map<Nibble, Hash>, Fault> {
    if root.None? then Ok(map[])
    else
      var o :- Fetch(d, objects, root.value);
      if o.TrieNode? then Ok(o.children) else Err(CorruptTrie)
  }

  /** The objects that one update writes, leaf first and new root last. All reads of an
      update precede its first write, so the list is a function of the store before it. */
  function SetTrie(d: Digests, objects: map<Hash, Object>, root: Option<Hash>, path: Path,
                   key: string, memoryHash: Hash): (r: Result<seq<Object>, Fault>)
    ensures r.Ok? ==> |r.value| == |path| + 1
    decreases |path|
  {
    if path == [] then Ok([TrieLeaf(key, memoryHash)])
    else
      var children :- ChildrenAt(d, objects, root);
      var below :- SetTrie(d, objects, Lookup(children, path[0]), path[1..], key, memoryHash);
      Ok(below + [TrieNode(children[path[0] := d.address(below[|below| - 1])])])
  }

  function GetTrie(d: Digests, objects: map<Hash, Object>, root: Option<Hash>, path: Path, key: string)
    : Result<Option<Hash>, Fault>
    decreases |path|
  {
    if root.None? then Ok(None)
    else
      var o :- Fetch(d, objects, root.value);
      if path == [] then
        if !o.TrieLeaf? then Err(CorruptTrie)
        else if o.key != key then Err(KeyCollision)
        else Ok(Some(o.memoryHash))
      else if !o.TrieNode? then Err(CorruptTrie)
      else GetTrie(d, objects, Lookup(o.children, path[0]), path[1..], key)
  }

  /** Collects the records below an address, children in digit order. */
  function CollectTrie(d: Digests, objects: map<Hash, Object>, root: Option<Hash>, levels: nat)
    : Result<seq<Record>, Fault>
    decreases levels, 0
  {
    if root.None? then Ok([])
    else
      var o :- Fetch(d, objects, root.value);
      if o.TrieLeaf? then
        var memory :- Fetch(d, objects, o.memoryHash);
        if memory.Memory? then Ok([memory.record]) else Err(CorruptTrie)
      else if !o.TrieNode? || levels == 0 then Err(CorruptTrie)
      else CollectChildren(d, objects, o.children, 0, levels - 1)
  }

  function CollectChildren(d: Digests, objects: map<Hash, Object>, children: map<Nibble, Hash>, from: nat, levels: nat)
    : Result<seq<Record>, Fault>
    requires from <= 16
    decreases levels, 17 - from
  {
    if from == 16 then Ok([])
    else
      var first :- CollectTrie(d, objects, Lookup(children, from), levels);
      var rest :- CollectChildren(d, objects, children, from + 1, levels);
      Ok(first + rest)
  }

  // ---- what a trie stands for ---------------------------------------------------------

  ghost predicate AtLevel(m: Content, levels: nat) {
    forall p :: p in m ==> |p| == levels
  }

  ghost function Heads(m: Content): set<Nibble> {
    set p | p in m && p != [] :: p[0]
  }

  /** The part of a map below one digit. */
  ghost function Below(m: Content, n: Nibble): Content {
    map p | p in (set q | q in m && q != [] && q[0] == n :: q[1..]) && [n] + p in m :: m[[n] + p]
  }

  lemma BelowMembers(m: Content, n: Nibble)
    ensures forall p :: p in Below(m, n) <==> [n] + p in m
    ensures forall p :: p in Below(m, n) ==> Below(m, n)[p] == m[[n] + p]
    ensures n in Heads(m) <==> Below(m, n) != map[]
  {
    forall p | [n] + p in m ensures p in Below(m, n) {
      var q := [n] + p;
      assert q[1..] == p;
    }
    if n in Heads(m) {
      var q :| q in m && q != [] && q[0] == n;
      assert q == [n] + q[1..];
      assert q[1..] in Below(m, n);
    }
    if Below(m, n) != map[] {
      var p :| p in Below(m, n);
      assert ([n] + p)[0] == n;
    }
  }

  lemma BelowLevel(m: Content, n: Nibble, levels: nat)
    requires AtLevel(m, levels + 1)
    ensures AtLevel(Below(m, n), levels)
  {
    BelowMembers(m, n);
  }

  /** The one object that a non-empty map is stored as: it depends on the map alone. */
  ghost function CanonicalObject(d: Digests, m: Content, levels: nat): Object
    requires AtLevel(m, levels) && m != map[]
    decreases levels
  {
    if levels == 0 then
      assert [] in m by { var p :| p in m; assert p == []; }
      TrieLeaf(m[[]].key, d.address(Memory(m[[]])))
    else
      TrieNode(map n: Nibble | n in Heads(m) :: CanonicalChild(d, m, levels, n))
  }

  ghost function CanonicalChild(d: Digests, m: Content, levels: nat, n: Nibble): Hash
    requires AtLevel(m, levels) && levels > 0 && n in Heads(m)
    decreases levels, 0
  {
    BelowLevel(m, n, levels - 1);
    BelowMembers(m, n);
    d.address(CanonicalObject(d, Below(m, n), levels - 1))
  }

  ghost function Root(d: Digests, m: Content, levels: nat): Option<Hash>
    requires AtLevel(m, levels)
  {
    if m == map[] then None else Some(d.address(CanonicalObject(d, m, levels)))
  }

  /** The store holds every object of the canonical trie of m, records included. */
  ghost predicate Stored(d: Digests, objects: map<Hash, Object>, m: Content, levels: nat)
    requires AtLevel(m, levels)
    decreases levels
  {
    m != map[] ==>
      && Holds(d, objects, CanonicalObject(d, m, levels))
      && (levels == 0 ==> [] in m && Holds(d, objects, Memory(m[[]])))
      && (levels > 0 ==> forall n: Nibble :: StoredBelow(d, objects, m, levels, n))
  }

  ghost predicate StoredBelow(d: Digests, objects: map<Hash, Object>, m: Content, levels: nat, n: Nibble)
    requires AtLevel(m, levels) && levels > 0
    decreases levels, 0
  {
    BelowLevel(m, n, levels - 1);
    Stored(d, objects, Below(m, n), levels - 1)
  }

  /** The address that a node of the canonical trie holds for a digit. */
  lemma ChildIsRoot(d: Digests, m: Content, levels: nat, n: Nibble)
    requires AtLevel(m, levels) && levels > 0 && m != map[]
    ensures AtLevel(Below(m, n), levels - 1)
    ensures CanonicalObject(d, m, levels).TrieNode?
    ensures Lookup(CanonicalObject(d, m, levels).children, n) == Root(d, Below(m, n), levels - 1)
  {
    BelowLevel(m, n, levels - 1);
    BelowMembers(m, n);
  }

  // ---- updates ------------------------------------------------------------------------

  lemma BelowUpdate(m: Content, path: Path, r: Record, n: Nibble)
    requires path != []
    ensures Below(m[path := r], n) == if n == path[0] then Below(m, n)[path[1..] := r] else Below(m, n)
  {
    var u := m[path := r];
    BelowMembers(m, n);
    BelowMembers(u, n);
    var expected := if n == path[0] then Below(m, n)[path[1..] := r] else Below(m, n);
    forall p: Path ensures Lookup(Below(u, n), p) == Lookup(expected, p) {
      SplitPath(path, n, p);
    }
    SameLookups(Below(u, n), expected);
  }

  lemma SplitPath(path: Path, n: Nibble, p: Path)
    requires path != []
    ensures [n] + p == path <==> n == path[0] && p == path[1..]
  {
    assert ([n] + p)[0] == n && ([n] + p)[1..] == p;
  }

  /** What an updated node holds for a digit. */
  lemma UpdatedChild(d: Digests, m: Content, levels: nat, path: Path, r: Record, n: Nibble)
    requires AtLevel(m, levels) && |path| == levels && levels > 0
    ensures AtLevel(m[path := r], levels) && path in m[path := r]
    ensures AtLevel(Below(m, n), levels - 1) && AtLevel(Below(m, path[0])[path[1..] := r], levels - 1)
    ensures CanonicalObject(d, m[path := r], levels).TrieNode?
    ensures Lookup(CanonicalObject(d, m[path := r], levels).children, n)
            == if n == path[0] then Root(d, Below(m, n)[path[1..] := r], levels - 1)
               else Root(d, Below(m, n), levels - 1)
  {
    BelowLevel(m, n, levels - 1);
    BelowLevel(m, path[0], levels - 1);
    BelowUpdate(m, path, r, n);
    ChildIsRoot(d, m[path := r], levels, n);
  }

  ghost function OldChildren(d: Digests, m: Content, levels: nat): map<Nibble, Hash>
    requires AtLevel(m, levels) && levels > 0
  {
    if m == map[] then map[] else CanonicalObject(d, m, levels).children
  }

  lemma OldChild(d: Digests, m: Content, levels: nat, n: Nibble)
    requires AtLevel(m, levels) && levels > 0
    ensures AtLevel(Below(m, n), levels - 1)
    ensures Lookup(OldChildren(d, m, levels), n) == Root(d, Below(m, n), levels - 1)
  {
    BelowLevel(m, n, levels - 1);
    if m != map[] { ChildIsRoot(d, m, levels, n); }
  }

  /** The canonical object of an updated map differs in the child on the path only. */
  lemma CanonicalUpdate(d: Digests, m: Content, levels: nat, path: Path, r: Record, child: Hash)
    requires AtLevel(m, levels) && |path| == levels && levels > 0
    requires AtLevel(Below(m, path[0])[path[1..] := r], levels - 1)
    requires Root(d, Below(m, path[0])[path[1..] := r], levels - 1) == Some(child)
    ensures AtLevel(m[path := r], levels) && path in m[path := r]
    ensures CanonicalObject(d, m[path := r], levels) == TrieNode(OldChildren(d, m, levels)[path[0] := child])
  {
    var node := CanonicalObject(d, m[path := r], levels).children;
    var expected := OldChildren(d, m, levels)[path[0] := child];
    forall n: Nibble
      ensures Lookup(node, n) == Lookup(expected, n)
    {
      UpdatedChild(d, m, levels, path, r, n);
      OldChild(d, m, levels, n);
    }
    SameLookups(node, expected);
  }

  lemma SameLookups<K(!new), V>(a: map<K, V>, b: map<K, V>)
    requires forall k :: Lookup(a, k) == Lookup(b, k)
    ensures a == b
  {
    forall k ensures k in a <==> k in b { assert Lookup(a, k) == Lookup(b, k); }
    forall k | k in a ensures a[k] == b[k] { assert Lookup(a, k) == Lookup(b, k); }
  }

  /** What a store holds, it still holds when it has grown. */
  lemma StoredGrows(d: Digests, before: map<Hash, Object>, after: map<Hash, Object>, m: Content, levels: nat)
    requires AtLevel(m, levels) && Grows(before, after) && Stored(d, before, m, levels)
    ensures Stored(d, after, m, levels)
    decreases levels
  {
    if m != map[] && levels > 0 {
      forall n: Nibble ensures StoredBelow(d, after, m, levels, n) {
        assert StoredBelow(d, before, m, levels, n);
        BelowLevel(m, n, levels - 1);
        StoredGrows(d, before, after, Below(m, n), levels - 1);
      }
    }
  }

  /** Reading the root of a stored map yields its children. */
  lemma ReadChildren(d: Digests, objects: map<Hash, Object>, m: Content, levels: nat)
    requires AtLevel(m, levels) && levels > 0
    requires Addressed(d, objects) && Stored(d, objects, m, levels)
    ensures ChildrenAt(d, objects, Root(d, m, levels)) == Ok(OldChildren(d, m, levels))
  {
  }

  lemma StoredChild(d: Digests, objects: map<Hash, Object>, m: Content, levels: nat, n: Nibble)
    requires AtLevel(m, levels) && levels > 0 && Stored(d, objects, m, levels)
    ensures AtLevel(Below(m, n), levels - 1)
    ensures Stored(d, objects, Below(m, n), levels - 1)
  {
    BelowLevel(m, n, levels - 1);
    if m == map[] {
      BelowMembers(m, n);
    } else {
      assert StoredBelow(d, objects, m, levels, n);
    }
  }

  /** One level of an update. */
  lemma SetTrieStep(d: Digests, objects: map<Hash, Object>, root: Option<Hash>, children: map<Nibble, Hash>,
                    path: Path, key: string, memoryHash: Hash)
    requires path != [] && ChildrenAt(d, objects, root) == Ok(children)
    ensures var below := SetTrie(d, objects, Lookup(children, path[0]), path[1..], key, memoryHash);
            SetTrie(d, objects, root, path, key, memoryHash)
            == if below.Err? then below
               else Ok(below.value + [TrieNode(children[path[0] := d.address(below.value[|path| - 1])])])
  {
  }

  /** An update writes exactly the path of the updated map, ending in its canonical root,
      whatever the digests are. */
  lemma {:induction false} SetTrieIsCanonical(d: Digests, objects: map<Hash, Object>, m: Content, levels: nat,
                                              path: Path, r: Record)
    requires AtLevel(m, levels) && |path| == levels
    requires Addressed(d, objects) && Stored(d, objects, m, levels)
    ensures AtLevel(m[path := r], levels) && path in m[path := r]
    ensures var writes := SetTrie(d, objects, Root(d, m, levels), path, r.key, d.address(Memory(r)));
            writes.Ok? && writes.value[levels] == CanonicalObject(d, m[path := r], levels)
    decreases levels
  {
    if levels == 0 {
      assert path == [];
    } else {
      var v := Below(m, path[0])[path[1..] := r];
      StoredChild(d, objects, m, levels, path[0]);
      SetTrieIsCanonical(d, objects, Below(m, path[0]), levels - 1, path[1..], r);
      SetTrieAbove(d, objects, m, levels, path, r, v);
    }
  }

  /** If the update of the child is canonical, so is the update of its parent. */
  lemma {:induction false} SetTrieAbove(d: Digests, objects: map<Hash, Object>, m: Content, levels: nat, path: Path, r: Record,
                                        v: Content)
    requires AtLevel(m, levels) && |path| == levels && levels > 0
    requires Addressed(d, objects) && Stored(d, objects, m, levels)
    requires AtLevel(Below(m, path[0]), levels - 1)
    requires v == Below(m, path[0])[path[1..] := r] && AtLevel(v, levels - 1) && path[1..] in v
    requires var below := SetTrie(d, objects, Root(d, Below(m, path[0]), levels - 1), path[1..], r.key, d.address(Memory(r)));
             below.Ok? && below.value[levels - 1] == CanonicalObject(d, v, levels - 1)
    ensures AtLevel(m[path := r], levels) && path in m[path := r]
    ensures var writes := SetTrie(d, objects, Root(d, m, levels), path, r.key, d.address(Memory(r)));
            writes.Ok? && writes.value[levels] == CanonicalObject(d, m[path := r], levels)
  {
    var memory := d.address(Memory(r));
    OldChild(d, m, levels, path[0]);
    var below := SetTrie(d, objects, Root(d, Below(m, path[0]), levels - 1), path[1..], r.key, memory);
    CanonicalUpdate(d, m, levels, path, r, d.address(below.value[levels - 1]));
    ReadChildren(d, objects, m, levels);
    SetTrieStep(d, objects, Root(d, m, levels), OldChildren(d, m, levels), path, r.key, memory);
  }

  /** All objects of an update are held by a later store. */
  ghost predicate Written(d: Digests, objects: map<Hash, Object>, root: Option<Hash>, path: Path,
                          key: string, memoryHash: Hash, after: map<Hash, Object>) {
    var writes := SetTrie(d, objects, root, path, key, memoryHash);
    writes.Ok? && forall o :: o in writes.value ==> Holds(d, after, o)
  }

  lemma WrittenBelow(d: Digests, objects: map<Hash, Object>, root: Option<Hash>, children: map<Nibble, Hash>,
                     path: Path, key: string, memoryHash: Hash, after: map<Hash, Object>)
    requires path != [] && ChildrenAt(d, objects, root) == Ok(children)
    requires Written(d, objects, root, path, key, memoryHash, after)
    ensures Written(d, objects, Lookup(children, path[0]), path[1..], key, memoryHash, after)
  {
    SetTrieStep(d, objects, root, children, path, key, memoryHash);
  }

  /** After the writes of an update, none of which hit a collision, the store holds the
      canonical trie of the updated map. */
  lemma {:induction false} SetTrieStores(d: Digests, objects: map<Hash, Object>, m: Content, levels: nat,
                                         path: Path, r: Record, after: map<Hash, Object>, u: Content)
    requires AtLevel(m, levels) && |path| == levels && u == m[path := r]
    requires Addressed(d, objects) && Stored(d, objects, m, levels)
    requires Grows(objects, after) && Holds(d, after, Memory(r))
    requires Written(d, objects, Root(d, m, levels), path, r.key, d.address(Memory(r)), after)
    ensures AtLevel(u, levels)
    ensures Stored(d, after, u, levels)
    decreases levels, 1
  {
    NewRootHeld(d, objects, m, levels, path, r, after);
    if levels == 0 {
      StoredLeaf(d, after, u, r);
    } else {
      var v := Below(m, path[0])[path[1..] := r];
      SetTrieStoresChild(d, objects, m, levels, path, r, after, v);
      StoredAbove(d, objects, m, u, levels, path, r, after, v);
    }
  }

  lemma {:induction false} SetTrieStoresChild(d: Digests, objects: map<Hash, Object>, m: Content, levels: nat,
                                              path: Path, r: Record, after: map<Hash, Object>, v: Content)
    requires AtLevel(m, levels) && |path| == levels && levels > 0
    requires Addressed(d, objects) && Stored(d, objects, m, levels)
    requires Grows(objects, after) && Holds(d, after, Memory(r))
    requires Written(d, objects, Root(d, m, levels), path, r.key, d.address(Memory(r)), after)
    requires v == Below(m, path[0])[path[1..] := r]
    ensures AtLevel(v, levels - 1)
    ensures Stored(d, after, v, levels - 1)
    decreases levels, 0
  {
    ChildWritten(d, objects, m, levels, path, r, after);
    SetTrieStores(d, objects, Below(m, path[0]), levels - 1, path[1..], r, after, v);
  }

  lemma StoredLeaf(d: Digests, objects: map<Hash, Object>, u: Content, r: Record)
    requires AtLevel(u, 0) && [] in u && u[[]] == r
    requires Holds(d, objects, CanonicalObject(d, u, 0)) && Holds(d, objects, Memory(r))
    ensures Stored(d, objects, u, 0)
  {
  }

  lemma {:induction false} StoredAbove(d: Digests, objects: map<Hash, Object>, m: Content, u: Content,
                                       levels: nat, path: Path, r: Record, after: map<Hash, Object>, v: Content)
    requires AtLevel(m, levels) && |path| == levels && levels > 0
    requires u == m[path := r] && AtLevel(u, levels) && u != map[]
    requires Stored(d, objects, m, levels) && Grows(objects, after)
    requires v == Below(m, path[0])[path[1..] := r]
    requires AtLevel(v, levels - 1) && Stored(d, after, v, levels - 1)
    requires Holds(d, after, CanonicalObject(d, u, levels))
    ensures Stored(d, after, u, levels)
  {
    forall n: Nibble ensures StoredBelow(d, after, u, levels, n) {
      StoredUpdatedChild(d, objects, m, u, levels, path, r, after, v, n);
    }
    StoredFromChildren(d, after, u, levels);
  }

  lemma {:induction false} ChildWritten(d: Digests, objects: map<Hash, Object>, m: Content, levels: nat,
                                        path: Path, r: Record, after: map<Hash, Object>)
    requires AtLevel(m, levels) && |path| == levels && levels > 0
    requires Addressed(d, objects) && Stored(d, objects, m, levels)
    requires Written(d, objects, Root(d, m, levels), path, r.key, d.address(Memory(r)), after)
    ensures AtLevel(Below(m, path[0]), levels - 1)
    ensures Stored(d, objects, Below(m, path[0]), levels - 1)
    ensures Written(d, objects, Root(d, Below(m, path[0]), levels - 1), path[1..], r.key, d.address(Memory(r)), after)
  {
    OldChild(d, m, levels, path[0]);
    StoredChild(d, objects, m, levels, path[0]);
    ReadChildren(d, objects, m, levels);
    WrittenBelow(d, objects, Root(d, m, levels), OldChildren(d, m, levels), path, r.key, d.address(Memory(r)), after);
  }

  lemma {:induction false} NewRootHeld(d: Digests, objects: map<Hash, Object>, m: Content, levels: nat,
                                       path: Path, r: Record, after: map<Hash, Object>)
    requires AtLevel(m, levels) && |path| == levels
    requires Addressed(d, objects) && Stored(d, objects, m, levels)
    requires Written(d, objects, Root(d, m, levels), path, r.key, d.address(Memory(r)), after)
    ensures AtLevel(m[path := r], levels) && path in m[path := r]
    ensures Holds(d, after, CanonicalObject(d, m[path := r], levels))
  {
    SetTrieIsCanonical(d, objects, m, levels, path, r);
    var writes := SetTrie(d, objects, Root(d, m, levels), path, r.key, d.address(Memory(r))).value;
    assert writes[levels] in writes;
  }

  lemma {:induction false} StoredFromChildren(d: Digests, objects: map<Hash, Object>, u: Content, levels: nat)
    requires AtLevel(u, levels) && levels > 0 && u != map[]
    requires Holds(d, objects, CanonicalObject(d, u, levels))
    requires forall n: Nibble :: StoredBelow(d, objects, u, levels, n)
    ensures Stored(d, objects, u, levels)
  {
  }

  lemma {:induction false} StoredBelowFrom(d: Digests, objects: map<Hash, Object>, u: Content, levels: nat,
                                           n: Nibble, child: Content)
    requires levels > 0 && AtLevel(u, levels) && Below(u, n) == child
    requires AtLevel(child, levels - 1) && Stored(d, objects, child, levels - 1)
    ensures StoredBelow(d, objects, u, levels, n)
  {
  }

  lemma {:induction false} StoredChildGrows(d: Digests, before: map<Hash, Object>, after: map<Hash, Object>,
                                            m: Content, levels: nat, n: Nibble)
    requires AtLevel(m, levels) && levels > 0
    requires Stored(d, before, m, levels) && Grows(before, after)
    ensures AtLevel(Below(m, n), levels - 1)
    ensures Stored(d, after, Below(m, n), levels - 1)
  {
    StoredChild(d, before, m, levels, n);
    StoredGrows(d, before, after, Below(m, n), levels - 1);
  }

  lemma {:induction false} StoredUpdatedChild(d: Digests, objects: map<Hash, Object>, m: Content, u: Content,
                                              levels: nat, path: Path, r: Record, after: map<Hash, Object>, v: Content,
                                              n: Nibble)
    requires AtLevel(m, levels) && |path| == levels && levels > 0
    requires u == m[path := r] && AtLevel(u, levels)
    requires Stored(d, objects, m, levels) && Grows(objects, after)
    requires v == Below(m, path[0])[path[1..] := r]
    requires AtLevel(v, levels - 1) && Stored(d, after, v, levels - 1)
    ensures StoredBelow(d, after, u, levels, n)
  {
    BelowUpdate(m, path, r, n);
    if n == path[0] {
      StoredBelowFrom(d, after, u, levels, n, v);
    } else {
      StoredChildGrows(d, objects, after, m, levels, n);
      StoredBelowFrom(d, after, u, levels, n, Below(m, n));
    }
  }

  /** An update writes each object after everything that the object mentions. */
  lemma {:induction false} SetTrieInOrder(d: Digests, objects: map<Hash, Object>, known: set<Hash>, root: Option<Hash>,
                                          path: Path, key: string, memoryHash: Hash)
    requires Closed(objects) && objects.Keys <= known && memoryHash in known
    requires SetTrie(d, objects, root, path, key, memoryHash).Ok?
    ensures InOrder(d, known, SetTrie(d, objects, root, path, key, memoryHash).value)
    decreases |path|
  {
    if path != [] {
      var children := ChildrenAt(d, objects, root).value;
      SetTrieStep(d, objects, root, children, path, key, memoryHash);
      var below := SetTrie(d, objects, Lookup(children, path[0]), path[1..], key, memoryHash).value;
      SetTrieInOrder(d, objects, known, Lookup(children, path[0]), path[1..], key, memoryHash);
      var last := below[|below| - 1];
      assert last in below;
      var node := TrieNode(children[path[0] := d.address(last)]);
      assert Mentions(node) <= known + Addresses(d, below) by {
        assert root.Some? ==> Mentions(objects[root.value]) <= objects.Keys;
        assert Mentions(node) <= children.Values + {d.address(last)};
      }
      InOrderAppend(d, known, below, node);
    }
  }

  // ---- reads --------------------------------------------------------------------------

  /** What a lookup in the map answers, with the check that the leaf is for the same key. */
  ghost function Answer(d: Digests, m: Content, path: Path, key: string): Result<Option<Hash>, Fault> {
    if path !in m then Ok(None)
    else if m[path].key != key then Err(KeyCollision)
    else Ok(Some(d.address(Memory(m[path]))))
  }

  lemma {:induction false} GetTrieAnswers(d: Digests, objects: map<Hash, Object>, m: Content, levels: nat,
                                          path: Path, key: string)
    requires AtLevel(m, levels) && |path| == levels
    requires Addressed(d, objects) && Stored(d, objects, m, levels)
    ensures GetTrie(d, objects, Root(d, m, levels), path, key) == Answer(d, m, path, key)
    decreases levels
  {
    if m == map[] {
    } else if levels == 0 {
      assert path == [];
    } else {
      var n := path[0];
      OldChild(d, m, levels, n);
      BelowMembers(m, n);
      assert path == [n] + path[1..];
      assert StoredBelow(d, objects, m, levels, n);
      GetTrieAnswers(d, objects, Below(m, n), levels - 1, path[1..], key);
    }
  }

  /** A lookup that succeeded keeps its answer in every later store. */
  lemma {:induction false} LookupsArePermanent(d: Digests, before: map<Hash, Object>, after: map<Hash, Object>,
                                               root: Option<Hash>, path: Path, key: string)
    requires Grows(before, after) && GetTrie(d, before, root, path, key).Ok?
    ensures GetTrie(d, after, root, path, key) == GetTrie(d, before, root, path, key)
    decreases |path|
  {
    if root.Some? && path != [] {
      LookupsArePermanent(d, before, after, Lookup(before[root.value].children, path[0]), path[1..], key);
    }
  }

  // ---- Merkle canonicity --------------------------------------------------------------

  /** Two stores that never disagree on an address. */
  ghost predicate Compatible(a: map<Hash, Object>, b: map<Hash, Object>) {
    forall h :: h in a && h in b ==> a[h] == b[h]
  }

  /** Equal roots stand for equal maps. (That equal maps have equal roots is part of what
      `Root` is: it is a function of the map.) */
  lemma {:induction false} EqualRootsEqualMaps(d: Digests, a: map<Hash, Object>, b: map<Hash, Object>,
                                               m: Content, u: Content, levels: nat)
    requires AtLevel(m, levels) && AtLevel(u, levels)
    requires Stored(d, a, m, levels) && Stored(d, b, u, levels) && Compatible(a, b)
    requires Root(d, m, levels) == Root(d, u, levels)
    ensures m == u
    decreases levels
  {
    if m == map[] || u == map[] {
    } else if levels == 0 {
      assert m[[]] == u[[]];
      assert forall p :: p in m <==> p == [];
      assert forall p :: p in u <==> p == [];
    } else {
      forall n: Nibble ensures Below(m, n) == Below(u, n) {
        ChildIsRoot(d, m, levels, n);
        ChildIsRoot(d, u, levels, n);
        assert StoredBelow(d, a, m, levels, n) && StoredBelow(d, b, u, levels, n);
        EqualRootsEqualMaps(d, a, b, Below(m, n), Below(u, n), levels - 1);
      }
      SameBelow(m, u, levels);
    }
  }

  lemma SameBelow(m: Content, u: Content, levels: nat)
    requires AtLevel(m, levels) && AtLevel(u, levels) && levels > 0
    requires forall n: Nibble :: Below(m, n) == Below(u, n)
    ensures m == u
  {
    forall p: Path | |p| == levels ensures Lookup(m, p) == Lookup(u, p) {
      BelowMembers(m, p[0]);
      BelowMembers(u, p[0]);
      assert p == [p[0]] + p[1..];
    }
    forall p: Path ensures Lookup(m, p) == Lookup(u, p) {
      if |p| == levels { assert Lookup(m, p) == Lookup(u, p); }
    }
    SameLookups(m, u);
  }
}
