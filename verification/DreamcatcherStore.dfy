/** The store object itself: methods that grow the object map and move the branch refs, each
    proved to do what the functions over store values say. */
module DreamcatcherStores {
  import opened Common
  import opened Sorting
  import opened Objects
  import Trie
  import opened Dreamcatcher
  import Recall

  /** A set of addresses that contains whatever its stored members mention. */
  ghost predicate ClosedUnder(objects: map<Hash, Object>, s: set<Hash>) {
    forall a :: a in s && a in objects ==> Mentions(objects[a]) <= s
  }

  /** The least closed set that contains some starting addresses. */
  ghost predicate IsClosure(objects: map<Hash, Object>, start: set<Hash>, found: set<Hash>) {
    && start <= found
    && ClosedUnder(objects, found)
    && forall s: set<Hash> :: start <= s && ClosedUnder(objects, s) ==> found <= s
  }

  class DreamcatcherStore {
    const d: Digests
    var objects: map<Hash, Object>
    ghost var clean: bool
    var refs: map<string, Ref>

    constructor (d: Digests)
      ensures this.d == d && State() == EmptyDb
    {
      this.d := d;
      objects, refs := map[], map[];
      clean := true;
    }

    ghost function Contents(): Heap
      reads this
    {
      Heap(objects, clean)
    }

    ghost function State(): Db
      reads this
    {
      Db(Contents(), refs)
    }

    method PutObject(o: Object) returns (a: Hash)
      modifies this`objects, this`clean
      ensures a == d.address(o) && Contents() == Put(d, old(Contents()), o)
    {
      a := d.address(o);
      if a in objects {
        clean := clean && objects[a] == o;
      } else {
        objects := objects[a := o];
      }
    }

    method GetObject(a: Hash) returns (r: Result<Object, Fault>)
      ensures r == Fetch(d, objects, a)
    {
      if a !in objects { return Err(Missing); }
      var o := objects[a];
      if d.address(o) != a { return Err(Integrity); }
      return Ok(o);
    }

    method CreateBranch(branch: string, owner: string) returns (r: Result<Ref, DbError>)
      modifies this`refs
      ensures (State(), r) == Dreamcatcher.CreateBranch(d, old(State()), branch, owner)
    {
      if branch in refs { return Err(BranchExists); }
      if d.blank(owner) { return Err(BlankAgent); }
      var ref := Ref(None, d.agentHash(owner), None);
      refs := refs[branch := ref];
      return Ok(ref);
    }

    method ForkBranch(from: string, to: string, owner: string) returns (r: Result<Ref, DbError>)
      modifies this`refs
      ensures (State(), r) == Dreamcatcher.ForkBranch(d, old(State()), from, to, owner)
    {
      if from !in refs { return Err(BranchMissing); }
      if to in refs { return Err(BranchExists); }
      if d.blank(owner) { return Err(BlankAgent); }
      var source := refs[from];
      var ref := Ref(source.head, d.agentHash(owner), Some((from, source.head)));
      refs := refs[to := ref];
      return Ok(ref);
    }

    /** Copies the path of one key, writing each new object as the recursion returns. */
    method SetTrie(root: Option<Hash>, path: Path, key: string, memoryHash: Hash) returns (r: Result<Hash, Fault>)
      modifies this`objects, this`clean
      ensures var writes := Trie.SetTrie(d, old(objects), root, path, key, memoryHash);
              match writes
              case Err(f) => r == Err(f) && Contents() == old(Contents())
              case Ok(list) => r == Ok(d.address(list[|path|])) && Contents() == PutAll(d, old(Contents()), list)
      decreases |path|
    {
      if path == [] {
        var leaf := PutObject(TrieLeaf(key, memoryHash));
        assert PutAll(d, old(Contents()), [TrieLeaf(key, memoryHash)]) == Put(d, old(Contents()), TrieLeaf(key, memoryHash)) by {
          assert [TrieLeaf(key, memoryHash)][..0] == [];
        }
        return Ok(leaf);
      }
      var children := map[];
      if root.Some? {
        var existing := GetObject(root.value);
        if existing.Err? { return Err(existing.error); }
        if !existing.value.TrieNode? { return Err(CorruptTrie); }
        children := existing.value.children;
      }
      var child := SetTrie(Lookup(children, path[0]), path[1..], key, memoryHash);
      if child.Err? { return child; }
      ghost var below := Trie.SetTrie(d, old(objects), Lookup(children, path[0]), path[1..], key, memoryHash).value;
      var node := TrieNode(children[path[0] := child.value]);
      var a := PutObject(node);
      assert (below + [node])[..|below|] == below;
      return Ok(a);
    }

    method GetTrie(root: Option<Hash>, path: Path, key: string) returns (r: Result<Option<Hash>, Fault>)
      ensures r == Trie.GetTrie(d, objects, root, path, key)
      decreases |path|
    {
      if root.None? { return Ok(None); }
      var o := GetObject(root.value);
      if o.Err? { return Err(o.error); }
      if path == [] {
        if !o.value.TrieLeaf? { return Err(CorruptTrie); }
        if o.value.key != key { return Err(KeyCollision); }
        return Ok(Some(o.value.memoryHash));
      }
      if !o.value.TrieNode? { return Err(CorruptTrie); }
      r := GetTrie(Lookup(o.value.children, path[0]), path[1..], key);
    }

    method Remember(input: Input, now: string) returns (r: Result<Receipt, DbError>)
      modifies this
      ensures (State(), r) == Dreamcatcher.Remember(d, old(State()), input, now)
    {
      var writer := WriterOf(input);
      if !Truthy(writer) { return Err(WriterRequired); }
      if input.branch !in refs { return Err(BranchMissing); }
      var ref := refs[input.branch];
      var parent: Option<Hash> := None;
      if ref.head.Some? {
        var o := GetObject(ref.head.value);
        if o.Err? { return Err(Broken(o.error)); }
        if !o.value.Commit? { return Err(Broken(NotACommit)); }
        parent := Some(o.value.root);
      }
      var built := BuildRecord(d, input, now);
      if built.Err? { return Err(built.error); }
      r := WriteRecord(input.branch, built.value, parent, writer.value, now);
    }

    /** The writes of a `remember`: record, trie path, commit, and only then the branch. */
    method WriteRecord(branch: string, record: Record, parent: Option<Hash>, writer: string, now: string)
      returns (r: Result<Receipt, DbError>)
      requires branch in refs
      modifies this
      ensures (State(), r) == CommitRecord(d, old(State()), branch, record, parent, writer, now)
    {
      ghost var h0, h1 := Contents(), Put(d, Contents(), Memory(record));
      var memoryHash := PutObject(Memory(record));
      ghost var trie := Trie.SetTrie(d, objects, parent, d.PathOf(record.key), record.key, memoryHash);
      var root := SetTrie(parent, d.PathOf(record.key), record.key, memoryHash);
      if root.Err? { return Err(Broken(root.error)); }
      ghost var writes := Writes(d, old(State()), branch, record, parent, writer, now).value;
      ghost var n := |writes| - 1;
      SplitWrites(h0, record, trie.value, writes);
      if d.blank(writer) { return Err(BlankAgent); }
      var head := PutObject(Commit(refs[branch].head, root.value, d.agentHash(writer), now));
      refs := refs[branch := refs[branch].(head := Some(head))];
      return Ok(Receipt(head, root.value, memoryHash, record));
    }

    lemma SplitWrites(h: Heap, record: Record, trie: seq<Object>, writes: seq<Object>)
      requires |writes| == |trie| + 2
      requires writes == [Memory(record)] + trie + [writes[|writes| - 1]]
      ensures var n := |writes| - 1;
              && PutAll(d, h, writes[..n]) == PutAll(d, Put(d, h, Memory(record)), trie)
              && PutAll(d, h, writes) == Put(d, PutAll(d, h, writes[..n]), writes[n])
    {
      var n := |writes| - 1;
      assert writes[..n] == [Memory(record)] + trie;
      PutAllAppend(d, h, [Memory(record)], trie);
      assert PutAll(d, h, [Memory(record)]) == Put(d, h, Memory(record)) by {
        assert [Memory(record)][..0] == [];
      }
    }

    method Get(branch: string, key: string) returns (r: Result<Option<Object>, DbError>)
      ensures r == Dreamcatcher.Get(d, State(), branch, key)
    {
      if d.blank(key) { return Err(BadRecord); }
      if branch !in refs || refs[branch].head.None? { return Ok(None); }
      var commit := GetObject(refs[branch].head.value);
      if commit.Err? { return Err(Broken(commit.error)); }
      var root := if commit.value.Commit? then Some(commit.value.root) else None;
      var a := GetTrie(root, d.PathOf(d.nfc(key)), d.nfc(key));
      if a.Err? { return Err(Broken(a.error)); }
      if a.value.None? { return Ok(None); }
      var o := GetObject(a.value.value);
      if o.Err? { return Err(Broken(o.error)); }
      return Ok(Some(o.value));
    }

    /** Appends the records below an address to a list. */
    method CollectTrie(root: Option<Hash>, levels: nat, records: seq<Record>) returns (r: Result<seq<Record>, Fault>)
      ensures var found := Trie.CollectTrie(d, objects, root, levels);
              r == if found.Err? then found else Ok(records + found.value)
      decreases levels
    {
      if root.None? { return Ok(records + []); }
      var o := GetObject(root.value);
      if o.Err? { return Err(o.error); }
      if o.value.TrieLeaf? {
        var memory := GetObject(o.value.memoryHash);
        if memory.Err? { return Err(memory.error); }
        if !memory.value.Memory? { return Err(CorruptTrie); }
        return Ok(records + [memory.value.record]);
      }
      if !o.value.TrieNode? || levels == 0 { return Err(CorruptTrie); }
      var children, all := o.value.children, records;
      ghost var total := Trie.CollectChildren(d, objects, children, 0, levels - 1);
      for n := 0 to 16
        invariant records <= all
        invariant var rest := Trie.CollectChildren(d, objects, children, n, levels - 1);
                  if rest.Err? then total == rest
                  else total.Ok? && records + total.value == all + rest.value
      {
        var before := all;
        var next := CollectTrie(Lookup(children, n), levels - 1, all);
        if next.Err? { return next; }
        all := next.value;
        ghost var first := Trie.CollectTrie(d, objects, Lookup(children, n), levels - 1).value;
        ghost var rest := Trie.CollectChildren(d, objects, children, n + 1, levels - 1);
        if rest.Ok? {
          assert before + (first + rest.value) == all + rest.value;
        }
      }
      assert all + [] == all;
      return Ok(all);
    }

    method RecallRows(branch: string, limit: int, q: Recall.Query) returns (r: Result<seq<Recall.Row>, Recall.RecallError>)
      ensures r == Recall.Recall(d, State(), branch, limit, q)
    {
      if limit <= 0 { return Err(Recall.BadLimit); }
      if branch !in refs || refs[branch].head.None? { return Ok([]); }
      var commit := GetObject(refs[branch].head.value);
      if commit.Err? { return Err(Recall.Unreadable(commit.error)); }
      if !commit.value.Commit? { return Err(Recall.Unreadable(NotACommit)); }
      var records := CollectTrie(Some(commit.value.root), d.digits, []);
      if records.Err? { return Err(Recall.Unreadable(records.error)); }
      ghost var found := Trie.CollectTrie(d, objects, Some(commit.value.root), d.digits).value;
      assert [] + found == found;
      var rows := WeighRows(records.value, q);
      if rows.Err? { return Err(rows.error); }
      return Ok(Take(limit, Sort(Recall.Ranking(q), rows.value)));
    }

    method WeighRows(records: seq<Record>, q: Recall.Query) returns (r: Result<seq<Recall.Row>, Recall.RecallError>)
      ensures r == Recall.WeighAll(d, records, q)
    {
      var rows := [];
      ghost var all := Recall.WeighAll(d, records, q);
      assert records[0..] == records;
      assert all.Ok? ==> [] + all.value == all.value;
      for i := 0 to |records|
        invariant var rest := Recall.WeighAll(d, records[i..], q);
                  if rest.Err? then all == rest else all == Ok(rows + rest.value)
      {
        var row := Recall.WeightMemory(d, records[i], q);
        assert records[i..][1..] == records[i + 1..];
        if row.Err? { return Err(row.error); }
        ghost var rest := Recall.WeighAll(d, records[i + 1..], q);
        if rest.Ok? {
          assert rows + ([row.value] + rest.value) == rows + [row.value] + rest.value;
        }
        rows := rows + [row.value];
      }
      assert rows + [] == rows;
      return Ok(rows);
    }

    /** Marks an address and everything reachable from it that is not marked yet. */
    method Visit(a: Hash, found: set<Hash>) returns (r: Result<set<Hash>, Fault>)
      requires found <= objects.Keys
      ensures Addressed(d, objects) && Closed(objects) && a in objects ==> r.Ok?
      ensures r.Ok? ==> found + {a} <= r.value <= objects.Keys
      ensures r.Ok? ==> forall x :: x in r.value && x !in found ==> Mentions(objects[x]) <= r.value
      ensures r.Ok? ==> forall s: set<Hash> :: found + {a} <= s && ClosedUnder(objects, s) ==> r.value <= s
      decreases objects.Keys - found
    {
      if a in found { return Ok(found); }
      var marked := found + {a};
      var o := GetObject(a);
      if o.Err? { return Err(o.error); }
      var next := Targets(o.value);
      var i := 0;
      while i < |next|
        invariant 0 <= i <= |next|
        invariant found + {a} <= marked <= objects.Keys
        invariant forall j :: 0 <= j < i ==> next[j] in marked
        invariant forall x :: x in marked && x !in found && x != a ==> Mentions(objects[x]) <= marked
        invariant forall s: set<Hash> :: found + {a} <= s && ClosedUnder(objects, s) ==> marked <= s
      {
        ghost var before := marked;
        var more := Visit(next[i], marked);
        if more.Err? { return more; }
        marked := more.value;
        forall s: set<Hash> | found + {a} <= s && ClosedUnder(objects, s) ensures marked <= s {
          assert next[i] in Mentions(o.value);
          assert before + {next[i]} <= s;
        }
        i := i + 1;
      }
      return Ok(marked);
    }

    /** The addresses that a traversal follows, in the order in which it follows them. */
    method Targets(o: Object) returns (next: seq<Hash>)
      ensures forall x :: x in next <==> x in Mentions(o)
    {
      next := [];
      match o {
        case Memory(_) =>
        case TrieLeaf(_, m) => next := [m];
        case Commit(parent, root, _, _) => next := (if parent.Some? then [parent.value] else []) + [root];
        case TrieNode(children) =>
          for n := 0 to 16
            invariant forall x :: x in next <==> exists k: Nibble :: k < n && k in children && children[k] == x
          {
            if n in children { next := next + [children[n]]; }
          }
      }
    }

    /** Everything reachable from a branch head: in a sound store exactly the closure of the head. */
    method ReachableObjects(branch: string) returns (r: Result<set<Hash>, Fault>)
      ensures var start := if branch in refs && refs[branch].head.Some? then {refs[branch].head.value} else {};
              && (Sound(d, objects) && start <= objects.Keys ==> r.Ok?)
              && (r.Ok? ==> IsClosure(objects, start, r.value))
    {
      if branch !in refs || refs[branch].head.None? { return Ok({}); }
      var head := refs[branch].head.value;
      r := Visit(head, {});
    }
  }
}
