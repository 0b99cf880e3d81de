/** The immutable, content-addressed object store below the Dreamcatcher memory: what an
    object is, which addresses it mentions, and what a write does. */
module Objects {
  import opened Common

  type Hash = string
  type Nibble = n: nat | n < 16
  type Path = seq<Nibble>

  /** A memory record. Its tags are kept sorted and without repetition, so they form a set. */
  datatype Record = Record(
    key: string, value: string, observedAt: string, salience: real, confidence: real,
    tags: set<string>, originAgentHash: Hash, provenanceHash: Hash)

  datatype Object =
    | Memory(record: Record)
    | TrieLeaf(key: string, memoryHash: Hash)
    | TrieNode(children: map<Nibble, Hash>)
    | Commit(parent: Option<Hash>, root: Hash, writerAgentHash: Hash, committedAt: string)

  /** The digests and string routines that the store is built on. They are parameters of the
      model: nothing below depends on how they are computed. */
  datatype Digests = Digests(
    digits: nat,
    address: Object -> Hash,
    keyPath: string -> Path,
    nfc: string -> string,
    agentHash: string -> Hash,
    provenance: Record -> Hash,
    isDigest: Hash -> bool,
    blank: string -> bool)
  {
    /** A key path is the 64 hexadecimal digits of a digest (`digits` names that number); a provenance seal is a digest. */
    ghost predicate WellFormed() {
      && digits == 64
      && (forall k :: |keyPath(k)| == digits)
      && (forall r :: isDigest(provenance(r)))
    }

    /** Where the trie files a key. */
    function PathOf(key: string): Path { keyPath(nfc(key)) }
  }

  /** The objects on disk. `clean` records that no write was ever swallowed because a
      different object already held its address, that is, no digest collision was hit. */
  datatype Heap = Heap(objects: map<Hash, Object>, clean: bool)

  const EmptyHeap := Heap(map[], true)

  /** An exclusive write: an existing file is left alone. */
  function Put(d: Digests, h: Heap, o: Object): Heap {
    var a := d.address(o);
    if a in h.objects then Heap(h.objects, h.clean && h.objects[a] == o)
    else Heap(h.objects[a := o], h.clean)
  }

  function PutAll(d: Digests, h: Heap, writes: seq<Object>): Heap {
    if writes == [] then h
    else Put(d, PutAll(d, h, writes[..|writes| - 1]), writes[|writes| - 1])
  }

  datatype Fault = Missing | Integrity | CorruptTrie | KeyCollision | NotACommit

  /** Reads an object and checks its address. */
  function Fetch(d: Digests, objects: map<Hash, Object>, a: Hash): Result<Object, Fault> {
    if a !in objects then Err(Missing)
    else if d.address(objects[a]) != a then Err(Integrity)
    else Ok(objects[a])
  }

  /** The addresses that an object refers to. */
  function Mentions(o: Object): set<Hash> {
    match o
    case Memory(_) => {}
    case TrieLeaf(_, m) => {m}
    case TrieNode(children) => children.Values
    case Commit(parent, root, _, _) => {root} + (if parent.Some? then {parent.value} else {})
  }

  ghost predicate Addressed(d: Digests, objects: map<Hash, Object>) {
    forall a :: a in objects ==> d.address(objects[a]) == a
  }

  /** Every address that a stored object mentions is itself stored. */
  ghost predicate Closed(objects: map<Hash, Object>) {
    forall a :: a in objects ==> Mentions(objects[a]) <= objects.Keys
  }

  ghost predicate RankedBy(objects: map<Hash, Object>, rank: map<Hash, nat>, bound: nat) {
    && rank.Keys == objects.Keys
    && (forall a :: a in objects ==> rank[a] < bound)
    && (forall a, b :: a in objects && b in objects && b in Mentions(objects[a]) ==> rank[b] < rank[a])
  }

  /** The object graph has no cycle: some ranking decreases along every mention. */
  ghost predicate Acyclic(objects: map<Hash, Object>) {
    exists rank, bound :: RankedBy(objects, rank, bound)
  }

  ghost predicate Sound(d: Digests, objects: map<Hash, Object>) {
    Addressed(d, objects) && Closed(objects) && Acyclic(objects)
  }

  /** Objects are never changed or removed. */
  ghost predicate Grows(before: map<Hash, Object>, after: map<Hash, Object>) {
    forall a :: a in before ==> a in after && after[a] == before[a]
  }

  ghost predicate Holds(d: Digests, objects: map<Hash, Object>, o: Object) {
    d.address(o) in objects && objects[d.address(o)] == o
  }

  lemma PutKeepsSound(d: Digests, h: Heap, o: Object)
    requires Sound(d, h.objects)
    requires Mentions(o) <= h.objects.Keys
    ensures Sound(d, Put(d, h, o).objects)
  {
    var a := d.address(o);
    if a !in h.objects {
      var rank, bound :| RankedBy(h.objects, rank, bound);
      RankNewObject(h.objects, rank, bound, a, o);
    }
  }

  lemma RankNewObject(objects: map<Hash, Object>, rank: map<Hash, nat>, bound: nat, a: Hash, o: Object)
    requires RankedBy(objects, rank, bound) && Closed(objects)
    requires a !in objects && Mentions(o) <= objects.Keys
    ensures RankedBy(objects[a := o], rank[a := bound], bound + 1)
  {
    var after, rank' := objects[a := o], rank[a := bound];
    forall x, y | x in after && y in after && y in Mentions(after[x])
      ensures rank'[y] < rank'[x]
    {
      assert y in objects.Keys by { assert x != a ==> Mentions(objects[x]) <= objects.Keys; }
    }
  }

  lemma {:induction false} PutAllFacts(d: Digests, h: Heap, writes: seq<Object>)
    ensures Grows(h.objects, PutAll(d, h, writes).objects)
    ensures PutAll(d, h, writes).clean ==> h.clean
    ensures forall o :: o in writes ==> d.address(o) in PutAll(d, h, writes).objects
    ensures forall o :: o in writes && PutAll(d, h, writes).clean ==> Holds(d, PutAll(d, h, writes).objects, o)
    ensures PutAll(d, h, writes).objects.Keys == h.objects.Keys + Addresses(d, writes)
  {
    if writes != [] {
      var n := |writes| - 1;
      PutAllFacts(d, h, writes[..n]);
      assert writes == writes[..n] + [writes[n]];
    }
  }

  lemma {:induction false} PutAllAppend(d: Digests, h: Heap, a: seq<Object>, b: seq<Object>)
    ensures PutAll(d, h, a + b) == PutAll(d, PutAll(d, h, a), b)
  {
    if b == [] {
      assert a + b == a;
    } else {
      var n := |b| - 1;
      PutAllAppend(d, h, a, b[..n]);
      assert (a + b)[..|a + b| - 1] == a + b[..n];
    }
  }

  /** Every write mentions only known addresses, or the address of an earlier write. */
  ghost predicate InOrder(d: Digests, known: set<Hash>, writes: seq<Object>) {
    forall i :: 0 <= i < |writes| ==> Mentions(writes[i]) <= known + Addresses(d, writes[..i])
  }

  ghost function Addresses(d: Digests, writes: seq<Object>): set<Hash> {
    set o | o in writes :: d.address(o)
  }

  lemma InOrderAppend(d: Digests, known: set<Hash>, writes: seq<Object>, last: Object)
    requires InOrder(d, known, writes)
    requires Mentions(last) <= known + Addresses(d, writes)
    ensures InOrder(d, known, writes + [last])
  {
    var all := writes + [last];
    forall i | 0 <= i < |all| ensures Mentions(all[i]) <= known + Addresses(d, all[..i]) {
      assert all[..i] == writes[..i];
      assert i == |writes| ==> writes[..i] == writes;
    }
  }

  lemma InOrderPrepend(d: Digests, known: set<Hash>, first: Object, writes: seq<Object>)
    requires InOrder(d, known + {d.address(first)}, writes)
    requires Mentions(first) <= known
    ensures InOrder(d, known, [first] + writes)
  {
    var all := [first] + writes;
    forall i | 0 <= i < |all| ensures Mentions(all[i]) <= known + Addresses(d, all[..i]) {
      if i > 0 {
        assert all[..i] == [first] + writes[..i - 1];
        assert first in all[..i];
        assert Addresses(d, writes[..i - 1]) <= Addresses(d, all[..i]);
      }
    }
  }

  /** The store is closed and acyclic after each single write of an ordered list of writes. */
  lemma {:induction false} OrderedWritesStaySound(d: Digests, h: Heap, writes: seq<Object>, k: nat)
    requires Sound(d, h.objects) && InOrder(d, h.objects.Keys, writes) && k <= |writes|
    ensures Sound(d, PutAll(d, h, writes[..k]).objects)
    ensures |PutAll(d, h, writes[..k]).objects| <= |h.objects| + k
  {
    if k > 0 {
      OrderedWritesStaySound(d, h, writes, k - 1);
      LastWrite(d, h, writes, k);
      NextIsKnown(d, h, writes, k - 1);
      PutKeepsSound(d, PutAll(d, h, writes[..k - 1]), writes[k - 1]);
    }
  }

  lemma NextIsKnown(d: Digests, h: Heap, writes: seq<Object>, k: nat)
    requires InOrder(d, h.objects.Keys, writes) && k < |writes|
    ensures Mentions(writes[k]) <= PutAll(d, h, writes[..k]).objects.Keys
  {
    PutAllFacts(d, h, writes[..k]);
  }

  lemma LastWrite(d: Digests, h: Heap, writes: seq<Object>, k: nat)
    requires 0 < k <= |writes|
    ensures PutAll(d, h, writes[..k]) == Put(d, PutAll(d, h, writes[..k - 1]), writes[k - 1])
  {
    assert writes[..k][..k - 1] == writes[..k - 1];
  }
}
