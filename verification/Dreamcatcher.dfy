/** The Dreamcatcher memory: branches over the object store, and the abstract picture that
    every run of it refines, one finite map from key paths to records per branch. */
module Dreamcatcher {
  import opened Common
  import opened Objects
  import opened Trie

  datatype Ref = Ref(head: Option<Hash>, ownerAgentHash: Hash, forkedFrom: Option<(string, Option<Hash>)>)

  datatype Db = Db(heap: Heap, refs: map<string, Ref>)

  const EmptyDb := Db(EmptyHeap, map[])

  datatype Input = Input(
    branch: string, key: string, value: string,
    originatingAgentId: Option<string>, originAgentHash: Option<Hash>, writerAgentId: Option<string>,
    observedAt: Option<string>, salience: real, confidence: real, tags: seq<string>)

  datatype Receipt = Receipt(head: Hash, root: Hash, memoryHash: Hash, record: Record)

  datatype DbError = BranchMissing | BranchExists | WriterRequired | BadRecord | BlankAgent | Broken(fault: Fault)

  // ---- records ------------------------------------------------------------------------

  predicate UnitInterval(x: real) { 0.0 <= x <= 1.0 }

  function HashAgent(d: Digests, agentId: Option<string>): Result<Hash, DbError> {
    if agentId.None? || d.blank(agentId.value) then Err(BlankAgent) else Ok(d.agentHash(agentId.value))
  }

  function Truthy(s: Option<string>): bool { s.Some? && s.value != "" }

  function ResolveOrigin(d: Digests, input: Input): Result<Hash, DbError> {
    if !Truthy(input.originAgentHash) then HashAgent(d, input.originatingAgentId)
    else if !d.isDigest(input.originAgentHash.value) then Err(BadRecord)
    else if Truthy(input.originatingAgentId) then
      var own :- HashAgent(d, input.originatingAgentId);
      if own != input.originAgentHash.value then Err(BadRecord) else Ok(own)
    else Ok(input.originAgentHash.value)
  }

  /** The digest that binds a record's origin to its content. */
  function ProvenanceOf(d: Digests, r: Record): Hash { d.provenance(r.(provenanceHash := "")) }

  predicate Verified(d: Digests, r: Record) {
    d.isDigest(r.provenanceHash) && r.provenanceHash == ProvenanceOf(d, r)
  }

  /** What every record that `BuildRecord` makes satisfies. */
  ghost predicate WellMade(d: Digests, r: Record) {
    Verified(d, r) && UnitInterval(r.salience) && UnitInterval(r.confidence)
  }

  function BuildRecord(d: Digests, input: Input, now: string): Result<Record, DbError> {
    var observedAt := if input.observedAt.Some? then input.observedAt.value else now;
    if d.blank(input.key) || d.blank(observedAt) then Err(BadRecord)
    else if !UnitInterval(input.salience) || !UnitInterval(input.confidence) then Err(BadRecord)
    else
      var origin :- ResolveOrigin(d, input);
      var content := Record(d.nfc(input.key), input.value, observedAt, input.salience, input.confidence,
                            set t | t in input.tags :: d.nfc(t), origin, "");
      Ok(content.(provenanceHash := d.provenance(content)))
  }

  // ---- operations ---------------------------------------------------------------------

  function CreateBranch(d: Digests, db: Db, branch: string, owner: string): (Db, Result<Ref, DbError>) {
    if branch in db.refs then (db, Err(BranchExists))
    else if d.blank(owner) then (db, Err(BlankAgent))
    else
      var ref := Ref(None, d.agentHash(owner), None);
      (db.(refs := db.refs[branch := ref]), Ok(ref))
  }

  function ForkBranch(d: Digests, db: Db, from: string, to: string, owner: string): (Db, Result<Ref, DbError>) {
    if from !in db.refs then (db, Err(BranchMissing))
    else if to in db.refs then (db, Err(BranchExists))
    else if d.blank(owner) then (db, Err(BlankAgent))
    else
      var ref := Ref(db.refs[from].head, d.agentHash(owner), Some((from, db.refs[from].head)));
      (db.(refs := db.refs[to := ref]), Ok(ref))
  }

  /** The trie root below a branch head. */
  function RootOf(d: Digests, objects: map<Hash, Object>, head: Option<Hash>): Result<Option<Hash>, Fault> {
    if head.None? then Ok(None)
    else
      var o :- Fetch(d, objects, head.value);
      if o.Commit? then Ok(Some(o.root)) else Err(NotACommit)
  }

  function WriterOf(input: Input): Option<string> {
    if input.writerAgentId.Some? then input.writerAgentId else input.originatingAgentId
  }

  /** Stores one record on a branch. Objects are written before the branch moves; an error
      leaves every branch where it was, though objects may have been written. */
  function Remember(d: Digests, db: Db, input: Input, now: string): (Db, Result<Receipt, DbError>) {
    var writer := WriterOf(input);
    if !Truthy(writer) then (db, Err(WriterRequired))
    else if input.branch !in db.refs then (db, Err(BranchMissing))
    else
      var ref := db.refs[input.branch];
      match RootOf(d, db.heap.objects, ref.head)
      case Err(f) => (db, Err(Broken(f)))
      case Ok(parent) =>
        match BuildRecord(d, input, now)
        case Err(e) => (db, Err(e))
        case Ok(record) => CommitRecord(d, db, input.branch, record, parent, writer.value, now)
  }

  /** The objects that a `remember` with a valid record writes, in order: the record, the trie
      nodes from the leaf up to the new root, and the commit. */
  function Writes(d: Digests, db: Db, branch: string, record: Record, parent: Option<Hash>, writer: string, now: string)
    : (r: Result<seq<Object>, Fault>)
    requires branch in db.refs
    ensures r.Ok? ==> |r.value| == |d.PathOf(record.key)| + 3 && r.value[|r.value| - 1].Commit?
  {
    var h1 := Put(d, db.heap, Memory(record));
    var trie :- SetTrie(d, h1.objects, parent, d.PathOf(record.key), record.key, d.address(Memory(record)));
    Ok([Memory(record)] + trie +
       [Commit(db.refs[branch].head, d.address(trie[|trie| - 1]), d.agentHash(writer), now)])
  }

  /** Performs the writes and moves the branch. The writer is hashed between the trie and the
      commit, so a blank writer is noticed when all but the commit has been written. */
  function CommitRecord(d: Digests, db: Db, branch: string, record: Record, parent: Option<Hash>,
                   writer: string, now: string): (Db, Result<Receipt, DbError>)
    requires branch in db.refs
  {
    match Writes(d, db, branch, record, parent, writer, now)
    case Err(f) => (db.(heap := Put(d, db.heap, Memory(record))), Err(Broken(f)))
    case Ok(writes) =>
      var n := |writes| - 1;
      if d.blank(writer) then (db.(heap := PutAll(d, db.heap, writes[..n])), Err(BlankAgent))
      else
        var head := d.address(writes[n]);
        (Db(PutAll(d, db.heap, writes), db.refs[branch := db.refs[branch].(head := Some(head))]),
         Ok(Receipt(head, writes[n].root, d.address(Memory(record)), record)))
  }

  function Get(d: Digests, db: Db, branch: string, key: string): Result<Option<Object>, DbError> {
    if d.blank(key) then Err(BadRecord)
    else if branch !in db.refs || db.refs[branch].head.None? then Ok(None)
    else
      match Fetch(d, db.heap.objects, db.refs[branch].head.value)
      case Err(f) => Err(Broken(f))
      case Ok(commit) =>
        var root := if commit.Commit? then Some(commit.root) else None;
        match GetTrie(d, db.heap.objects, root, d.PathOf(d.nfc(key)), d.nfc(key))
        case Err(f) => Err(Broken(f))
        case Ok(None) => Ok(None)
        case Ok(Some(a)) =>
          match Fetch(d, db.heap.objects, a)
          case Err(f) => Err(Broken(f))
          case Ok(o) => Ok(Some(o))
  }

  // ---- the abstract picture -----------------------------------------------------------

  type Picture = map<string, Content>

  /** Every record is filed under the path of its own key and is well made. */
  ghost predicate Filed(d: Digests, m: Content) {
    AtLevel(m, d.digits) && forall p :: p in m ==> p == d.PathOf(m[p].key) && WellMade(d, m[p])
  }

  ghost predicate BranchHolds(d: Digests, objects: map<Hash, Object>, head: Option<Hash>, m: Content) {
    && Filed(d, m)
    && Stored(d, objects, m, d.digits)
    && (head.None? ==> m == map[])
    && (head.Some? ==>
          && head.value in objects
          && objects[head.value].Commit?
          && Root(d, m, d.digits) == Some(objects[head.value].root))
  }

  /** The store is sound and every branch holds what the picture says. */
  ghost predicate Depicts(d: Digests, db: Db, c: Picture) {
    && Sound(d, db.heap.objects)
    && c.Keys == db.refs.Keys
    && forall b :: b in c ==> BranchHolds(d, db.heap.objects, db.refs[b].head, c[b])
  }

  /** What a call to `remember` does to the picture. */
  ghost function Recorded(d: Digests, c: Picture, input: Input, now: string): Picture {
    if Accepts(d, c, input, now) then
      var r := BuildRecord(d, input, now).value;
      c[input.branch := c[input.branch][d.PathOf(r.key) := r]]
    else c
  }

  /** When a call to `remember` succeeds. */
  ghost predicate Accepts(d: Digests, c: Picture, input: Input, now: string) {
    && Truthy(WriterOf(input)) && !d.blank(WriterOf(input).value)
    && input.branch in c
    && BuildRecord(d, input, now).Ok?
  }

  lemma BuiltRecordIsWellMade(d: Digests, input: Input, now: string)
    requires d.WellFormed() && BuildRecord(d, input, now).Ok?
    ensures WellMade(d, BuildRecord(d, input, now).value)
    ensures BuildRecord(d, input, now).value.key == d.nfc(input.key)
    ensures BuildRecord(d, input, now).value.value == input.value
  {
    var r := BuildRecord(d, input, now).value;
    var observedAt := if input.observedAt.Some? then input.observedAt.value else now;
    var content := Record(d.nfc(input.key), input.value, observedAt, input.salience, input.confidence,
                          set t | t in input.tags :: d.nfc(t), ResolveOrigin(d, input).value, "");
    assert r.(provenanceHash := "") == content;
  }

  lemma BranchHoldsGrows(d: Digests, before: map<Hash, Object>, after: map<Hash, Object>, head: Option<Hash>, m: Content)
    requires BranchHolds(d, before, head, m) && Grows(before, after)
    ensures BranchHolds(d, after, head, m)
  {
    StoredGrows(d, before, after, m, d.digits);
  }

  lemma DepictsGrows(d: Digests, db: Db, heap: Heap, c: Picture)
    requires Depicts(d, db, c) && Grows(db.heap.objects, heap.objects) && Sound(d, heap.objects)
    ensures Depicts(d, db.(heap := heap), c)
  {
    forall b | b in c ensures BranchHolds(d, heap.objects, db.refs[b].head, c[b]) {
      BranchHoldsGrows(d, db.heap.objects, heap.objects, db.refs[b].head, c[b]);
    }
  }

  // ---- one write at a time ------------------------------------------------------------

  lemma RootOfBranch(d: Digests, db: Db, c: Picture, b: string)
    requires Depicts(d, db, c) && b in c
    ensures AtLevel(c[b], d.digits)
    ensures RootOf(d, db.heap.objects, db.refs[b].head) == Ok(Root(d, c[b], d.digits))
  {
    assert BranchHolds(d, db.heap.objects, db.refs[b].head, c[b]);
  }

  /** The trie update of a `remember`: it succeeds, its writes are in order, and its last
      write is the canonical root of the updated map. */
  lemma TrieUpdate(d: Digests, db: Db, c: Picture, b: string, r: Record)
    requires d.WellFormed() && Depicts(d, db, c) && b in c
    ensures AtLevel(c[b], d.digits) && AtLevel(c[b][d.PathOf(r.key) := r], d.digits)
    ensures var h1 := Put(d, db.heap, Memory(r));
            var trie := SetTrie(d, h1.objects, Root(d, c[b], d.digits), d.PathOf(r.key), r.key, d.address(Memory(r)));
            && Sound(d, h1.objects) && Grows(db.heap.objects, h1.objects)
            && Stored(d, h1.objects, c[b], d.digits)
            && trie.Ok?
            && InOrder(d, h1.objects.Keys, trie.value)
            && Some(d.address(trie.value[d.digits])) == Root(d, c[b][d.PathOf(r.key) := r], d.digits)
  {
    var h1 := Put(d, db.heap, Memory(r));
    PutKeepsSound(d, db.heap, Memory(r));
    assert BranchHolds(d, db.heap.objects, db.refs[b].head, c[b]);
    StoredGrows(d, db.heap.objects, h1.objects, c[b], d.digits);
    SetTrieIsCanonical(d, h1.objects, c[b], d.digits, d.PathOf(r.key), r);
    SetTrieInOrder(d, h1.objects, h1.objects.Keys, Root(d, c[b], d.digits), d.PathOf(r.key), r.key, d.address(Memory(r)));
  }

  lemma WritesAreOrdered(d: Digests, db: Db, c: Picture, b: string, r: Record, writer: string, now: string)
    requires d.WellFormed() && Depicts(d, db, c) && b in c
    ensures AtLevel(c[b], d.digits)
    ensures var writes := Writes(d, db, b, r, Root(d, c[b], d.digits), writer, now);
            && writes.Ok? && |writes.value| == d.digits + 3
            && InOrder(d, db.heap.objects.Keys, writes.value)
  {
    TrieUpdate(d, db, c, b, r);
    var h1 := Put(d, db.heap, Memory(r));
    var trie := SetTrie(d, h1.objects, Root(d, c[b], d.digits), d.PathOf(r.key), r.key, d.address(Memory(r))).value;
    var commit := Commit(db.refs[b].head, d.address(trie[|trie| - 1]), d.agentHash(writer), now);
    assert db.refs[b].head.Some? ==> db.refs[b].head.value in db.heap.objects by {
      assert BranchHolds(d, db.heap.objects, db.refs[b].head, c[b]);
    }
    WrapWrites(d, db.heap, Memory(r), trie, commit);
  }

  lemma WrapWrites(d: Digests, h: Heap, first: Object, trie: seq<Object>, commit: Object)
    requires trie != [] && InOrder(d, Put(d, h, first).objects.Keys, trie)
    requires Mentions(first) == {} && commit.Commit? && commit.root == d.address(trie[|trie| - 1])
    requires commit.parent.Some? ==> commit.parent.value in h.objects
    ensures InOrder(d, h.objects.Keys, [first] + trie + [commit])
  {
    var known := h.objects.Keys + {d.address(first)};
    assert Put(d, h, first).objects.Keys == known;
    assert trie[|trie| - 1] in trie;
    assert Mentions(commit) <= known + Addresses(d, trie);
    InOrderAppend(d, known, trie, commit);
    InOrderPrepend(d, h.objects.Keys, first, trie + [commit]);
    assert [first] + (trie + [commit]) == [first] + trie + [commit];
  }

  /** At every moment inside a `remember`, after each of its at most 67 single writes and
      before the branch moves, the store is closed and acyclic, keeps every earlier object,
      and has grown by no more than the writes made so far. */
  lemma EveryWriteIsSound(d: Digests, db: Db, c: Picture, b: string, r: Record, writer: string, now: string, k: nat)
    requires d.WellFormed() && Depicts(d, db, c) && b in c && k <= d.digits + 3
    ensures AtLevel(c[b], d.digits)
    ensures var writes := Writes(d, db, b, r, Root(d, c[b], d.digits), writer, now);
            && writes.Ok? && |writes.value| == 67
            && var during := PutAll(d, db.heap, writes.value[..k]);
               && Sound(d, during.objects)
               && |during.objects| <= |db.heap.objects| + k
               && Depicts(d, db.(heap := during), c)
  {
    WritesAreOrdered(d, db, c, b, r, writer, now);
    var writes := Writes(d, db, b, r, Root(d, c[b], d.digits), writer, now).value;
    OrderedWritesStaySound(d, db.heap, writes, k);
    PutAllFacts(d, db.heap, writes[..k]);
    DepictsGrows(d, db, PutAll(d, db.heap, writes[..k]), c);
  }

  /** Whatever the store looks like, a commit only adds objects, moves no branch when it fails,
      and moves only its own branch otherwise. */
  lemma CommitOnlyGrows(d: Digests, db: Db, b: string, r: Record, parent: Option<Hash>, writer: string, now: string)
    requires b in db.refs
    ensures var (db', res) := CommitRecord(d, db, b, r, parent, writer, now);
            && Grows(db.heap.objects, db'.heap.objects)
            && (db'.heap.clean ==> db.heap.clean)
            && (res.Err? ==> db'.refs == db.refs)
            && (res.Ok? ==> db'.refs.Keys == db.refs.Keys && forall x :: x in db.refs && x != b ==> db'.refs[x] == db.refs[x])
  {
    var writes := Writes(d, db, b, r, parent, writer, now);
    if writes.Ok? {
      PutAllFacts(d, db.heap, if d.blank(writer) then writes.value[..|writes.value| - 1] else writes.value);
    }
  }

  // ---- refinement ---------------------------------------------------------------------

  /** The branch head after a successful commit is a stored commit of the updated map's root. */
  lemma CommitResult(d: Digests, db: Db, c: Picture, b: string, r: Record, writer: string, now: string)
    requires d.WellFormed() && Depicts(d, db, c) && b in c && !d.blank(writer)
    requires CommitRecord(d, db, b, r, Root(d, c[b], d.digits), writer, now).0.heap.clean
    ensures AtLevel(c[b], d.digits)
    ensures AtLevel(c[b][d.PathOf(r.key) := r], d.digits)
    ensures var db' := CommitRecord(d, db, b, r, Root(d, c[b], d.digits), writer, now).0;
            && b in db'.refs && db'.refs[b].head.Some?
            && db'.refs[b].head.value in db'.heap.objects
            && db'.heap.objects[db'.refs[b].head.value].Commit?
            && Some(db'.heap.objects[db'.refs[b].head.value].root) == Root(d, c[b][d.PathOf(r.key) := r], d.digits)
  {
    WritesAreOrdered(d, db, c, b, r, writer, now);
    LastWriteIsCommit(d, db, c, b, r, writer, now);
    var writes := Writes(d, db, b, r, Root(d, c[b], d.digits), writer, now).value;
    PutAllFacts(d, db.heap, writes);
    assert writes[|writes| - 1] in writes;
  }

  lemma LastWriteIsCommit(d: Digests, db: Db, c: Picture, b: string, r: Record, writer: string, now: string)
    requires d.WellFormed() && Depicts(d, db, c) && b in c
    ensures AtLevel(c[b], d.digits) && AtLevel(c[b][d.PathOf(r.key) := r], d.digits)
    ensures var writes := Writes(d, db, b, r, Root(d, c[b], d.digits), writer, now);
            && writes.Ok?
            && Some(writes.value[|writes.value| - 1].root) == Root(d, c[b][d.PathOf(r.key) := r], d.digits)
  {
    TrieUpdate(d, db, c, b, r);
  }

  lemma WritesHeld(d: Digests, db: Db, b: string, r: Record, root: Option<Hash>, writer: string, now: string)
    requires b in db.refs && !d.blank(writer) && Writes(d, db, b, r, root, writer, now).Ok?
    requires CommitRecord(d, db, b, r, root, writer, now).0.heap.clean
    ensures var h1 := Put(d, db.heap, Memory(r));
            var after := CommitRecord(d, db, b, r, root, writer, now).0.heap.objects;
            && Grows(h1.objects, after) && Holds(d, after, Memory(r))
            && Written(d, h1.objects, root, d.PathOf(r.key), r.key, d.address(Memory(r)), after)
  {
    var h1 := Put(d, db.heap, Memory(r));
    var trie := SetTrie(d, h1.objects, root, d.PathOf(r.key), r.key, d.address(Memory(r))).value;
    var writes := Writes(d, db, b, r, root, writer, now).value;
    HeldWrites(d, db.heap, Memory(r), trie, writes[|writes| - 1], writes);
  }

  lemma HeldWrites(d: Digests, h: Heap, first: Object, trie: seq<Object>, last: Object, writes: seq<Object>)
    requires writes == [first] + trie + [last] && PutAll(d, h, writes).clean
    ensures Grows(Put(d, h, first).objects, PutAll(d, h, writes).objects)
    ensures Holds(d, PutAll(d, h, writes).objects, first)
    ensures forall o :: o in trie ==> Holds(d, PutAll(d, h, writes).objects, o)
  {
    PutAllFacts(d, h, writes);
    assert first in writes;
    PutFirst(d, h, first, trie + [last]);
    assert writes == [first] + (trie + [last]);
  }

  lemma PutFirst(d: Digests, h: Heap, first: Object, rest: seq<Object>)
    ensures Grows(Put(d, h, first).objects, PutAll(d, h, [first] + rest).objects)
  {
    PutAllAppend(d, h, [first], rest);
    assert PutAll(d, h, [first]) == Put(d, h, first) by {
      assert [first][..0] == [];
    }
    PutAllFacts(d, Put(d, h, first), rest);
  }

  /** A commit with an acceptable writer, no collision hit: the branch now holds the updated map. */
  lemma CommitRefines(d: Digests, db: Db, c: Picture, b: string, r: Record, writer: string, now: string)
    requires d.WellFormed() && Depicts(d, db, c) && b in c && !d.blank(writer)
    requires WellMade(d, r)
    requires CommitRecord(d, db, b, r, Root(d, c[b], d.digits), writer, now).0.heap.clean
    ensures var db' := CommitRecord(d, db, b, r, Root(d, c[b], d.digits), writer, now).0;
            b in db'.refs && BranchHolds(d, db'.heap.objects, db'.refs[b].head, c[b][d.PathOf(r.key) := r])
  {
    CommitResult(d, db, c, b, r, writer, now);
    TrieUpdate(d, db, c, b, r);
    WritesHeld(d, db, b, r, Root(d, c[b], d.digits), writer, now);
    var h1 := Put(d, db.heap, Memory(r));
    var after := CommitRecord(d, db, b, r, Root(d, c[b], d.digits), writer, now).0.heap.objects;
    SetTrieStores(d, h1.objects, c[b], d.digits, d.PathOf(r.key), r, after, c[b][d.PathOf(r.key) := r]);
    FiledUpdate(d, db, c, b, r);
  }

  lemma FiledUpdate(d: Digests, db: Db, c: Picture, b: string, r: Record)
    requires d.WellFormed() && Depicts(d, db, c) && b in c && WellMade(d, r)
    ensures Filed(d, c[b][d.PathOf(r.key) := r])
  {
    assert BranchHolds(d, db.heap.objects, db.refs[b].head, c[b]);
  }

  lemma CommitStaysSound(d: Digests, db: Db, c: Picture, b: string, r: Record, writer: string, now: string)
    requires d.WellFormed() && Depicts(d, db, c) && b in c
    ensures AtLevel(c[b], d.digits)
    ensures var (db', res) := CommitRecord(d, db, b, r, Root(d, c[b], d.digits), writer, now);
            && (res.Ok? <==> !d.blank(writer))
            && (res.Ok? ==> res.value.record == r)
            && Sound(d, db'.heap.objects)
            && |db'.heap.objects| <= |db.heap.objects| + 67
            && Depicts(d, db.(heap := db'.heap), c)
  {
    WritesAreOrdered(d, db, c, b, r, writer, now);
    var writes := Writes(d, db, b, r, Root(d, c[b], d.digits), writer, now).value;
    assert writes[..67] == writes;
    EveryWriteIsSound(d, db, c, b, r, writer, now, if d.blank(writer) then 66 else 67);
  }

  /** A `remember` succeeds exactly when it is acceptable to the picture. It never removes or
      changes an object and adds at most 67. If it fails no branch moves and the picture
      stands; if it succeeds without hitting a collision, the new store depicts the picture
      with the new record filed on that branch, and every other branch as it was. */
  lemma RememberRefines(d: Digests, db: Db, c: Picture, input: Input, now: string)
    requires d.WellFormed() && Depicts(d, db, c)
    ensures var (db', res) := Remember(d, db, input, now);
            && (res.Ok? <==> Accepts(d, c, input, now))
            && (res.Err? ==> db'.refs == db.refs && Depicts(d, db', c))
            && (res.Ok? ==> res.value.record == BuildRecord(d, input, now).value)
            && (db'.heap.clean ==> db.heap.clean && Depicts(d, db', Recorded(d, c, input, now)))
            && Grows(db.heap.objects, db'.heap.objects)
            && |db'.heap.objects| <= |db.heap.objects| + 67
  {
    var (db', res) := Remember(d, db, input, now);
    var b := input.branch;
    if Truthy(WriterOf(input)) && b in c && BuildRecord(d, input, now).Ok? {
      var r, writer := BuildRecord(d, input, now).value, WriterOf(input).value;
      RootOfBranch(d, db, c, b);
      CommitStaysSound(d, db, c, b, r, writer, now);
      CommitOnlyGrows(d, db, b, r, Root(d, c[b], d.digits), writer, now);
      assert (db', res) == CommitRecord(d, db, b, r, Root(d, c[b], d.digits), writer, now);
      if !d.blank(writer) && db'.heap.clean {
        BuiltRecordIsWellMade(d, input, now);
        CommitRefines(d, db, c, b, r, writer, now);
        MovedBranchDepicts(d, db, db', c, b, c[b][d.PathOf(r.key) := r]);
      }
    } else if b in c {
      RootOfBranch(d, db, c, b);
    }
  }

  lemma MovedBranchDepicts(d: Digests, db: Db, db': Db, c: Picture, b: string, m: Content)
    requires Depicts(d, db.(heap := db'.heap), c) && b in c
    requires db'.refs.Keys == db.refs.Keys && forall x :: x in db.refs && x != b ==> db'.refs[x] == db.refs[x]
    requires BranchHolds(d, db'.heap.objects, db'.refs[b].head, m)
    ensures Depicts(d, db', c[b := m])
  {
    var objects, c' := db'.heap.objects, c[b := m];
    assert Sound(d, objects);
    forall x | x in c' ensures BranchHolds(d, objects, db'.refs[x].head, c'[x]) {
      if x == b {
        assert c'[x] == m;
      } else {
        OtherBranch(d, db.(heap := db'.heap), c, x);
      }
    }
  }

  lemma OtherBranch(d: Digests, db: Db, c: Picture, x: string)
    requires Depicts(d, db, c) && x in c
    ensures BranchHolds(d, db.heap.objects, db.refs[x].head, c[x])
  {
  }

  lemma CreateRefines(d: Digests, db: Db, c: Picture, branch: string, owner: string)
    requires Depicts(d, db, c)
    ensures var (db', res) := CreateBranch(d, db, branch, owner);
            && (res.Ok? <==> branch !in c && !d.blank(owner))
            && db'.heap == db.heap
            && Depicts(d, db', if res.Ok? then c[branch := map[]] else c)
  {
    var db' := CreateBranch(d, db, branch, owner).0;
    var c' := if branch in c || d.blank(owner) then c else c[branch := map[]];
    forall b | b in c' ensures BranchHolds(d, db'.heap.objects, db'.refs[b].head, c'[b]) {
      assert b in c ==> BranchHolds(d, db.heap.objects, db.refs[b].head, c[b]);
    }
  }

  /** A fork starts out holding exactly what its source holds. */
  lemma ForkRefines(d: Digests, db: Db, c: Picture, from: string, to: string, owner: string)
    requires Depicts(d, db, c)
    ensures var (db', res) := ForkBranch(d, db, from, to, owner);
            && (res.Ok? <==> from in c && to !in c && !d.blank(owner))
            && db'.heap == db.heap
            && Depicts(d, db', if res.Ok? then c[to := c[from]] else c)
  {
    var (db', res) := ForkBranch(d, db, from, to, owner);
    var c' := if res.Ok? then c[to := c[from]] else c;
    forall b | b in c' ensures BranchHolds(d, db'.heap.objects, db'.refs[b].head, c'[b]) {
      assert b in c ==> BranchHolds(d, db.heap.objects, db.refs[b].head, c[b]);
      assert res.Ok? ==> BranchHolds(d, db.heap.objects, db.refs[from].head, c[from]);
    }
  }

  /** What the picture answers to a lookup. */
  ghost function Expected(d: Digests, c: Picture, branch: string, key: string): Result<Option<Object>, DbError> {
    var k := d.nfc(key);
    if d.blank(key) then Err(BadRecord)
    else if branch !in c || d.PathOf(k) !in c[branch] then Ok(None)
    else if c[branch][d.PathOf(k)].key != k then Err(Broken(KeyCollision))
    else Ok(Some(Memory(c[branch][d.PathOf(k)])))
  }

  /** A lookup answers what the picture says, and reports a collision of key digests exactly
      when the path of the key is occupied by another key. */
  lemma GetRefines(d: Digests, db: Db, c: Picture, branch: string, key: string)
    requires d.WellFormed() && Depicts(d, db, c)
    ensures Get(d, db, branch, key) == Expected(d, c, branch, key)
  {
    var k := d.nfc(key);
    if !d.blank(key) && branch in c {
      RootOfBranch(d, db, c, branch);
      assert BranchHolds(d, db.heap.objects, db.refs[branch].head, c[branch]);
      GetTrieAnswers(d, db.heap.objects, c[branch], d.digits, d.PathOf(k), k);
      if d.PathOf(k) in c[branch] {
        StoredRecords(d, db.heap.objects, c[branch], d.digits, d.PathOf(k));
      }
    }
  }

  lemma {:induction false} StoredRecords(d: Digests, objects: map<Hash, Object>, m: Content, levels: nat, p: Path)
    requires AtLevel(m, levels) && Stored(d, objects, m, levels) && p in m
    ensures Holds(d, objects, Memory(m[p]))
    decreases levels
  {
    if levels == 0 {
      assert p == [];
    } else {
      StoredChild(d, objects, m, levels, p[0]);
      BelowMembers(m, p[0]);
      assert p == [p[0]] + p[1..];
      StoredRecords(d, objects, Below(m, p[0]), levels - 1, p[1..]);
    }
  }

  // ---- runs ---------------------------------------------------------------------------

  datatype Op =
    | Create(branch: string, owner: string)
    | Fork(from: string, to: string, owner: string)
    | Write(input: Input, now: string)

  function Step(d: Digests, db: Db, op: Op): Db {
    match op
    case Create(branch, owner) => CreateBranch(d, db, branch, owner).0
    case Fork(from, to, owner) => ForkBranch(d, db, from, to, owner).0
    case Write(input, now) => Remember(d, db, input, now).0
  }

  function Run(d: Digests, db: Db, ops: seq<Op>): Db {
    if ops == [] then db else Step(d, Run(d, db, ops[..|ops| - 1]), ops[|ops| - 1])
  }

  /** The same operations on the picture: plain finite maps, no store. */
  ghost function StepPicture(d: Digests, c: Picture, op: Op): Picture {
    match op
    case Create(branch, owner) => if branch in c || d.blank(owner) then c else c[branch := map[]]
    case Fork(from, to, owner) => if from !in c || to in c || d.blank(owner) then c else c[to := c[from]]
    case Write(input, now) => Recorded(d, c, input, now)
  }

  ghost function RunPicture(d: Digests, c: Picture, ops: seq<Op>): Picture {
    if ops == [] then c else StepPicture(d, RunPicture(d, c, ops[..|ops| - 1]), ops[|ops| - 1])
  }

  lemma StepRefines(d: Digests, db: Db, c: Picture, op: Op)
    requires d.WellFormed() && Depicts(d, db, c)
    ensures Step(d, db, op).heap.clean ==> db.heap.clean && Depicts(d, Step(d, db, op), StepPicture(d, c, op))
    ensures Grows(db.heap.objects, Step(d, db, op).heap.objects)
  {
    match op
    case Create(branch, owner) => CreateRefines(d, db, c, branch, owner);
    case Fork(from, to, owner) => ForkRefines(d, db, c, from, to, owner);
    case Write(input, now) => RememberRefines(d, db, c, input, now);
  }

  /** Refinement over every run: as long as no digest collision was hit, the store reached by
      any sequence of creates, forks and writes depicts the picture reached by the same
      sequence, so that every lookup on every branch answers what the picture answers. */
  lemma {:induction false} RunRefines(d: Digests, ops: seq<Op>)
    requires d.WellFormed() && Run(d, EmptyDb, ops).heap.clean
    ensures Depicts(d, Run(d, EmptyDb, ops), RunPicture(d, map[], ops))
    ensures forall branch, key ::
              Get(d, Run(d, EmptyDb, ops), branch, key) == Expected(d, RunPicture(d, map[], ops), branch, key)
  {
    CleanRunDepicts(d, ops);
    forall branch, key {
      GetRefines(d, Run(d, EmptyDb, ops), RunPicture(d, map[], ops), branch, key);
    }
  }

  lemma {:induction false} CleanRunDepicts(d: Digests, ops: seq<Op>)
    requires d.WellFormed() && Run(d, EmptyDb, ops).heap.clean
    ensures Depicts(d, Run(d, EmptyDb, ops), RunPicture(d, map[], ops))
  {
    if ops == [] {
      assert RankedBy(map[], map[], 0);
    } else {
      var before := Run(d, EmptyDb, ops[..|ops| - 1]);
      StepIsCleanOnlyFromClean(d, before, ops[|ops| - 1]);
      CleanRunDepicts(d, ops[..|ops| - 1]);
      StepRefines(d, before, RunPicture(d, map[], ops[..|ops| - 1]), ops[|ops| - 1]);
    }
  }

  lemma StepIsCleanOnlyFromClean(d: Digests, db: Db, op: Op)
    ensures Step(d, db, op).heap.clean ==> db.heap.clean
    ensures Grows(db.heap.objects, Step(d, db, op).heap.objects)
  {
    if op.Write? && op.input.branch in db.refs && Truthy(WriterOf(op.input)) {
      var input := op.input;
      var built := BuildRecord(d, input, op.now);
      var parent := RootOf(d, db.heap.objects, db.refs[input.branch].head);
      if built.Ok? && parent.Ok? {
        CommitOnlyGrows(d, db, input.branch, built.value, parent.value, WriterOf(input).value, op.now);
      }
    }
  }

  /** Every root ever returned keeps its meaning: a lookup below any root of any store answers
      the same in every store reachable from it. This needs no assumption on the digests. */
  lemma {:induction false} RootsKeepTheirMeaning(d: Digests, db: Db, ops: seq<Op>, root: Option<Hash>, path: Path, key: string)
    requires GetTrie(d, db.heap.objects, root, path, key).Ok?
    ensures GetTrie(d, Run(d, db, ops).heap.objects, root, path, key) == GetTrie(d, db.heap.objects, root, path, key)
  {
    if ops != [] {
      RootsKeepTheirMeaning(d, db, ops[..|ops| - 1], root, path, key);
      var before := Run(d, db, ops[..|ops| - 1]);
      StepIsCleanOnlyFromClean(d, before, ops[|ops| - 1]);
      LookupsArePermanent(d, before.heap.objects, Step(d, before, ops[|ops| - 1]).heap.objects, root, path, key);
    }
  }

  /** Two write histories that leave a branch with the same records have the same root, and
      histories with different records have different roots. */
  lemma RootsAreCanonical(d: Digests, ops1: seq<Op>, b1: string, ops2: seq<Op>, b2: string)
    requires d.WellFormed()
    requires Run(d, EmptyDb, ops1).heap.clean && Run(d, EmptyDb, ops2).heap.clean
    requires Compatible(Run(d, EmptyDb, ops1).heap.objects, Run(d, EmptyDb, ops2).heap.objects)
    requires b1 in Run(d, EmptyDb, ops1).refs && b2 in Run(d, EmptyDb, ops2).refs
    ensures var (db1, db2) := (Run(d, EmptyDb, ops1), Run(d, EmptyDb, ops2));
            var (c1, c2) := (RunPicture(d, map[], ops1), RunPicture(d, map[], ops2));
            && b1 in c1 && b2 in c2
            && (RootOf(d, db1.heap.objects, db1.refs[b1].head) == RootOf(d, db2.heap.objects, db2.refs[b2].head)
                <==> c1[b1] == c2[b2])
  {
    var (db1, db2) := (Run(d, EmptyDb, ops1), Run(d, EmptyDb, ops2));
    var (c1, c2) := (RunPicture(d, map[], ops1), RunPicture(d, map[], ops2));
    CleanRunDepicts(d, ops1);
    CleanRunDepicts(d, ops2);
    RootOfBranch(d, db1, c1, b1);
    RootOfBranch(d, db2, c2, b2);
    assert BranchHolds(d, db1.heap.objects, db1.refs[b1].head, c1[b1]);
    assert BranchHolds(d, db2.heap.objects, db2.refs[b2].head, c2[b2]);
    if RootOf(d, db1.heap.objects, db1.refs[b1].head) == RootOf(d, db2.heap.objects, db2.refs[b2].head) {
      EqualRootsEqualMaps(d, db1.heap.objects, db2.heap.objects, c1[b1], c2[b2], d.digits);
    }
  }

  /** An operation that writes to a branch. */
  ghost predicate WritesTo(op: Op, b: string) { op.Write? && op.input.branch == b }

  lemma OthersKeepRef(d: Digests, db: Db, op: Op, b: string)
    requires b in db.refs && !WritesTo(op, b)
    ensures b in Step(d, db, op).refs && Step(d, db, op).refs[b] == db.refs[b]
  {
    if op.Write? && op.input.branch in db.refs && Truthy(WriterOf(op.input)) {
      var built := BuildRecord(d, op.input, op.now);
      var parent := RootOf(d, db.heap.objects, db.refs[op.input.branch].head);
      if built.Ok? && parent.Ok? {
        CommitOnlyGrows(d, db, op.input.branch, built.value, parent.value, WriterOf(op.input).value, op.now);
      }
    }
  }

  /** An object that could be read, or was found broken, is read the same for ever. */
  lemma ReadsArePermanent(d: Digests, before: map<Hash, Object>, after: map<Hash, Object>, a: Hash)
    requires Grows(before, after)
    ensures Fetch(d, before, a) != Err(Missing) ==> Fetch(d, after, a) == Fetch(d, before, a)
  {
  }

  lemma {:induction false} TrieReadsArePermanent(d: Digests, before: map<Hash, Object>, after: map<Hash, Object>,
                                                 root: Option<Hash>, path: Path, key: string)
    requires Grows(before, after) && GetTrie(d, before, root, path, key) != Err(Missing)
    ensures GetTrie(d, after, root, path, key) == GetTrie(d, before, root, path, key)
    decreases |path|
  {
    if root.Some? {
      ReadsArePermanent(d, before, after, root.value);
      var o := Fetch(d, before, root.value);
      if o.Ok? && path != [] && o.value.TrieNode? {
        TrieReadsArePermanent(d, before, after, Lookup(o.value.children, path[0]), path[1..], key);
      }
    }
  }

  /** A lookup on a branch whose ref stays depends on the stored objects alone. */
  lemma LookupStays(d: Digests, db: Db, after: Db, b: string, key: string)
    requires b in db.refs && b in after.refs && after.refs[b] == db.refs[b] && Grows(db.heap.objects, after.heap.objects)
    requires Get(d, db, b, key) != Err(Broken(Missing))
    ensures Get(d, after, b, key) == Get(d, db, b, key)
  {
    if !d.blank(key) && db.refs[b].head.Some? {
      var head := db.refs[b].head.value;
      ReadsArePermanent(d, db.heap.objects, after.heap.objects, head);
      var commit := Fetch(d, db.heap.objects, head);
      if commit.Ok? {
        var root := if commit.value.Commit? then Some(commit.value.root) else None;
        var found := GetTrie(d, db.heap.objects, root, d.PathOf(d.nfc(key)), d.nfc(key));
        TrieReadsArePermanent(d, db.heap.objects, after.heap.objects, root, d.PathOf(d.nfc(key)), d.nfc(key));
        if found.Ok? && found.value.Some? { ReadsArePermanent(d, db.heap.objects, after.heap.objects, found.value.value); }
      }
    }
  }

  /** From any store, sound or not, and whatever the digests do: operations that do not write to a
      branch change no answer of a lookup on it, found, not found or broken, but for the report
      that an object is missing. */
  lemma {:induction false} BranchesAreIsolated(d: Digests, db: Db, ops: seq<Op>, b: string, key: string)
    requires b in db.refs && forall op :: op in ops ==> !WritesTo(op, b)
    ensures b in Run(d, db, ops).refs && Run(d, db, ops).refs[b] == db.refs[b]
    ensures Get(d, db, b, key) != Err(Broken(Missing)) ==> Get(d, Run(d, db, ops), b, key) == Get(d, db, b, key)
  {
    if ops != [] {
      var n := |ops| - 1;
      var before := Run(d, db, ops[..n]);
      BranchesAreIsolated(d, db, ops[..n], b, key);
      assert ops[n] in ops;
      OthersKeepRef(d, before, ops[n], b);
      StepIsCleanOnlyFromClean(d, before, ops[n]);
      if Get(d, db, b, key) != Err(Broken(Missing)) { LookupStays(d, before, Step(d, before, ops[n]), b, key); }
    }
  }
}
