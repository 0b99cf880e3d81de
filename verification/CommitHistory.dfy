/** The history of a branch: what the commit of a `remember` says, and that every head a branch
    ever had lies on the parent chain of its present head. */
module CommitHistory {
  import opened Common
  import opened Objects
  import opened Trie
  import opened Dreamcatcher
  import DreamcatcherStores

  // ---- one commit ---------------------------------------------------------------------

  /** The agent that a call names as its writer: its own field, or else the originating agent. */
  ghost predicate NamesWriter(input: Input, agent: string) {
    input.writerAgentId == Some(agent) || (input.writerAgentId == None && input.originatingAgentId == Some(agent))
  }

  /** After a successful `remember` without a digest collision, the branch's head is a commit of
      the receipt's root by the named writer at the time of the call, on top of the head that the
      branch had before. */
  lemma CommitSaysWhatWasDone(d: Digests, db: Db, input: Input, now: string, writer: string)
    requires Remember(d, db, input, now).1.Ok? && Remember(d, db, input, now).0.heap.clean && NamesWriter(input, writer)
    ensures var (next, res) := Remember(d, db, input, now);
            var r := res.value;
            && input.branch in db.refs && input.branch in next.refs
            && next.refs[input.branch] == db.refs[input.branch].(head := Some(r.head))
            && r.head in next.heap.objects && next.heap.objects[r.head].Commit?
            && next.heap.objects[r.head].parent == db.refs[input.branch].head
            && next.heap.objects[r.head].root == r.root
            && next.heap.objects[r.head].writerAgentHash == d.agentHash(writer)
            && next.heap.objects[r.head].committedAt == now
            && r.memoryHash in next.heap.objects && next.heap.objects[r.memoryHash] == Memory(r.record)
  {
    var parent := RootOf(d, db.heap.objects, db.refs[input.branch].head).value;
    var record := BuildRecord(d, input, now).value;
    RememberCommits(d, db, input, now, parent, record, writer);
    CommitIsWritten(d, db, input.branch, record, parent, writer, now);
  }

  lemma RememberCommits(d: Digests, db: Db, input: Input, now: string, parent: Option<Hash>, record: Record, writer: string)
    requires Remember(d, db, input, now).1.Ok? && NamesWriter(input, writer)
    requires input.branch in db.refs ==> RootOf(d, db.heap.objects, db.refs[input.branch].head) == Ok(parent)
    requires BuildRecord(d, input, now) == Ok(record)
    ensures input.branch in db.refs
    ensures Remember(d, db, input, now) == CommitRecord(d, db, input.branch, record, parent, writer, now)
  {
  }

  lemma CommitIsWritten(d: Digests, db: Db, branch: string, record: Record, parent: Option<Hash>, writer: string, now: string)
    requires branch in db.refs
    requires var done := CommitRecord(d, db, branch, record, parent, writer, now); done.1.Ok? && done.0.heap.clean
    ensures var (next, res) := CommitRecord(d, db, branch, record, parent, writer, now);
            var r := res.value;
            && next.refs == db.refs[branch := db.refs[branch].(head := Some(r.head))]
            && Holds(d, next.heap.objects, Commit(db.refs[branch].head, r.root, d.agentHash(writer), now))
            && d.address(Commit(db.refs[branch].head, r.root, d.agentHash(writer), now)) == r.head
            && Holds(d, next.heap.objects, Memory(r.record)) && d.address(Memory(r.record)) == r.memoryHash
  {
    var writes := Writes(d, db, branch, record, parent, writer, now).value;
    PutAllFacts(d, db.heap, writes);
    assert writes[0] in writes && writes[|writes| - 1] in writes;
  }

  // ---- ancestors ----------------------------------------------------------------------

  /** A list of stored commits, each the parent of the one before it. */
  ghost predicate Chain(objects: map<Hash, Object>, chain: seq<Hash>) {
    && (forall i :: 0 <= i < |chain| ==> chain[i] in objects && objects[chain[i]].Commit?)
    && (forall i :: 0 <= i < |chain| - 1 ==> objects[chain[i]].parent == Some(chain[i + 1]))
  }

  /** The commit is the head or one of its ancestors. */
  ghost predicate OnChain(objects: map<Hash, Object>, head: Option<Hash>, a: Hash) {
    exists chain :: Leads(objects, head, a, chain)
  }

  ghost predicate Leads(objects: map<Hash, Object>, head: Option<Hash>, a: Hash, chain: seq<Hash>) {
    chain != [] && head == Some(chain[0]) && chain[|chain| - 1] == a && Chain(objects, chain)
  }

  lemma ChainGrows(before: map<Hash, Object>, after: map<Hash, Object>, head: Option<Hash>, a: Hash)
    requires Grows(before, after) && OnChain(before, head, a)
    ensures OnChain(after, head, a)
  {
    var chain :| Leads(before, head, a, chain);
    assert Leads(after, head, a, chain);
  }

  lemma ChainExtends(objects: map<Hash, Object>, head: Hash, next: Hash, a: Hash)
    requires OnChain(objects, Some(head), a)
    requires next in objects && objects[next].Commit? && objects[next].parent == Some(head)
    ensures OnChain(objects, Some(next), a)
  {
    var chain :| Leads(objects, Some(head), a, chain);
    assert Leads(objects, Some(next), a, [next] + chain);
  }

  lemma OnItself(objects: map<Hash, Object>, a: Hash)
    requires a in objects && objects[a].Commit?
    ensures OnChain(objects, Some(a), a)
  {
    assert Leads(objects, Some(a), a, [a]);
  }

  /** What an ancestor of a head is: the head, or an ancestor of its parent. */
  lemma {:induction false} ChainIsReached(objects: map<Hash, Object>, chain: seq<Hash>, i: nat, closed: set<Hash>)
    requires Chain(objects, chain) && i < |chain| && chain[0] in closed
    requires forall x :: x in closed && x in objects ==> Mentions(objects[x]) <= closed
    ensures chain[i] in closed
  {
    if i > 0 {
      ChainIsReached(objects, chain, i - 1, closed);
      assert chain[i] in Mentions(objects[chain[i - 1]]);
    }
  }

  /** What is reached from a head holds all its ancestors. */
  lemma AncestorsAreReached(objects: map<Hash, Object>, head: Option<Hash>, a: Hash, found: set<Hash>)
    requires OnChain(objects, head, a) && head.Some? && DreamcatcherStores.IsClosure(objects, {head.value}, found)
    ensures a in found
  {
    var chain :| Leads(objects, head, a, chain);
    ChainIsReached(objects, chain, |chain| - 1, found);
  }

  // ---- runs ---------------------------------------------------------------------------

  /** Every head is a stored commit. */
  ghost predicate Headed(db: Db) {
    forall b :: b in db.refs && db.refs[b].head.Some? ==>
      db.refs[b].head.value in db.heap.objects && db.heap.objects[db.refs[b].head.value].Commit?
  }

  /** What one operation makes of a branch: its ref is what it was, but for a commit on top. */
  lemma StepKeepsHistory(d: Digests, db: Db, op: Op, b: string)
    requires Headed(db) && Step(d, db, op).heap.clean && b in db.refs
    ensures b in Step(d, db, op).refs
    ensures var (before, after) := (db.refs[b], Step(d, db, op).refs[b]);
            var objects := Step(d, db, op).heap.objects;
            && after.ownerAgentHash == before.ownerAgentHash && after.forkedFrom == before.forkedFrom
            && (after.head == before.head
                || (after.head.Some? && after.head.value in objects && objects[after.head.value].Commit?
                    && objects[after.head.value].parent == before.head))
  {
    if WritesTo(op, b) {
      if Remember(d, db, op.input, op.now).1.Ok? {
        WriterIsNamed(d, db, op.input, op.now);
        CommitSaysWhatWasDone(d, db, op.input, op.now, WriterOf(op.input).value);
      } else {
        FailedKeepsRefs(d, db, op.input, op.now);
      }
    } else {
      OthersKeepRef(d, db, op, b);
    }
  }

  lemma WriterIsNamed(d: Digests, db: Db, input: Input, now: string)
    requires Remember(d, db, input, now).1.Ok?
    ensures WriterOf(input).Some? && NamesWriter(input, WriterOf(input).value)
  {
  }

  lemma FailedKeepsRefs(d: Digests, db: Db, input: Input, now: string)
    requires Remember(d, db, input, now).1.Err?
    ensures Remember(d, db, input, now).0.refs == db.refs
  {
  }

  lemma StepKeepsHeaded(d: Digests, db: Db, op: Op)
    requires Headed(db) && Step(d, db, op).heap.clean
    ensures Headed(Step(d, db, op))
  {
    var next := Step(d, db, op);
    StepIsCleanOnlyFromClean(d, db, op);
    forall b | b in next.refs && next.refs[b].head.Some?
      ensures next.refs[b].head.value in next.heap.objects && next.heap.objects[next.refs[b].head.value].Commit?
    {
      if b in db.refs { StepKeepsHistory(d, db, op, b); } else { NewBranch(d, db, op, b); }
    }
  }

  /** A branch that an operation makes: empty, or at the head of the branch that it is forked from,
      which it names together with that head; owned by the named agent. */
  lemma NewBranch(d: Digests, db: Db, op: Op, b: string)
    requires b !in db.refs && b in Step(d, db, op).refs
    ensures Step(d, db, op).heap == db.heap && !op.Write?
    ensures op.Create? ==> op.branch == b && Step(d, db, op).refs[b] == Ref(None, d.agentHash(op.owner), None)
    ensures op.Fork? ==>
              && op.to == b && op.from in db.refs
              && Step(d, db, op).refs[b].head == db.refs[op.from].head
              && Step(d, db, op).refs[b].forkedFrom == Some((op.from, db.refs[op.from].head))
              && Step(d, db, op).refs[b].ownerAgentHash == d.agentHash(op.owner)
  {
    if op.Write? { WriteMakesNoBranch(d, db, op.input, op.now); }
  }

  lemma WriteMakesNoBranch(d: Digests, db: Db, input: Input, now: string)
    ensures Remember(d, db, input, now).0.refs.Keys == db.refs.Keys
  {
    if Remember(d, db, input, now).1.Err? { FailedKeepsRefs(d, db, input, now); }
  }

  lemma {:induction false} RunIsHeaded(d: Digests, db: Db, ops: seq<Op>)
    requires Headed(db) && Run(d, db, ops).heap.clean
    ensures Headed(Run(d, db, ops))
  {
    if ops != [] {
      var before := Run(d, db, ops[..|ops| - 1]);
      StepIsCleanOnlyFromClean(d, before, ops[|ops| - 1]);
      RunIsHeaded(d, db, ops[..|ops| - 1]);
      StepKeepsHeaded(d, before, ops[|ops| - 1]);
    }
  }

  /** A branch keeps its history: in every run without a digest collision, whatever was its head or
      an ancestor of it stays one, and its owner and its source never change. */
  lemma {:induction false} HistoryIsKept(d: Digests, db: Db, ops: seq<Op>, b: string, a: Hash)
    requires Headed(db) && Run(d, db, ops).heap.clean && b in db.refs && OnChain(db.heap.objects, db.refs[b].head, a)
    ensures var last := Run(d, db, ops);
            && b in last.refs && OnChain(last.heap.objects, last.refs[b].head, a)
            && last.refs[b].ownerAgentHash == db.refs[b].ownerAgentHash && last.refs[b].forkedFrom == db.refs[b].forkedFrom
  {
    if ops != [] {
      var front, op := ops[..|ops| - 1], ops[|ops| - 1];
      var before := Run(d, db, front);
      StepIsCleanOnlyFromClean(d, before, op);
      HistoryIsKept(d, db, front, b, a);
      RunIsHeaded(d, db, front);
      StepKeepsHistory(d, before, op, b);
      StepKeepsAncestor(d, before, op, b, a);
    }
  }

  lemma StepKeepsAncestor(d: Digests, db: Db, op: Op, b: string, a: Hash)
    requires Headed(db) && Step(d, db, op).heap.clean && b in db.refs && OnChain(db.heap.objects, db.refs[b].head, a)
    ensures b in Step(d, db, op).refs && OnChain(Step(d, db, op).heap.objects, Step(d, db, op).refs[b].head, a)
  {
    var next := Step(d, db, op);
    StepIsCleanOnlyFromClean(d, db, op);
    ChainGrows(db.heap.objects, next.heap.objects, db.refs[b].head, a);
    StepKeepsHistory(d, db, op, b);
    if next.refs[b].head != db.refs[b].head {
      ChainExtends(next.heap.objects, db.refs[b].head.value, next.refs[b].head.value, a);
    }
  }

  /** Every head that a branch ever had is an ancestor of its present head. */
  lemma EveryHeadIsAncestor(d: Digests, ops: seq<Op>, i: nat, b: string)
    requires i <= |ops| && Run(d, EmptyDb, ops).heap.clean
    requires b in Run(d, EmptyDb, ops[..i]).refs && Run(d, EmptyDb, ops[..i]).refs[b].head.Some?
    ensures var past, last := Run(d, EmptyDb, ops[..i]), Run(d, EmptyDb, ops);
            && b in last.refs && OnChain(last.heap.objects, last.refs[b].head, past.refs[b].head.value)
  {
    var past := Run(d, EmptyDb, ops[..i]);
    RunSplits(d, EmptyDb, ops, i);
    RunIsClean(d, past, ops[i..]);
    RunIsHeaded(d, EmptyDb, ops[..i]);
    OnItself(past.heap.objects, past.refs[b].head.value);
    HistoryIsKept(d, past, ops[i..], b, past.refs[b].head.value);
  }

  lemma {:induction false} RunSplits(d: Digests, db: Db, ops: seq<Op>, i: nat)
    requires i <= |ops|
    ensures Run(d, db, ops) == Run(d, Run(d, db, ops[..i]), ops[i..])
    decreases |ops|
  {
    if i < |ops| {
      var front := ops[..|ops| - 1];
      RunSplits(d, db, front, i);
      assert front[..i] == ops[..i] && ops[i..][..|ops[i..]| - 1] == front[i..];
    } else {
      assert ops[..i] == ops && ops[i..] == [];
    }
  }

  lemma {:induction false} RunIsClean(d: Digests, db: Db, ops: seq<Op>)
    requires Run(d, db, ops).heap.clean
    ensures db.heap.clean
  {
    if ops != [] {
      StepIsCleanOnlyFromClean(d, Run(d, db, ops[..|ops| - 1]), ops[|ops| - 1]);
      RunIsClean(d, db, ops[..|ops| - 1]);
    }
  }

  /** A fork descends from the head at which it left its source, which it names, and so from every
      ancestor of that head. */
  lemma ForksDescend(d: Digests, ops: seq<Op>, i: nat, from: string, to: string, owner: string, a: Hash)
    requires i < |ops| && Run(d, EmptyDb, ops).heap.clean && ops[i] == Fork(from, to, owner)
    requires var past := Run(d, EmptyDb, ops[..i]);
             ForkBranch(d, past, from, to, owner).1.Ok? && from in past.refs && OnChain(past.heap.objects, past.refs[from].head, a)
    ensures var past, last := Run(d, EmptyDb, ops[..i]), Run(d, EmptyDb, ops);
            && to in last.refs && OnChain(last.heap.objects, last.refs[to].head, a)
            && last.refs[to].forkedFrom == Some((from, past.refs[from].head))
            && last.refs[to].ownerAgentHash == d.agentHash(owner)
  {
    var past, forked := Run(d, EmptyDb, ops[..i]), Run(d, EmptyDb, ops[..i + 1]);
    assert ops[..i + 1][..i] == ops[..i];
    RunSplits(d, EmptyDb, ops, i + 1);
    RunIsClean(d, forked, ops[i + 1..]);
    RunIsHeaded(d, EmptyDb, ops[..i + 1]);
    NewBranch(d, past, ops[i], to);
    HistoryIsKept(d, forked, ops[i + 1..], to, a);
  }
}
