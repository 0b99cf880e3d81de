/** Whose memories they are: what a stored record tells of who expressed it, over whole runs of the loop
    and the store under it, and so to whom it is first-hand. */
module Origins {
  import opened Common
  import opened FeedbackLoop
  import opened LoopRuns
  import opened StoredKeys
  import opened Durability
  import Objects
  import Dreamcatcher
  import CommitHistory
  import Recall

  // ---- what a record tells -----------------------------------------------------------------

  /** When a record can be made: it has a key and a time, its salience and its confidence are between
      zero and one, and its origin is a named agent, or the digest of one that agrees with the agent
      named, if any is. */
  lemma RecordsExactly(d: Objects.Digests, input: Dreamcatcher.Input, now: string)
    ensures Dreamcatcher.BuildRecord(d, input, now).Ok?
            <==> && !d.blank(input.key) && !d.blank(if input.observedAt.Some? then input.observedAt.value else now)
                 && 0.0 <= input.salience <= 1.0 && 0.0 <= input.confidence <= 1.0
                 && if input.originAgentHash == None || input.originAgentHash == Some("") then
                      input.originatingAgentId.Some? && !d.blank(input.originatingAgentId.value)
                    else
                      && d.isDigest(input.originAgentHash.value)
                      && (input.originatingAgentId.Some? && input.originatingAgentId.value != "" ==>
                            !d.blank(input.originatingAgentId.value) && d.agentHash(input.originatingAgentId.value) == input.originAgentHash.value)
  {
  }

  /** A record tells what it was given: its key and tags in normal form, the time given or else the
      present one, and its origin by digest. */
  lemma RecordTells(d: Objects.Digests, input: Dreamcatcher.Input, now: string)
    requires Dreamcatcher.BuildRecord(d, input, now).Ok?
    ensures var r := Dreamcatcher.BuildRecord(d, input, now).value;
            && r.key == d.nfc(input.key) && r.value == input.value
            && r.observedAt == (if input.observedAt.Some? then input.observedAt.value else now)
            && r.salience == input.salience && r.confidence == input.confidence
            && (forall t :: t in r.tags <==> exists given :: given in input.tags && t == d.nfc(given))
            && (input.originAgentHash.Some? && input.originAgentHash.value != "" ==> r.originAgentHash == input.originAgentHash.value)
            && (input.originatingAgentId.Some? && input.originatingAgentId.value != "" ==>
                  r.originAgentHash == d.agentHash(input.originatingAgentId.value))
  {
  }

  /** The record tells what was expressed under the key, and by whom. */
  ghost predicate Tells(d: Objects.Digests, r: Objects.Record, k: string, value: string, agent: string, tags: seq<string>,
                        salience: real, confidence: real) {
    && r.key == d.nfc(k) && r.value == value && r.salience == salience && r.confidence == confidence
    && (forall t :: t in r.tags <==> exists given :: given in tags && t == d.nfc(given))
    && r.originAgentHash == d.agentHash(agent)
  }

  ghost predicate TellsPayload(d: Objects.Digests, r: Objects.Record, k: string, p: Payload) {
    Tells(d, r, k, p.value, p.originatingAgentId, p.tags, p.salience, p.confidence)
  }

  /** The record tells of a derivation from the parent, in the parent's name. */
  ghost predicate TellsDerivation(cfg: Config, d: Objects.Digests, r: Objects.Record, derived: string, key: string, parent: Objects.Record) {
    && r.key == d.nfc(derived) && r.value == cfg.derivedValue(key, parent.provenanceHash) && r.salience == 1.0 && r.confidence == 1.0
    && r.tags == {d.nfc("mfl-derived")} && r.originAgentHash == parent.originAgentHash
  }

  // ---- what a call stores ------------------------------------------------------------------

  /** The second picture is the first with the record on the branch. */
  ghost predicate Placed(d: Objects.Digests, c: Dreamcatcher.Picture, next: Dreamcatcher.Picture, b: string, r: Objects.Record) {
    b in c && next == c[b := c[b][d.PathOf(r.key) := r]]
  }

  lemma RememberPlaces(d: Objects.Digests, db: Dreamcatcher.Db, c: Dreamcatcher.Picture, input: Dreamcatcher.Input, now: string)
    returns (r: Objects.Record, next: Dreamcatcher.Picture)
    requires d.WellFormed() && Dreamcatcher.Depicts(d, db, c) && Dreamcatcher.Remember(d, db, input, now).0.heap.clean
    requires Dreamcatcher.Remember(d, db, input, now).1.Ok?
    ensures Dreamcatcher.BuildRecord(d, input, now) == Ok(r) && Placed(d, c, next, input.branch, r)
    ensures Dreamcatcher.Depicts(d, Dreamcatcher.Remember(d, db, input, now).0, next)
  {
    Dreamcatcher.RememberRefines(d, db, c, input, now);
    r := Dreamcatcher.BuildRecord(d, input, now).value;
    next := Dreamcatcher.Recorded(d, c, input, now);
  }

  /** An accepted impression stores what was expressed, in the name of who expressed it. */
  lemma ImpressPlaces(cfg: Config, d: Objects.Digests, w: World, c: Dreamcatcher.Picture, session: string, key: string, actor: string,
                      branch: string, now: string) returns (r: Objects.Record, next: Dreamcatcher.Picture)
    requires d.WellFormed() && Inv(cfg, w.loop) && Dreamcatcher.Depicts(d, w.db, c)
    requires Impress(cfg, d, w.loop, w.db, session, key, actor, branch, now).2.Ok?
    requires Impress(cfg, d, w.loop, w.db, session, key, actor, branch, now).1.heap.clean
    ensures key in w.loop.payload && TellsPayload(d, r, key, w.loop.payload[key]) && r.observedAt == now && !d.blank(key)
    ensures Placed(d, c, next, branch, r) && Dreamcatcher.Depicts(d, Impress(cfg, d, w.loop, w.db, session, key, actor, branch, now).1, next)
  {
    ImpressCases(cfg, d, w, session, key, actor, branch, now);
    var input := ImpressInput(w.loop.payload[key], key, actor, branch);
    r, next := RememberPlaces(d, w.db, c, input, now);
    RecordTells(d, input, now);
    RecordsExactly(d, input, now);
  }

  function DerivedPayload(cfg: Config, key: string, parent: Objects.Record, actor: string): Payload {
    var value := cfg.derivedValue(key, parent.provenanceHash);
    Payload(value, actor, ["mfl-derived"], 1.0, 1.0, EstimateTokens(cfg, value))
  }

  lemma WrapShape(cfg: Config, d: Objects.Digests, w: World, session: string, key: string, actor: string, branch: string, now: string)
    returns (parent: Objects.Record)
    requires Wrap(cfg, d, w.loop, w.db, session, key, actor, branch, now).2.Ok?
    ensures Dreamcatcher.Get(d, w.db, branch, key) == Ok(Some(Objects.Memory(parent)))
    ensures var (next, db, _) := Wrap(cfg, d, w.loop, w.db, session, key, actor, branch, now);
            var derived := DerivedKey(w.loop, key);
            && derived in next.payload && next.payload[derived] == DerivedPayload(cfg, key, parent, actor)
            && var (db', res) := Dreamcatcher.Remember(d, w.db, DerivedInput(cfg, derived, key, parent, actor, branch), now);
               db == db' && res.Ok?
  {
    parent := Dreamcatcher.Get(d, w.db, branch, key).value.value.record;
  }

  lemma DerivationTells(cfg: Config, d: Objects.Digests, derived: string, key: string, parent: Objects.Record, actor: string, branch: string, now: string)
    requires Dreamcatcher.BuildRecord(d, DerivedInput(cfg, derived, key, parent, actor, branch), now).Ok?
    ensures TellsDerivation(cfg, d, Dreamcatcher.BuildRecord(d, DerivedInput(cfg, derived, key, parent, actor, branch), now).value, derived, key, parent)
    ensures !d.blank(derived)
  {
    var input := DerivedInput(cfg, derived, key, parent, actor, branch);
    RecordTells(d, input, now);
    RecordsExactly(d, input, now);
    var tags := Dreamcatcher.BuildRecord(d, input, now).value.tags;
    forall t ensures t in tags <==> t == d.nfc("mfl-derived") {
      assert "mfl-derived" in input.tags;
    }
  }

  /** An accepted wraparound stores a derivation in the name of the parent, but keeps its payload in the
      name of who derived it. */
  lemma WrapPlaces(cfg: Config, d: Objects.Digests, w: World, c: Dreamcatcher.Picture, session: string, key: string, actor: string,
                   branch: string, now: string) returns (r: Objects.Record, parent: Objects.Record, next: Dreamcatcher.Picture)
    requires d.WellFormed() && Dreamcatcher.Depicts(d, w.db, c)
    requires Wrap(cfg, d, w.loop, w.db, session, key, actor, branch, now).2.Ok?
    requires Wrap(cfg, d, w.loop, w.db, session, key, actor, branch, now).1.heap.clean
    ensures Dreamcatcher.Get(d, w.db, branch, key) == Ok(Some(Objects.Memory(parent)))
    ensures TellsDerivation(cfg, d, r, DerivedKey(w.loop, key), key, parent) && !d.blank(DerivedKey(w.loop, key))
    ensures Placed(d, c, next, branch, r) && Dreamcatcher.Depicts(d, Wrap(cfg, d, w.loop, w.db, session, key, actor, branch, now).1, next)
    ensures var payload := Wrap(cfg, d, w.loop, w.db, session, key, actor, branch, now).0.payload;
            DerivedKey(w.loop, key) in payload && payload[DerivedKey(w.loop, key)] == DerivedPayload(cfg, key, parent, actor)
  {
    parent := WrapShape(cfg, d, w, session, key, actor, branch, now);
    r, next := RememberPlaces(d, w.db, c, DerivedInput(cfg, DerivedKey(w.loop, key), key, parent, actor, branch), now);
    DerivationTells(cfg, d, DerivedKey(w.loop, key), key, parent, actor, branch, now);
  }

  /** The branch's head is a commit on top of the head before, by the agent, of the time. */
  ghost predicate SignedBy(d: Objects.Digests, before: Dreamcatcher.Db, after: Dreamcatcher.Db, b: string, agent: string, now: string) {
    && b in before.refs && b in after.refs && after.refs[b].head.Some? && after.refs[b].head.value in after.heap.objects
    && var commit := after.heap.objects[after.refs[b].head.value];
       commit.Commit? && commit.parent == before.refs[b].head && commit.writerAgentHash == d.agentHash(agent) && commit.committedAt == now
  }

  /** What an accepted impression or wraparound stores is committed by its caller, whoever is the origin. */
  lemma CallersSign(cfg: Config, d: Objects.Digests, w: World, op: Op)
    requires Inv(cfg, w.loop) && WriteOf(cfg, d, w, op).Some? && Step(cfg, d, w, op).db.heap.clean
    ensures op.DoImpress? || op.DoWrap?
    ensures SignedBy(d, w.db, Step(cfg, d, w, op).db, op.branch, op.actor, op.now)
  {
    match op
    case DoImpress(session, key, actor, branch, now) =>
      ImpressCases(cfg, d, w, session, key, actor, branch, now);
      CommitHistory.CommitSaysWhatWasDone(d, w.db, ImpressInput(w.loop.payload[key], key, actor, branch), now, actor);
    case DoWrap(session, key, actor, branch, now) =>
      var parent := WrapShape(cfg, d, w, session, key, actor, branch, now);
      CommitHistory.CommitSaysWhatWasDone(d, w.db, DerivedInput(cfg, DerivedKey(w.loop, key), key, parent, actor, branch), now, actor);
  }

  // ---- over runs ----------------------------------------------------------------------------

  /** The keys that a run has impressed on a branch. */
  function ImpressedTo(cfg: Config, d: Objects.Digests, db: Dreamcatcher.Db, ops: seq<Op>, b: string): set<string> {
    if ops == [] then {}
    else
      ImpressedTo(cfg, d, db, ops[..|ops| - 1], b) + ImpressedBy(cfg, d, Run(cfg, d, db, ops[..|ops| - 1]), ops[|ops| - 1], b)
  }

  /** The key that a call impresses on the branch, if it does. */
  function ImpressedBy(cfg: Config, d: Objects.Digests, w: World, op: Op, b: string): set<string> {
    match op
    case DoImpress(session, key, actor, branch, now) =>
      if branch == b && Impress(cfg, d, w.loop, w.db, session, key, actor, branch, now).2.Ok? then {key} else {}
    case _ => {}
  }

  /** The record that the picture has at the key's place. */
  ghost predicate Has(d: Objects.Digests, c: Dreamcatcher.Picture, b: string, k: string, r: Objects.Record) {
    !d.blank(k) && b in c && d.PathOf(d.nfc(k)) in c[b] && c[b][d.PathOf(d.nfc(k))] == r && r.key == d.nfc(k)
  }

  ghost predicate HasTold(d: Objects.Digests, c: Dreamcatcher.Picture, b: string, k: string, p: Payload) {
    exists r :: Has(d, c, b, k, r) && TellsPayload(d, r, k, p)
  }

  lemma HasIsAnswered(d: Objects.Digests, db: Dreamcatcher.Db, c: Dreamcatcher.Picture, b: string, k: string, r: Objects.Record)
    requires d.WellFormed() && Dreamcatcher.Depicts(d, db, c) && Has(d, c, b, k, r)
    ensures Dreamcatcher.Get(d, db, b, k) == Ok(Some(Objects.Memory(r)))
  {
    Dreamcatcher.GetRefines(d, db, c, b, k);
  }

  /** A record placed for one key leaves the others where they are. */
  lemma PlacedElsewhere(d: Objects.Digests, c: Dreamcatcher.Picture, next: Dreamcatcher.Picture, b: string, r: Objects.Record,
                        keys: set<string>, x: string, y: string, b': string, old': Objects.Record)
    requires KeysApart(d, keys) && NamesApart(d, keys) && x in keys && y in keys && (x != y || b != b')
    requires Placed(d, c, next, b, r) && r.key == d.nfc(x) && Has(d, c, b', y, old')
    ensures Has(d, next, b', y, old')
  {
  }

  /** What a run leaves in the picture: under every impressed key a record that tells its payload. */
  ghost predicate AllTold(d: Objects.Digests, st: Loop, c: Dreamcatcher.Picture, b: string, impressed: set<string>) {
    forall k :: k in impressed ==> k in st.payload && HasTold(d, c, b, k, st.payload[k])
  }

  /** One step: what it stores, if it stores something. */
  lemma StepPlaces(cfg: Config, d: Objects.Digests, w: World, op: Op, c: Dreamcatcher.Picture)
    returns (next: Dreamcatcher.Picture, r: Objects.Record)
    requires d.WellFormed() && Inv(cfg, w.loop) && Dreamcatcher.Depicts(d, w.db, c) && Step(cfg, d, w, op).db.heap.clean
    ensures Dreamcatcher.Depicts(d, Step(cfg, d, w, op).db, next)
    ensures WriteOf(cfg, d, w, op) == None ==> next == c
    ensures WriteOf(cfg, d, w, op).Some? ==>
              var (b, k) := WriteOf(cfg, d, w, op).value;
              Placed(d, c, next, b, r) && Has(d, next, b, k, r) && (op.DoImpress? ==> k in w.loop.payload && TellsPayload(d, r, k, w.loop.payload[k]))
  {
    next := StepWrites(cfg, d, w, op, c);
    r := *;
    if WriteOf(cfg, d, w, op).Some? {
      match op
      case DoImpress(session, key, actor, branch, now) =>
        r, next := ImpressPlaces(cfg, d, w, c, session, key, actor, branch, now);
      case DoWrap(session, key, actor, branch, now) =>
        var parent;
        r, parent, next := WrapPlaces(cfg, d, w, c, session, key, actor, branch, now);
    }
  }

  /** A call that writes a key which was known before is an impression of it. */
  lemma KnownIsImpressed(cfg: Config, d: Objects.Digests, w: World, op: Op, b: string, k: string)
    requires Inv(cfg, w.loop) && FreshWrap(w.loop, op) && k in w.loop.payload && WriteOf(cfg, d, w, op) == Some((b, k))
    ensures op.DoImpress? && ImpressedBy(cfg, d, w, op, b) == {k}
  {
    assert w.loop.payload.Keys == w.loop.phase.Keys;
  }

  lemma TellsOn(d: Objects.Digests, st: Loop, st': Loop, c: Dreamcatcher.Picture, next: Dreamcatcher.Picture, b: string, k: string,
                keys: set<string>, x: string, b': string, r: Objects.Record)
    requires KeysApart(d, keys) && NamesApart(d, keys) && k in keys && x in keys
    requires k in st.payload && HasTold(d, c, b, k, st.payload[k]) && k in st'.payload && st'.payload[k] == st.payload[k]
    requires Placed(d, c, next, b', r) && Has(d, next, b', x, r) && (x == k && b == b' ==> TellsPayload(d, r, k, st.payload[k]))
    ensures HasTold(d, next, b, k, st'.payload[k])
  {
    if x != k || b != b' {
      var was :| Has(d, c, b, k, was) && TellsPayload(d, was, k, st.payload[k]);
      PlacedElsewhere(d, c, next, b', r, keys, x, k, b, was);
      assert Has(d, next, b, k, was) && TellsPayload(d, was, k, st'.payload[k]);
    }
  }

  /** A record placed under one key leaves all keys told, if it tells its own. */
  lemma AllTellOn(d: Objects.Digests, st: Loop, st': Loop, c: Dreamcatcher.Picture, next: Dreamcatcher.Picture, b: string,
                  keys: set<string>, x: string, b': string, r: Objects.Record, impressed: set<string>)
    requires KeysApart(d, keys) && NamesApart(d, keys) && st'.payload.Keys <= keys && x in keys
    requires AllTold(d, st, c, b, impressed) && forall k :: k in st.payload ==> k in st'.payload && st'.payload[k] == st.payload[k]
    requires Placed(d, c, next, b', r) && Has(d, next, b', x, r) && (b == b' && x in impressed ==> TellsPayload(d, r, x, st.payload[x]))
    ensures AllTold(d, st', next, b, impressed)
  {
    forall k | k in impressed ensures k in st'.payload && HasTold(d, next, b, k, st'.payload[k]) {
      TellsOn(d, st, st', c, next, b, k, keys, x, b', r);
    }
  }

  lemma StepTells(cfg: Config, d: Objects.Digests, w: World, op: Op, c: Dreamcatcher.Picture, b: string, keys: set<string>, impressed: set<string>)
    returns (next: Dreamcatcher.Picture)
    requires d.WellFormed() && Inv(cfg, w.loop) && FreshWrap(w.loop, op) && Dreamcatcher.Depicts(d, w.db, c)
    requires Step(cfg, d, w, op).db.heap.clean && KeysApart(d, keys) && NamesApart(d, keys)
    requires Step(cfg, d, w, op).loop.phase.Keys <= keys && AllTold(d, w.loop, c, b, impressed)
    ensures Dreamcatcher.Depicts(d, Step(cfg, d, w, op).db, next)
    ensures AllTold(d, Step(cfg, d, w, op).loop, next, b, impressed + ImpressedBy(cfg, d, w, op, b))
  {
    var r;
    next, r := StepPlaces(cfg, d, w, op, c);
    PayloadsStay(cfg, d, w, op);
    PayloadsAreIn(cfg, d, w, op, keys);
    var write := WriteOf(cfg, d, w, op);
    if write.Some? {
      WrittenIsKnown(cfg, d, w, op, c);
      if write.value.0 == b && write.value.1 in impressed { KnownIsImpressed(cfg, d, w, op, b, write.value.1); }
      AllTellOn(d, w.loop, Step(cfg, d, w, op).loop, c, next, b, keys, write.value.1, write.value.0, r, impressed);
    }
    ImpressedIsWritten(cfg, d, w, op, b);
    forall k | k in ImpressedBy(cfg, d, w, op, b) ensures HasTold(d, next, b, k, w.loop.payload[k]) {
      assert Has(d, next, b, k, r) && TellsPayload(d, r, k, w.loop.payload[k]);
    }
  }

  lemma ImpressedIsWritten(cfg: Config, d: Objects.Digests, w: World, op: Op, b: string)
    ensures forall k :: k in ImpressedBy(cfg, d, w, op, b) ==> k in w.loop.payload && op.DoImpress? && WriteOf(cfg, d, w, op) == Some((b, k))
  {
  }

  lemma PayloadsAreIn(cfg: Config, d: Objects.Digests, w: World, op: Op, keys: set<string>)
    requires Inv(cfg, w.loop) && FreshWrap(w.loop, op) && Step(cfg, d, w, op).loop.phase.Keys <= keys
    ensures Step(cfg, d, w, op).loop.payload.Keys <= keys
  {
    StepKeepsInv(cfg, d, w, op);
  }

  lemma WrittenIsKnown(cfg: Config, d: Objects.Digests, w: World, op: Op, c: Dreamcatcher.Picture)
    requires d.WellFormed() && Inv(cfg, w.loop) && Dreamcatcher.Depicts(d, w.db, c) && Step(cfg, d, w, op).db.heap.clean
    requires WriteOf(cfg, d, w, op).Some?
    ensures WriteOf(cfg, d, w, op).value.1 in Step(cfg, d, w, op).loop.payload
  {
    var _ := StepWrites(cfg, d, w, op, c);
  }

  /** Over a run: under every key that the run impressed on a branch, a record tells its payload. */
  lemma {:induction false} RunTells(cfg: Config, d: Objects.Digests, db: Dreamcatcher.Db, c0: Dreamcatcher.Picture, ops: seq<Op>,
                                    b: string, keys: set<string>) returns (c: Dreamcatcher.Picture)
    requires Setting(cfg, d, db, c0, ops, keys)
    ensures Dreamcatcher.Depicts(d, Run(cfg, d, db, ops).db, c)
    ensures AllTold(d, Run(cfg, d, db, ops).loop, c, b, ImpressedTo(cfg, d, db, ops, b))
  {
    c := c0;
    if ops != [] {
      var front, last := ops[..|ops| - 1], ops[|ops| - 1];
      LastStep(cfg, d, db, c0, ops, keys);
      var before := RunTells(cfg, d, db, c0, front, b, keys);
      c := StepTells(cfg, d, Run(cfg, d, db, front), last, before, b, keys, ImpressedTo(cfg, d, db, front, b));
    }
  }

  /** A run is its front and one more call. */
  lemma LastIsFresh(cfg: Config, d: Objects.Digests, db: Dreamcatcher.Db, ops: seq<Op>, front: seq<Op>, last: Op)
    requires FreshRun(cfg, d, db, ops) && ops != [] && front == ops[..|ops| - 1] && last == ops[|ops| - 1]
    ensures FreshRun(cfg, d, db, front) && Inv(cfg, Run(cfg, d, db, front).loop) && FreshWrap(Run(cfg, d, db, front).loop, last)
    ensures Run(cfg, d, db, ops) == Step(cfg, d, Run(cfg, d, db, front), last)
  {
    FreshPrefix(cfg, d, db, ops, |ops| - 1);
    RunsKeepInv(cfg, d, db, front);
  }

  /** Payloads are what they first were, at every later moment of a run. */
  lemma {:induction false} PayloadsPersist(cfg: Config, d: Objects.Digests, db: Dreamcatcher.Db, ops: seq<Op>, n: nat, k: string)
    requires FreshRun(cfg, d, db, ops) && n <= |ops| && k in Run(cfg, d, db, ops[..n]).loop.payload
    ensures k in Run(cfg, d, db, ops).loop.payload
    ensures Run(cfg, d, db, ops).loop.payload[k] == Run(cfg, d, db, ops[..n]).loop.payload[k]
    decreases |ops|
  {
    if n < |ops| {
      var front, last := ops[..|ops| - 1], ops[|ops| - 1];
      LastIsFresh(cfg, d, db, ops, front, last);
      assert front[..n] == ops[..n];
      PayloadsPersist(cfg, d, db, front, n, k);
      PayloadsStay(cfg, d, Run(cfg, d, db, front), last);
    } else {
      assert ops[..n] == ops;
    }
  }

  /** The record of a key that is known stays on a branch until the key is impressed there. */
  lemma {:induction false} KnownRecordsStay(cfg: Config, d: Objects.Digests, db: Dreamcatcher.Db, c0: Dreamcatcher.Picture, ops: seq<Op>,
                                            b: string, keys: set<string>, n: nat, k: string, r: Objects.Record)
    requires Setting(cfg, d, db, c0, ops, keys) && n <= |ops| && k in Run(cfg, d, db, ops[..n]).loop.payload
    requires Dreamcatcher.Get(d, Run(cfg, d, db, ops[..n]).db, b, k) == Ok(Some(Objects.Memory(r))) && r.key == d.nfc(k)
    requires k !in ImpressedTo(cfg, d, db, ops, b)
    ensures Dreamcatcher.Get(d, Run(cfg, d, db, ops).db, b, k) == Ok(Some(Objects.Memory(r)))
    decreases |ops|
  {
    if n < |ops| {
      var front, last := ops[..|ops| - 1], ops[|ops| - 1];
      assert front[..n] == ops[..n];
      LastStep(cfg, d, db, c0, ops, keys);
      KnownRecordsStay(cfg, d, db, c0, front, b, keys, n, k, r);
      PayloadsPersist(cfg, d, db, front, n, k);
      var c := RunTells(cfg, d, db, c0, front, b, keys);
      RecordStays(cfg, d, Run(cfg, d, db, front), last, c, b, keys, k, r);
    } else {
      assert ops[..n] == ops;
    }
  }

  lemma RecordStays(cfg: Config, d: Objects.Digests, w: World, op: Op, c: Dreamcatcher.Picture, b: string, keys: set<string>, k: string, r: Objects.Record)
    requires d.WellFormed() && Inv(cfg, w.loop) && FreshWrap(w.loop, op) && Dreamcatcher.Depicts(d, w.db, c)
    requires Step(cfg, d, w, op).db.heap.clean && KeysApart(d, keys) && NamesApart(d, keys)
    requires Step(cfg, d, w, op).loop.phase.Keys <= keys && k in w.loop.payload
    requires Dreamcatcher.Get(d, w.db, b, k) == Ok(Some(Objects.Memory(r))) && r.key == d.nfc(k)
    requires k !in ImpressedBy(cfg, d, w, op, b)
    ensures Dreamcatcher.Get(d, Step(cfg, d, w, op).db, b, k) == Ok(Some(Objects.Memory(r)))
  {
    var next, written := StepPlaces(cfg, d, w, op, c);
    Dreamcatcher.GetRefines(d, w.db, c, b, k);
    assert Has(d, c, b, k, r);
    PayloadsStay(cfg, d, w, op);
    PayloadsAreIn(cfg, d, w, op, keys);
    var write := WriteOf(cfg, d, w, op);
    if write.Some? {
      if write == Some((b, k)) { KnownIsImpressed(cfg, d, w, op, b, k); assert false; }
      WrittenIsKnown(cfg, d, w, op, c);
      PlacedElsewhere(d, c, next, write.value.0, written, keys, write.value.1, k, b, r);
    }
    HasIsAnswered(d, Step(cfg, d, w, op).db, next, b, k, r);
  }

  // ---- whose memories they are ----------------------------------------------------------------

  /** Over every run: a key that was expressed and impressed on a branch, by whomever, is answered
      there as it was expressed, in the name of who expressed it. */
  lemma ImpressionsNameTheirOrigin(cfg: Config, d: Objects.Digests, db: Dreamcatcher.Db, c0: Dreamcatcher.Picture, ops: seq<Op>,
                                   b: string, keys: set<string>, i: nat) returns (r: Objects.Record)
    requires Setting(cfg, d, db, c0, ops, keys) && i < |ops| && ops[i].DoExpress?
    requires Express(cfg, Run(cfg, d, db, ops[..i]).loop, ops[i].session, ops[i].key, ops[i].value, ops[i].agent, ops[i].tags,
                     ops[i].salience, ops[i].confidence).1.Ok?
    requires ops[i].key in ImpressedTo(cfg, d, db, ops, b)
    ensures Dreamcatcher.Get(d, Run(cfg, d, db, ops).db, b, ops[i].key) == Ok(Some(Objects.Memory(r)))
    ensures Tells(d, r, ops[i].key, ops[i].value, ops[i].agent, ops[i].tags, ops[i].salience, ops[i].confidence)
  {
    var k := ops[i].key;
    assert ops[..i + 1][..i] == ops[..i];
    PayloadsPersist(cfg, d, db, ops, i + 1, k);
    var c := RunTells(cfg, d, db, c0, ops, b, keys);
    r :| Has(d, c, b, k, r) && TellsPayload(d, r, k, Run(cfg, d, db, ops).loop.payload[k]);
    HasIsAnswered(d, Run(cfg, d, db, ops).db, c, b, k, r);
  }

  /** Over every run: a derived key is answered in the name of its parent's origin until it is impressed
      itself, and from then on in the name of who derived it. */
  lemma DerivationsNameTheirOrigin(cfg: Config, d: Objects.Digests, db: Dreamcatcher.Db, c0: Dreamcatcher.Picture, ops: seq<Op>,
                                   keys: set<string>, i: nat) returns (parent: Objects.Record, r: Objects.Record)
    requires Setting(cfg, d, db, c0, ops, keys) && i < |ops| && ops[i].DoWrap?
    requires var w, op := Run(cfg, d, db, ops[..i]), ops[i];
             Wrap(cfg, d, w.loop, w.db, op.session, op.key, op.actor, op.branch, op.now).2.Ok?
    ensures var w, derived := Run(cfg, d, db, ops[..i]), DerivedKey(Run(cfg, d, db, ops[..i]).loop, ops[i].key);
            && Dreamcatcher.Get(d, w.db, ops[i].branch, ops[i].key) == Ok(Some(Objects.Memory(parent)))
            && Dreamcatcher.Get(d, Run(cfg, d, db, ops).db, ops[i].branch, derived) == Ok(Some(Objects.Memory(r)))
            && r.key == d.nfc(derived) && r.value == cfg.derivedValue(ops[i].key, parent.provenanceHash)
            && r.originAgentHash == if derived in ImpressedTo(cfg, d, db, ops, ops[i].branch) then d.agentHash(ops[i].actor) else parent.originAgentHash
  {
    var w, op, b := Run(cfg, d, db, ops[..i]), ops[i], ops[i].branch;
    var derived := DerivedKey(w.loop, op.key);
    CallAt(cfg, d, db, c0, ops, keys, i);
    var c := RunTells(cfg, d, db, c0, ops[..i], b, keys);
    var next;
    r, parent, next := WrapPlaces(cfg, d, w, c, op.session, op.key, op.actor, b, op.now);
    PayloadsPersist(cfg, d, db, ops, i + 1, derived);
    if derived in ImpressedTo(cfg, d, db, ops, b) {
      var last := RunTells(cfg, d, db, c0, ops, b, keys);
      r :| Has(d, last, b, derived, r) && TellsPayload(d, r, derived, Run(cfg, d, db, ops).loop.payload[derived]);
      HasIsAnswered(d, Run(cfg, d, db, ops).db, last, b, derived, r);
    } else {
      HasIsAnswered(d, Run(cfg, d, db, ops[..i + 1]).db, next, b, derived, r);
      KnownRecordsStay(cfg, d, db, c0, ops, b, keys, i + 1, derived, r);
    }
  }

  /** So a reader finds what it was told first-hand exactly if it is the one who told it: an impression by
      another does not make the memory the other's. */
  lemma OnlyTheOriginIsFirstHand(d: Objects.Digests, r: Objects.Record, k: string, value: string, agent: string, tags: seq<string>,
                                 salience: real, confidence: real, q: Recall.Query)
    requires Tells(d, r, k, value, agent, tags, salience, confidence) && Recall.WeightMemory(d, r, q).Ok?
    ensures Recall.WeightMemory(d, r, q).value.firstHand <==> d.agentHash(q.reader) == d.agentHash(agent)
    ensures Recall.WeightMemory(d, r, q).value.provenanceWeight
            == if d.agentHash(q.reader) == d.agentHash(agent) then q.firstHandWeight else q.inheritedWeight
  {
    Recall.OriginDecidesWeight(d, r, q);
  }
}
