/** Integrated and durable: over whole runs of the loop and the store under it, which keys read
    their payload back from a branch, and exactly when everything integrated does. */
module Durability {
  import opened Common
  import opened FeedbackLoop
  import opened LifecycleLog
  import opened LoopRuns
  import opened LoopTheorems
  import opened StoredKeys
  import LoopLimits
  import Objects
  import Dreamcatcher

  ghost predicate AllDurable(d: Objects.Digests, w: World, b: string) {
    forall k :: k in w.loop.phase && w.loop.phase[k] == Integration ==> Durable(d, w.loop, w.db, b, k)
  }

  // ---- what a call writes -------------------------------------------------------------

  /** The branch and key that a call stores, if it stores one. */
  function WriteOf(cfg: Config, d: Objects.Digests, w: World, op: Op): Option<(string, string)> {
    match op
    case DoImpress(session, key, actor, branch, now) =>
      if Impress(cfg, d, w.loop, w.db, session, key, actor, branch, now).2.Ok? then Some((branch, key)) else None
    case DoWrap(session, key, actor, branch, now) =>
      if Wrap(cfg, d, w.loop, w.db, session, key, actor, branch, now).2.Ok? then Some((branch, DerivedKey(w.loop, key))) else None
    case _ => None
  }

  /** The keys that a run has stored on a branch. */
  function WrittenTo(cfg: Config, d: Objects.Digests, db: Dreamcatcher.Db, ops: seq<Op>, b: string): set<string> {
    if ops == [] then {}
    else
      var front, write := WrittenTo(cfg, d, db, ops[..|ops| - 1], b),
                          WriteOf(cfg, d, Run(cfg, d, db, ops[..|ops| - 1]), ops[|ops| - 1]);
      if write.Some? && write.value.0 == b then front + {write.value.1} else front
  }

  /** The second picture is the first with one record of the key and value on the branch. */
  ghost predicate Wrote(d: Objects.Digests, c: Dreamcatcher.Picture, next: Dreamcatcher.Picture, b: string, k: string, value: string) {
    && !d.blank(k) && b in c && next.Keys == c.Keys
    && (forall x :: x in c && x != b ==> next[x] == c[x])
    && exists r: Objects.Record :: Filed(d, c, next, b, r) && r.key == d.nfc(k) && r.value == value
  }

  ghost predicate Filed(d: Objects.Digests, c: Dreamcatcher.Picture, next: Dreamcatcher.Picture, b: string, r: Objects.Record) {
    b in c && b in next && next[b] == c[b][d.PathOf(r.key) := r]
  }

  lemma AcceptedWrites(d: Objects.Digests, c: Dreamcatcher.Picture, input: Dreamcatcher.Input, now: string)
    requires d.WellFormed() && Dreamcatcher.Accepts(d, c, input, now)
    ensures Wrote(d, c, Dreamcatcher.Recorded(d, c, input, now), input.branch, input.key, input.value)
  {
    Dreamcatcher.BuiltRecordIsWellMade(d, input, now);
    assert Filed(d, c, Dreamcatcher.Recorded(d, c, input, now), input.branch, Dreamcatcher.BuildRecord(d, input, now).value);
  }

  lemma RememberWrites(d: Objects.Digests, db: Dreamcatcher.Db, c: Dreamcatcher.Picture, input: Dreamcatcher.Input, now: string)
    requires d.WellFormed() && Dreamcatcher.Depicts(d, db, c) && Dreamcatcher.Remember(d, db, input, now).0.heap.clean
    ensures var (next, r) := Dreamcatcher.Remember(d, db, input, now);
            && (r.Err? ==> Dreamcatcher.Depicts(d, next, c))
            && (r.Ok? ==>
                  && Dreamcatcher.Depicts(d, next, Dreamcatcher.Recorded(d, c, input, now))
                  && Wrote(d, c, Dreamcatcher.Recorded(d, c, input, now), input.branch, input.key, input.value))
  {
    Dreamcatcher.RememberRefines(d, db, c, input, now);
    if Dreamcatcher.Remember(d, db, input, now).1.Ok? { AcceptedWrites(d, c, input, now); }
  }

  /** An impression fails in the loop or in the store, and stores exactly if it does not fail. */
  lemma ImpressCases(cfg: Config, d: Objects.Digests, w: World, session: string, key: string, actor: string, branch: string, now: string)
    requires Inv(cfg, w.loop)
    ensures ImpressCase(d, w, key, actor, branch, now, Impress(cfg, d, w.loop, w.db, session, key, actor, branch, now))
  {
    if Awake(cfg, w.loop, session) == None && Lookup(w.loop.phase, key) == Some(Attention) && key in w.loop.payload {
      ImpressPasses(cfg, w.loop, session, key, actor);
    }
  }

  lemma ImpressPasses(cfg: Config, st: Loop, session: string, key: string, actor: string)
    requires Awake(cfg, st, session) == None && Lookup(st.phase, key) == Some(Attention)
    ensures var r := Transition(cfg, Touch(Release(st, session, key), session, key), key, Integration, "impress", actor, session, false);
            r.Ok? && r.value.payload == st.payload
  {
    var freed := Touch(Release(st, session, key), session, key);
    TransitionOutcome(cfg, freed, key, Integration, "impress", actor, session, false);
  }

  ghost predicate ImpressCase(d: Objects.Digests, w: World, key: string, actor: string, branch: string, now: string,
                              done: (Loop, Dreamcatcher.Db, Result<(), LoopError>)) {
    && done.0.payload == w.loop.payload
    && ((done.2.Err? && done.1 == w.db)
        || (key in w.loop.payload
            && var (db, res) := Dreamcatcher.Remember(d, w.db, ImpressInput(w.loop.payload[key], key, actor, branch), now);
               done.1 == db && (done.2.Ok? <==> res.Ok?)))
  }

  lemma WrapCases(cfg: Config, d: Objects.Digests, w: World, session: string, key: string, actor: string, branch: string, now: string)
    ensures var (next, db, r) := Wrap(cfg, d, w.loop, w.db, session, key, actor, branch, now);
            var derived := DerivedKey(w.loop, key);
            || (r.Err? && db == w.db && next == w.loop)
            || exists input: Dreamcatcher.Input ::
                 && input.branch == branch && input.key == derived
                 && db == Dreamcatcher.Remember(d, w.db, input, now).0
                 && (r.Ok? <==> Dreamcatcher.Remember(d, w.db, input, now).1.Ok?)
                 && (r.Err? ==> next == w.loop)
                 && (r.Ok? ==> derived in next.payload && next.payload[derived].value == input.value
                               && next.payload == w.loop.payload[derived := next.payload[derived]])
  {
    var parent := Dreamcatcher.Get(d, w.db, branch, key);
    if Awake(cfg, w.loop, session) == None && Lookup(w.loop.phase, key) == Some(Disintegration)
       && parent.Ok? && parent.value.Some? && parent.value.value.Memory?
    {
      var input := DerivedInput(cfg, DerivedKey(w.loop, key), key, parent.value.value.record, actor, branch);
      assert input.branch == branch && input.key == DerivedKey(w.loop, key);
    }
  }

  /** Payloads of known keys never change. */
  lemma PayloadsStay(cfg: Config, d: Objects.Digests, w: World, op: Op)
    requires Inv(cfg, w.loop) && FreshWrap(w.loop, op)
    ensures forall k :: k in w.loop.payload ==>
              k in Step(cfg, d, w, op).loop.payload && Step(cfg, d, w, op).loop.payload[k] == w.loop.payload[k]
  {
    match op
    case DoExpress(session, key, value, agent, tags, salience, confidence) =>
      ExpressPayload(cfg, w.loop, session, key, value, agent, tags, salience, confidence);
    case DoAdmit(session, key, actor) => AdmitPayload(cfg, w.loop, session, key, actor);
    case DoImpress(session, key, actor, branch, now) => ImpressCases(cfg, d, w, session, key, actor, branch, now);
    case DoMove(m, session, key, actor) => MovePayload(cfg, w.loop, m, session, key, actor);
    case DoWrap(session, key, actor, branch, now) => WrapEffect(cfg, d, w.loop, w.db, session, key, actor, branch, now);
    case DoObserve(session, hash, actor) => ObservePayload(cfg, w.loop, session, hash, actor);
  }

  lemma ExpressPayload(cfg: Config, st: Loop, session: string, key: string, value: string, agent: string,
                       tags: seq<string>, salience: real, confidence: real)
    requires Inv(cfg, st)
    ensures forall k :: k in st.payload ==>
              var next := Express(cfg, st, session, key, value, agent, tags, salience, confidence).0;
              k in next.payload && next.payload[k] == st.payload[k]
  {
  }

  lemma AdmitPayload(cfg: Config, st: Loop, session: string, key: string, actor: string)
    ensures Admit(cfg, st, session, key, actor).0.payload == st.payload
  {
    var held := Touch(st.(working := st.working[session := PutItem(WorkingOf(st, session), Item(key, TokensOf(st, key)))]), session, key);
    TransitionOutcome(cfg, held, key, Attention, "admit", actor, session, false);
  }

  lemma MovePayload(cfg: Config, st: Loop, m: Move, session: string, key: string, actor: string)
    ensures MoveKey(cfg, st, m, session, key, actor).0.payload == st.payload
  {
    var freed := if m.DisintegrateMove? then Release(st, session, key) else st;
    TransitionOutcome(cfg, freed, key, Target(m), ReasonOf(m), actor, session, false);
  }

  lemma ObservePayload(cfg: Config, st: Loop, session: string, hash: string, actor: string)
    requires Inv(cfg, st)
    ensures ObserveAction(cfg, st, session, hash, actor).0.payload == st.payload
  {
    if !cfg.blank(session) {
      if Caused(cfg, st, session, hash) == None {
        ObserveQuietly(cfg, st, session, hash, actor);
      } else {
        ObserveRecovers(cfg, st, session, hash, actor);
      }
    }
  }

  /** One call moves the picture by its one write, or not at all. */
  lemma StepWrites(cfg: Config, d: Objects.Digests, w: World, op: Op, c: Dreamcatcher.Picture) returns (next: Dreamcatcher.Picture)
    requires d.WellFormed() && Inv(cfg, w.loop) && Dreamcatcher.Depicts(d, w.db, c) && Step(cfg, d, w, op).db.heap.clean
    ensures Dreamcatcher.Depicts(d, Step(cfg, d, w, op).db, next)
    ensures WriteOf(cfg, d, w, op) == None ==> next == c
    ensures WriteOf(cfg, d, w, op).Some? ==>
              var (b, k) := WriteOf(cfg, d, w, op).value;
              k in Step(cfg, d, w, op).loop.payload && Wrote(d, c, next, b, k, Step(cfg, d, w, op).loop.payload[k].value)
  {
    next := c;
    match op {
      case DoImpress(session, key, actor, branch, now) =>
        ImpressCases(cfg, d, w, session, key, actor, branch, now);
        var (_, db, r) := Impress(cfg, d, w.loop, w.db, session, key, actor, branch, now);
        if r.Ok? || db != w.db {
          var input := ImpressInput(w.loop.payload[key], key, actor, branch);
          RememberWrites(d, w.db, c, input, now);
          if r.Ok? { next := Dreamcatcher.Recorded(d, c, input, now); }
        }
      case DoWrap(session, key, actor, branch, now) =>
        WrapCases(cfg, d, w, session, key, actor, branch, now);
        var (_, db, r) := Wrap(cfg, d, w.loop, w.db, session, key, actor, branch, now);
        if r.Ok? || db != w.db {
          var input: Dreamcatcher.Input :|
            && input.branch == branch && input.key == DerivedKey(w.loop, key)
            && db == Dreamcatcher.Remember(d, w.db, input, now).0
            && (r.Ok? <==> Dreamcatcher.Remember(d, w.db, input, now).1.Ok?)
            && (r.Ok? ==> Step(cfg, d, w, op).loop.payload[DerivedKey(w.loop, key)].value == input.value);
          RememberWrites(d, w.db, c, input, now);
          if r.Ok? { next := Dreamcatcher.Recorded(d, c, input, now); }
        }
      case _ =>
    }
  }

  // ---- where integration comes from ---------------------------------------------------

  /** The key that a call integrates, if it integrates one. */
  function Integrates(cfg: Config, d: Objects.Digests, w: World, op: Op): Option<string> {
    match op
    case DoImpress(session, key, actor, branch, now) =>
      if Impress(cfg, d, w.loop, w.db, session, key, actor, branch, now).2.Ok? then Some(key) else None
    case DoMove(m, session, key, actor) =>
      if m == ReintegrateMove && MoveKey(cfg, w.loop, m, session, key, actor).1.Ok? then Some(key) else None
    case _ => None
  }

  /** The key is integrated before the call, or the call integrates it. */
  ghost predicate Accounted(cfg: Config, d: Objects.Digests, w: World, op: Op, next: Loop, k: string) {
    Lookup(next.phase, k) == Some(Integration) ==> Lookup(w.loop.phase, k) == Some(Integration) || Integrates(cfg, d, w, op) == Some(k)
  }

  lemma ExpressAccounts(cfg: Config, d: Objects.Digests, w: World, op: Op, k: string)
    requires op.DoExpress?
    ensures Accounted(cfg, d, w, op, Step(cfg, d, w, op).loop, k) && Integrates(cfg, d, w, op) == None
  {
  }

  lemma ImpressAccounts(cfg: Config, d: Objects.Digests, w: World, session: string, key: string, actor: string, branch: string, now: string, k: string)
    ensures Accounted(cfg, d, w, DoImpress(session, key, actor, branch, now),
                      Impress(cfg, d, w.loop, w.db, session, key, actor, branch, now).0, k)
    ensures Impress(cfg, d, w.loop, w.db, session, key, actor, branch, now).2.Ok? ==>
              Lookup(Impress(cfg, d, w.loop, w.db, session, key, actor, branch, now).0.phase, key) == Some(Integration)
  {
    var freed := Touch(Release(w.loop, session, key), session, key);
    TransitionOutcome(cfg, freed, key, Integration, "impress", actor, session, false);
  }

  lemma MoveAccounts(cfg: Config, d: Objects.Digests, w: World, m: Move, session: string, key: string, actor: string, k: string)
    ensures Accounted(cfg, d, w, DoMove(m, session, key, actor), MoveKey(cfg, w.loop, m, session, key, actor).0, k)
    ensures m == ReintegrateMove && MoveKey(cfg, w.loop, m, session, key, actor).1.Ok? ==>
              Lookup(MoveKey(cfg, w.loop, m, session, key, actor).0.phase, key) == Some(Integration)
  {
    var freed := if m.DisintegrateMove? then Release(w.loop, session, key) else w.loop;
    TransitionOutcome(cfg, freed, key, Target(m), ReasonOf(m), actor, session, false);
  }

  lemma ObserveAccounts(cfg: Config, d: Objects.Digests, w: World, session: string, hash: string, actor: string, k: string)
    requires Inv(cfg, w.loop)
    ensures Accounted(cfg, d, w, DoObserve(session, hash, actor), ObserveAction(cfg, w.loop, session, hash, actor).0, k)
  {
    if !cfg.blank(session) { ObservedPhases(cfg, w.loop, session, hash, actor); }
  }

  lemma StepAccounts(cfg: Config, d: Objects.Digests, w: World, op: Op, k: string)
    requires Inv(cfg, w.loop)
    ensures Accounted(cfg, d, w, op, Step(cfg, d, w, op).loop, k)
    ensures Integrates(cfg, d, w, op) == Some(k) ==> Lookup(Step(cfg, d, w, op).loop.phase, k) == Some(Integration)
  {
    match op
    case DoExpress(_, _, _, _, _, _, _) => ExpressAccounts(cfg, d, w, op, k);
    case DoAdmit(session, key, actor) => AdmitFacts(cfg, w.loop, session, key, actor);
    case DoImpress(session, key, actor, branch, now) => ImpressAccounts(cfg, d, w, session, key, actor, branch, now, k);
    case DoMove(m, session, key, actor) => MoveAccounts(cfg, d, w, m, session, key, actor, k);
    case DoWrap(session, key, actor, branch, now) => WrapEffect(cfg, d, w.loop, w.db, session, key, actor, branch, now);
    case DoObserve(session, hash, actor) => ObserveAccounts(cfg, d, w, session, hash, actor, k);
  }

  // ---- runs ---------------------------------------------------------------------------

  /** A run over a store that depicts a picture, with no digest collision among the keys in play. */
  ghost predicate Setting(cfg: Config, d: Objects.Digests, db: Dreamcatcher.Db, c: Dreamcatcher.Picture, ops: seq<Op>, keys: set<string>) {
    && d.WellFormed() && Dreamcatcher.Depicts(d, db, c)
    && FreshRun(cfg, d, db, ops) && Run(cfg, d, db, ops).db.heap.clean
    && KeysApart(d, keys) && NamesApart(d, keys) && Run(cfg, d, db, ops).loop.phase.Keys <= keys
  }

  lemma StepIsCleanOnlyFromClean(cfg: Config, d: Objects.Digests, w: World, op: Op)
    requires Inv(cfg, w.loop)
    ensures Step(cfg, d, w, op).db.heap.clean ==> w.db.heap.clean
  {
    match op
    case DoImpress(session, key, actor, branch, now) =>
      ImpressCases(cfg, d, w, session, key, actor, branch, now);
      if key in w.loop.payload {
        Dreamcatcher.StepIsCleanOnlyFromClean(d, w.db, Dreamcatcher.Write(ImpressInput(w.loop.payload[key], key, actor, branch), now));
      }
    case DoWrap(session, key, actor, branch, now) => WrapIsCleanOnlyFromClean(cfg, d, w, session, key, actor, branch, now);
    case _ =>
  }

  lemma WrapIsCleanOnlyFromClean(cfg: Config, d: Objects.Digests, w: World, session: string, key: string, actor: string, branch: string, now: string)
    ensures Wrap(cfg, d, w.loop, w.db, session, key, actor, branch, now).1.heap.clean ==> w.db.heap.clean
  {
    WrapCases(cfg, d, w, session, key, actor, branch, now);
    var db := Wrap(cfg, d, w.loop, w.db, session, key, actor, branch, now).1;
    if db != w.db {
      var input: Dreamcatcher.Input :| db == Dreamcatcher.Remember(d, w.db, input, now).0;
      Dreamcatcher.StepIsCleanOnlyFromClean(d, w.db, Dreamcatcher.Write(input, now));
    }
  }

  lemma KeysStay(cfg: Config, d: Objects.Digests, w: World, op: Op)
    requires Inv(cfg, w.loop) && FreshWrap(w.loop, op)
    ensures w.loop.phase.Keys <= Step(cfg, d, w, op).loop.phase.Keys
  {
    StepKeepsInv(cfg, d, w, op);
    PayloadsStay(cfg, d, w, op);
    assert w.loop.payload.Keys == w.loop.phase.Keys;
  }

  lemma LastStep(cfg: Config, d: Objects.Digests, db: Dreamcatcher.Db, c: Dreamcatcher.Picture, ops: seq<Op>, keys: set<string>)
    requires Setting(cfg, d, db, c, ops, keys) && ops != []
    ensures var front, last := ops[..|ops| - 1], ops[|ops| - 1];
            && Setting(cfg, d, db, c, front, keys)
            && Inv(cfg, Run(cfg, d, db, front).loop) && FreshWrap(Run(cfg, d, db, front).loop, last)
            && Run(cfg, d, db, ops) == Step(cfg, d, Run(cfg, d, db, front), last)
  {
    var n := |ops| - 1;
    FreshPrefix(cfg, d, db, ops, n);
    RunsKeepInv(cfg, d, db, ops[..n]);
    StepIsCleanOnlyFromClean(cfg, d, Run(cfg, d, db, ops[..n]), ops[n]);
    KeysStay(cfg, d, Run(cfg, d, db, ops[..n]), ops[n]);
  }

  /** The picture at the key's place on the branch is what it was. */
  ghost predicate Same(d: Objects.Digests, c: Dreamcatcher.Picture, c0: Dreamcatcher.Picture, b: string, k: string) {
    (b in c <==> b in c0) && (b in c ==> Lookup(c[b], d.PathOf(d.nfc(k))) == Lookup(c0[b], d.PathOf(d.nfc(k))))
  }

  /** What was written is held with its payload, and the rest is as it was. */
  ghost predicate Tracks(d: Objects.Digests, st: Loop, c: Dreamcatcher.Picture, c0: Dreamcatcher.Picture, b: string,
                         written: set<string>, keys: set<string>) {
    && written <= st.payload.Keys
    && forall k :: k in keys ==> if k in written then Held(d, c, b, k, st.payload[k].value) else Same(d, c, c0, b, k)
  }

  lemma WriteTracks(d: Objects.Digests, st: Loop, next: Loop, c: Dreamcatcher.Picture, c1: Dreamcatcher.Picture, c0: Dreamcatcher.Picture,
                    b: string, written: set<string>, keys: set<string>, x: string, k: string)
    requires Tracks(d, st, c, c0, b, written, keys) && KeysApart(d, keys) && NamesApart(d, keys) && k in keys
    requires forall y :: y in st.payload ==> y in next.payload && next.payload[y] == st.payload[y]
    requires k in next.payload && Wrote(d, c, c1, x, k, next.payload[k].value)
    ensures Tracks(d, next, c1, c0, b, if x == b then written + {k} else written, keys)
  {
    if x == b {
      var r :| Filed(d, c, c1, b, r) && r.key == d.nfc(k) && r.value == next.payload[k].value;
      forall y | y in keys && y != k ensures Lookup(c1[b], d.PathOf(d.nfc(y))) == Lookup(c[b], d.PathOf(d.nfc(y))) {
        assert d.PathOf(d.nfc(y)) != d.PathOf(d.nfc(k));
      }
    }
  }

  /** Over a run, the picture holds what the run wrote, and is otherwise what it was. */
  lemma {:induction false} RunTracks(cfg: Config, d: Objects.Digests, db: Dreamcatcher.Db, c0: Dreamcatcher.Picture, ops: seq<Op>,
                                     b: string, keys: set<string>) returns (c: Dreamcatcher.Picture)
    requires Setting(cfg, d, db, c0, ops, keys)
    ensures Dreamcatcher.Depicts(d, Run(cfg, d, db, ops).db, c)
    ensures Tracks(d, Run(cfg, d, db, ops).loop, c, c0, b, WrittenTo(cfg, d, db, ops, b), keys)
  {
    c := c0;
    if ops != [] {
      var front, last := ops[..|ops| - 1], ops[|ops| - 1];
      LastStep(cfg, d, db, c0, ops, keys);
      var w := Run(cfg, d, db, front);
      var before := RunTracks(cfg, d, db, c0, front, b, keys);
      c := StepWrites(cfg, d, w, last, before);
      PayloadsStay(cfg, d, w, last);
      StepKeepsInv(cfg, d, w, last);
      TracksStep(cfg, d, w, last, before, c, c0, b, WrittenTo(cfg, d, db, front, b), keys);
    }
  }

  lemma TracksStep(cfg: Config, d: Objects.Digests, w: World, op: Op, before: Dreamcatcher.Picture, c: Dreamcatcher.Picture,
                   c0: Dreamcatcher.Picture, b: string, written: set<string>, keys: set<string>)
    requires Tracks(d, w.loop, before, c0, b, written, keys) && KeysApart(d, keys) && NamesApart(d, keys)
    requires forall y :: y in w.loop.payload ==>
               y in Step(cfg, d, w, op).loop.payload && Step(cfg, d, w, op).loop.payload[y] == w.loop.payload[y]
    requires Step(cfg, d, w, op).loop.payload.Keys <= keys
    requires WriteOf(cfg, d, w, op) == None ==> c == before
    requires WriteOf(cfg, d, w, op).Some? ==>
               var (x, k) := WriteOf(cfg, d, w, op).value;
               k in Step(cfg, d, w, op).loop.payload && Wrote(d, before, c, x, k, Step(cfg, d, w, op).loop.payload[k].value)
    ensures var write := WriteOf(cfg, d, w, op);
            Tracks(d, Step(cfg, d, w, op).loop, c, c0, b,
                   if write.Some? && write.value.0 == b then written + {write.value.1} else written, keys)
  {
    var write := WriteOf(cfg, d, w, op);
    if write.Some? {
      WriteTracks(d, w.loop, Step(cfg, d, w, op).loop, before, c, c0, b, written, keys, write.value.0, write.value.1);
    }
  }

  // ---- what is durable ----------------------------------------------------------------

  /** The key had its payload on the branch before the run began. */
  ghost predicate StoredBefore(d: Objects.Digests, db: Dreamcatcher.Db, w: World, b: string, k: string) {
    k in w.loop.payload && ReadsBack(d, db, b, k, w.loop.payload[k].value)
  }

  /** After any run, a key of the lifecycle reads its payload back from a branch if and only if the
      run impressed or derived it there, or the branch held that payload before. */
  lemma DurableIffWritten(cfg: Config, d: Objects.Digests, db: Dreamcatcher.Db, c0: Dreamcatcher.Picture, ops: seq<Op>,
                          b: string, keys: set<string>, k: string)
    requires Setting(cfg, d, db, c0, ops, keys) && k in Run(cfg, d, db, ops).loop.phase
    ensures Durable(d, Run(cfg, d, db, ops).loop, Run(cfg, d, db, ops).db, b, k)
            <==> k in WrittenTo(cfg, d, db, ops, b) || StoredBefore(d, db, Run(cfg, d, db, ops), b, k)
  {
    var w := Run(cfg, d, db, ops);
    RunsKeepInv(cfg, d, db, ops);
    assert k in w.loop.payload;
    var c := RunTracks(cfg, d, db, c0, ops, b, keys);
    ReadsBackIfHeld(d, w.db, c, b, k, w.loop.payload[k].value);
    ReadsBackIfHeld(d, db, c0, b, k, w.loop.payload[k].value);
  }

  /** A call that integrates a key is an impression on the branch, or is of a key that the run
      wrote there earlier or that was stored there before. */
  ghost predicate Sourced(cfg: Config, d: Objects.Digests, db: Dreamcatcher.Db, ops: seq<Op>, i: nat, b: string)
    requires i < |ops|
  {
    var w := Run(cfg, d, db, ops[..i]);
    Integrates(cfg, d, w, ops[i]).Some? ==>
      || (ops[i].DoImpress? && ops[i].branch == b)
      || Integrates(cfg, d, w, ops[i]).value in WrittenTo(cfg, d, db, ops[..i], b)
      || StoredBefore(d, db, w, b, Integrates(cfg, d, w, ops[i]).value)
  }

  lemma SettingPrefix(cfg: Config, d: Objects.Digests, db: Dreamcatcher.Db, c: Dreamcatcher.Picture, ops: seq<Op>, keys: set<string>, i: nat)
    requires Setting(cfg, d, db, c, ops, keys) && i <= |ops|
    ensures Setting(cfg, d, db, c, ops[..i], keys)
    decreases |ops|
  {
    if i < |ops| {
      LastStep(cfg, d, db, c, ops, keys);
      SettingPrefix(cfg, d, db, c, ops[..|ops| - 1], keys, i);
      assert ops[..|ops| - 1][..i] == ops[..i];
    } else {
      assert ops[..i] == ops;
    }
  }

  /** The i-th call of a run, with everything that the durability of its state needs. */
  lemma CallAt(cfg: Config, d: Objects.Digests, db: Dreamcatcher.Db, c: Dreamcatcher.Picture, ops: seq<Op>, keys: set<string>, i: nat)
    requires Setting(cfg, d, db, c, ops, keys) && i < |ops|
    ensures Setting(cfg, d, db, c, ops[..i], keys) && Setting(cfg, d, db, c, ops[..i + 1], keys)
    ensures Inv(cfg, Run(cfg, d, db, ops[..i]).loop) && FreshWrap(Run(cfg, d, db, ops[..i]).loop, ops[i])
    ensures Run(cfg, d, db, ops[..i + 1]) == Step(cfg, d, Run(cfg, d, db, ops[..i]), ops[i])
    ensures var write := WriteOf(cfg, d, Run(cfg, d, db, ops[..i]), ops[i]);
            forall b :: WrittenTo(cfg, d, db, ops[..i + 1], b)
              == if write.Some? && write.value.0 == b then WrittenTo(cfg, d, db, ops[..i], b) + {write.value.1}
                 else WrittenTo(cfg, d, db, ops[..i], b)
  {
    SettingPrefix(cfg, d, db, c, ops, keys, i);
    SettingPrefix(cfg, d, db, c, ops, keys, i + 1);
    assert ops[..i + 1][..i] == ops[..i];
    LastStep(cfg, d, db, c, ops[..i + 1], keys);
  }

  /** A key that is durable stays so. */
  lemma DurableStays(cfg: Config, d: Objects.Digests, db: Dreamcatcher.Db, c: Dreamcatcher.Picture, ops: seq<Op>, b: string,
                     keys: set<string>, i: nat, k: string)
    requires Setting(cfg, d, db, c, ops, keys) && i < |ops| && k in Run(cfg, d, db, ops[..i]).loop.phase
    ensures k in Run(cfg, d, db, ops[..i + 1]).loop.phase
    ensures Durable(d, Run(cfg, d, db, ops[..i]).loop, Run(cfg, d, db, ops[..i]).db, b, k) ==> Durable(d, Run(cfg, d, db, ops[..i + 1]).loop, Run(cfg, d, db, ops[..i + 1]).db, b, k)
  {
    CallAt(cfg, d, db, c, ops, keys, i);
    var w := Run(cfg, d, db, ops[..i]);
    KeysStay(cfg, d, w, ops[i]);
    PayloadsStay(cfg, d, w, ops[i]);
    DurableIffWritten(cfg, d, db, c, ops[..i], b, keys, k);
    DurableIffWritten(cfg, d, db, c, ops[..i + 1], b, keys, k);
  }

  lemma SameStoredBefore(d: Objects.Digests, db: Dreamcatcher.Db, w: World, next: World, b: string, k: string)
    requires k in w.loop.payload && k in next.loop.payload && next.loop.payload[k] == w.loop.payload[k]
    ensures StoredBefore(d, db, w, b, k) <==> StoredBefore(d, db, next, b, k)
  {
  }

  /** What the call that integrates a key leaves in the run's account of writes. */
  lemma IntegratedIsWritten(cfg: Config, d: Objects.Digests, db: Dreamcatcher.Db, c: Dreamcatcher.Picture, ops: seq<Op>, b: string,
                            keys: set<string>, i: nat, k: string)
    requires Setting(cfg, d, db, c, ops, keys) && i < |ops|
    requires Integrates(cfg, d, Run(cfg, d, db, ops[..i]), ops[i]) == Some(k)
    ensures k in WrittenTo(cfg, d, db, ops[..i + 1], b)
            <==> (ops[i].DoImpress? && ops[i].branch == b) || k in WrittenTo(cfg, d, db, ops[..i], b)
  {
    var w := Run(cfg, d, db, ops[..i]);
    CallAt(cfg, d, db, c, ops, keys, i);
    IntegratesKnown(cfg, d, w, ops[i], k);
    WrittenAfter(WrittenTo(cfg, d, db, ops[..i], b), WrittenTo(cfg, d, db, ops[..i + 1], b), WriteOf(cfg, d, w, ops[i]), ops[i], b, k);
  }

  lemma WrittenAfter(written: set<string>, after: set<string>, write: Option<(string, string)>, op: Op, b: string, k: string)
    requires write == if op.DoImpress? then Some((op.branch, k)) else None
    requires after == if write.Some? && write.value.0 == b then written + {write.value.1} else written
    ensures k in after <==> (op.DoImpress? && op.branch == b) || k in written
  {
  }

  /** Whether a call leaves the key that it integrates durable. */
  lemma IntegratedIsDurable(cfg: Config, d: Objects.Digests, db: Dreamcatcher.Db, c: Dreamcatcher.Picture, ops: seq<Op>, b: string,
                            keys: set<string>, i: nat, k: string)
    requires Setting(cfg, d, db, c, ops, keys) && i < |ops|
    requires Integrates(cfg, d, Run(cfg, d, db, ops[..i]), ops[i]) == Some(k)
    ensures Lookup(Run(cfg, d, db, ops[..i + 1]).loop.phase, k) == Some(Integration)
    ensures Durable(d, Run(cfg, d, db, ops[..i + 1]).loop, Run(cfg, d, db, ops[..i + 1]).db, b, k) <==> Sourced(cfg, d, db, ops, i, b)
  {
    var w, next := Run(cfg, d, db, ops[..i]), Run(cfg, d, db, ops[..i + 1]);
    IntegratedStep(cfg, d, db, c, ops, keys, i, k);
    IntegratedIsWritten(cfg, d, db, c, ops, b, keys, i, k);
    SameStoredBefore(d, db, w, next, b, k);
    DurableIffWritten(cfg, d, db, c, ops[..i + 1], b, keys, k);
  }

  lemma IntegratedStep(cfg: Config, d: Objects.Digests, db: Dreamcatcher.Db, c: Dreamcatcher.Picture, ops: seq<Op>,
                       keys: set<string>, i: nat, k: string)
    requires Setting(cfg, d, db, c, ops, keys) && i < |ops|
    requires Integrates(cfg, d, Run(cfg, d, db, ops[..i]), ops[i]) == Some(k)
    ensures var w, next := Run(cfg, d, db, ops[..i]), Run(cfg, d, db, ops[..i + 1]);
            && Setting(cfg, d, db, c, ops[..i + 1], keys)
            && Lookup(next.loop.phase, k) == Some(Integration)
            && k in w.loop.payload && k in next.loop.payload && next.loop.payload[k] == w.loop.payload[k]
  {
    CallAt(cfg, d, db, c, ops, keys, i);
    var w := Run(cfg, d, db, ops[..i]);
    StepAccounts(cfg, d, w, ops[i], k);
    IntegratesKnown(cfg, d, w, ops[i], k);
    PayloadsStay(cfg, d, w, ops[i]);
  }

  lemma IntegratesKnown(cfg: Config, d: Objects.Digests, w: World, op: Op, k: string)
    requires Inv(cfg, w.loop) && Integrates(cfg, d, w, op) == Some(k)
    ensures k in w.loop.phase && k in w.loop.payload
    ensures WriteOf(cfg, d, w, op) == if op.DoImpress? then Some((op.branch, k)) else None
  {
    if op.DoMove? { TransitionOutcome(cfg, w.loop, k, Integration, "reintegrate", op.actor, op.session, false); }
  }

  lemma {:induction false} SourcedIsDurable(cfg: Config, d: Objects.Digests, db: Dreamcatcher.Db, c: Dreamcatcher.Picture, ops: seq<Op>,
                                            b: string, keys: set<string>, j: nat)
    requires Setting(cfg, d, db, c, ops, keys) && j <= |ops|
    requires forall i :: 0 <= i < |ops| ==> Sourced(cfg, d, db, ops, i, b)
    ensures AllDurable(d, Run(cfg, d, db, ops[..j]), b)
  {
    if j > 0 {
      SourcedIsDurable(cfg, d, db, c, ops, b, keys, j - 1);
      SourcedStep(cfg, d, db, c, ops, b, keys, j - 1);
    }
  }

  lemma SourcedStep(cfg: Config, d: Objects.Digests, db: Dreamcatcher.Db, c: Dreamcatcher.Picture, ops: seq<Op>, b: string, keys: set<string>, i: nat)
    requires Setting(cfg, d, db, c, ops, keys) && i < |ops| && AllDurable(d, Run(cfg, d, db, ops[..i]), b)
    requires Sourced(cfg, d, db, ops, i, b)
    ensures AllDurable(d, Run(cfg, d, db, ops[..i + 1]), b)
  {
    CallAt(cfg, d, db, c, ops, keys, i);
    var w, next := Run(cfg, d, db, ops[..i]), Run(cfg, d, db, ops[..i + 1]);
    forall k | k in next.loop.phase && next.loop.phase[k] == Integration ensures Durable(d, next.loop, next.db, b, k) {
      StepAccounts(cfg, d, w, ops[i], k);
      if Integrates(cfg, d, w, ops[i]) == Some(k) {
        IntegratedIsDurable(cfg, d, db, c, ops, b, keys, i, k);
      } else {
        DurableStays(cfg, d, db, c, ops, b, keys, i, k);
      }
    }
  }

  /** Integrated implies durable, exactly: at every moment of a run each integrated key reads its
      payload back from the branch, if and only if each call that integrated a key was an
      impression on that branch, or of a key that was impressed there earlier or stored before. */
  lemma IntegratedIsDurableIffSourced(cfg: Config, d: Objects.Digests, db: Dreamcatcher.Db, c: Dreamcatcher.Picture, ops: seq<Op>,
                                      b: string, keys: set<string>)
    requires Setting(cfg, d, db, c, ops, keys)
    ensures (forall j :: 0 <= j <= |ops| ==> AllDurable(d, Run(cfg, d, db, ops[..j]), b))
            <==> forall i :: 0 <= i < |ops| ==> Sourced(cfg, d, db, ops, i, b)
  {
    if forall i :: 0 <= i < |ops| ==> Sourced(cfg, d, db, ops, i, b) {
      forall j | 0 <= j <= |ops| ensures AllDurable(d, Run(cfg, d, db, ops[..j]), b) {
        SourcedIsDurable(cfg, d, db, c, ops, b, keys, j);
      }
    }
    if forall j :: 0 <= j <= |ops| ==> AllDurable(d, Run(cfg, d, db, ops[..j]), b) {
      forall i | 0 <= i < |ops| ensures Sourced(cfg, d, db, ops, i, b) {
        var k := Integrates(cfg, d, Run(cfg, d, db, ops[..i]), ops[i]);
        assert AllDurable(d, Run(cfg, d, db, ops[..i + 1]), b);
        if k.Some? { IntegratedIsDurable(cfg, d, db, c, ops, b, keys, i, k.value); }
      }
    }
  }

  /** A single reintegration after a run in which everything integrated is durable: it stays so if
      and only if the store answers the key with its payload beforehand, which it does if and only
      if the run has written the key there, or the branch held it before. */
  lemma ReintegrationIsDurableIfStored(cfg: Config, d: Objects.Digests, db: Dreamcatcher.Db, c: Dreamcatcher.Picture, ops: seq<Op>,
                                       b: string, keys: set<string>, session: string, key: string, actor: string)
    requires Setting(cfg, d, db, c, ops, keys) && AllDurable(d, Run(cfg, d, db, ops), b)
    requires MoveKey(cfg, Run(cfg, d, db, ops).loop, ReintegrateMove, session, key, actor).1.Ok?
    ensures var w := Run(cfg, d, db, ops);
            && (AllDurable(d, Step(cfg, d, w, DoMove(ReintegrateMove, session, key, actor)), b) <==> Durable(d, w.loop, w.db, b, key))
            && (Durable(d, w.loop, w.db, b, key) <==> key in WrittenTo(cfg, d, db, ops, b) || StoredBefore(d, db, w, b, key))
  {
    var w := Run(cfg, d, db, ops);
    TransitionOutcome(cfg, w.loop, key, Integration, "reintegrate", actor, session, false);
    DurableIffWritten(cfg, d, db, c, ops, b, keys, key);
    ReintegratedIsDurable(cfg, d, w, b, session, key, actor);
  }

  /** A reintegration keeps everything integrated durable if and only if its key is. */
  lemma ReintegratedIsDurable(cfg: Config, d: Objects.Digests, w: World, b: string, session: string, key: string, actor: string)
    requires AllDurable(d, w, b) && MoveKey(cfg, w.loop, ReintegrateMove, session, key, actor).1.Ok?
    ensures AllDurable(d, Step(cfg, d, w, DoMove(ReintegrateMove, session, key, actor)), b) <==> Durable(d, w.loop, w.db, b, key)
  {
    TransitionOutcome(cfg, w.loop, key, Integration, "reintegrate", actor, session, false);
    MovePayload(cfg, w.loop, ReintegrateMove, session, key, actor);
    var next := Step(cfg, d, w, DoMove(ReintegrateMove, session, key, actor));
    assert next.loop.phase == w.loop.phase[key := Integration] && next.db == w.db;
    assert key in next.loop.phase && next.loop.phase[key] == Integration;
  }
}
