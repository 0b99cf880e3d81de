/** Whole runs of the Memory Feedback Loop: what every sequence of public calls keeps. */
module LoopRuns {
  import opened Common
  import opened Decimal
  import opened Detector
  import opened FeedbackLoop
  import opened LifecycleLog
  import Objects
  import Dreamcatcher

  datatype Op =
    | DoExpress(session: string, key: string, value: string, agent: string, tags: seq<string>, salience: real, confidence: real)
    | DoAdmit(session: string, key: string, actor: string)
    | DoImpress(session: string, key: string, actor: string, branch: string, now: string)
    | DoMove(move: Move, session: string, key: string, actor: string)
    | DoWrap(session: string, key: string, actor: string, branch: string, now: string)
    | DoObserve(session: string, hash: string, actor: string)

  /** The loop and the store under it. */
  datatype World = World(loop: Loop, db: Dreamcatcher.Db)

  function Step(cfg: Config, d: Objects.Digests, w: World, op: Op): World {
    match op
    case DoExpress(session, key, value, agent, tags, salience, confidence) =>
      w.(loop := Express(cfg, w.loop, session, key, value, agent, tags, salience, confidence).0)
    case DoAdmit(session, key, actor) => w.(loop := Admit(cfg, w.loop, session, key, actor).0)
    case DoImpress(session, key, actor, branch, now) =>
      var (loop, db, _) := Impress(cfg, d, w.loop, w.db, session, key, actor, branch, now);
      World(loop, db)
    case DoMove(move, session, key, actor) => w.(loop := MoveKey(cfg, w.loop, move, session, key, actor).0)
    case DoWrap(session, key, actor, branch, now) =>
      var (loop, db, _) := Wrap(cfg, d, w.loop, w.db, session, key, actor, branch, now);
      World(loop, db)
    case DoObserve(session, hash, actor) => w.(loop := ObserveAction(cfg, w.loop, session, hash, actor).0)
  }

  function Run(cfg: Config, d: Objects.Digests, db: Dreamcatcher.Db, ops: seq<Op>): World {
    if ops == [] then World(EmptyLoop, db)
    else Step(cfg, d, Run(cfg, d, db, ops[..|ops| - 1]), ops[|ops| - 1])
  }

  // ---- the invariant ------------------------------------------------------------------

  /** Whatever a session touched or works with is in the lifecycle, with its payload. */
  ghost predicate Known(st: Loop) {
    && (forall s, k :: s in st.touched && k in st.touched[s] ==> k in st.phase)
    && (forall s, item :: s in st.working && item in st.working[s] ==> item.key in st.phase)
    && st.payload.Keys == st.phase.Keys
  }

  /** No working set exceeds its budgets. */
  ghost predicate Budgeted(cfg: Config, st: Loop) {
    forall s :: s in st.working ==> WithinBudget(cfg, st.working[s])
  }

  ghost predicate WithinBudget(cfg: Config, items: seq<Item>) {
    |items| <= Max(0, cfg.itemLimit) && Tokens(items) <= Max(0, cfg.tokenBudget)
  }

  ghost predicate Inv(cfg: Config, st: Loop) {
    Faithful(st) && Known(st) && Budgeted(cfg, st)
  }

  /** A wraparound whose derived key is not in the lifecycle yet. */
  predicate FreshWrap(st: Loop, op: Op) {
    op.DoWrap? ==> DerivedKey(st, op.key) !in st.phase
  }

  // ---- working-set arithmetic ---------------------------------------------------------

  lemma {:induction false} DropItemFacts(items: seq<Item>, key: string)
    ensures |DropItem(items, key)| <= |items|
    ensures Tokens(DropItem(items, key)) <= Tokens(items)
    ensures forall item :: item in DropItem(items, key) <==> item in items && item.key != key
  {
    if items != [] {
      var front, last := items[..|items| - 1], items[|items| - 1];
      DropItemFacts(front, key);
      assert items == front + [last];
      if last.key != key {
        TokensAppend(DropItem(front, key), last);
      }
    }
  }

  lemma TokensAppend(items: seq<Item>, last: Item)
    ensures Tokens(items + [last]) == Tokens(items) + last.tokens
  {
    assert (items + [last])[..|items|] == items;
  }

  lemma {:induction false} TokensFront(items: seq<Item>)
    requires items != []
    ensures Tokens(items) == items[0].tokens + Tokens(items[1..])
  {
    var n := |items| - 1;
    if n > 0 {
      TokensFront(items[..n]);
      assert items[..n][1..] == items[1..][..n - 1];
    }
  }

  lemma {:induction false} PutItemFacts(items: seq<Item>, item: Item)
    ensures |PutItem(items, item)| <= |items| + 1
    ensures Tokens(PutItem(items, item)) <= Tokens(items) + item.tokens
    ensures item in PutItem(items, item)
    ensures forall x :: x in PutItem(items, item) ==> x == item || x in items
    ensures forall x :: x in items && x.key != item.key ==> x in PutItem(items, item)
  {
    var r := PutItem(items, item);
    TokensFront(r);
    if items != [] {
      TokensFront(items);
      assert items == [items[0]] + items[1..];
      if items[0].key != item.key {
        PutItemFacts(items[1..], item);
      }
    }
  }

  lemma ReleaseKeepsInv(cfg: Config, st: Loop, session: string, key: string)
    requires Inv(cfg, st)
    ensures Inv(cfg, Release(st, session, key))
  {
    if session in st.working { DropItemFacts(st.working[session], key); }
    ReleaseIsQuiet(st, session, key);
  }

  /** A step that only moved known keys and shrank a working set keeps the invariant. */
  lemma TransitionKeepsInv(cfg: Config, st: Loop, key: string, to: Phase, reason: string, actor: string, session: string, allowDirect: bool)
    requires Inv(cfg, st) && to != Derivation
    requires allowDirect && key in st.phase ==>
      to == Partition && st.phase[key] != Disintegration && (st.phase[key] == Derivation ==> reason == "seizure-fridge")
    requires Transition(cfg, st, key, to, reason, actor, session, allowDirect).Ok?
    ensures Inv(cfg, Transition(cfg, st, key, to, reason, actor, session, allowDirect).value)
  {
    TransitionFacts(cfg, st, key, to, reason, actor, session, allowDirect);
    TransitionOutcome(cfg, st, key, to, reason, actor, session, allowDirect);
    ReleaseKeepsInv(cfg, st, session, key);
    var freed := if st.phase[key] == Attention then Release(st, session, key) else st;
    AppendKeepsRest(cfg, freed, key, Some(st.phase[key]), to, DirectionOf(st.phase[key], to), reason, actor, session);
  }

  lemma AppendKeepsRest(cfg: Config, st: Loop, key: string, from: Option<Phase>, to: Phase, direction: Direction, reason: string,
                        actor: string, session: string)
    requires Known(st) && Budgeted(cfg, st) && key in st.phase
    ensures var next := Append(st, key, from, to, direction, reason, actor, session, None);
            Known(next) && Budgeted(cfg, next)
  {
  }

  // ---- recovery keys ------------------------------------------------------------------

  lemma {:induction false} DistinctMembers(keys: seq<string>)
    ensures forall k :: k in Distinct(keys) <==> k in keys
    ensures NoDuplicates(Distinct(keys))
  {
    if keys != [] {
      DistinctMembers(keys[..|keys| - 1]);
      assert keys == keys[..|keys| - 1] + [keys[|keys| - 1]];
    }
  }

  lemma {:induction false} WithoutMembers(keys: seq<string>, out: set<string>)
    ensures forall k :: k in Without(keys, out) <==> k in keys && k !in out
  {
    if keys != [] {
      WithoutMembers(keys[..|keys| - 1], out);
      assert keys == keys[..|keys| - 1] + [keys[|keys| - 1]];
    }
  }

  lemma KeysOfMembers(items: seq<Item>, k: string)
    ensures k in KeysOf(items) <==> exists item :: item in items && item.key == k
  {
    var keys := KeysOf(items);
    if k in keys {
      var i :| 0 <= i < |keys| && keys[i] == k;
      assert items[i] in items;
    }
    if item :| item in items && item.key == k {
      var i :| 0 <= i < |items| && items[i] == item;
      assert keys[i] == k;
    }
  }

  /** A recovery acts on exactly what the session touched or works with and is no goal. */
  lemma RecoveryKeysMembers(st: Loop, session: string, k: string)
    ensures k in RecoveryKeys(st, session) <==>
            (k in TouchedBy(st, session) || exists item :: item in WorkingOf(st, session) && item.key == k) && k !in st.goals
  {
    var touched, keys := TouchedBy(st, session), KeysOf(WorkingOf(st, session));
    DistinctMembers(touched + keys);
    WithoutMembers(Distinct(touched + keys), st.goals);
    KeysOfMembers(WorkingOf(st, session), k);
  }

  lemma RecoveryKeysKnown(st: Loop, session: string)
    requires Known(st)
    ensures forall k :: k in RecoveryKeys(st, session) ==> k in st.phase && k !in st.goals
  {
    forall k | k in RecoveryKeys(st, session) ensures k in st.phase && k !in st.goals {
      RecoveryKeysMembers(st, session, k);
    }
  }

  // ---- every call keeps the invariant -------------------------------------------------

  lemma ExpressKeepsInv(cfg: Config, st: Loop, session: string, key: string, value: string, agent: string,
                        tags: seq<string>, salience: real, confidence: real)
    requires Inv(cfg, st)
    ensures Inv(cfg, Express(cfg, st, session, key, value, agent, tags, salience, confidence).0)
  {
    if Awake(cfg, st, session) == None && key !in st.phase {
      var payload := Payload(value, agent, tags, salience, confidence, EstimateTokens(cfg, value));
      var goals := if "goal" in tags then st.goals + {key} else st.goals;
      NewKeyKeepsInv(cfg, st, session, key, payload, goals, agent);
    }
  }

  lemma NewKeyKeepsInv(cfg: Config, st: Loop, session: string, key: string, payload: Payload, goals: set<string>, agent: string)
    requires Inv(cfg, st) && key !in st.phase
    ensures Inv(cfg, Append(Touch(st.(payload := st.payload[key := payload], goals := goals), session, key), key, None,
                            Derivation, Forward, "express", agent, session, None))
  {
    var known := Touch(st.(payload := st.payload[key := payload], goals := goals), session, key);
    assert Faithful(known);
    AppendIsFaithful(known, key, None, Derivation, Forward, "express", agent, session, None);
    NewKeyIsKnown(st, session, key, payload, goals, known);
  }

  lemma NewKeyIsKnown(st: Loop, session: string, key: string, payload: Payload, goals: set<string>, known: Loop)
    requires Known(st) && key !in st.phase
    requires known == Touch(st.(payload := st.payload[key := payload], goals := goals), session, key)
    ensures Known(known.(phase := st.phase[key := Derivation]))
  {
    assert forall s, k :: s in known.touched && k in known.touched[s] ==> k == key || (s in st.touched && k in st.touched[s]);
  }

  /** The working set that an admission would hold stays within the budgets. */
  lemma HeldIsBudgeted(cfg: Config, st: Loop, session: string, key: string)
    requires Inv(cfg, st) && key in st.phase && !Full(cfg, st, session, TokensOf(st, key))
    ensures var items := PutItem(WorkingOf(st, session), Item(key, TokensOf(st, key)));
            Inv(cfg, Touch(st.(working := st.working[session := items]), session, key))
  {
    var items := PutItem(WorkingOf(st, session), Item(key, TokensOf(st, key)));
    PutItemFacts(WorkingOf(st, session), Item(key, TokensOf(st, key)));
    assert WithinBudget(cfg, items);
    var held := Touch(st.(working := st.working[session := items]), session, key);
    assert Faithful(held);
    assert Budgeted(cfg, held);
  }

  /** A refused admission changes no phase and no working set; an accepted one moves the key
      into attention and into the session's working set. */
  lemma AdmitFacts(cfg: Config, st: Loop, session: string, key: string, actor: string)
    requires Inv(cfg, st)
    ensures var (next, r) := Admit(cfg, st, session, key, actor);
            && Inv(cfg, next)
            && (r != Ok(Admitted) ==> next.phase == st.phase && next.log == st.log && forall s :: WorkingOf(next, s) == WorkingOf(st, s))
            && (r == Ok(Admitted) ==>
                  && next.phase == st.phase[key := Attention]
                  && WorkingOf(next, session) == PutItem(WorkingOf(st, session), Item(key, TokensOf(st, key))))
  {
    if Awake(cfg, st, session) == None && Lookup(st.phase, key) == Some(Derivation) {
      var items := WorkingOf(st, session);
      if Full(cfg, st, session, TokensOf(st, key)) {
        assert Tokens([]) == 0;
      } else {
        HeldIsBudgeted(cfg, st, session, key);
        var held := Touch(st.(working := st.working[session := PutItem(items, Item(key, TokensOf(st, key)))]), session, key);
        TransitionOutcome(cfg, held, key, Attention, "admit", actor, session, false);
        TransitionKeepsInv(cfg, held, key, Attention, "admit", actor, session, false);
      }
    }
  }

  lemma TouchKeepsInv(cfg: Config, st: Loop, session: string, key: string)
    requires Inv(cfg, st) && key in st.phase
    ensures Inv(cfg, Touch(st, session, key))
  {
    var next := Touch(st, session, key);
    assert Faithful(next);
    assert forall s, k :: s in next.touched && k in next.touched[s] ==> k == key || (s in st.touched && k in st.touched[s]);
  }

  lemma ImpressKeepsInv(cfg: Config, d: Objects.Digests, st: Loop, db: Dreamcatcher.Db, session: string, key: string, actor: string,
                        branch: string, now: string)
    requires Inv(cfg, st)
    ensures Inv(cfg, Impress(cfg, d, st, db, session, key, actor, branch, now).0)
  {
    ImpressEffect(cfg, d, st, db, session, key, actor, branch, now);
    if Impress(cfg, d, st, db, session, key, actor, branch, now).0 != st {
      ReleaseKeepsInv(cfg, st, session, key);
      TouchKeepsInv(cfg, Release(st, session, key), session, key);
      TransitionKeepsInv(cfg, Touch(Release(st, session, key), session, key), key, Integration, "impress", actor, session, false);
    }
  }

  lemma MoveKeepsInv(cfg: Config, st: Loop, m: Move, session: string, key: string, actor: string)
    requires Inv(cfg, st)
    ensures Inv(cfg, MoveKey(cfg, st, m, session, key, actor).0)
  {
    ReleaseKeepsInv(cfg, st, session, key);
    var freed := if m.DisintegrateMove? then Release(st, session, key) else st;
    if Transition(cfg, freed, key, Target(m), ReasonOf(m), actor, session, false).Ok? {
      TransitionKeepsInv(cfg, freed, key, Target(m), ReasonOf(m), actor, session, false);
    }
  }

  /** The two log entries of a wraparound. */
  function Emitted(cfg: Config, st: Loop, key: string, derived: string, payload: Payload, actor: string, session: string): Loop {
    var known := st.(payload := st.payload[derived := payload]);
    var emitted := Append(known, key, Some(Disintegration), Disintegration, Wraparound, "wraparound-emit", actor, session, Some(derived));
    Append(emitted, derived, None, Derivation, Wraparound, "wraparound-derived", actor, session, Some(derived))
  }

  /** What a wraparound may do to the loop: nothing, or its two log entries. */
  lemma WrapEffect(cfg: Config, d: Objects.Digests, st: Loop, db: Dreamcatcher.Db, session: string, key: string, actor: string,
                   branch: string, now: string)
    ensures var (next, _, r) := Wrap(cfg, d, st, db, session, key, actor, branch, now);
            && (r.Err? ==> next == st)
            && (r.Ok? ==>
                  && r.value == DerivedKey(st, key) && Awake(cfg, st, session) == None && Lookup(st.phase, key) == Some(Disintegration)
                  && r.value in next.payload && next == Emitted(cfg, st, key, r.value, next.payload[r.value], actor, session))
  {
  }

  /** A wraparound keeps the log replayable exactly when its derived key is new. */
  lemma WrapIsFaithfulIffFresh(cfg: Config, st: Loop, key: string, derived: string, payload: Payload, actor: string, session: string)
    requires Inv(cfg, st) && Lookup(st.phase, key) == Some(Disintegration)
    ensures Faithful(Emitted(cfg, st, key, derived, payload, actor, session)) <==> derived !in st.phase
    ensures derived !in st.phase ==> Inv(cfg, Emitted(cfg, st, key, derived, payload, actor, session))
  {
    var known := st.(payload := st.payload[derived := payload]);
    assert Faithful(known);
    AppendIsFaithful(known, key, Some(Disintegration), Disintegration, Wraparound, "wraparound-emit", actor, session, Some(derived));
    var emitted := Append(known, key, Some(Disintegration), Disintegration, Wraparound, "wraparound-emit", actor, session, Some(derived));
    if derived !in st.phase {
      AppendIsFaithful(emitted, derived, None, Derivation, Wraparound, "wraparound-derived", actor, session, Some(derived));
      EmittedKeepsRest(cfg, st, key, derived, payload, actor, session);
    } else {
      SecondBirth(emitted, derived, actor, session);
    }
  }

  lemma EmittedKeepsRest(cfg: Config, st: Loop, key: string, derived: string, payload: Payload, actor: string, session: string)
    requires Known(st) && Budgeted(cfg, st) && key in st.phase && derived !in st.phase && Lookup(st.phase, key) == Some(Disintegration)
    ensures Known(Emitted(cfg, st, key, derived, payload, actor, session))
    ensures Budgeted(cfg, Emitted(cfg, st, key, derived, payload, actor, session))
  {
  }

  /** An entry that begins a key which the lifecycle has already is not one that continues its log. */
  lemma SecondBirth(st: Loop, derived: string, actor: string, session: string)
    requires Replay(st.log) == st.phase && derived in st.phase
    ensures !Faithful(Append(st, derived, None, Derivation, Wraparound, "wraparound-derived", actor, session, Some(derived)))
  {
    var last := Append(st, derived, None, Derivation, Wraparound, "wraparound-derived", actor, session, Some(derived));
    var n := |st.log|;
    assert last.log[..n] == st.log && last.log[n].from == None;
    assert Faithful(last) ==> Continues(last.log[..n], last.log[n]);
  }

  lemma WrapKeepsInv(cfg: Config, d: Objects.Digests, st: Loop, db: Dreamcatcher.Db, session: string, key: string, actor: string,
                     branch: string, now: string)
    requires Inv(cfg, st) && DerivedKey(st, key) !in st.phase
    ensures Inv(cfg, Wrap(cfg, d, st, db, session, key, actor, branch, now).0)
  {
    WrapEffect(cfg, d, st, db, session, key, actor, branch, now);
    var (next, _, r) := Wrap(cfg, d, st, db, session, key, actor, branch, now);
    if r.Ok? { WrapIsFaithfulIffFresh(cfg, st, key, r.value, next.payload[r.value], actor, session); }
  }

  // ---- observation --------------------------------------------------------------------

  /** A recovery of an awake session is never refused. It leaves every key it may act on where
      its step puts it, changes no goal and no other key, and shrinks no other working set. */
  lemma RecoveryFacts(cfg: Config, st: Loop, session: string, step: Recovery, actor: string)
    requires Faithful(st) && Known(st) && Awake(cfg, st, session) == None
    ensures var r := RecoverAll(cfg, st, session, step, actor, RecoveryKeys(st, session));
            && Moved(st, r, session, RecoveredPhases(st.phase, step, RecoveryKeys(st, session)))
            && ApplyRecovery(cfg, st, session, step, actor)
               == Ok(if step == Seizure then r.value.(seized := r.value.seized + {session}) else r.value)
  {
    RecoveryKeysKnown(st, session);
    RecoverAllFacts(cfg, st, session, step, actor, RecoveryKeys(st, session));
  }

  /** The loop with one more hash noted for a session. */
  function Noted(cfg: Config, st: Loop, session: string, hash: string): Stutter {
    Note(cfg.hashWindow, StutterOf(st, session), hash)
  }

  function Counted(cfg: Config, st: Loop, session: string, hash: string): Loop {
    var noted := Noted(cfg, st, session, hash);
    st.(stutter := st.stutter[session := noted.(recoveries := noted.recoveries + 1)])
  }

  /** The recovery that observing a hash causes. */
  function Caused(cfg: Config, st: Loop, session: string, hash: string): Option<Recovery> {
    if session in st.seized then None else Decide(Noted(cfg, st, session, hash))
  }

  /** Observing without a recovery only notes the hash. */
  lemma ObserveQuietly(cfg: Config, st: Loop, session: string, hash: string, actor: string)
    requires !cfg.blank(session) && Caused(cfg, st, session, hash) == None
    ensures var (next, r) := ObserveAction(cfg, st, session, hash, actor);
            && r.Ok? && next == st.(stutter := st.stutter[session := Noted(cfg, st, session, hash)])
            && (r.value == None <==> session !in st.seized)
  {
  }

  /** Observing with a recovery never fails and is that recovery. */
  lemma ObserveRecovers(cfg: Config, st: Loop, session: string, hash: string, actor: string)
    requires Inv(cfg, st) && !cfg.blank(session) && Caused(cfg, st, session, hash).Some?
    ensures var step := Caused(cfg, st, session, hash).value;
            var counted := Counted(cfg, st, session, hash);
            var r := RecoverAll(cfg, counted, session, step, actor, RecoveryKeys(st, session));
            && Moved(counted, r, session, RecoveredPhases(st.phase, step, RecoveryKeys(st, session)))
            && ObserveAction(cfg, st, session, hash, actor)
               == (if step == Seizure then r.value.(seized := r.value.seized + {session}) else r.value, Ok(Some(step)))
  {
    var counted := Counted(cfg, st, session, hash);
    assert Faithful(counted) && Known(counted);
    assert RecoveryKeys(counted, session) == RecoveryKeys(st, session);
    RecoveryFacts(cfg, counted, session, Caused(cfg, st, session, hash).value, actor);
    ObserveApplies(cfg, st, session, hash, actor);
  }

  lemma ObserveApplies(cfg: Config, st: Loop, session: string, hash: string, actor: string)
    requires !cfg.blank(session) && Caused(cfg, st, session, hash).Some?
    ensures var step := Caused(cfg, st, session, hash).value;
            var applied := ApplyRecovery(cfg, Counted(cfg, st, session, hash), session, step, actor);
            applied.Ok? ==> ObserveAction(cfg, st, session, hash, actor) == (applied.value, Ok(Some(step)))
  {
  }

  // ---- what a recovery does to working sets -------------------------------------------

  /** Exactly the items with the given keys are gone. */
  ghost predicate Shrunk(before: seq<Item>, after: seq<Item>, gone: set<string>) {
    && |after| <= |before| && Tokens(after) <= Tokens(before)
    && forall item :: item in after <==> item in before && item.key !in gone
  }

  lemma ShrunkTwice(a: seq<Item>, b: seq<Item>, c: seq<Item>, g: set<string>, h: set<string>)
    requires Shrunk(a, b, g) && Shrunk(b, c, h)
    ensures Shrunk(a, c, g + h)
  {
  }

  lemma ReleaseShrinks(st: Loop, session: string, key: string)
    ensures Shrunk(WorkingOf(st, session), WorkingOf(Release(st, session, key), session), {key})
  {
    var items := WorkingOf(st, session);
    assert WorkingOf(Release(st, session, key), session) == DropItem(items, key);
    DropShrinks(items, key);
  }

  lemma DropShrinks(items: seq<Item>, key: string)
    ensures Shrunk(items, DropItem(items, key), {key})
  {
    DropItemFacts(items, key);
    forall item ensures item in DropItem(items, key) <==> item in items && item.key !in {key} {
    }
  }

  lemma TransitionShrinks(cfg: Config, st: Loop, key: string, to: Phase, reason: string, actor: string, session: string, allowDirect: bool)
    requires Transition(cfg, st, key, to, reason, actor, session, allowDirect).Ok?
    ensures key in st.phase
    ensures Shrunk(WorkingOf(st, session),
                   WorkingOf(Transition(cfg, st, key, to, reason, actor, session, allowDirect).value, session),
                   if st.phase[key] == Attention then {key} else {})
  {
    TransitionOutcome(cfg, st, key, to, reason, actor, session, allowDirect);
    ReleaseShrinks(st, session, key);
  }

  /** A key that a step moves, given the phases before it. */
  ghost predicate Moves(m: Phases, step: Recovery, k: string) {
    k in m && RecoveredPhase(step, m[k]) != m[k]
  }

  lemma ContainShrinks(cfg: Config, st: Loop, session: string, first: string, second: string, actor: string, key: string)
    requires Contain(cfg, st, session, first, second, actor, key).Ok?
    ensures var r := Contain(cfg, st, session, first, second, actor, key).value;
            Shrunk(WorkingOf(st, session), WorkingOf(r, session), {}) || Shrunk(WorkingOf(st, session), WorkingOf(r, session), {key})
  {
    var items := WorkingOf(st, session);
    var r := Contain(cfg, st, session, first, second, actor, key).value;
    if Lookup(st.phase, key) == Some(Partition) {
      TransitionShrinks(cfg, st, key, Containment, second, actor, session, false);
    } else {
      var parted := Transition(cfg, st, key, Partition, first, actor, session, true).value;
      TransitionShrinks(cfg, st, key, Partition, first, actor, session, true);
      TransitionShrinks(cfg, parted, key, Containment, second, actor, session, false);
      TransitionOutcome(cfg, st, key, Partition, first, actor, session, true);
      ShrunkTwice(items, WorkingOf(parted, session), WorkingOf(r, session), if st.phase[key] == Attention then {key} else {}, {});
    }
  }

  lemma RecoverKeyShrinks(cfg: Config, st: Loop, session: string, step: Recovery, actor: string, key: string)
    requires Faithful(st) && key in st.phase && Awake(cfg, st, session) == None
    ensures RecoverKey(cfg, st, session, step, actor, key).Ok?
    ensures Shrunk(WorkingOf(st, session), WorkingOf(RecoverKey(cfg, st, session, step, actor, key).value, session),
                   if Moves(st.phase, step, key) then {key} else {})
  {
    RecoverKeyFacts(cfg, st, session, step, actor, key);
    if Moves(st.phase, step, key) {
      var items, freed := WorkingOf(st, session), Release(st, session, key);
      var r := RecoverKey(cfg, st, session, step, actor, key).value;
      ReleaseShrinks(st, session, key);
      if step == Fridge {
        TransitionShrinks(cfg, freed, key, Partition, "fridge", actor, session, false);
      } else {
        ContainShrinks(cfg, freed, session, if step == Freezer then "fridge" else "seizure-fridge",
                       if step == Freezer then "freezer" else "seizure", actor, key);
      }
      assert Shrunk(WorkingOf(freed, session), WorkingOf(r, session), {}) || Shrunk(WorkingOf(freed, session), WorkingOf(r, session), {key});
    }
  }

  ghost function Gone(m: Phases, step: Recovery, keys: seq<string>): set<string> {
    set k | k in keys && Moves(m, step, k)
  }

  lemma {:induction false} RecoverAllShrinks(cfg: Config, st: Loop, session: string, step: Recovery, actor: string, keys: seq<string>)
    requires Faithful(st) && Awake(cfg, st, session) == None
    requires forall k :: k in keys ==> k in st.phase
    ensures RecoverAll(cfg, st, session, step, actor, keys).Ok?
    ensures Shrunk(WorkingOf(st, session), WorkingOf(RecoverAll(cfg, st, session, step, actor, keys).value, session),
                   Gone(st.phase, step, keys))
    decreases |keys|
  {
    RecoverAllFacts(cfg, st, session, step, actor, keys);
    if keys != [] {
      RecoverKeyFacts(cfg, st, session, step, actor, keys[0]);
      RecoverKeyShrinks(cfg, st, session, step, actor, keys[0]);
      var next := RecoverKey(cfg, st, session, step, actor, keys[0]).value;
      RecoverAllShrinks(cfg, next, session, step, actor, keys[1..]);
      ShrunkTwice(WorkingOf(st, session), WorkingOf(next, session),
                  WorkingOf(RecoverAll(cfg, next, session, step, actor, keys[1..]).value, session),
                  if Moves(st.phase, step, keys[0]) then {keys[0]} else {}, Gone(next.phase, step, keys[1..]));
      GoneRest(st.phase, step, keys);
    }
  }

  lemma GoneRest(m: Phases, step: Recovery, keys: seq<string>)
    requires keys != [] && keys[0] in m
    ensures var m' := m[keys[0] := RecoveredPhase(step, m[keys[0]])];
            Gone(m, step, keys) == (if Moves(m, step, keys[0]) then {keys[0]} else {}) + Gone(m', step, keys[1..])
  {
    RecoveredTwice(step, m[keys[0]]);
    assert forall k :: k in keys <==> k == keys[0] || k in keys[1..];
  }

  lemma RecoveredTwice(step: Recovery, p: Phase)
    ensures RecoveredPhase(step, RecoveredPhase(step, p)) == RecoveredPhase(step, p)
  {
  }

  lemma RecoveryKeepsInv(cfg: Config, st: Loop, session: string, step: Recovery, actor: string)
    requires Inv(cfg, st) && Awake(cfg, st, session) == None
    ensures var r := RecoverAll(cfg, st, session, step, actor, RecoveryKeys(st, session));
            r.Ok? && Inv(cfg, r.value)
  {
    RecoveryKeysKnown(st, session);
    RecoveryFacts(cfg, st, session, step, actor);
    RecoverAllShrinks(cfg, st, session, step, actor, RecoveryKeys(st, session));
    var next := RecoverAll(cfg, st, session, step, actor, RecoveryKeys(st, session)).value;
    forall s | s in next.working ensures WithinBudget(cfg, next.working[s]) {
      assert s in st.working && WithinBudget(cfg, st.working[s]);
    }
    forall s, item | s in next.working && item in next.working[s] ensures item.key in next.phase {
      assert s in st.working && item in st.working[s];
    }
    assert next.phase.Keys == st.phase.Keys;
  }

  lemma ObserveKeepsInv(cfg: Config, st: Loop, session: string, hash: string, actor: string)
    requires Inv(cfg, st)
    ensures Inv(cfg, ObserveAction(cfg, st, session, hash, actor).0)
  {
    if !cfg.blank(session) {
      if Caused(cfg, st, session, hash) == None {
        ObserveQuietly(cfg, st, session, hash, actor);
      } else {
        ObserveRecovers(cfg, st, session, hash, actor);
        var counted := Counted(cfg, st, session, hash);
        assert RecoveryKeys(counted, session) == RecoveryKeys(st, session);
        RecoveryKeepsInv(cfg, counted, session, Caused(cfg, st, session, hash).value, actor);
      }
    }
  }

  // ---- runs ---------------------------------------------------------------------------

  lemma StepKeepsInv(cfg: Config, d: Objects.Digests, w: World, op: Op)
    requires Inv(cfg, w.loop) && FreshWrap(w.loop, op)
    ensures Inv(cfg, Step(cfg, d, w, op).loop)
  {
    match op
    case DoExpress(session, key, value, agent, tags, salience, confidence) =>
      ExpressKeepsInv(cfg, w.loop, session, key, value, agent, tags, salience, confidence);
    case DoAdmit(session, key, actor) => AdmitFacts(cfg, w.loop, session, key, actor);
    case DoImpress(session, key, actor, branch, now) =>
      ImpressKeepsInv(cfg, d, w.loop, w.db, session, key, actor, branch, now);
    case DoMove(move, session, key, actor) => MoveKeepsInv(cfg, w.loop, move, session, key, actor);
    case DoWrap(session, key, actor, branch, now) => WrapKeepsInv(cfg, d, w.loop, w.db, session, key, actor, branch, now);
    case DoObserve(session, hash, actor) => ObserveKeepsInv(cfg, w.loop, session, hash, actor);
  }

  /** Every wraparound of a run derived a key that was new at that moment. */
  ghost predicate FreshRun(cfg: Config, d: Objects.Digests, db: Dreamcatcher.Db, ops: seq<Op>) {
    forall i :: 0 <= i < |ops| ==> FreshWrap(Run(cfg, d, db, ops[..i]).loop, ops[i])
  }

  /** Over every run: the log replays to the phases, every entry starts where its key is,
      every edge is legal, and no working set exceeds its budgets. */
  lemma {:induction false} RunsKeepInv(cfg: Config, d: Objects.Digests, db: Dreamcatcher.Db, ops: seq<Op>)
    requires FreshRun(cfg, d, db, ops)
    ensures Inv(cfg, Run(cfg, d, db, ops).loop)
  {
    if ops != [] {
      var n := |ops| - 1;
      FreshPrefix(cfg, d, db, ops, n);
      RunsKeepInv(cfg, d, db, ops[..n]);
      StepKeepsInv(cfg, d, Run(cfg, d, db, ops[..n]), ops[n]);
    }
  }

  lemma FreshPrefix(cfg: Config, d: Objects.Digests, db: Dreamcatcher.Db, ops: seq<Op>, n: nat)
    requires FreshRun(cfg, d, db, ops) && n <= |ops|
    ensures FreshRun(cfg, d, db, ops[..n])
  {
    forall i | 0 <= i < n ensures FreshWrap(Run(cfg, d, db, ops[..n][..i]).loop, ops[..n][i]) {
      assert ops[..n][..i] == ops[..i];
    }
  }
}
