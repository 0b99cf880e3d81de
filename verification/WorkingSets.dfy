/** Working sets and attention: when the two agree, and the two ways in which they come apart. */
module WorkingSets {
  import opened Common
  import opened Decimal
  import opened Detector
  import opened FeedbackLoop
  import opened LifecycleLog
  import opened LoopRuns
  import opened LoopTheorems
  import Objects
  import Dreamcatcher

  /** The session that brought each key into the lifecycle. */
  function Owners(log: seq<TransitionEvent>): map<string, string> {
    if log == [] then map[]
    else
      var front, e := Owners(log[..|log| - 1]), log[|log| - 1];
      if e.from == None then front[e.key := e.session] else front
  }

  ghost predicate Owned(st: Loop, s: string, k: string) {
    k in Owners(st.log) && Owners(st.log)[k] == s
  }

  ghost predicate Holds(st: Loop, s: string, k: string) {
    exists item :: item in WorkingOf(st, s) && item.key == k
  }

  /** Sessions hold and touch only keys of their own. */
  ghost predicate OwnKeysOnly(st: Loop) {
    && (forall k :: k in st.phase <==> k in Owners(st.log))
    && (forall s, k :: Holds(st, s, k) ==> Owned(st, s, k))
    && (forall s, k :: k in TouchedBy(st, s) ==> Owned(st, s, k))
  }

  /** Everything held is in attention. */
  ghost predicate HeldIsAttended(st: Loop) {
    forall s, k :: Holds(st, s, k) ==> k in st.phase && st.phase[k] == Attention
  }

  /** Everything in attention is held by its owner. */
  ghost predicate AttendedIsHeld(st: Loop) {
    forall k :: k in st.phase && st.phase[k] == Attention ==> k in Owners(st.log) && Holds(st, Owners(st.log)[k], k)
  }

  /** A call that uses a key on behalf of the session that expressed it. */
  ghost predicate UsesOwnKey(st: Loop, op: Op) {
    !op.DoExpress? && !op.DoObserve? && op.key in st.phase ==> Owned(st, op.session, op.key)
  }

  /** A disintegration of a key in attention: the item goes, but the edge is refused. */
  ghost predicate DropsAttended(st: Loop, op: Op) {
    op.DoMove? && op.move.DisintegrateMove? && op.key in st.phase && st.phase[op.key] == Attention
  }

  lemma OwnersAppend(log: seq<TransitionEvent>, e: TransitionEvent)
    ensures Owners(log + [e]) == if e.from == None then Owners(log)[e.key := e.session] else Owners(log)
  {
    assert (log + [e])[..|log|] == log;
  }

  /** The working sets after a step, item by item. */
  ghost predicate HoldsAfter(before: Loop, after: Loop, session: string, gone: set<string>, added: set<string>) {
    && (forall k :: Holds(after, session, k) <==> (Holds(before, session, k) && k !in gone) || k in added)
    && (forall s, k :: s != session ==> (Holds(after, s, k) <==> Holds(before, s, k)))
  }

  lemma ShrunkHolds(before: Loop, after: Loop, session: string, gone: set<string>)
    requires Shrunk(WorkingOf(before, session), WorkingOf(after, session), gone)
    requires forall s :: s != session ==> WorkingOf(after, s) == WorkingOf(before, s)
    ensures HoldsAfter(before, after, session, gone, {})
  {
    forall k ensures Holds(after, session, k) <==> Holds(before, session, k) && k !in gone {
      if Holds(before, session, k) && k !in gone {
        var item :| item in WorkingOf(before, session) && item.key == k;
        assert item in WorkingOf(after, session);
      }
      if Holds(after, session, k) {
        var item :| item in WorkingOf(after, session) && item.key == k;
        assert item in WorkingOf(before, session);
      }
    }
  }

  /** The agreement of working sets and attention. */
  ghost predicate Agrees(st: Loop, strict: bool) {
    OwnKeysOnly(st) && HeldIsAttended(st) && (strict ==> AttendedIsHeld(st))
  }

  /** A step of one session on its own keys: some leave attention and the working set together,
      some enter both together. */
  ghost predicate Balanced(before: Loop, after: Loop, session: string, gone: set<string>, added: set<string>,
                           strict: bool) {
    && HoldsAfter(before, after, session, gone, added)
    && before.phase.Keys <= after.phase.Keys
    && (forall k :: k in after.phase && k in before.phase && k !in gone && k !in added ==>
          (after.phase[k] == Attention <==> before.phase[k] == Attention))
    && (forall k :: k in added ==> k in after.phase && after.phase[k] == Attention && Owned(after, session, k))
    && (strict ==> forall k :: k in gone && k in after.phase && k !in added ==> after.phase[k] != Attention)
    && (forall k :: k in after.phase && k !in before.phase ==> after.phase[k] != Attention)
    && (forall k :: k in Owners(before.log) ==> k in Owners(after.log) && Owners(after.log)[k] == Owners(before.log)[k])
    && (forall k :: k in after.phase <==> k in Owners(after.log))
    && (forall s, k :: k in TouchedBy(after, s) ==> k in TouchedBy(before, s) || Owned(after, s, k))
    && (forall k :: k in gone && k in before.phase ==> Owned(before, session, k))
  }

  lemma BalancedAgrees(before: Loop, after: Loop, session: string, gone: set<string>, added: set<string>, strict: bool)
    requires Agrees(before, strict) && Balanced(before, after, session, gone, added, strict)
    ensures Agrees(after, strict)
  {
    forall s, k | Holds(after, s, k)
      ensures Owned(after, s, k) && k in after.phase && after.phase[k] == Attention
    {
      if !(s == session && k in added) {
        assert Holds(before, s, k) && Owned(before, s, k);
        if s != session { assert k in gone ==> Owned(before, session, k); }
      }
    }
    if strict {
      forall k | k in after.phase && after.phase[k] == Attention
        ensures k in Owners(after.log) && Holds(after, Owners(after.log)[k], k)
      {
        if k !in added {
          assert k in before.phase && before.phase[k] == Attention && k !in gone;
          assert Holds(before, Owners(before.log)[k], k);
        }
      }
    }
  }

  // ---- the three ways in which a call changes the agreement ---------------------------

  /** A key of the session moves, and enters or leaves the working set with attention. */
  lemma MovedAgrees(before: Loop, after: Loop, session: string, key: string, to: Phase, gone: set<string>, strict: bool)
    requires Agrees(before, strict) && key in before.phase && Owned(before, session, key)
    requires after.phase == before.phase[key := to] && Owners(after.log) == Owners(before.log)
    requires after.touched == before.touched || after.touched == Touch(before, session, key).touched
    requires HoldsAfter(before, after, session, gone, if to == Attention then {key} else {})
    requires gone <= {key} && (before.phase[key] == Attention ==> to == Attention || key in gone)
    ensures Agrees(after, strict)
  {
    var added := if to == Attention then {key} else {};
    TouchedStayOwn(before, after, session, key);
    assert Balanced(before, after, session, gone, added, strict);
    BalancedAgrees(before, after, session, gone, added, strict);
  }

  lemma TouchedStayOwn(before: Loop, after: Loop, session: string, key: string)
    requires after.touched == before.touched || after.touched == Touch(before, session, key).touched
    requires Owned(after, session, key)
    ensures forall s, k :: k in TouchedBy(after, s) ==> k in TouchedBy(before, s) || Owned(after, s, k)
  {
    forall s, k | k in TouchedBy(after, s) ensures k in TouchedBy(before, s) || (s == session && k == key) {
    }
  }

  /** A session brings a new key into derivation. */
  lemma NewKeyAgrees(before: Loop, after: Loop, session: string, key: string, strict: bool)
    requires Agrees(before, strict) && key !in before.phase
    requires after.phase == before.phase[key := Derivation]
    requires Owners(after.log) == Owners(before.log)[key := session]
    requires after.touched == before.touched || after.touched == Touch(before, session, key).touched
    requires after.working == before.working
    ensures Agrees(after, strict)
  {
    assert forall s, k :: Holds(after, s, k) <==> Holds(before, s, k);
    TouchedStayOwn(before, after, session, key);
    assert Balanced(before, after, session, {}, {}, strict);
    BalancedAgrees(before, after, session, {}, {}, strict);
  }

  lemma QuietStep(before: Loop, after: Loop, session: string, strict: bool)
    requires Agrees(before, strict)
    requires after.phase == before.phase && after.log == before.log && after.touched == before.touched
    requires forall s :: WorkingOf(after, s) == WorkingOf(before, s)
    ensures Agrees(after, strict)
  {
    assert forall s, k :: Holds(after, s, k) <==> Holds(before, s, k);
    assert forall s, k :: k in TouchedBy(after, s) <==> k in TouchedBy(before, s);
    assert Balanced(before, after, session, {}, {}, strict);
    BalancedAgrees(before, after, session, {}, {}, strict);
  }

  /** Giving up an item without a transition keeps what is held in attention. */
  lemma DroppedAgrees(st: Loop, session: string, key: string, strict: bool)
    requires Agrees(st, strict) && (key in st.phase ==> Owned(st, session, key))
    requires strict && key in st.phase ==> st.phase[key] != Attention
    ensures Agrees(Release(st, session, key), strict)
  {
    var freed := Release(st, session, key);
    ReleaseShrinks(st, session, key);
    ShrunkHolds(st, freed, session, {key});
    assert forall s, k :: k in TouchedBy(freed, s) <==> k in TouchedBy(st, s);
    assert Balanced(st, freed, session, {key}, {}, strict);
    BalancedAgrees(st, freed, session, {key}, {}, strict);
  }

  // ---- every call is balanced ---------------------------------------------------------

  lemma ExpressAgrees(cfg: Config, st: Loop, session: string, key: string, value: string, agent: string,
                      tags: seq<string>, salience: real, confidence: real, strict: bool)
    requires Agrees(st, strict)
    ensures Agrees(Express(cfg, st, session, key, value, agent, tags, salience, confidence).0, strict)
  {
    var next := Express(cfg, st, session, key, value, agent, tags, salience, confidence).0;
    if Awake(cfg, st, session) == None && key !in st.phase {
      OwnersAppend(st.log, next.log[|st.log|]);
      NewKeyAgrees(st, next, session, key, strict);
    }
  }

  /** Logging an edge of a known key changes no owner. */
  lemma TransitionOwners(cfg: Config, st: Loop, key: string, to: Phase, reason: string, actor: string, session: string, allowDirect: bool)
    requires Transition(cfg, st, key, to, reason, actor, session, allowDirect).Ok?
    ensures var next := Transition(cfg, st, key, to, reason, actor, session, allowDirect).value;
            key in st.phase && Owners(next.log) == Owners(st.log) && next.phase == st.phase[key := to] && next.touched == st.touched
  {
    TransitionOutcome(cfg, st, key, to, reason, actor, session, allowDirect);
    var next := Transition(cfg, st, key, to, reason, actor, session, allowDirect).value;
    OwnersAppend(st.log, next.log[|st.log|]);
  }

  lemma AdmitAgrees(cfg: Config, st: Loop, session: string, key: string, actor: string, strict: bool)
    requires Inv(cfg, st) && Agrees(st, strict) && (key in st.phase ==> Owned(st, session, key))
    ensures Agrees(Admit(cfg, st, session, key, actor).0, strict)
  {
    var (next, r) := Admit(cfg, st, session, key, actor);
    if r == Ok(Admitted) {
      AdmitHolds(cfg, st, session, key, actor);
      MovedAgrees(st, next, session, key, Attention, {}, strict);
    } else {
      AdmitFacts(cfg, st, session, key, actor);
      AdmitRefused(cfg, st, session, key, actor);
      QuietStep(st, next, session, strict);
    }
  }

  lemma AdmitRefused(cfg: Config, st: Loop, session: string, key: string, actor: string)
    requires Admit(cfg, st, session, key, actor).1 != Ok(Admitted)
    ensures Admit(cfg, st, session, key, actor).0.touched == st.touched
  {
    if Awake(cfg, st, session) == None && Lookup(st.phase, key) == Some(Derivation) && !Full(cfg, st, session, TokensOf(st, key)) {
      var items := PutItem(WorkingOf(st, session), Item(key, TokensOf(st, key)));
      TransitionOutcome(cfg, Touch(st.(working := st.working[session := items]), session, key), key, Attention, "admit", actor, session, false);
    }
  }

  lemma AdmitHolds(cfg: Config, st: Loop, session: string, key: string, actor: string)
    requires Admit(cfg, st, session, key, actor).1 == Ok(Admitted)
    ensures var next := Admit(cfg, st, session, key, actor).0;
            && Lookup(st.phase, key) == Some(Derivation)
            && HoldsAfter(st, next, session, {}, {key})
            && Owners(next.log) == Owners(st.log) && next.phase == st.phase[key := Attention]
            && next.touched == Touch(st, session, key).touched
  {
    var next := Admit(cfg, st, session, key, actor).0;
    var item := Item(key, TokensOf(st, key));
    var items := PutItem(WorkingOf(st, session), item);
    var held := Touch(st.(working := st.working[session := items]), session, key);
    TransitionOwners(cfg, held, key, Attention, "admit", actor, session, false);
    TransitionOutcome(cfg, held, key, Attention, "admit", actor, session, false);
    assert next.working == held.working;
    PutHolds(st, next, session, item);
  }

  lemma PutHolds(before: Loop, after: Loop, session: string, item: Item)
    requires after.working == before.working[session := PutItem(WorkingOf(before, session), item)]
    ensures HoldsAfter(before, after, session, {}, {item.key})
  {
    forall k ensures Holds(after, session, k) <==> Holds(before, session, k) || k == item.key {
      PutItemHolds(WorkingOf(before, session), item, k);
    }
    assert forall s :: s != session ==> WorkingOf(after, s) == WorkingOf(before, s);
  }

  lemma PutItemHolds(items: seq<Item>, item: Item, k: string)
    ensures (exists x :: x in PutItem(items, item) && x.key == k) <==> (exists x :: x in items && x.key == k) || k == item.key
  {
    PutItemFacts(items, item);
  }

  /** A transition to a phase other than attention, with the item released before or by it. */
  lemma LeaveAgrees(cfg: Config, st: Loop, freed: Loop, key: string, to: Phase, reason: string, actor: string, session: string,
                    dropped: set<string>, strict: bool)
    requires Agrees(st, strict) && key in st.phase && Owned(st, session, key)
    requires to != Attention && to != Derivation
    requires freed.phase == st.phase && freed.log == st.log
    requires freed.touched == st.touched || freed.touched == Touch(st, session, key).touched
    requires forall s :: s != session ==> WorkingOf(freed, s) == WorkingOf(st, s)
    requires dropped <= {key} && Shrunk(WorkingOf(st, session), WorkingOf(freed, session), dropped)
    requires Transition(cfg, freed, key, to, reason, actor, session, false).Ok?
    ensures Agrees(Transition(cfg, freed, key, to, reason, actor, session, false).value, strict)
  {
    var next := Transition(cfg, freed, key, to, reason, actor, session, false).value;
    TransitionOwners(cfg, freed, key, to, reason, actor, session, false);
    TransitionShrinks(cfg, freed, key, to, reason, actor, session, false);
    TransitionOthers(cfg, freed, key, to, reason, actor, session);
    var left := if st.phase[key] == Attention then {key} else {};
    ShrunkTwice(WorkingOf(st, session), WorkingOf(freed, session), WorkingOf(next, session), dropped, left);
    ShrunkHolds(st, next, session, dropped + left);
    MovedAgrees(st, next, session, key, to, dropped + left, strict);
  }

  lemma TransitionOthers(cfg: Config, st: Loop, key: string, to: Phase, reason: string, actor: string, session: string)
    requires Transition(cfg, st, key, to, reason, actor, session, false).Ok?
    ensures forall s :: s != session ==>
              WorkingOf(Transition(cfg, st, key, to, reason, actor, session, false).value, s) == WorkingOf(st, s)
  {
    TransitionOutcome(cfg, st, key, to, reason, actor, session, false);
  }

  lemma ImpressAgrees(cfg: Config, d: Objects.Digests, w: World, session: string, key: string, actor: string,
                      branch: string, now: string, strict: bool)
    requires Agrees(w.loop, strict) && (key in w.loop.phase ==> Owned(w.loop, session, key))
    ensures Agrees(Impress(cfg, d, w.loop, w.db, session, key, actor, branch, now).0, strict)
  {
    var st := w.loop;
    ImpressEffect(cfg, d, st, w.db, session, key, actor, branch, now);
    if Impress(cfg, d, st, w.db, session, key, actor, branch, now).0 != st {
      var freed := Touch(Release(st, session, key), session, key);
      ImpressedAgrees(cfg, st, freed, session, key, "impress", actor, strict);
    }
  }

  lemma ImpressedAgrees(cfg: Config, st: Loop, freed: Loop, session: string, key: string, reason: string, actor: string, strict: bool)
    requires Agrees(st, strict) && Lookup(st.phase, key) == Some(Attention) && Owned(st, session, key)
    requires freed == Touch(Release(st, session, key), session, key)
    requires Transition(cfg, freed, key, Integration, reason, actor, session, false).Ok?
    ensures Agrees(Transition(cfg, freed, key, Integration, reason, actor, session, false).value, strict)
  {
    GivenUp(st, freed, session, key);
    LeaveAgrees(cfg, st, freed, key, Integration, reason, actor, session, {key}, strict);
  }

  lemma GivenUp(st: Loop, freed: Loop, session: string, key: string)
    requires freed == Touch(Release(st, session, key), session, key)
    ensures freed.phase == st.phase && freed.log == st.log && freed.touched == Touch(st, session, key).touched
    ensures forall s :: s != session ==> WorkingOf(freed, s) == WorkingOf(st, s)
    ensures Shrunk(WorkingOf(st, session), WorkingOf(freed, session), {key})
  {
    ReleaseShrinks(st, session, key);
  }

  lemma MoveAgrees(cfg: Config, st: Loop, m: Move, session: string, key: string, actor: string, strict: bool)
    requires Agrees(st, strict) && (key in st.phase ==> Owned(st, session, key))
    requires strict ==> !DropsAttended(st, DoMove(m, session, key, actor))
    ensures Agrees(MoveKey(cfg, st, m, session, key, actor).0, strict)
  {
    if Awake(cfg, st, session) == None {
      var freed := if m.DisintegrateMove? then Release(st, session, key) else st;
      ReleaseShrinks(st, session, key);
      if Transition(cfg, freed, key, Target(m), ReasonOf(m), actor, session, false).Ok? {
        TransitionOutcome(cfg, freed, key, Target(m), ReasonOf(m), actor, session, false);
        LeaveAgrees(cfg, st, freed, key, Target(m), ReasonOf(m), actor, session, if m.DisintegrateMove? then {key} else {}, strict);
      } else if m.DisintegrateMove? {
        DroppedAgrees(st, session, key, strict);
      }
    }
  }

  lemma WrapAgrees(cfg: Config, d: Objects.Digests, w: World, session: string, key: string, actor: string,
                   branch: string, now: string, strict: bool)
    requires Agrees(w.loop, strict) && DerivedKey(w.loop, key) !in w.loop.phase
    ensures Agrees(Wrap(cfg, d, w.loop, w.db, session, key, actor, branch, now).0, strict)
  {
    var st := w.loop;
    var (next, _, r) := Wrap(cfg, d, st, w.db, session, key, actor, branch, now);
    if r.Ok? {
      WrapOwners(cfg, d, w, session, key, actor, branch, now);
      NewKeyAgrees(st, next, session, DerivedKey(st, key), strict);
    }
  }

  lemma WrapOwners(cfg: Config, d: Objects.Digests, w: World, session: string, key: string, actor: string,
                   branch: string, now: string)
    requires Wrap(cfg, d, w.loop, w.db, session, key, actor, branch, now).2.Ok?
    ensures var st, next := w.loop, Wrap(cfg, d, w.loop, w.db, session, key, actor, branch, now).0;
            && next.phase == st.phase[DerivedKey(st, key) := Derivation]
            && Owners(next.log) == Owners(st.log)[DerivedKey(st, key) := session]
            && next.touched == st.touched && next.working == st.working
  {
    var st, next := w.loop, Wrap(cfg, d, w.loop, w.db, session, key, actor, branch, now).0;
    WrapEffect(cfg, d, st, w.db, session, key, actor, branch, now);
    EmittedOwners(cfg, st, key, DerivedKey(st, key), next.payload[DerivedKey(st, key)], actor, session);
  }

  lemma EmittedOwners(cfg: Config, st: Loop, key: string, derived: string, payload: Payload, actor: string, session: string)
    requires Lookup(st.phase, key) == Some(Disintegration)
    ensures var next := Emitted(cfg, st, key, derived, payload, actor, session);
            && next.phase == st.phase[derived := Derivation] && Owners(next.log) == Owners(st.log)[derived := session]
            && next.touched == st.touched && next.working == st.working
  {
    var next := Emitted(cfg, st, key, derived, payload, actor, session);
    var n := |st.log|;
    OwnersAppend(st.log, next.log[n]);
    OwnersAppend(st.log + [next.log[n]], next.log[n + 1]);
    assert next.log == st.log + [next.log[n]] + [next.log[n + 1]];
  }

  /** What a recovery does to ownership, touching and holding. */
  lemma ObserveAgrees(cfg: Config, st: Loop, session: string, hash: string, actor: string, strict: bool)
    requires Inv(cfg, st) && Agrees(st, strict)
    ensures Agrees(ObserveAction(cfg, st, session, hash, actor).0, strict)
  {
    if !cfg.blank(session) {
      var next := ObserveAction(cfg, st, session, hash, actor).0;
      if Caused(cfg, st, session, hash) == None {
        ObserveQuietly(cfg, st, session, hash, actor);
        QuietStep(st, next, session, strict);
      } else {
        var step := Caused(cfg, st, session, hash).value;
        var gone := Gone(st.phase, step, RecoveryKeys(st, session));
        ObserveRecovers(cfg, st, session, hash, actor);
        RecoveryHolds(cfg, st, session, hash, actor);
        RecoveryOwners(cfg, st, session, hash, actor);
        GoneIsOwned(st, session, step, strict);
        RecoveredBalance(st, next, session, step, strict);
      }
    }
  }

  lemma CountedShrinks(cfg: Config, st: Loop, session: string, hash: string, actor: string)
    requires Inv(cfg, st) && Awake(cfg, st, session) == None && Caused(cfg, st, session, hash).Some?
    ensures var step, keys := Caused(cfg, st, session, hash).value, RecoveryKeys(st, session);
            var r := RecoverAll(cfg, Counted(cfg, st, session, hash), session, step, actor, keys);
            r.Ok? && Shrunk(WorkingOf(st, session), WorkingOf(r.value, session), Gone(st.phase, step, keys))
  {
    var counted := Counted(cfg, st, session, hash);
    assert Faithful(counted) && Known(counted);
    RecoveryKeysKnown(st, session);
    RecoverAllShrinks(cfg, counted, session, Caused(cfg, st, session, hash).value, actor, RecoveryKeys(st, session));
  }

  lemma RecoveryHolds(cfg: Config, st: Loop, session: string, hash: string, actor: string)
    requires Inv(cfg, st) && !cfg.blank(session) && Caused(cfg, st, session, hash).Some?
    ensures var next := ObserveAction(cfg, st, session, hash, actor).0;
            HoldsAfter(st, next, session, Gone(st.phase, Caused(cfg, st, session, hash).value, RecoveryKeys(st, session)), {})
  {
    var step, keys := Caused(cfg, st, session, hash).value, RecoveryKeys(st, session);
    CountedShrinks(cfg, st, session, hash, actor);
    ObserveRecovers(cfg, st, session, hash, actor);
    ShrunkHolds(st, ObserveAction(cfg, st, session, hash, actor).0, session, Gone(st.phase, step, keys));
  }

  /** Recovery logs only edges of known keys, so owners stay. */
  lemma RecoveryOwners(cfg: Config, st: Loop, session: string, hash: string, actor: string)
    requires Inv(cfg, st) && !cfg.blank(session) && Caused(cfg, st, session, hash).Some?
    ensures Owners(ObserveAction(cfg, st, session, hash, actor).0.log) == Owners(st.log)
  {
    ObserveRecovers(cfg, st, session, hash, actor);
    RecoveryKeysKnown(st, session);
    RecoverAllOwners(cfg, Counted(cfg, st, session, hash), session, Caused(cfg, st, session, hash).value, actor, RecoveryKeys(st, session));
  }

  lemma {:induction false} RecoverAllOwners(cfg: Config, st: Loop, session: string, step: Recovery, actor: string, keys: seq<string>)
    requires RecoverAll(cfg, st, session, step, actor, keys).Ok?
    ensures Owners(RecoverAll(cfg, st, session, step, actor, keys).value.log) == Owners(st.log)
    decreases |keys|
  {
    if keys != [] {
      RecoverKeyOwners(cfg, st, session, step, actor, keys[0]);
      RecoverAllOwners(cfg, RecoverKey(cfg, st, session, step, actor, keys[0]).value, session, step, actor, keys[1..]);
    }
  }

  lemma RecoverKeyOwners(cfg: Config, st: Loop, session: string, step: Recovery, actor: string, key: string)
    requires RecoverKey(cfg, st, session, step, actor, key).Ok?
    ensures Owners(RecoverKey(cfg, st, session, step, actor, key).value.log) == Owners(st.log)
  {
    var freed := Release(st, session, key);
    if RecoverKey(cfg, st, session, step, actor, key).value != st {
      if step == Fridge {
        TransitionOwners(cfg, freed, key, Partition, "fridge", actor, session, false);
      } else {
        ContainOwners(cfg, freed, session, if step == Freezer then "fridge" else "seizure-fridge",
                      if step == Freezer then "freezer" else "seizure", actor, key);
      }
    }
  }

  lemma ContainOwners(cfg: Config, st: Loop, session: string, first: string, second: string, actor: string, key: string)
    requires Contain(cfg, st, session, first, second, actor, key).Ok?
    ensures Owners(Contain(cfg, st, session, first, second, actor, key).value.log) == Owners(st.log)
  {
    if Lookup(st.phase, key) == Some(Partition) {
      TransitionOwners(cfg, st, key, Containment, second, actor, session, false);
    } else {
      TransitionOwners(cfg, st, key, Partition, first, actor, session, true);
      TransitionOwners(cfg, Transition(cfg, st, key, Partition, first, actor, session, true).value, key, Containment, second, actor, session, false);
    }
  }

  lemma GoneIsOwned(st: Loop, session: string, step: Recovery, strict: bool)
    requires Agrees(st, strict)
    ensures forall k :: k in Gone(st.phase, step, RecoveryKeys(st, session)) ==> Owned(st, session, k)
  {
    forall k | k in Gone(st.phase, step, RecoveryKeys(st, session)) ensures Owned(st, session, k) {
      RecoveryKeysMembers(st, session, k);
      assert k in TouchedBy(st, session) || Holds(st, session, k);
    }
  }

  lemma RecoveredBalance(st: Loop, next: Loop, session: string, step: Recovery, strict: bool)
    requires Agrees(st, strict)
    requires HoldsAfter(st, next, session, Gone(st.phase, step, RecoveryKeys(st, session)), {})
    requires next.phase == RecoveredPhases(st.phase, step, RecoveryKeys(st, session))
    requires Owners(next.log) == Owners(st.log) && next.touched == st.touched
    requires forall k :: k in Gone(st.phase, step, RecoveryKeys(st, session)) ==> Owned(st, session, k)
    ensures Agrees(next, strict)
  {
    var gone := Gone(st.phase, step, RecoveryKeys(st, session));
    assert forall s, k :: k in TouchedBy(next, s) <==> k in TouchedBy(st, s);
    assert Balanced(st, next, session, gone, {}, strict);
    BalancedAgrees(st, next, session, gone, {}, strict);
  }

  // ---- runs ---------------------------------------------------------------------------

  lemma StepAgrees(cfg: Config, d: Objects.Digests, w: World, op: Op, strict: bool)
    requires Inv(cfg, w.loop) && Agrees(w.loop, strict)
    requires FreshWrap(w.loop, op) && UsesOwnKey(w.loop, op) && (strict ==> !DropsAttended(w.loop, op))
    ensures Agrees(Step(cfg, d, w, op).loop, strict)
  {
    match op
    case DoExpress(session, key, value, agent, tags, salience, confidence) =>
      ExpressAgrees(cfg, w.loop, session, key, value, agent, tags, salience, confidence, strict);
    case DoAdmit(session, key, actor) => AdmitAgrees(cfg, w.loop, session, key, actor, strict);
    case DoImpress(session, key, actor, branch, now) => ImpressAgrees(cfg, d, w, session, key, actor, branch, now, strict);
    case DoMove(move, session, key, actor) => MoveAgrees(cfg, w.loop, move, session, key, actor, strict);
    case DoWrap(session, key, actor, branch, now) => WrapAgrees(cfg, d, w, session, key, actor, branch, now, strict);
    case DoObserve(session, hash, actor) => ObserveAgrees(cfg, w.loop, session, hash, actor, strict);
  }

  /** Every key of a run is used by the session that expressed it. */
  ghost predicate Disciplined(cfg: Config, d: Objects.Digests, db: Dreamcatcher.Db, ops: seq<Op>, strict: bool) {
    forall i :: 0 <= i < |ops| ==>
      && UsesOwnKey(Run(cfg, d, db, ops[..i]).loop, ops[i])
      && (strict ==> !DropsAttended(Run(cfg, d, db, ops[..i]).loop, ops[i]))
  }

  /** In runs in which each key is used only by the session that expressed it, everything in a
      working set is in attention; if moreover no key in attention is disintegrated, every
      key in attention is in the working set of its session. */
  lemma {:induction false} WorkingSetsAreAttention(cfg: Config, d: Objects.Digests, db: Dreamcatcher.Db, ops: seq<Op>, strict: bool)
    requires FreshRun(cfg, d, db, ops) && Disciplined(cfg, d, db, ops, strict)
    ensures HeldIsAttended(Run(cfg, d, db, ops).loop)
    ensures strict ==> AttendedIsHeld(Run(cfg, d, db, ops).loop)
  {
    RunAgrees(cfg, d, db, ops, strict);
  }

  lemma {:induction false} RunAgrees(cfg: Config, d: Objects.Digests, db: Dreamcatcher.Db, ops: seq<Op>, strict: bool)
    requires FreshRun(cfg, d, db, ops) && Disciplined(cfg, d, db, ops, strict)
    ensures Agrees(Run(cfg, d, db, ops).loop, strict)
  {
    if ops != [] {
      var n := |ops| - 1;
      FreshPrefix(cfg, d, db, ops, n);
      DisciplinedPrefix(cfg, d, db, ops, n, strict);
      RunAgrees(cfg, d, db, ops[..n], strict);
      RunsKeepInv(cfg, d, db, ops[..n]);
      StepAgrees(cfg, d, Run(cfg, d, db, ops[..n]), ops[n], strict);
    }
  }

  lemma DisciplinedPrefix(cfg: Config, d: Objects.Digests, db: Dreamcatcher.Db, ops: seq<Op>, n: nat, strict: bool)
    requires Disciplined(cfg, d, db, ops, strict) && n <= |ops|
    ensures Disciplined(cfg, d, db, ops[..n], strict)
  {
    forall i | 0 <= i < n
      ensures UsesOwnKey(Run(cfg, d, db, ops[..n][..i]).loop, ops[..n][i])
           && (strict ==> !DropsAttended(Run(cfg, d, db, ops[..n][..i]).loop, ops[..n][i]))
    {
      assert ops[..n][..i] == ops[..i];
    }
  }
}
