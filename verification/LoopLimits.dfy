/** Where the loop keeps less than its description suggests, and exactly when it keeps it. */
module LoopLimits {
  import opened Common
  import opened Decimal
  import opened Detector
  import opened FeedbackLoop
  import opened LifecycleLog
  import opened LoopRuns
  import opened LoopTheorems
  import opened WorkingSets
  import Objects
  import Dreamcatcher

  // ---- working sets across sessions ---------------------------------------------------

  /** When a session moves a key out of attention, working sets still hold only keys in
      attention if and only if no other session was holding that key. */
  lemma ForeignMovesLeaveStaleItems(cfg: Config, st: Loop, m: Move, session: string, key: string, actor: string)
    requires HeldIsAttended(st) && Lookup(st.phase, key) == Some(Attention)
    requires MoveKey(cfg, st, m, session, key, actor).1.Ok?
    ensures HeldIsAttended(MoveKey(cfg, st, m, session, key, actor).0)
            <==> forall s :: s != session ==> !WorkingSets.Holds(st, s, key)
  {
    var freed := if m.DisintegrateMove? then Release(st, session, key) else st;
    var next := MoveKey(cfg, st, m, session, key, actor).0;
    TransitionOwners(cfg, freed, key, Target(m), ReasonOf(m), actor, session, false);
    TransitionShrinks(cfg, freed, key, Target(m), ReasonOf(m), actor, session, false);
    TransitionOthers(cfg, freed, key, Target(m), ReasonOf(m), actor, session);
    ReleaseShrinks(st, session, key);
    var dropped := if m.DisintegrateMove? then {key} else {};
    ShrunkTwice(WorkingOf(st, session), WorkingOf(freed, session), WorkingOf(next, session), dropped, {key});
    ShrunkHolds(st, next, session, dropped + {key});
    StaleIfHeldElsewhere(st, next, session, key, Target(m), dropped + {key});
  }

  lemma StaleIfHeldElsewhere(before: Loop, after: Loop, session: string, key: string, to: Phase, gone: set<string>)
    requires HeldIsAttended(before) && key in before.phase && to != Attention
    requires after.phase == before.phase[key := to] && gone == {key} && HoldsAfter(before, after, session, gone, {})
    ensures HeldIsAttended(after) <==> forall s :: s != session ==> !WorkingSets.Holds(before, s, key)
  {
    forall s | s != session && WorkingSets.Holds(before, s, key) ensures !HeldIsAttended(after) {
      assert WorkingSets.Holds(after, s, key);
    }
  }

  /** Disintegrating an own key keeps every key in attention in its working set if and only if
      the key was not in attention: otherwise the item is dropped and the key stays. */
  lemma DisintegrationMayDropAttention(cfg: Config, st: Loop, session: string, key: string, actor: string)
    requires Agrees(st, true) && Awake(cfg, st, session) == None && key in st.phase && Owned(st, session, key)
    ensures AttendedIsHeld(MoveKey(cfg, st, DisintegrateMove, session, key, actor).0) <==> st.phase[key] != Attention
  {
    if st.phase[key] == Attention {
      TransitionOutcome(cfg, Release(st, session, key), key, Disintegration, "disintegrate", actor, session, false);
      ReleaseLoses(st, session, key);
    } else {
      MoveAgrees(cfg, st, DisintegrateMove, session, key, actor, true);
    }
  }

  lemma ReleaseLoses(st: Loop, session: string, key: string)
    requires Agrees(st, true) && Lookup(st.phase, key) == Some(Attention) && Owned(st, session, key)
    ensures !AttendedIsHeld(Release(st, session, key))
  {
    var freed := Release(st, session, key);
    ReleaseShrinks(st, session, key);
    ShrunkHolds(st, freed, session, {key});
    assert !WorkingSets.Holds(freed, session, key);
  }

  // ---- leaving containment ------------------------------------------------------------

  /** An awake session can take a key out of containment by a release, but just as well by a
      fridge, or by disintegrating it; by nothing else. */
  lemma ContainmentExits(cfg: Config, st: Loop, m: Move, session: string, key: string, actor: string)
    requires Lookup(st.phase, key) == Some(Containment) && Awake(cfg, st, session) == None
    ensures MoveKey(cfg, st, m, session, key, actor).1.Ok? <==> m == ThawMove || m == FridgeMove || m == DisintegrateMove
  {
    var freed := if m.DisintegrateMove? then Release(st, session, key) else st;
    TransitionOutcome(cfg, freed, key, Target(m), ReasonOf(m), actor, session, false);
  }

  /** No observation, and so no recovery, takes a key out of containment. */
  lemma RecoveriesNeverRelease(cfg: Config, st: Loop, session: string, hash: string, actor: string, key: string)
    requires Inv(cfg, st) && Lookup(st.phase, key) == Some(Containment)
    ensures Lookup(ObserveAction(cfg, st, session, hash, actor).0.phase, key) == Some(Containment)
  {
    if !cfg.blank(session) { ObservedPhases(cfg, st, session, hash, actor); }
  }

  // ---- fresh derived keys -------------------------------------------------------------

  ghost predicate LooksDerived(k: string, n: nat) {
    exists p: string :: k == p + "::derived:" + Dec(n)
  }

  /** No caller expresses a key of the derived shape. */
  ghost predicate PlainRun(ops: seq<Op>) {
    forall i, n: nat :: 0 <= i < |ops| && ops[i].DoExpress? ==> !LooksDerived(ops[i].key, n)
  }

  lemma DerivedNumber(k: string, m: nat, n: nat)
    requires LooksDerived(k, m) && LooksDerived(k, n)
    ensures m == n
  {
    var p: string :| k == p + "::derived:" + Dec(m);
    var q: string :| k == q + "::derived:" + Dec(n);
    assert p + "::derived:" + Dec(m) == (p + "::derived") + ":" + Dec(m);
    assert q + "::derived:" + Dec(n) == (q + "::derived") + ":" + Dec(n);
    LastNumeral(p + "::derived", m, q + "::derived", n);
  }

  /** Derived keys in the lifecycle carry numbers that the log has passed. */
  ghost predicate NumbersPassed(st: Loop) {
    forall k, n: nat :: k in st.phase && LooksDerived(k, n) ==> n <= |st.log|
  }

  lemma StepPassesNumbers(cfg: Config, d: Objects.Digests, w: World, op: Op)
    requires Inv(cfg, w.loop) && NumbersPassed(w.loop)
    requires op.DoExpress? ==> forall n: nat :: !LooksDerived(op.key, n)
    ensures FreshWrap(w.loop, op)
    ensures NumbersPassed(Step(cfg, d, w, op).loop)
  {
    var st, next := w.loop, Step(cfg, d, w, op).loop;
    if op.DoWrap? { DerivedKeyShape(st, op.key); }
    NewKeys(cfg, d, w, op);
    StepLogsAwake(cfg, d, w, op);
    forall k, n: nat | k in next.phase && LooksDerived(k, n) ensures n <= |next.log| {
      if k !in st.phase && op.DoWrap? {
        DerivedKeyShape(st, op.key);
        DerivedNumber(k, n, |st.log| + 1);
      }
    }
  }

  lemma DerivedKeyShape(st: Loop, key: string)
    ensures LooksDerived(DerivedKey(st, key), |st.log| + 1)
    ensures NumbersPassed(st) ==> DerivedKey(st, key) !in st.phase
  {
    assert DerivedKey(st, key) == key + "::derived:" + Dec(|st.log| + 1);
  }

  lemma ExpressAddsItsKey(cfg: Config, st: Loop, session: string, key: string, value: string, agent: string,
                          tags: seq<string>, salience: real, confidence: real)
    ensures Express(cfg, st, session, key, value, agent, tags, salience, confidence).0.phase.Keys <= st.phase.Keys + {key}
  {
  }

  lemma WrapAddsItsKey(cfg: Config, d: Objects.Digests, w: World, session: string, key: string, actor: string, branch: string, now: string)
    ensures var st, next := w.loop, Wrap(cfg, d, w.loop, w.db, session, key, actor, branch, now).0;
            forall k :: k in next.phase && k !in st.phase ==> k == DerivedKey(st, key) && |next.log| > |st.log|
  {
    WrapEffect(cfg, d, w.loop, w.db, session, key, actor, branch, now);
  }

  /** The keys that a call brings into the lifecycle. */
  lemma NewKeys(cfg: Config, d: Objects.Digests, w: World, op: Op)
    requires Inv(cfg, w.loop)
    ensures var st, next := w.loop, Step(cfg, d, w, op).loop;
            forall k :: k in next.phase && k !in st.phase ==>
              (op.DoExpress? && k == op.key) || (op.DoWrap? && k == DerivedKey(st, op.key) && |next.log| > |st.log|)
  {
    match op
    case DoExpress(session, key, value, agent, tags, salience, confidence) =>
      ExpressAddsItsKey(cfg, w.loop, session, key, value, agent, tags, salience, confidence);
    case DoAdmit(session, key, actor) => AdmitFacts(cfg, w.loop, session, key, actor);
    case DoImpress(session, key, actor, branch, now) =>
      ImpressAddsNoKey(cfg, d, w, session, key, actor, branch, now);
    case DoMove(m, session, key, actor) => MoveAddsNoKey(cfg, w.loop, m, session, key, actor);
    case DoWrap(session, key, actor, branch, now) =>
      WrapAddsItsKey(cfg, d, w, session, key, actor, branch, now);
    case DoObserve(session, hash, actor) =>
      if !cfg.blank(session) { ObservedPhases(cfg, w.loop, session, hash, actor); }
  }

  lemma ImpressAddsNoKey(cfg: Config, d: Objects.Digests, w: World, session: string, key: string, actor: string,
                         branch: string, now: string)
    ensures Impress(cfg, d, w.loop, w.db, session, key, actor, branch, now).0.phase.Keys == w.loop.phase.Keys
  {
    ImpressEffect(cfg, d, w.loop, w.db, session, key, actor, branch, now);
    TransitionOutcome(cfg, Touch(Release(w.loop, session, key), session, key), key, Integration, "impress", actor, session, false);
  }

  lemma MoveAddsNoKey(cfg: Config, st: Loop, m: Move, session: string, key: string, actor: string)
    ensures MoveKey(cfg, st, m, session, key, actor).0.phase.Keys == st.phase.Keys
  {
    var freed := if m.DisintegrateMove? then Release(st, session, key) else st;
    TransitionOutcome(cfg, freed, key, Target(m), ReasonOf(m), actor, session, false);
  }

  /** If no caller expresses a key of the derived shape, every wraparound derives a new key, so
      all the guarantees that ask for fresh derived keys hold. */
  lemma {:induction false} PlainRunsAreFresh(cfg: Config, d: Objects.Digests, db: Dreamcatcher.Db, ops: seq<Op>)
    requires PlainRun(ops)
    ensures FreshRun(cfg, d, db, ops) && NumbersPassed(Run(cfg, d, db, ops).loop)
  {
    if ops != [] {
      var n := |ops| - 1;
      PlainRunsAreFresh(cfg, d, db, ops[..n]);
      RunsKeepInv(cfg, d, db, ops[..n]);
      StepPassesNumbers(cfg, d, Run(cfg, d, db, ops[..n]), ops[n]);
      forall i | 0 <= i < |ops| ensures FreshWrap(Run(cfg, d, db, ops[..i]).loop, ops[i]) {
        if i < n { assert ops[..n][..i] == ops[..i]; }
      }
    }
  }
}
