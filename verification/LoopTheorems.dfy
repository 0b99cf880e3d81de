/** What the Memory Feedback Loop guarantees over whole runs. */
module LoopTheorems {
  import opened Common
  import opened Decimal
  import opened Detector
  import opened FeedbackLoop
  import opened LifecycleLog
  import opened LoopRuns
  import Objects
  import Dreamcatcher

  // ---- recoveries ---------------------------------------------------------------------

  /** Whether a session may act on a key in a recovery. */
  ghost predicate Exposed(st: Loop, session: string, k: string) {
    && (k in TouchedBy(st, session) || exists item :: item in WorkingOf(st, session) && item.key == k)
    && k !in st.goals
  }

  /** The phases after an observation: every exposed key where the recovery puts it, every
      other key, and in particular every goal, where it was. */
  lemma ObservedPhases(cfg: Config, st: Loop, session: string, hash: string, actor: string)
    requires Inv(cfg, st) && !cfg.blank(session)
    ensures ObserveAction(cfg, st, session, hash, actor).1.Ok?
    ensures var next, step := ObserveAction(cfg, st, session, hash, actor).0, Caused(cfg, st, session, hash);
            && next.phase.Keys == st.phase.Keys
            && forall k :: k in st.phase ==>
                 next.phase[k] == if step.Some? && Exposed(st, session, k) then RecoveredPhase(step.value, st.phase[k]) else st.phase[k]
  {
    if Caused(cfg, st, session, hash) == None {
      ObserveQuietly(cfg, st, session, hash, actor);
    } else {
      ObserveRecovers(cfg, st, session, hash, actor);
      ExposedPhases(st, session, Caused(cfg, st, session, hash).value);
    }
  }

  /** Where no exposed key may be after a recovery. */
  ghost predicate OutOfReach(step: Recovery, p: Phase) {
    match step
    case Nap => true
    case Fridge => p != Attention && p != Integration
    case Freezer => p == Derivation || p == Containment || p == Disintegration
    case Seizure => p == Containment || p == Disintegration
  }

  /** No observation fails, none changes a goal, and after a recovery every key that the
      session touched or works with, other than a goal, is out of reach. */
  lemma RecoveriesContain(cfg: Config, st: Loop, session: string, hash: string, actor: string)
    requires Inv(cfg, st) && !cfg.blank(session)
    ensures ObserveAction(cfg, st, session, hash, actor).1.Ok?
    ensures var next := ObserveAction(cfg, st, session, hash, actor).0;
            && next.phase.Keys == st.phase.Keys
            && (forall k :: k in st.goals && k in st.phase ==> next.phase[k] == st.phase[k])
            && (Caused(cfg, st, session, hash).Some? ==>
                  forall k :: k in st.phase && Exposed(st, session, k) ==>
                    OutOfReach(Caused(cfg, st, session, hash).value, next.phase[k]))
  {
    ObservedPhases(cfg, st, session, hash, actor);
    forall k | k in st.phase && Caused(cfg, st, session, hash).Some?
      ensures OutOfReach(Caused(cfg, st, session, hash).value, RecoveredPhase(Caused(cfg, st, session, hash).value, st.phase[k]))
    {
    }
  }

  lemma ExposedPhases(st: Loop, session: string, step: Recovery)
    ensures var m := RecoveredPhases(st.phase, step, RecoveryKeys(st, session));
            && m.Keys == st.phase.Keys
            && forall k :: k in m ==> m[k] == if Exposed(st, session, k) then RecoveredPhase(step, st.phase[k]) else st.phase[k]
  {
    forall k ensures k in RecoveryKeys(st, session) <==> Exposed(st, session, k) {
      RecoveryKeysMembers(st, session, k);
    }
  }

  // ---- seized sessions ----------------------------------------------------------------

  /** A step that appends entries of one session, none if that session is seized. */
  ghost predicate Logs(st: Loop, next: Loop, session: string) {
    && Extends(st, next, session)
    && (session in st.seized ==> next.log == st.log)
    && st.seized <= next.seized
  }

  /** A call only ever appends to the log, and only on behalf of a session that is not seized. */
  lemma StepLogsAwake(cfg: Config, d: Objects.Digests, w: World, op: Op)
    requires Inv(cfg, w.loop)
    ensures Logs(w.loop, Step(cfg, d, w, op).loop, op.session)
  {
    var st := w.loop;
    match op
    case DoExpress(session, key, value, agent, tags, salience, confidence) =>
      ExpressLogs(cfg, st, session, key, value, agent, tags, salience, confidence);
    case DoAdmit(session, key, actor) => AdmitLogs(cfg, st, session, key, actor);
    case DoImpress(session, key, actor, branch, now) => ImpressLogs(cfg, d, w, session, key, actor, branch, now);
    case DoMove(move, session, key, actor) => MoveLogs(cfg, st, move, session, key, actor);
    case DoWrap(session, key, actor, branch, now) => WrapLogs(cfg, d, w, session, key, actor, branch, now);
    case DoObserve(session, hash, actor) => ObserveLogs(cfg, st, session, hash, actor);
  }

  lemma TransitionLogs(cfg: Config, st: Loop, key: string, to: Phase, reason: string, actor: string, session: string, allowDirect: bool)
    requires Transition(cfg, st, key, to, reason, actor, session, allowDirect).Ok?
    ensures var next := Transition(cfg, st, key, to, reason, actor, session, allowDirect).value;
            Extends(st, next, session) && session !in st.seized && next.seized == st.seized && next.goals == st.goals
            && next.stutter == st.stutter && next.touched == st.touched
  {
    TransitionOutcome(cfg, st, key, to, reason, actor, session, allowDirect);
  }

  lemma ExpressLogs(cfg: Config, st: Loop, session: string, key: string, value: string, agent: string,
                    tags: seq<string>, salience: real, confidence: real)
    ensures var next := Express(cfg, st, session, key, value, agent, tags, salience, confidence).0;
            Logs(st, next, session) && next.seized == st.seized && next.stutter == st.stutter
  {
  }

  lemma WrapLogs(cfg: Config, d: Objects.Digests, w: World, session: string, key: string, actor: string, branch: string, now: string)
    ensures var next := Wrap(cfg, d, w.loop, w.db, session, key, actor, branch, now).0;
            Logs(w.loop, next, session) && next.seized == w.loop.seized && next.stutter == w.loop.stutter
  {
    WrapEffect(cfg, d, w.loop, w.db, session, key, actor, branch, now);
  }

  lemma AdmitLogs(cfg: Config, st: Loop, session: string, key: string, actor: string)
    ensures var next := Admit(cfg, st, session, key, actor).0;
            Logs(st, next, session) && next.seized == st.seized && next.stutter == st.stutter
  {
    if Awake(cfg, st, session) == None && Lookup(st.phase, key) == Some(Derivation) && !Full(cfg, st, session, TokensOf(st, key)) {
      var items := PutItem(WorkingOf(st, session), Item(key, TokensOf(st, key)));
      var held := Touch(st.(working := st.working[session := items]), session, key);
      if Transition(cfg, held, key, Attention, "admit", actor, session, false).Ok? {
        TransitionLogs(cfg, held, key, Attention, "admit", actor, session, false);
      }
    }
  }

  lemma ImpressLogs(cfg: Config, d: Objects.Digests, w: World, session: string, key: string, actor: string, branch: string, now: string)
    ensures var next := Impress(cfg, d, w.loop, w.db, session, key, actor, branch, now).0;
            Logs(w.loop, next, session) && next.seized == w.loop.seized && next.stutter == w.loop.stutter
  {
    ImpressEffect(cfg, d, w.loop, w.db, session, key, actor, branch, now);
    if Impress(cfg, d, w.loop, w.db, session, key, actor, branch, now).0 != w.loop {
      TransitionLogs(cfg, Touch(Release(w.loop, session, key), session, key), key, Integration, "impress", actor, session, false);
    }
  }

  lemma MoveLogs(cfg: Config, st: Loop, m: Move, session: string, key: string, actor: string)
    ensures var next := MoveKey(cfg, st, m, session, key, actor).0;
            Logs(st, next, session) && next.seized == st.seized && next.stutter == st.stutter
  {
    var freed := if m.DisintegrateMove? then Release(st, session, key) else st;
    if Transition(cfg, freed, key, Target(m), ReasonOf(m), actor, session, false).Ok? {
      TransitionLogs(cfg, freed, key, Target(m), ReasonOf(m), actor, session, false);
    }
  }

  lemma ObserveLogs(cfg: Config, st: Loop, session: string, hash: string, actor: string)
    requires Inv(cfg, st)
    ensures Logs(st, ObserveAction(cfg, st, session, hash, actor).0, session)
  {
    if !cfg.blank(session) {
      if Caused(cfg, st, session, hash) == None {
        ObserveQuietly(cfg, st, session, hash, actor);
      } else {
        ObserveRecovers(cfg, st, session, hash, actor);
      }
    }
  }

  /** Once a session is seized, no entry of that session is ever appended again: whenever it
      is seized after k calls of a run, it still is, and has stayed silent, after j more. */
  lemma {:induction false} SeizedSessionsStaySilent(cfg: Config, d: Objects.Digests, db: Dreamcatcher.Db,
                                                    ops: seq<Op>, k: nat, j: nat, s: string)
    requires FreshRun(cfg, d, db, ops) && k <= j <= |ops|
    requires s in Run(cfg, d, db, ops[..k]).loop.seized
    ensures Silent(Run(cfg, d, db, ops[..k]).loop, Run(cfg, d, db, ops[..j]).loop, s)
  {
    if k < j {
      SeizedSessionsStaySilent(cfg, d, db, ops, k, j - 1, s);
      NextCallLogs(cfg, d, db, ops, j);
      SilentStep(Run(cfg, d, db, ops[..k]).loop, Run(cfg, d, db, ops[..j - 1]).loop, Run(cfg, d, db, ops[..j]).loop,
                 s, ops[j - 1].session);
    }
  }

  lemma NextCallLogs(cfg: Config, d: Objects.Digests, db: Dreamcatcher.Db, ops: seq<Op>, j: nat)
    requires FreshRun(cfg, d, db, ops) && 0 < j <= |ops|
    ensures Logs(Run(cfg, d, db, ops[..j - 1]).loop, Run(cfg, d, db, ops[..j]).loop, ops[j - 1].session)
  {
    assert ops[..j][..j - 1] == ops[..j - 1];
    FreshPrefix(cfg, d, db, ops, j - 1);
    RunsKeepInv(cfg, d, db, ops[..j - 1]);
    StepLogsAwake(cfg, d, Run(cfg, d, db, ops[..j - 1]), ops[j - 1]);
  }

  /** The session is still seized, and the log has grown by entries of other sessions only. */
  ghost predicate Silent(early: Loop, late: Loop, s: string) {
    && s in late.seized
    && |early.log| <= |late.log| && late.log[..|early.log|] == early.log
    && forall i :: |early.log| <= i < |late.log| ==> late.log[i].session != s
  }

  lemma SilentStep(a: Loop, b: Loop, c: Loop, s: string, session: string)
    requires Silent(a, b, s) && Logs(b, c, session)
    ensures Silent(a, c, s)
  {
    assert c.log[..|a.log|] == b.log[..|a.log|];
    forall i | |a.log| <= i < |c.log| ensures c.log[i].session != s {
      if i < |b.log| { assert c.log[i] == c.log[..|b.log|][i]; }
    }
  }

  // ---- the detector inside a run ------------------------------------------------------

  /** The hashes that a session observed in a run. */
  function Observations(ops: seq<Op>, s: string): seq<string> {
    if ops == [] then []
    else
      var front, op := Observations(ops[..|ops| - 1], s), ops[|ops| - 1];
      if op.DoObserve? && op.session == s then front + [op.hash] else front
  }

  function WatchOf(st: Loop, s: string): Watch {
    Watch(StutterOf(st, s), s in st.seized)
  }

  lemma StepWatches(cfg: Config, d: Objects.Digests, w: World, op: Op, s: string)
    requires Inv(cfg, w.loop) && !cfg.blank(s)
    ensures var next := WatchOf(Step(cfg, d, w, op).loop, s);
            next == if op.DoObserve? && op.session == s then Observe(cfg.hashWindow, WatchOf(w.loop, s), op.hash)
                    else WatchOf(w.loop, s)
  {
    var st := w.loop;
    match op
    case DoExpress(session, key, value, agent, tags, salience, confidence) =>
      ExpressLogs(cfg, st, session, key, value, agent, tags, salience, confidence);
    case DoAdmit(session, key, actor) => AdmitLogs(cfg, st, session, key, actor);
    case DoImpress(session, key, actor, branch, now) => ImpressLogs(cfg, d, w, session, key, actor, branch, now);
    case DoMove(move, session, key, actor) => MoveLogs(cfg, st, move, session, key, actor);
    case DoWrap(session, key, actor, branch, now) => WrapLogs(cfg, d, w, session, key, actor, branch, now);
    case DoObserve(session, hash, actor) => ObserveWatches(cfg, st, session, hash, actor, s);
  }

  lemma ObserveWatches(cfg: Config, st: Loop, session: string, hash: string, actor: string, s: string)
    requires Inv(cfg, st) && !cfg.blank(s)
    ensures var next := WatchOf(ObserveAction(cfg, st, session, hash, actor).0, s);
            next == if session == s then Observe(cfg.hashWindow, WatchOf(st, s), hash) else WatchOf(st, s)
  {
    if !cfg.blank(session) {
      if Caused(cfg, st, session, hash) == None {
        QuietWatches(cfg, st, session, hash, actor, s);
      } else {
        CausedWatches(cfg, st, session, hash, actor, s);
      }
    }
  }

  lemma QuietWatches(cfg: Config, st: Loop, session: string, hash: string, actor: string, s: string)
    requires !cfg.blank(session) && Caused(cfg, st, session, hash) == None
    ensures var next := WatchOf(ObserveAction(cfg, st, session, hash, actor).0, s);
            next == if session == s then Observe(cfg.hashWindow, WatchOf(st, s), hash) else WatchOf(st, s)
  {
    ObserveQuietly(cfg, st, session, hash, actor);
  }

  lemma CausedWatches(cfg: Config, st: Loop, session: string, hash: string, actor: string, s: string)
    requires Inv(cfg, st) && !cfg.blank(session) && Caused(cfg, st, session, hash).Some?
    ensures var next := WatchOf(ObserveAction(cfg, st, session, hash, actor).0, s);
            next == if session == s then Observe(cfg.hashWindow, WatchOf(st, s), hash) else WatchOf(st, s)
  {
    RecoveryWatches(cfg, st, session, hash, actor);
  }

  lemma RecoveryWatches(cfg: Config, st: Loop, session: string, hash: string, actor: string)
    requires Inv(cfg, st) && !cfg.blank(session) && Caused(cfg, st, session, hash).Some?
    ensures var next := ObserveAction(cfg, st, session, hash, actor).0;
            && next.stutter == Counted(cfg, st, session, hash).stutter
            && next.seized == if Caused(cfg, st, session, hash) == Some(Seizure) then st.seized + {session} else st.seized
  {
    ObserveRecovers(cfg, st, session, hash, actor);
  }

  /** In every run the loop tracks each session exactly as the detector tracks the hashes that
      this session observed, whatever else happens in between. */
  lemma {:induction false} RunWatches(cfg: Config, d: Objects.Digests, db: Dreamcatcher.Db, ops: seq<Op>, s: string)
    requires FreshRun(cfg, d, db, ops) && !cfg.blank(s)
    ensures WatchOf(Run(cfg, d, db, ops).loop, s) == ObserveAll(cfg.hashWindow, Observations(ops, s))
  {
    if ops != [] {
      var n := |ops| - 1;
      FreshPrefix(cfg, d, db, ops, n);
      RunWatches(cfg, d, db, ops[..n], s);
      RunsKeepInv(cfg, d, db, ops[..n]);
      StepWatches(cfg, d, Run(cfg, d, db, ops[..n]), ops[n], s);
      var seen := Observations(ops[..n], s);
      if ops[n].DoObserve? && ops[n].session == s {
        assert (seen + [ops[n].hash])[..|seen|] == seen;
      }
    }
  }

  /** A session whose last seven observed actions repeat with period one, two or three is
      seized, from any prior history of the loop and whatever other calls are interleaved. */
  lemma ShortCyclesSeizeTheSession(cfg: Config, d: Objects.Digests, db: Dreamcatcher.Db, ops: seq<Op>, s: string, period: nat)
    requires FreshRun(cfg, d, db, ops) && !cfg.blank(s)
    requires SeesCycles(cfg.hashWindow) && 1 <= period <= 3 && EndsPeriodic(Observations(ops, s), 7, period)
    ensures s in Run(cfg, d, db, ops).loop.seized
  {
    RunWatches(cfg, d, db, ops, s);
    ShortCyclesSeize(cfg.hashWindow, Observations(ops, s), period);
  }

  /** A session whose observed actions are pairwise different within every six is never
      recovered and never seized. */
  lemma VariedSessionsRunFree(cfg: Config, d: Objects.Digests, db: Dreamcatcher.Db, ops: seq<Op>, s: string, hash: string, actor: string)
    requires FreshRun(cfg, d, db, ops) && !cfg.blank(s)
    requires WindowsDistinct(Observations(ops, s) + [hash])
    ensures var st := Run(cfg, d, db, ops).loop;
            s !in st.seized && ObserveAction(cfg, st, s, hash, actor).1 == Ok(None)
  {
    var st := Run(cfg, d, db, ops).loop;
    RunWatches(cfg, d, db, ops, s);
    RunsKeepInv(cfg, d, db, ops);
    var seen := Observations(ops, s);
    DistinctWindowsPass(cfg.hashWindow, seen, hash);
    assert WindowsDistinct(seen) by {
      assert forall i :: 0 <= i < |seen| ==> (seen + [hash])[i] == seen[i];
    }
    VariedPrefixIsFree(cfg.hashWindow, seen);
    assert Caused(cfg, st, s, hash) == Trigger(cfg.hashWindow, WatchOf(st, s), hash);
    ObserveQuietly(cfg, st, s, hash, actor);
  }

  lemma VariedPrefixIsFree(window: int, seen: seq<string>)
    requires WindowsDistinct(seen)
    ensures !ObserveAll(window, seen).seized
  {
    if seen != [] {
      assert seen == seen[..|seen| - 1] + [seen[|seen| - 1]];
      DistinctWindowsPass(window, seen[..|seen| - 1], seen[|seen| - 1]);
    }
  }

  // ---- the life of a key --------------------------------------------------------------

  /** In a sound log, disintegration is final and derivation is only ever a beginning. */
  lemma DisintegrationIsFinal(log: seq<TransitionEvent>, i: nat, j: nat)
    requires LifecycleLog.Sound(log) && i < j < |log| && log[i].key == log[j].key
    ensures log[i].to == Disintegration ==> log[j].to == Disintegration
    ensures log[j].to != Derivation
  {
    ReplayKeepsKey(log, i, j, log[i].key);
    assert Continues(log[..j], log[j]);
  }

  lemma {:induction false} ReplayKeepsKey(log: seq<TransitionEvent>, i: nat, j: nat, key: string)
    requires LifecycleLog.Sound(log) && i < j <= |log| && log[i].key == key
    ensures key in Replay(log[..j])
    ensures log[i].to == Disintegration ==> Replay(log[..j])[key] == Disintegration
  {
    if i < j - 1 {
      ReplayKeepsKey(log, i, j - 1, key);
      EntryKeepsKey(log, j, key);
    } else {
      ReplayLast(log, j);
    }
  }

  /** One more entry: a key stays in the lifecycle, stays disintegrated, and does not go back to
      derivation. */
  lemma EntryKeepsKey(log: seq<TransitionEvent>, j: nat, key: string)
    requires LifecycleLog.Sound(log) && 0 < j <= |log| && key in Replay(log[..j - 1])
    ensures key in Replay(log[..j])
    ensures Replay(log[..j - 1])[key] == Disintegration ==> Replay(log[..j])[key] == Disintegration
    ensures Replay(log[..j - 1])[key] != Derivation ==> Replay(log[..j])[key] != Derivation
  {
    ReplayLast(log, j);
  }

  lemma ReplayLast(log: seq<TransitionEvent>, j: nat)
    requires LifecycleLog.Sound(log) && 0 < j <= |log|
    ensures Replay(log[..j]) == ReplayEntry(Replay(log[..j - 1]), log[j - 1])
    ensures Continues(log[..j - 1], log[j - 1])
  {
    assert log[..j][..j - 1] == log[..j - 1];
  }
}
