/** What the log of the loop tells of its calls, and what else a run leaves behind: goals, touched keys
    and the measures of what is held. */
module LoopLaws {
  import opened Common
  import opened Decimal
  import opened Detector
  import opened FeedbackLoop
  import opened LifecycleLog
  import opened LoopRuns
  import opened Durability
  import WorkingSets
  import Origins
  import Objects
  import Dreamcatcher

  // ---- what an entry may say -----------------------------------------------------------------

  /** The entries that there are: for every reason, where a key goes, whence, and in which direction
      of the cycle of phases that is. */
  ghost predicate Known(e: TransitionEvent) {
    || (e.reason == "express" && e.from == None && e.to == Derivation && e.direction == Forward)
    || (e.reason == "admit" && e.from == Some(Derivation) && e.to == Attention && e.direction == Forward)
    || (e.reason == "impress" && e.from == Some(Attention) && e.to == Integration && e.direction == Forward)
    || (e.reason in {"fridge", "release"} && e.to == Partition && Shelved(e.from, e.direction))
    || (e.reason == "seizure-fridge" && e.to == Partition
        && ((e.from == Some(Derivation) && e.direction == Direct) || (e.from != Some(Containment) && Shelved(e.from, e.direction))))
    || (e.reason in {"freezer", "seizure"} && e.from == Some(Partition) && e.to == Containment && e.direction == Forward)
    || (e.reason == "reintegrate" && e.to == Integration
        && ((e.from == Some(Attention) && e.direction == Forward) || (e.from == Some(Partition) && e.direction == Reverse)))
    || (e.reason == "disintegrate" && e.from == Some(Containment) && e.to == Disintegration && e.direction == Forward)
    || (e.reason == "wraparound-emit" && e.from == Some(Disintegration) && e.to == Disintegration && e.direction == Wraparound)
    || (e.reason == "wraparound-derived" && e.from == None && e.to == Derivation && e.direction == Wraparound)
  }

  ghost predicate Shelved(from: Option<Phase>, direction: Direction) {
    || (from == Some(Attention) && direction == Direct)
    || (from == Some(Integration) && direction == Forward)
    || (from == Some(Containment) && direction == Reverse)
  }

  function CallerOf(op: Op): string { if op.DoExpress? then op.agent else op.actor }

  function NameOf(m: Move): string {
    match m
    case FridgeMove => "fridge"
    case FreezerMove => "freezer"
    case ThawMove => "release"
    case ReintegrateMove => "reintegrate"
    case DisintegrateMove => "disintegrate"
  }

  /** The entry names the call: its session, its caller, its key and what it was for. */
  ghost predicate Tells(e: TransitionEvent, op: Op) {
    && e.session == op.session && e.actor == CallerOf(op)
    && match op
       case DoExpress(_, key, _, _, _, _, _) => e.key == key && e.reason == "express" && e.derivedKey == None
       case DoAdmit(_, key, _) => e.key == key && e.reason == "admit" && e.derivedKey == None
       case DoImpress(_, key, _, _, _) => e.key == key && e.reason == "impress" && e.derivedKey == None
       case DoMove(m, _, key, _) => e.key == key && e.reason == NameOf(m) && e.derivedKey == None
       case DoObserve(_, _, _) => e.reason in {"fridge", "freezer", "seizure-fridge", "seizure"} && e.derivedKey == None
       case DoWrap(_, key, _, _, _) =>
         || (e.key == key && e.reason == "wraparound-emit" && e.derivedKey == Some(key + "::derived:" + Dec(e.number)))
         || (e.number > 0 && e.key == key + "::derived:" + Dec(e.number - 1) && e.reason == "wraparound-derived" && e.derivedKey == Some(e.key))
  }

  ghost predicate Said(e: TransitionEvent, op: Op) { Known(e) && Tells(e, op) }

  /** The second log is the first, with entries that the call accounts for. */
  ghost predicate Says(before: seq<TransitionEvent>, after: seq<TransitionEvent>, op: Op) {
    && before <= after
    && forall i: nat :: |before| <= i < |after| ==> Said(after[i], op)
  }

  lemma SaysOn(a: seq<TransitionEvent>, b: seq<TransitionEvent>, c: seq<TransitionEvent>, op: Op)
    requires Says(a, b, op) && Says(b, c, op)
    ensures Says(a, c, op)
  {
  }

  lemma TransitionSays(cfg: Config, st: Loop, key: string, to: Phase, reason: string, actor: string, session: string, allowDirect: bool, op: Op)
    returns (e: TransitionEvent)
    requires Transition(cfg, st, key, to, reason, actor, session, allowDirect).Ok?
    ensures Transition(cfg, st, key, to, reason, actor, session, allowDirect).value.log == st.log + [e]
    ensures key in st.phase && st.phase[key] != to && (Allowed(st.phase[key], to) || allowDirect)
    ensures e.key == key && e.from == Some(st.phase[key]) && e.to == to && e.reason == reason && e.actor == actor && e.session == session
    ensures e.derivedKey == None && e.direction == DirectionOf(st.phase[key], to)
    ensures Transition(cfg, st, key, to, reason, actor, session, allowDirect).value.phase == st.phase[key := to]
  {
    TransitionOutcome(cfg, st, key, to, reason, actor, session, allowDirect);
    var freed := if st.phase[key] == Attention then Release(st, session, key) else st;
    e := TransitionEvent(|freed.log| + 1, key, Some(st.phase[key]), to, DirectionOf(st.phase[key], to), reason, actor, session, None);
  }

  lemma MoveSays(cfg: Config, st: Loop, m: Move, session: string, key: string, actor: string)
    ensures Says(st.log, MoveKey(cfg, st, m, session, key, actor).0.log, DoMove(m, session, key, actor))
  {
    var freed := if m.DisintegrateMove? then Release(st, session, key) else st;
    if Transition(cfg, freed, key, Target(m), ReasonOf(m), actor, session, false).Ok? {
      var e := TransitionSays(cfg, freed, key, Target(m), ReasonOf(m), actor, session, false, DoMove(m, session, key, actor));
      assert Said(e, DoMove(m, session, key, actor));
    }
  }

  lemma AdmitSays(cfg: Config, st: Loop, session: string, key: string, actor: string)
    ensures Says(st.log, Admit(cfg, st, session, key, actor).0.log, DoAdmit(session, key, actor))
  {
    if Awake(cfg, st, session) == None && Lookup(st.phase, key) == Some(Derivation) && !Full(cfg, st, session, TokensOf(st, key)) {
      var held := Touch(st.(working := st.working[session := PutItem(WorkingOf(st, session), Item(key, TokensOf(st, key)))]), session, key);
      TransitionOutcome(cfg, held, key, Attention, "admit", actor, session, false);
      var e := TransitionSays(cfg, held, key, Attention, "admit", actor, session, false, DoAdmit(session, key, actor));
      assert Said(e, DoAdmit(session, key, actor));
    }
  }

  lemma ImpressSays(cfg: Config, d: Objects.Digests, w: World, session: string, key: string, actor: string, branch: string, now: string)
    ensures Says(w.loop.log, Impress(cfg, d, w.loop, w.db, session, key, actor, branch, now).0.log, DoImpress(session, key, actor, branch, now))
  {
    var next := Impress(cfg, d, w.loop, w.db, session, key, actor, branch, now).0;
    ImpressEffect(cfg, d, w.loop, w.db, session, key, actor, branch, now);
    if next != w.loop { IntegrationSays(cfg, Touch(Release(w.loop, session, key), session, key), next, key, actor, session, branch, now); }
  }

  lemma IntegrationSays(cfg: Config, st: Loop, next: Loop, key: string, actor: string, session: string, branch: string, now: string)
    requires Lookup(st.phase, key) == Some(Attention) && Transition(cfg, st, key, Integration, "impress", actor, session, false) == Ok(next)
    ensures Says(st.log, next.log, DoImpress(session, key, actor, branch, now))
  {
    var e := TransitionSays(cfg, st, key, Integration, "impress", actor, session, false, DoImpress(session, key, actor, branch, now));
    assert Said(e, DoImpress(session, key, actor, branch, now));
  }

  lemma WrapSays(cfg: Config, d: Objects.Digests, w: World, session: string, key: string, actor: string, branch: string, now: string)
    ensures Says(w.loop.log, Wrap(cfg, d, w.loop, w.db, session, key, actor, branch, now).0.log, DoWrap(session, key, actor, branch, now))
  {
    var (next, _, r) := Wrap(cfg, d, w.loop, w.db, session, key, actor, branch, now);
    WrapEffect(cfg, d, w.loop, w.db, session, key, actor, branch, now);
    if r.Ok? { EmissionSays(cfg, w.loop, key, next.payload[r.value], actor, session, DoWrap(session, key, actor, branch, now)); }
  }

  lemma EmissionSays(cfg: Config, st: Loop, key: string, payload: Payload, actor: string, session: string, op: Op)
    requires op.DoWrap? && op.session == session && op.key == key && op.actor == actor
    ensures Says(st.log, Emitted(cfg, st, key, DerivedKey(st, key), payload, actor, session).log, op)
  {
  }

  // ---- recoveries -----------------------------------------------------------------------------

  lemma PartingSays(cfg: Config, st: Loop, session: string, reason: string, actor: string, key: string, hash: string)
    requires reason == "fridge" || reason == "seizure-fridge"
    requires key in st.phase && (st.phase[key] in {Attention, Integration} || (st.phase[key] == Derivation && reason == "seizure-fridge"))
    ensures var r := Transition(cfg, st, key, Partition, reason, actor, session, true);
            r.Ok? ==> Says(st.log, r.value.log, DoObserve(session, hash, actor)) && Lookup(r.value.phase, key) == Some(Partition)
  {
    if Transition(cfg, st, key, Partition, reason, actor, session, true).Ok? {
      var e := TransitionSays(cfg, st, key, Partition, reason, actor, session, true, DoObserve(session, hash, actor));
      assert Said(e, DoObserve(session, hash, actor));
    }
  }

  lemma ContainSays(cfg: Config, st: Loop, session: string, first: string, second: string, actor: string, key: string, hash: string)
    requires (first == "fridge" && second == "freezer") || (first == "seizure-fridge" && second == "seizure")
    requires key in st.phase ==> st.phase[key] in {Partition, Attention, Integration} || (st.phase[key] == Derivation && first == "seizure-fridge")
    ensures var r := Contain(cfg, st, session, first, second, actor, key);
            r.Ok? ==> Says(st.log, r.value.log, DoObserve(session, hash, actor))
  {
    var r := Contain(cfg, st, session, first, second, actor, key);
    if r.Ok? {
      var parted := if Lookup(st.phase, key) == Some(Partition) then st else Transition(cfg, st, key, Partition, first, actor, session, true).value;
      if Lookup(st.phase, key) != Some(Partition) {
        TransitionOutcome(cfg, st, key, Partition, first, actor, session, true);
        PartingSays(cfg, st, session, first, actor, key, hash);
      }
      var e := TransitionSays(cfg, parted, key, Containment, second, actor, session, false, DoObserve(session, hash, actor));
      assert Said(e, DoObserve(session, hash, actor));
      SaysOn(st.log, parted.log, r.value.log, DoObserve(session, hash, actor));
    }
  }

  lemma RecoverKeySays(cfg: Config, st: Loop, session: string, step: Recovery, actor: string, key: string, hash: string)
    ensures var r := RecoverKey(cfg, st, session, step, actor, key);
            r.Ok? ==> Says(st.log, r.value.log, DoObserve(session, hash, actor))
  {
    var freed := Release(st, session, key);
    match step
    case Nap =>
    case Fridge =>
      if Lookup(st.phase, key) == Some(Integration) || Lookup(st.phase, key) == Some(Attention) {
        if Transition(cfg, freed, key, Partition, "fridge", actor, session, false).Ok? {
          var e := TransitionSays(cfg, freed, key, Partition, "fridge", actor, session, false, DoObserve(session, hash, actor));
          assert Said(e, DoObserve(session, hash, actor));
        }
      }
    case Freezer =>
      if Lookup(st.phase, key) in {Some(Partition), Some(Integration), Some(Attention)} {
        ContainSays(cfg, freed, session, "fridge", "freezer", actor, key, hash);
      }
    case Seizure =>
      if Lookup(st.phase, key) != Some(Containment) && Lookup(st.phase, key) != Some(Disintegration) {
        ContainSays(cfg, freed, session, "seizure-fridge", "seizure", actor, key, hash);
      }
  }

  lemma {:induction false} RecoverAllSays(cfg: Config, st: Loop, session: string, step: Recovery, actor: string, keys: seq<string>, hash: string)
    ensures var r := RecoverAll(cfg, st, session, step, actor, keys);
            r.Ok? ==> Says(st.log, r.value.log, DoObserve(session, hash, actor))
    decreases |keys|
  {
    if keys != [] {
      var next := RecoverKey(cfg, st, session, step, actor, keys[0]);
      RecoverKeySays(cfg, st, session, step, actor, keys[0], hash);
      if next.Ok? {
        RecoverAllSays(cfg, next.value, session, step, actor, keys[1..], hash);
        if RecoverAll(cfg, next.value, session, step, actor, keys[1..]).Ok? {
          SaysOn(st.log, next.value.log, RecoverAll(cfg, next.value, session, step, actor, keys[1..]).value.log, DoObserve(session, hash, actor));
        }
      }
    }
  }

  lemma ObserveSays(cfg: Config, st: Loop, session: string, hash: string, actor: string)
    requires Inv(cfg, st)
    ensures Says(st.log, ObserveAction(cfg, st, session, hash, actor).0.log, DoObserve(session, hash, actor))
  {
    if !cfg.blank(session) {
      if Caused(cfg, st, session, hash) == None {
        ObserveQuietly(cfg, st, session, hash, actor);
      } else {
        ObserveRecovers(cfg, st, session, hash, actor);
        RecoverAllSays(cfg, Counted(cfg, st, session, hash), session, Caused(cfg, st, session, hash).value, actor, RecoveryKeys(st, session), hash);
      }
    }
  }

  // ---- over runs ------------------------------------------------------------------------------

  lemma ExpressSays(cfg: Config, d: Objects.Digests, w: World, op: Op)
    requires op.DoExpress?
    ensures Says(w.loop.log, Step(cfg, d, w, op).loop.log, op)
  {
  }

  /** What a call appends to the log is of the known kinds and tells of that call. */
  lemma CallSays(cfg: Config, d: Objects.Digests, w: World, op: Op)
    requires Inv(cfg, w.loop)
    ensures Says(w.loop.log, Step(cfg, d, w, op).loop.log, op)
  {
    match op
    case DoExpress(_, _, _, _, _, _, _) => ExpressSays(cfg, d, w, op);
    case DoAdmit(session, key, actor) => AdmitSays(cfg, w.loop, session, key, actor);
    case DoImpress(session, key, actor, branch, now) => ImpressSays(cfg, d, w, session, key, actor, branch, now);
    case DoMove(m, session, key, actor) => MoveSays(cfg, w.loop, m, session, key, actor);
    case DoWrap(session, key, actor, branch, now) => WrapSays(cfg, d, w, session, key, actor, branch, now);
    case DoObserve(session, hash, actor) => ObserveSays(cfg, w.loop, session, hash, actor);
  }

  /** The entry was appended by the call of this number, and tells of it. */
  ghost predicate AppendedBy(cfg: Config, d: Objects.Digests, db: Dreamcatcher.Db, ops: seq<Op>, i: nat, j: nat) {
    && j < |ops| && |Run(cfg, d, db, ops[..j]).loop.log| <= i < |Run(cfg, d, db, ops[..j + 1]).loop.log|
    && i < |Run(cfg, d, db, ops).loop.log| && Said(Run(cfg, d, db, ops).loop.log[i], ops[j])
  }

  /** Over every run, each entry of the log is of the known kinds and tells of the call that appended
      it: who called for which session, what for, and how the key moved. */
  lemma {:induction false} LogTellsCalls(cfg: Config, d: Objects.Digests, db: Dreamcatcher.Db, ops: seq<Op>, i: nat) returns (j: nat)
    requires FreshRun(cfg, d, db, ops) && i < |Run(cfg, d, db, ops).loop.log|
    ensures AppendedBy(cfg, d, db, ops, i, j)
    decreases |ops|
  {
    var n: nat := |ops| - 1;
    var front := Run(cfg, d, db, ops[..n]);
    Origins.LastIsFresh(cfg, d, db, ops, ops[..n], ops[n]);
    CallSays(cfg, d, front, ops[n]);
    if i < |front.loop.log| {
      j := LogTellsCalls(cfg, d, db, ops[..n], i);
      AppendedSooner(cfg, d, db, ops, ops[..n], i, j);
    } else {
      j := n;
      assert ops[..j + 1] == ops;
    }
  }

  lemma AppendedSooner(cfg: Config, d: Objects.Digests, db: Dreamcatcher.Db, ops: seq<Op>, front: seq<Op>, i: nat, j: nat)
    requires front <= ops && AppendedBy(cfg, d, db, front, i, j) && Run(cfg, d, db, front).loop.log <= Run(cfg, d, db, ops).loop.log
    ensures AppendedBy(cfg, d, db, ops, i, j)
  {
    assert front[..j] == ops[..j] && front[..j + 1] == ops[..j + 1];
  }

  // ---- goals and touched keys -------------------------------------------------------------------

  /** What an accepted call makes a goal. */
  function GoalBy(cfg: Config, w: World, op: Op): set<string> {
    match op
    case DoExpress(session, key, value, agent, tags, salience, confidence) =>
      if Express(cfg, w.loop, session, key, value, agent, tags, salience, confidence).1.Ok? && "goal" in tags then {key} else {}
    case _ => {}
  }

  /** The key that an accepted call touches: one that it expresses, admits or impresses. */
  function TouchedIn(cfg: Config, d: Objects.Digests, w: World, op: Op): Option<string> {
    match op
    case DoExpress(session, key, value, agent, tags, salience, confidence) =>
      if Express(cfg, w.loop, session, key, value, agent, tags, salience, confidence).1.Ok? then Some(key) else None
    case DoAdmit(session, key, actor) => if Admit(cfg, w.loop, session, key, actor).1 == Ok(Admitted) then Some(key) else None
    case DoImpress(session, key, actor, branch, now) =>
      if Impress(cfg, d, w.loop, w.db, session, key, actor, branch, now).2.Ok? then Some(key) else None
    case _ => None
  }

  /** The goals and the touched keys after a call. */
  ghost predicate Marks(cfg: Config, d: Objects.Digests, w: World, op: Op, next: Loop, s: string) {
    var key, keys := TouchedIn(cfg, d, w, op), TouchedBy(w.loop, s);
    && next.goals == w.loop.goals + GoalBy(cfg, w, op)
    && TouchedBy(next, s) == if key.Some? && s == op.session && key.value !in keys then keys + [key.value] else keys
  }

  lemma ExpressMarks(cfg: Config, d: Objects.Digests, w: World, op: Op, s: string)
    requires op.DoExpress?
    ensures Marks(cfg, d, w, op, Step(cfg, d, w, op).loop, s)
  {
  }

  lemma AdmitMarks(cfg: Config, d: Objects.Digests, w: World, session: string, key: string, actor: string, s: string)
    ensures Marks(cfg, d, w, DoAdmit(session, key, actor), Admit(cfg, w.loop, session, key, actor).0, s)
  {
    var st := w.loop;
    if Awake(cfg, st, session) == None && Lookup(st.phase, key) == Some(Derivation) && !Full(cfg, st, session, TokensOf(st, key)) {
      var held := Touch(st.(working := st.working[session := PutItem(WorkingOf(st, session), Item(key, TokensOf(st, key)))]), session, key);
      TransitionOutcome(cfg, held, key, Attention, "admit", actor, session, false);
    }
  }

  lemma ImpressShape(cfg: Config, d: Objects.Digests, w: World, session: string, key: string, actor: string, branch: string, now: string)
    ensures var (next, _, r) := Impress(cfg, d, w.loop, w.db, session, key, actor, branch, now);
            if r.Err? then next == w.loop
            else
              var freed := Touch(Release(w.loop, session, key), session, key);
              next.goals == w.loop.goals && next.touched == freed.touched
              && next.working == (if Lookup(w.loop.phase, key) == Some(Attention) then Release(freed, session, key) else freed).working
  {
    var st := w.loop;
    if Awake(cfg, st, session) == None && Lookup(st.phase, key) == Some(Attention) {
      TransitionOutcome(cfg, Touch(Release(st, session, key), session, key), key, Integration, "impress", actor, session, false);
    }
  }

  lemma ImpressMarks(cfg: Config, d: Objects.Digests, w: World, session: string, key: string, actor: string, branch: string, now: string, s: string)
    ensures Marks(cfg, d, w, DoImpress(session, key, actor, branch, now), Impress(cfg, d, w.loop, w.db, session, key, actor, branch, now).0, s)
  {
    ImpressShape(cfg, d, w, session, key, actor, branch, now);
  }

  lemma MoveMarks(cfg: Config, d: Objects.Digests, w: World, m: Move, session: string, key: string, actor: string, s: string)
    ensures Marks(cfg, d, w, DoMove(m, session, key, actor), MoveKey(cfg, w.loop, m, session, key, actor).0, s)
  {
    var freed := if m.DisintegrateMove? then Release(w.loop, session, key) else w.loop;
    TransitionOutcome(cfg, freed, key, Target(m), ReasonOf(m), actor, session, false);
  }

  lemma ObserveMarks(cfg: Config, d: Objects.Digests, w: World, session: string, hash: string, actor: string, s: string)
    requires Inv(cfg, w.loop)
    ensures Marks(cfg, d, w, DoObserve(session, hash, actor), ObserveAction(cfg, w.loop, session, hash, actor).0, s)
  {
    if !cfg.blank(session) {
      if Caused(cfg, w.loop, session, hash) == None {
        ObserveQuietly(cfg, w.loop, session, hash, actor);
      } else {
        ObserveRecovers(cfg, w.loop, session, hash, actor);
      }
    }
  }

  lemma WrapMarks(cfg: Config, d: Objects.Digests, w: World, session: string, key: string, actor: string, branch: string, now: string, s: string)
    ensures Marks(cfg, d, w, DoWrap(session, key, actor, branch, now), Wrap(cfg, d, w.loop, w.db, session, key, actor, branch, now).0, s)
  {
    WrapEffect(cfg, d, w.loop, w.db, session, key, actor, branch, now);
  }

  lemma CallMarks(cfg: Config, d: Objects.Digests, w: World, op: Op, s: string)
    requires Inv(cfg, w.loop)
    ensures Marks(cfg, d, w, op, Step(cfg, d, w, op).loop, s)
  {
    match op
    case DoExpress(_, _, _, _, _, _, _) => ExpressMarks(cfg, d, w, op, s);
    case DoAdmit(session, key, actor) => AdmitMarks(cfg, d, w, session, key, actor, s);
    case DoImpress(session, key, actor, branch, now) => ImpressMarks(cfg, d, w, session, key, actor, branch, now, s);
    case DoMove(m, session, key, actor) => MoveMarks(cfg, d, w, m, session, key, actor, s);
    case DoWrap(session, key, actor, branch, now) => WrapMarks(cfg, d, w, session, key, actor, branch, now, s);
    case DoObserve(session, hash, actor) => ObserveMarks(cfg, d, w, session, hash, actor, s);
  }

  /** The keys that a run expressed under the tag of a goal. */
  function GoalsOf(cfg: Config, d: Objects.Digests, db: Dreamcatcher.Db, ops: seq<Op>): set<string> {
    if ops == [] then {} else GoalsOf(cfg, d, db, ops[..|ops| - 1]) + GoalBy(cfg, Run(cfg, d, db, ops[..|ops| - 1]), ops[|ops| - 1])
  }

  /** The keys that a session expressed, admitted or impressed in a run, by their first time. */
  function TouchesOf(cfg: Config, d: Objects.Digests, db: Dreamcatcher.Db, ops: seq<Op>, s: string): seq<string> {
    if ops == [] then []
    else
      var front, key := TouchesOf(cfg, d, db, ops[..|ops| - 1], s), TouchedIn(cfg, d, Run(cfg, d, db, ops[..|ops| - 1]), ops[|ops| - 1]);
      if key.Some? && ops[|ops| - 1].session == s && key.value !in front then front + [key.value] else front
  }

  ghost predicate MarkedBy(cfg: Config, d: Objects.Digests, db: Dreamcatcher.Db, ops: seq<Op>, st: Loop, s: string) {
    st.goals == GoalsOf(cfg, d, db, ops) && TouchedBy(st, s) == TouchesOf(cfg, d, db, ops, s)
  }

  /** Over every run: a key is a goal exactly if it was expressed as one, and a session has touched
      exactly the keys that it expressed, admitted or impressed, each once, in the order of the first
      time. Recoveries, moves and wraparounds touch nothing and make no goal. */
  lemma {:induction false} RunMarks(cfg: Config, d: Objects.Digests, db: Dreamcatcher.Db, ops: seq<Op>, s: string)
    requires FreshRun(cfg, d, db, ops)
    ensures MarkedBy(cfg, d, db, ops, Run(cfg, d, db, ops).loop, s)
  {
    if ops != [] {
      var front := ops[..|ops| - 1];
      Origins.LastIsFresh(cfg, d, db, ops, front, ops[|ops| - 1]);
      RunMarks(cfg, d, db, front, s);
      OneMoreMark(cfg, d, db, ops, Run(cfg, d, db, front), s);
    }
  }

  lemma OneMoreMark(cfg: Config, d: Objects.Digests, db: Dreamcatcher.Db, ops: seq<Op>, w: World, s: string)
    requires ops != [] && Inv(cfg, w.loop) && w == Run(cfg, d, db, ops[..|ops| - 1]) && MarkedBy(cfg, d, db, ops[..|ops| - 1], w.loop, s)
    ensures MarkedBy(cfg, d, db, ops, Run(cfg, d, db, ops).loop, s)
  {
    CallMarks(cfg, d, w, ops[|ops| - 1], s);
  }

  // ---- measures -----------------------------------------------------------------------------------

  /** One token for every four bytes begun, and at least one. */
  ghost predicate Measures(tokens: nat, bytes: nat) {
    tokens >= 1 && 4 * tokens >= bytes && (tokens > 1 ==> 4 * (tokens - 1) < bytes)
  }

  /** Payloads are measured, and what a session holds weighs what its payload does. */
  ghost predicate Measured(cfg: Config, st: Loop) {
    && (forall k :: k in st.payload ==> Measures(st.payload[k].tokens, cfg.bytes(st.payload[k].value)))
    && (forall s, item :: s in st.working && item in st.working[s] ==> Weighed(st, item))
  }

  ghost predicate Weighed(st: Loop, item: Item) { item.key in st.payload && item.tokens == st.payload[item.key].tokens }

  /** No working set has an item that it did not have. */
  ghost predicate NoGain(st: Loop, next: Loop) {
    forall s, x :: s in next.working && x in next.working[s] ==> s in st.working && x in st.working[s]
  }

  lemma ReleaseGainsNone(st: Loop, session: string, key: string)
    ensures NoGain(st, Release(st, session, key))
  {
    if session in st.working { DropItemFacts(st.working[session], key); }
  }

  lemma TransitionGainsNone(cfg: Config, st: Loop, key: string, to: Phase, reason: string, actor: string, session: string, allowDirect: bool)
    ensures var r := Transition(cfg, st, key, to, reason, actor, session, allowDirect); r.Ok? ==> NoGain(st, r.value) && r.value.payload == st.payload
  {
    TransitionOutcome(cfg, st, key, to, reason, actor, session, allowDirect);
    ReleaseGainsNone(st, session, key);
  }

  lemma MoveGainsNone(cfg: Config, st: Loop, m: Move, session: string, key: string, actor: string)
    ensures NoGain(st, MoveKey(cfg, st, m, session, key, actor).0)
  {
    var freed := if m.DisintegrateMove? then Release(st, session, key) else st;
    ReleaseGainsNone(st, session, key);
    TransitionGainsNone(cfg, freed, key, Target(m), ReasonOf(m), actor, session, false);
  }

  lemma ImpressGainsNone(cfg: Config, d: Objects.Digests, w: World, session: string, key: string, actor: string, branch: string, now: string)
    ensures NoGain(w.loop, Impress(cfg, d, w.loop, w.db, session, key, actor, branch, now).0)
  {
    ImpressShape(cfg, d, w, session, key, actor, branch, now);
    var freed := Touch(Release(w.loop, session, key), session, key);
    ReleaseGainsNone(w.loop, session, key);
    ReleaseGainsNone(freed, session, key);
  }

  lemma ObserveGainsNone(cfg: Config, st: Loop, session: string, hash: string, actor: string)
    requires Inv(cfg, st)
    ensures NoGain(st, ObserveAction(cfg, st, session, hash, actor).0)
  {
    if !cfg.blank(session) {
      if Caused(cfg, st, session, hash) == None {
        ObserveQuietly(cfg, st, session, hash, actor);
      } else {
        ObserveRecovers(cfg, st, session, hash, actor);
        WorkingSets.CountedShrinks(cfg, st, session, hash, actor);
        ShrunkGainsNone(st, ObserveAction(cfg, st, session, hash, actor).0, session, Gone(st.phase, Caused(cfg, st, session, hash).value, RecoveryKeys(st, session)));
      }
    }
  }

  lemma ShrunkGainsNone(st: Loop, next: Loop, session: string, gone: set<string>)
    requires next.working.Keys == st.working.Keys && forall s :: s in st.working && s != session ==> next.working[s] == st.working[s]
    requires Shrunk(WorkingOf(st, session), WorkingOf(next, session), gone)
    ensures NoGain(st, next)
  {
  }

  /** Only an admission gives a session an item: the key's, weighing what its payload does. */
  ghost predicate Holds(w: World, op: Op, next: Loop) {
    forall s, x :: s in next.working && x in next.working[s] ==>
      || (s in w.loop.working && x in w.loop.working[s])
      || (op.DoAdmit? && s == op.session && x == Item(op.key, TokensOf(w.loop, op.key)))
  }

  lemma CallHolds(cfg: Config, d: Objects.Digests, w: World, op: Op)
    requires Inv(cfg, w.loop)
    ensures Holds(w, op, Step(cfg, d, w, op).loop)
  {
    match op
    case DoExpress(_, _, _, _, _, _, _) =>
    case DoAdmit(session, key, actor) => AdmitHoldsItem(cfg, w, session, key, actor);
    case DoImpress(session, key, actor, branch, now) => ImpressGainsNone(cfg, d, w, session, key, actor, branch, now);
    case DoMove(m, session, key, actor) => MoveGainsNone(cfg, w.loop, m, session, key, actor);
    case DoWrap(session, key, actor, branch, now) => WrapEffect(cfg, d, w.loop, w.db, session, key, actor, branch, now);
    case DoObserve(session, hash, actor) => ObserveGainsNone(cfg, w.loop, session, hash, actor);
  }

  lemma AdmitHoldsItem(cfg: Config, w: World, session: string, key: string, actor: string)
    ensures Holds(w, DoAdmit(session, key, actor), Admit(cfg, w.loop, session, key, actor).0)
  {
    var st := w.loop;
    if Awake(cfg, st, session) == None && Lookup(st.phase, key) == Some(Derivation) && !Full(cfg, st, session, TokensOf(st, key)) {
      var item := Item(key, TokensOf(st, key));
      var held := Touch(st.(working := st.working[session := PutItem(WorkingOf(st, session), item)]), session, key);
      PutItemFacts(WorkingOf(st, session), item);
      TransitionGainsNone(cfg, held, key, Attention, "admit", actor, session, false);
    }
  }

  /** Payloads that a call adds are measured. */
  lemma CallMeasures(cfg: Config, d: Objects.Digests, w: World, op: Op)
    requires Inv(cfg, w.loop) && FreshWrap(w.loop, op)
    ensures var p := Step(cfg, d, w, op).loop.payload;
            forall k :: k in p && k !in w.loop.payload ==> Measures(p[k].tokens, cfg.bytes(p[k].value))
  {
    match op
    case DoExpress(_, _, _, _, _, _, _) =>
    case DoAdmit(session, key, actor) => AdmitPayload(cfg, w.loop, session, key, actor);
    case DoImpress(session, key, actor, branch, now) => ImpressCases(cfg, d, w, session, key, actor, branch, now);
    case DoMove(m, session, key, actor) => MovePayload(cfg, w.loop, m, session, key, actor);
    case DoWrap(session, key, actor, branch, now) => WrapMeasures(cfg, d, w, session, key, actor, branch, now);
    case DoObserve(session, hash, actor) => ObservePayload(cfg, w.loop, session, hash, actor);
  }

  lemma WrapMeasures(cfg: Config, d: Objects.Digests, w: World, session: string, key: string, actor: string, branch: string, now: string)
    ensures var p := Wrap(cfg, d, w.loop, w.db, session, key, actor, branch, now).0.payload;
            forall k :: k in p && k !in w.loop.payload ==> Measures(p[k].tokens, cfg.bytes(p[k].value))
  {
    WrapEffect(cfg, d, w.loop, w.db, session, key, actor, branch, now);
    if Wrap(cfg, d, w.loop, w.db, session, key, actor, branch, now).2.Ok? {
      var parent := Origins.WrapShape(cfg, d, w, session, key, actor, branch, now);
    }
  }

  lemma StepIsMeasured(cfg: Config, d: Objects.Digests, w: World, op: Op)
    requires Inv(cfg, w.loop) && FreshWrap(w.loop, op) && Measured(cfg, w.loop)
    ensures Measured(cfg, Step(cfg, d, w, op).loop)
  {
    var next := Step(cfg, d, w, op).loop;
    CallHolds(cfg, d, w, op);
    CallMeasures(cfg, d, w, op);
    PayloadsStay(cfg, d, w, op);
    forall s, x | s in next.working && x in next.working[s] ensures Weighed(next, x) {
      if s in w.loop.working && x in w.loop.working[s] { assert Weighed(w.loop, x); }
      else { AdmittedIsKnown(cfg, d, w, op); }
    }
  }

  /** A call that gives a session an item is accepted, and its key has a payload. */
  lemma AdmittedIsKnown(cfg: Config, d: Objects.Digests, w: World, op: Op)
    requires Inv(cfg, w.loop) && op.DoAdmit?
    ensures op.key in w.loop.payload || NoGain(w.loop, Step(cfg, d, w, op).loop)
  {
    assert w.loop.payload.Keys == w.loop.phase.Keys;
  }

  /** Over every run: payloads and items are measured by the bytes of the value. */
  lemma {:induction false} RunIsMeasured(cfg: Config, d: Objects.Digests, db: Dreamcatcher.Db, ops: seq<Op>)
    requires FreshRun(cfg, d, db, ops)
    ensures Measured(cfg, Run(cfg, d, db, ops).loop)
  {
    if ops != [] {
      var front := ops[..|ops| - 1];
      Origins.LastIsFresh(cfg, d, db, ops, front, ops[|ops| - 1]);
      RunIsMeasured(cfg, d, db, front);
      StepIsMeasured(cfg, d, Run(cfg, d, db, front), ops[|ops| - 1]);
    }
  }
}
