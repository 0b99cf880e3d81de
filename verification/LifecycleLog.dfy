/** The append-only transition log: folding it reproduces the phase map, every entry starts
    where its key is, and every edge is a legal one. */
module LifecycleLog {
  import opened Common
  import opened Decimal
  import opened Detector
  import opened FeedbackLoop
  import Objects
  import Dreamcatcher

  type Phases = map<string, Phase>

  function ReplayEntry(m: Phases, e: TransitionEvent): Phases {
    if e.from == Some(e.to) then m else m[e.key := e.to]
  }

  function Replay(log: seq<TransitionEvent>): Phases {
    if log == [] then map[] else ReplayEntry(Replay(log[..|log| - 1]), log[|log| - 1])
  }

  /** The edges that may ever be logged: an expression into derivation, an allowed edge (though
      the allowed edge back into derivation is never taken), the
      direct edge by which a seizure partitions a derivation, and the wraparound mark. */
  ghost predicate LegalEdge(e: TransitionEvent) {
    match e.from
    case None => e.to == Derivation
    case Some(f) =>
      || (Allowed(f, e.to) && e.to != Derivation)
      || (f == Derivation && e.to == Partition && e.reason == "seizure-fridge")
      || (f == Disintegration && e.to == Disintegration && e.direction == Wraparound)
  }

  /** An entry that continues a log. */
  ghost predicate Continues(log: seq<TransitionEvent>, e: TransitionEvent) {
    && e.number == |log| + 1
    && e.from == Lookup(Replay(log), e.key)
    && LegalEdge(e)
  }

  ghost predicate Sound(log: seq<TransitionEvent>) {
    forall i :: 0 <= i < |log| ==> Continues(log[..i], log[i])
  }

  /** The log reproduces the phases. */
  ghost predicate Faithful(st: Loop) {
    Sound(st.log) && Replay(st.log) == st.phase
  }

  lemma AppendIsFaithful(st: Loop, key: string, from: Option<Phase>, to: Phase, direction: Direction, reason: string,
                         actor: string, session: string, derivedKey: Option<string>)
    requires Faithful(st) && from == Lookup(st.phase, key)
    requires LegalEdge(TransitionEvent(|st.log| + 1, key, from, to, direction, reason, actor, session, derivedKey))
    ensures Faithful(Append(st, key, from, to, direction, reason, actor, session, derivedKey))
  {
    var next := Append(st, key, from, to, direction, reason, actor, session, derivedKey);
    assert next.log[..|st.log|] == st.log;
    forall i | 0 <= i < |next.log| ensures Continues(next.log[..i], next.log[i]) {
      if i < |st.log| {
        assert next.log[..i] == st.log[..i];
        assert Continues(st.log[..i], st.log[i]);
      }
    }
  }

  /** The part of the loop that a step changes only by appending to the log. */
  ghost predicate Extends(before: Loop, after: Loop, session: string) {
    && |before.log| <= |after.log|
    && after.log[..|before.log|] == before.log
    && forall i :: |before.log| <= i < |after.log| ==> after.log[i].session == session
  }

  lemma ExtendsTransitive(a: Loop, b: Loop, c: Loop, session: string)
    requires Extends(a, b, session) && Extends(b, c, session)
    ensures Extends(a, c, session)
  {
    assert c.log[..|a.log|] == b.log[..|a.log|];
  }

  ghost predicate SameButWorking(before: Loop, after: Loop, session: string) {
    && after.payload == before.payload && after.touched == before.touched && after.stutter == before.stutter
    && after.seized == before.seized && after.goals == before.goals
    && after.working.Keys == before.working.Keys
    && forall s :: s in before.working && s != session ==> after.working[s] == before.working[s]
  }

  /** A step of one session that moved the given keys to new phases and did nothing else but
      log it and shrink the session's own working set. */
  ghost predicate Moved(before: Loop, r: Result<Loop, LoopError>, session: string, phases: Phases) {
    && r.Ok?
    && Faithful(r.value)
    && Extends(before, r.value, session)
    && SameButWorking(before, r.value, session)
    && r.value.phase == phases
  }

  lemma MovedTwice(a: Loop, b: Loop, r: Result<Loop, LoopError>, session: string, middle: Phases, phases: Phases)
    requires Moved(a, Ok(b), session, middle) && Moved(b, r, session, phases)
    ensures Moved(a, r, session, phases)
  {
    ExtendsTransitive(a, b, r.value, session);
  }

  /** The edges that a transition takes. */
  ghost predicate Passable(from: Phase, to: Phase, allowDirect: bool) {
    && from != to
    && !(from == Containment && to == Attention)
    && (Allowed(from, to) || (allowDirect && DirectionOf(from, to) == Direct))
  }

  lemma ReleaseIsQuiet(st: Loop, session: string, key: string)
    requires Faithful(st)
    ensures Moved(st, Ok(Release(st, session, key)), session, st.phase)
  {
    var freed := Release(st, session, key);
    assert freed.log == st.log && freed.phase == st.phase;
  }

  /** When a transition is taken, and that it only frees the working-set item and appends. */
  lemma TransitionOutcome(cfg: Config, st: Loop, key: string, to: Phase, reason: string, actor: string, session: string, allowDirect: bool)
    ensures var r := Transition(cfg, st, key, to, reason, actor, session, allowDirect);
            && (r.Ok? <==> Awake(cfg, st, session) == None && key in st.phase && Passable(st.phase[key], to, allowDirect))
            && (r.Ok? ==>
                  var freed := if st.phase[key] == Attention then Release(st, session, key) else st;
                  r.value == Append(freed, key, Some(st.phase[key]), to, DirectionOf(st.phase[key], to),
                                    reason, actor, session, None))
  {
  }

  /** What an impression may do to the loop: nothing, or one transition after the item was given up. */
  lemma ImpressEffect(cfg: Config, d: Objects.Digests, st: Loop, db: Dreamcatcher.Db, session: string, key: string, actor: string,
                      branch: string, now: string)
    ensures var next := Impress(cfg, d, st, db, session, key, actor, branch, now).0;
            || next == st
            || (Awake(cfg, st, session) == None && Lookup(st.phase, key) == Some(Attention)
                && Transition(cfg, Touch(Release(st, session, key), session, key), key, Integration, "impress", actor, session, false) == Ok(next))
  {
    TransitionOutcome(cfg, Touch(Release(st, session, key), session, key), key, Integration, "impress", actor, session, false);
  }

  lemma AppendMoves(st: Loop, key: string, from: Phase, to: Phase, direction: Direction, reason: string, actor: string, session: string)
    requires Faithful(st) && Lookup(st.phase, key) == Some(from) && from != to
    requires to != Derivation
    requires Allowed(from, to) || (from == Derivation && to == Partition && reason == "seizure-fridge")
    ensures Moved(st, Ok(Append(st, key, Some(from), to, direction, reason, actor, session, None)), session, st.phase[key := to])
  {
    AppendIsFaithful(st, key, Some(from), to, direction, reason, actor, session, None);
  }

  lemma FreedAppendMoves(st: Loop, key: string, to: Phase, direction: Direction, reason: string, actor: string, session: string)
    requires Faithful(st) && Lookup(st.phase, key) == Some(Attention) && to != Derivation && Allowed(Attention, to)
    ensures Moved(st, Ok(Append(Release(st, session, key), key, Some(Attention), to, direction, reason, actor, session, None)), session,
                  st.phase[key := to])
  {
    var freed := Release(st, session, key);
    ReleaseIsQuiet(st, session, key);
    AppendMoves(freed, key, Attention, to, direction, reason, actor, session);
    MovedTwice(st, freed, Ok(Append(freed, key, Some(Attention), to, direction, reason, actor, session, None)), session,
               st.phase, st.phase[key := to]);
  }

  lemma DirectEdges(from: Phase, to: Phase)
    requires DirectionOf(from, to) == Direct && to == Partition && from != Partition
    ensures from in {Derivation, Attention, Disintegration}
  {
  }

  /** What an accepted transition does. */
  lemma TransitionFacts(cfg: Config, st: Loop, key: string, to: Phase, reason: string, actor: string, session: string, allowDirect: bool)
    requires Faithful(st) && to != Derivation
    requires Transition(cfg, st, key, to, reason, actor, session, allowDirect).Ok?
    requires allowDirect && key in st.phase ==>
      to == Partition && st.phase[key] != Disintegration && (st.phase[key] == Derivation ==> reason == "seizure-fridge")
    ensures key in st.phase && st.phase[key] != Disintegration
    ensures Moved(st, Transition(cfg, st, key, to, reason, actor, session, allowDirect), session, st.phase[key := to])
  {
    TransitionOutcome(cfg, st, key, to, reason, actor, session, allowDirect);
    var from := st.phase[key];
    if !Allowed(from, to) { DirectEdges(from, to); }
    if from == Attention {
      FreedAppendMoves(st, key, to, DirectionOf(from, to), reason, actor, session);
    } else {
      AppendMoves(st, key, from, to, DirectionOf(from, to), reason, actor, session);
    }
  }

  // ---- recovery -----------------------------------------------------------------------

  /** Where a recovery leaves a key. */
  function RecoveredPhase(step: Recovery, p: Phase): Phase {
    match step
    case Nap => p
    case Fridge => if p == Integration || p == Attention then Partition else p
    case Freezer => if p == Partition || p == Integration || p == Attention then Containment else p
    case Seizure => if p == Disintegration then p else Containment
  }

  /** Partition, if needed, and then containment, the way a freezer or seizure does it. */
  lemma ContainFacts(cfg: Config, st: Loop, session: string, first: string, second: string, actor: string, key: string)
    requires Faithful(st) && key in st.phase && Awake(cfg, st, session) == None
    requires st.phase[key] in {Partition, Attention, Integration} || (st.phase[key] == Derivation && first == "seizure-fridge")
    ensures Moved(st, Contain(cfg, st, session, first, second, actor, key), session, st.phase[key := Containment])
  {
    if st.phase[key] == Partition {
      EdgeFacts(cfg, st, session, second, actor, key);
    } else {
      PartAnyFacts(cfg, st, session, first, actor, key);
      ContainParted(cfg, st, Transition(cfg, st, key, Partition, first, actor, session, true).value, session, second, actor, key);
    }
  }

  lemma EdgeFacts(cfg: Config, st: Loop, session: string, reason: string, actor: string, key: string)
    requires Faithful(st) && Lookup(st.phase, key) == Some(Partition) && Awake(cfg, st, session) == None
    ensures Moved(st, Transition(cfg, st, key, Containment, reason, actor, session, false), session, st.phase[key := Containment])
  {
    TransitionOutcome(cfg, st, key, Containment, reason, actor, session, false);
    TransitionFacts(cfg, st, key, Containment, reason, actor, session, false);
  }

  lemma PartAnyFacts(cfg: Config, st: Loop, session: string, reason: string, actor: string, key: string)
    requires Faithful(st) && key in st.phase && Awake(cfg, st, session) == None
    requires st.phase[key] in {Attention, Integration} || (st.phase[key] == Derivation && reason == "seizure-fridge")
    ensures Moved(st, Transition(cfg, st, key, Partition, reason, actor, session, true), session, st.phase[key := Partition])
  {
    TransitionOutcome(cfg, st, key, Partition, reason, actor, session, true);
    TransitionFacts(cfg, st, key, Partition, reason, actor, session, true);
  }

  lemma ContainParted(cfg: Config, st: Loop, parted: Loop, session: string, second: string, actor: string, key: string)
    requires key in st.phase && Awake(cfg, st, session) == None
    requires Moved(st, Ok(parted), session, st.phase[key := Partition])
    ensures Moved(st, Transition(cfg, parted, key, Containment, second, actor, session, false), session, st.phase[key := Containment])
  {
    EdgeFacts(cfg, parted, session, second, actor, key);
    assert st.phase[key := Partition][key := Containment] == st.phase[key := Containment];
    MovedTwice(st, parted, Transition(cfg, parted, key, Containment, second, actor, session, false), session,
               st.phase[key := Partition], st.phase[key := Containment]);
  }

  lemma PartFacts(cfg: Config, st: Loop, session: string, actor: string, key: string)
    requires Faithful(st) && key in st.phase && Awake(cfg, st, session) == None
    requires st.phase[key] in {Attention, Integration}
    ensures Moved(st, Transition(cfg, st, key, Partition, "fridge", actor, session, false), session, st.phase[key := Partition])
  {
    TransitionOutcome(cfg, st, key, Partition, "fridge", actor, session, false);
    TransitionFacts(cfg, st, key, Partition, "fridge", actor, session, false);
  }

  lemma StayFacts(st: Loop, session: string, key: string)
    requires Faithful(st) && key in st.phase
    ensures Moved(st, Ok(st), session, st.phase[key := st.phase[key]])
  {
    assert st.phase[key := st.phase[key]] == st.phase;
  }

  /** A shelved key whose item was given up. */
  lemma FreedPartFacts(cfg: Config, st: Loop, session: string, actor: string, key: string)
    requires Faithful(st) && key in st.phase && Awake(cfg, st, session) == None && st.phase[key] in {Attention, Integration}
    ensures Moved(st, Transition(cfg, Release(st, session, key), key, Partition, "fridge", actor, session, false), session,
                  st.phase[key := Partition])
  {
    var freed := Release(st, session, key);
    ReleaseIsQuiet(st, session, key);
    PartFacts(cfg, freed, session, actor, key);
    MovedTwice(st, freed, Transition(cfg, freed, key, Partition, "fridge", actor, session, false), session,
               st.phase, st.phase[key := Partition]);
  }

  lemma FridgeFacts(cfg: Config, st: Loop, session: string, actor: string, key: string)
    requires Faithful(st) && key in st.phase && Awake(cfg, st, session) == None
    ensures Moved(st, RecoverKey(cfg, st, session, Fridge, actor, key), session,
                  st.phase[key := RecoveredPhase(Fridge, st.phase[key])])
  {
    RecoverUnfolds(cfg, st, session, actor, key);
    if st.phase[key] in {Integration, Attention} {
      FreedPartFacts(cfg, st, session, actor, key);
    } else {
      StayFacts(st, session, key);
    }
  }

  /** What the steps of a recovery do to one key. */
  lemma RecoverUnfolds(cfg: Config, st: Loop, session: string, actor: string, key: string)
    requires key in st.phase
    ensures RecoverKey(cfg, st, session, Fridge, actor, key)
            == if st.phase[key] in {Integration, Attention}
               then Transition(cfg, Release(st, session, key), key, Partition, "fridge", actor, session, false) else Ok(st)
    ensures RecoverKey(cfg, st, session, Freezer, actor, key)
            == if st.phase[key] in {Partition, Integration, Attention}
               then Contain(cfg, Release(st, session, key), session, "fridge", "freezer", actor, key) else Ok(st)
    ensures RecoverKey(cfg, st, session, Seizure, actor, key)
            == if st.phase[key] in {Containment, Disintegration} then Ok(st)
               else Contain(cfg, Release(st, session, key), session, "seizure-fridge", "seizure", actor, key)
  {
  }

  /** Containment of a key whose item was given up. */
  lemma FreedFacts(cfg: Config, st: Loop, session: string, first: string, second: string, actor: string, key: string)
    requires Faithful(st) && key in st.phase && Awake(cfg, st, session) == None
    requires st.phase[key] in {Partition, Attention, Integration} || (st.phase[key] == Derivation && first == "seizure-fridge")
    ensures Moved(st, Contain(cfg, Release(st, session, key), session, first, second, actor, key), session, st.phase[key := Containment])
  {
    var freed := Release(st, session, key);
    ReleaseIsQuiet(st, session, key);
    ContainFacts(cfg, freed, session, first, second, actor, key);
    MovedTwice(st, freed, Contain(cfg, freed, session, first, second, actor, key), session, st.phase, st.phase[key := Containment]);
  }

  lemma FreezerFacts(cfg: Config, st: Loop, session: string, actor: string, key: string)
    requires Faithful(st) && key in st.phase && Awake(cfg, st, session) == None
    ensures Moved(st, RecoverKey(cfg, st, session, Freezer, actor, key), session,
                  st.phase[key := RecoveredPhase(Freezer, st.phase[key])])
  {
    RecoverUnfolds(cfg, st, session, actor, key);
    if st.phase[key] in {Partition, Integration, Attention} {
      FreedFacts(cfg, st, session, "fridge", "freezer", actor, key);
    } else {
      StayFacts(st, session, key);
    }
  }

  lemma SeizureFacts(cfg: Config, st: Loop, session: string, actor: string, key: string)
    requires Faithful(st) && key in st.phase && Awake(cfg, st, session) == None
    ensures Moved(st, RecoverKey(cfg, st, session, Seizure, actor, key), session,
                  st.phase[key := RecoveredPhase(Seizure, st.phase[key])])
  {
    RecoverUnfolds(cfg, st, session, actor, key);
    if st.phase[key] in {Containment, Disintegration} {
      StayFacts(st, session, key);
    } else {
      FreedFacts(cfg, st, session, "seizure-fridge", "seizure", actor, key);
    }
  }

  /** One turn of a recovery loop is never refused, moves the key as the step says, and
      touches nothing else but the session's own working set and the log. */
  lemma RecoverKeyFacts(cfg: Config, st: Loop, session: string, step: Recovery, actor: string, key: string)
    requires Faithful(st) && key in st.phase && Awake(cfg, st, session) == None
    ensures Moved(st, RecoverKey(cfg, st, session, step, actor, key), session,
                  st.phase[key := RecoveredPhase(step, st.phase[key])])
  {
    match step
    case Nap => StayFacts(st, session, key);
    case Fridge => FridgeFacts(cfg, st, session, actor, key);
    case Freezer => FreezerFacts(cfg, st, session, actor, key);
    case Seizure => SeizureFacts(cfg, st, session, actor, key);
  }

  ghost function RecoveredPhases(m: Phases, step: Recovery, keys: seq<string>): Phases {
    map k | k in m :: if k in keys then RecoveredPhase(step, m[k]) else m[k]
  }

  lemma RecoverRest(m: Phases, step: Recovery, keys: seq<string>)
    requires keys != [] && keys[0] in m
    ensures RecoveredPhases(m[keys[0] := RecoveredPhase(step, m[keys[0]])], step, keys[1..]) == RecoveredPhases(m, step, keys)
  {
    var m' := m[keys[0] := RecoveredPhase(step, m[keys[0]])];
    forall k | k in m
      ensures RecoveredPhases(m', step, keys[1..])[k] == RecoveredPhases(m, step, keys)[k]
    {
      assert k in keys <==> k == keys[0] || k in keys[1..];
    }
  }

  /** The recovery loop over any list of known keys: never refused, each listed key ends where
      the step puts it, no other key moves. */
  lemma {:induction false} RecoverAllFacts(cfg: Config, st: Loop, session: string, step: Recovery, actor: string, keys: seq<string>)
    requires Faithful(st) && Awake(cfg, st, session) == None
    requires forall k :: k in keys ==> k in st.phase
    ensures Moved(st, RecoverAll(cfg, st, session, step, actor, keys), session, RecoveredPhases(st.phase, step, keys))
    decreases |keys|
  {
    if keys == [] {
      assert RecoveredPhases(st.phase, step, keys) == st.phase;
    } else {
      RecoverKeyFacts(cfg, st, session, step, actor, keys[0]);
      var next := RecoverKey(cfg, st, session, step, actor, keys[0]).value;
      RecoverRest(st.phase, step, keys);
      RecoverAllFacts(cfg, next, session, step, actor, keys[1..]);
      MovedTwice(st, next, RecoverAll(cfg, next, session, step, actor, keys[1..]), session,
                 next.phase, RecoveredPhases(st.phase, step, keys));
    }
  }
}
