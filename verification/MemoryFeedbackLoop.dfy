/** The loop object itself: methods that update its maps and append to its log, each proved to
    do what the functions over loop values say. */
module MemoryFeedbackLoops {
  import opened Common
  import opened Detector
  import opened FeedbackLoop
  import Objects
  import Dreamcatcher
  import DreamcatcherStores
  import Recall
  import Decimal
  import LoopRuns
  import LoopTheorems

  class MemoryFeedbackLoop {
    const cfg: Config
    const store: DreamcatcherStores.DreamcatcherStore
    var phase: map<string, Phase>
    var payload: map<string, Payload>
    var working: map<string, seq<Item>>
    var touched: map<string, seq<string>>
    var stutter: map<string, Stutter>
    var seized: set<string>
    var goals: set<string>
    var log: seq<TransitionEvent>

    constructor (cfg: Config, store: DreamcatcherStores.DreamcatcherStore)
      ensures this.cfg == cfg && this.store == store && State() == EmptyLoop
    {
      this.cfg, this.store := cfg, store;
      phase, payload, working, touched, stutter := map[], map[], map[], map[], map[];
      seized, goals := {}, {};
      log := [];
    }

    ghost function State(): Loop
      reads this
    {
      Loop(phase, payload, working, touched, stutter, seized, goals, log)
    }

    method AssertAwake(session: string) returns (e: Option<LoopError>)
      ensures e == Awake(cfg, State(), session)
    {
      if cfg.blank(session) { return Some(NoSession); }
      if session in seized { return Some(SeizurePause); }
      return None;
    }

    method AppendEvent(key: string, from: Option<Phase>, to: Phase, direction: Direction, reason: string,
                       actor: string, session: string, derivedKey: Option<string>)
      modifies this`log, this`phase
      ensures State() == Append(old(State()), key, from, to, direction, reason, actor, session, derivedKey)
    {
      var event := TransitionEvent(|log| + 1, key, from, to, direction, reason, actor, session, derivedKey);
      if from != Some(to) {
        phase := phase[key := to];
      }
      log := log + [event];
    }

    method ReleaseItem(session: string, key: string)
      modifies this`working
      ensures State() == Release(old(State()), session, key)
    {
      if session in working {
        var kept := Delete(working[session], key);
        working := working[session := kept];
      }
    }

    static method Delete(items: seq<Item>, key: string) returns (kept: seq<Item>)
      ensures kept == DropItem(items, key)
    {
      kept := [];
      for i := 0 to |items|
        invariant kept == DropItem(items[..i], key)
      {
        assert items[..i + 1][..i] == items[..i];
        if items[i].key != key { kept := kept + [items[i]]; }
      }
      assert items[..|items|] == items;
    }

    static method SumTokens(items: seq<Item>) returns (sum: nat)
      ensures sum == Tokens(items)
    {
      sum := 0;
      for i := 0 to |items|
        invariant sum == Tokens(items[..i])
      {
        assert items[..i + 1][..i] == items[..i];
        sum := sum + items[i].tokens;
      }
      assert items[..|items|] == items;
    }

    method TouchKey(session: string, key: string)
      modifies this`touched
      ensures State() == Touch(old(State()), session, key)
    {
      var keys := if session in touched then touched[session] else [];
      if key !in keys { keys := keys + [key]; }
      touched := touched[session := keys];
    }

    method TakeEdge(key: string, to: Phase, reason: string, actor: string, session: string, allowDirect: bool)
      returns (r: Result<(), LoopError>)
      modifies this
      ensures var t := Transition(cfg, old(State()), key, to, reason, actor, session, allowDirect);
              match t
              case Ok(next) => r == Ok(()) && State() == next
              case Err(e) => r == Err(e) && State() == old(State())
    {
      var e := AssertAwake(session);
      if e.Some? { return Err(e.value); }
      if key !in phase { return Err(NotInLifecycle); }
      var from := phase[key];
      var direction := DirectionOf(from, to);
      if from == to { return Err(NoOp); }
      if from == Containment && to == Attention { return Err(AttentionHeld); }
      if !Allowed(from, to) && !(allowDirect && direction == Direct) { return Err(NotAllowed); }
      if from == Attention { ReleaseItem(session, key); }
      AppendEvent(key, Some(from), to, direction, reason, actor, session, None);
      return Ok(());
    }

    method ExpressKey(session: string, key: string, value: string, agent: string, tags: seq<string>,
                      salience: real, confidence: real) returns (r: Result<(), LoopError>)
      modifies this
      ensures (State(), r) == Express(cfg, old(State()), session, key, value, agent, tags, salience, confidence)
    {
      var e := AssertAwake(session);
      if e.Some? { return Err(e.value); }
      if key in phase { return Err(AlreadyInLifecycle); }
      payload := payload[key := Payload(value, agent, tags, salience, confidence, EstimateTokens(cfg, value))];
      if "goal" in tags { goals := goals + {key}; }
      TouchKey(session, key);
      AppendEvent(key, None, Derivation, Forward, "express", agent, session, None);
      return Ok(());
    }

    method AdmitKey(session: string, key: string, actor: string) returns (r: Result<Admission, LoopError>)
      modifies this
      ensures (State(), r) == Admit(cfg, old(State()), session, key, actor)
    {
      var e := AssertAwake(session);
      if e.Some? { return Err(e.value); }
      if Lookup(phase, key) != Some(Derivation) { return Err(WrongPhase); }
      if session !in working { working := working[session := []]; }
      var items := working[session];
      assert working == old(working)[session := items];
      var tokens := if key in payload then payload[key].tokens else 1;
      var used := SumTokens(items);
      if |items| >= cfg.itemLimit || used + tokens > cfg.tokenBudget { return Ok(Napped); }
      working := working[session := PutItem(items, Item(key, tokens))];
      assert working == old(working)[session := PutItem(items, Item(key, tokens))];
      TouchKey(session, key);
      var moved := TakeEdge(key, Attention, "admit", actor, session, false);
      if moved.Err? { return Err(moved.error); }
      return Ok(Admitted);
    }

    method ImpressKey(session: string, key: string, actor: string, branch: string, now: string) returns (r: Result<(), LoopError>)
      modifies this, store
      ensures (State(), store.State(), r)
              == Impress(cfg, store.d, old(State()), old(store.State()), session, key, actor, branch, now)
    {
      var e := AssertAwake(session);
      if e.Some? { return Err(e.value); }
      if Lookup(phase, key) != Some(Attention) { return Err(WrongPhase); }
      if key !in payload { return Err(NoPayload); }
      var remembered := store.Remember(ImpressInput(payload[key], key, actor, branch), now);
      if remembered.Err? { return Err(StoreFailed(remembered.error)); }
      ReleaseItem(session, key);
      TouchKey(session, key);
      r := TakeEdge(key, Integration, "impress", actor, session, false);
    }

    method FridgeKey(session: string, key: string, actor: string) returns (r: Result<(), LoopError>)
      modifies this
      ensures (State(), r) == MoveKey(cfg, old(State()), FridgeMove, session, key, actor)
    {
      r := TakeEdge(key, Partition, "fridge", actor, session, false);
    }

    method FreezerKey(session: string, key: string, actor: string) returns (r: Result<(), LoopError>)
      modifies this
      ensures (State(), r) == MoveKey(cfg, old(State()), FreezerMove, session, key, actor)
    {
      r := TakeEdge(key, Containment, "freezer", actor, session, false);
    }

    method ThawKey(session: string, key: string, actor: string) returns (r: Result<(), LoopError>)
      modifies this
      ensures (State(), r) == MoveKey(cfg, old(State()), ThawMove, session, key, actor)
    {
      var e := AssertAwake(session);
      if e.Some? { return Err(e.value); }
      r := TakeEdge(key, Partition, "release", actor, session, false);
    }

    method ReintegrateKey(session: string, key: string, actor: string) returns (r: Result<(), LoopError>)
      modifies this
      ensures (State(), r) == MoveKey(cfg, old(State()), ReintegrateMove, session, key, actor)
    {
      var e := AssertAwake(session);
      if e.Some? { return Err(e.value); }
      r := TakeEdge(key, Integration, "reintegrate", actor, session, false);
    }

    method DisintegrateKey(session: string, key: string, actor: string) returns (r: Result<(), LoopError>)
      modifies this
      ensures (State(), r) == MoveKey(cfg, old(State()), DisintegrateMove, session, key, actor)
    {
      var e := AssertAwake(session);
      if e.Some? { return Err(e.value); }
      ReleaseItem(session, key);
      r := TakeEdge(key, Disintegration, "disintegrate", actor, session, false);
    }

    method WrapKey(session: string, key: string, actor: string, branch: string, now: string) returns (r: Result<string, LoopError>)
      modifies this, store
      ensures (State(), store.State(), r)
              == Wrap(cfg, store.d, old(State()), old(store.State()), session, key, actor, branch, now)
    {
      var e := AssertAwake(session);
      if e.Some? { return Err(e.value); }
      if Lookup(phase, key) != Some(Disintegration) { return Err(WrongPhase); }
      var parent := store.Get(branch, key);
      if parent.Err? { return Err(StoreFailed(parent.error)); }
      if parent.value.None? || !parent.value.value.Memory? { return Err(NoParent); }
      var derived := key + "::derived:" + Decimal.Dec(|log| + 1);
      var input := DerivedInput(cfg, derived, key, parent.value.value.record, actor, branch);
      var remembered := store.Remember(input, now);
      if remembered.Err? { return Err(StoreFailed(remembered.error)); }
      payload := payload[derived := Payload(input.value, actor, input.tags, 1.0, 1.0, EstimateTokens(cfg, input.value))];
      AppendEvent(key, Some(Disintegration), Disintegration, Wraparound, "wraparound-emit", actor, session, Some(derived));
      AppendEvent(derived, None, Derivation, Wraparound, "wraparound-derived", actor, session, Some(derived));
      return Ok(derived);
    }

    method ContainKey(session: string, first: string, second: string, actor: string, key: string) returns (r: Result<(), LoopError>)
      modifies this
      ensures var t := Contain(cfg, old(State()), session, first, second, actor, key);
              (r.Ok? <==> t.Ok?) && (t.Ok? ==> State() == t.value) && (t.Err? ==> r == Err(t.error))
    {
      if Lookup(phase, key) != Some(Partition) {
        r := TakeEdge(key, Partition, first, actor, session, true);
        if r.Err? { return; }
      }
      r := TakeEdge(key, Containment, second, actor, session, false);
    }

    /** The recovery loop over the keys of a session. */
    method ApplySteps(session: string, step: Recovery, actor: string, keys: seq<string>) returns (r: Result<(), LoopError>)
      modifies this
      ensures var t := RecoverAll(cfg, old(State()), session, step, actor, keys);
              (r.Ok? <==> t.Ok?) && (t.Ok? ==> State() == t.value) && (t.Err? ==> r == Err(t.error))
    {
      ghost var before := State();
      var i := 0;
      while i < |keys|
        invariant 0 <= i <= |keys|
        invariant RecoverAll(cfg, before, session, step, actor, keys) == RecoverAll(cfg, State(), session, step, actor, keys[i..])
      {
        assert keys[i..][0] == keys[i] && keys[i..][1..] == keys[i + 1..];
        r := ApplyStep(session, step, actor, keys[i]);
        if r.Err? { return; }
        i := i + 1;
      }
      return Ok(());
    }

    method ApplyStep(session: string, step: Recovery, actor: string, key: string) returns (r: Result<(), LoopError>)
      modifies this
      ensures var t := RecoverKey(cfg, old(State()), session, step, actor, key);
              (r.Ok? <==> t.Ok?) && (t.Ok? ==> State() == t.value) && (t.Err? ==> r == Err(t.error))
    {
      var p := Lookup(phase, key);
      match step {
        case Nap =>
        case Fridge =>
          if p == Some(Integration) || p == Some(Attention) {
            ReleaseItem(session, key);
            r := TakeEdge(key, Partition, "fridge", actor, session, false);
            return;
          }
        case Freezer =>
          if p == Some(Partition) || p == Some(Integration) || p == Some(Attention) {
            ReleaseItem(session, key);
            r := ContainKey(session, "fridge", "freezer", actor, key);
            return;
          }
        case Seizure =>
          if p != Some(Containment) && p != Some(Disintegration) {
            ReleaseItem(session, key);
            r := ContainKey(session, "seizure-fridge", "seizure", actor, key);
            return;
          }
      }
      return Ok(());
    }

    /** Observes one action hash. In a sound loop this never fails but for a missing session. */
    method Observe(session: string, hash: string, actor: string) returns (r: Result<Option<Recovery>, LoopError>)
      modifies this
      ensures LoopRuns.Inv(cfg, old(State())) ==>
                && LoopRuns.Inv(cfg, State()) && (State(), r) == ObserveAction(cfg, old(State()), session, hash, actor)
                && (r.Ok? <==> !cfg.blank(session))
      ensures ObserveAction(cfg, old(State()), session, hash, actor).1.Ok? ==>
                (State(), r) == ObserveAction(cfg, old(State()), session, hash, actor)
    {
      ObservingIsSound(cfg, State(), session, hash, actor);
      r := ObserveHash(session, hash, actor);
    }

    /** If a recovery were refused, the object would keep the transitions made before it. */
    method ObserveHash(session: string, hash: string, actor: string) returns (r: Result<Option<Recovery>, LoopError>)
      modifies this
      ensures var t := ObserveAction(cfg, old(State()), session, hash, actor);
              t.1.Ok? || cfg.blank(session) ==> (State(), r) == t
    {
      if cfg.blank(session) { return Err(NoSession); }
      var state := if session in stutter then stutter[session] else Fresh;
      state := Note(cfg.hashWindow, state, hash);
      stutter := stutter[session := state];
      if session in seized { return Ok(Some(Seizure)); }
      var step := Decide(state);
      if step.None? { return Ok(None); }
      stutter := stutter[session := state.(recoveries := state.recoveries + 1)];
      assert stutter == old(stutter)[session := state.(recoveries := state.recoveries + 1)];
      var applied := Recover(session, step.value, actor);
      if applied.Err? { return Err(applied.error); }
      return Ok(step);
    }

    /** Applies a recovery to what the session may act on; a seizure also pauses the session. */
    method Recover(session: string, step: Recovery, actor: string) returns (r: Result<(), LoopError>)
      modifies this
      ensures var t := ApplyRecovery(cfg, old(State()), session, step, actor);
              (r.Ok? <==> t.Ok?) && (t.Ok? ==> State() == t.value) && (t.Err? ==> r == Err(t.error))
    {
      var keys := RecoverableKeys(session);
      r := ApplySteps(session, step, actor, keys);
      if r.Ok? && step == Seizure { seized := seized + {session}; }
    }

    method RecoverableKeys(session: string) returns (keys: seq<string>)
      ensures keys == RecoveryKeys(State(), session)
    {
      var episodic := if session in touched then touched[session] else [];
      var items := if session in working then working[session] else [];
      keys := Without(Distinct(episodic + KeysOf(items)), goals);
    }

    method RecallVisible(branch: string, limit: int, q: Recall.Query) returns (r: Result<seq<Recall.Row>, Recall.RecallError>)
      ensures r == RecallOrdinary(State(), store.d, store.State(), branch, limit, q)
    {
      var rows := store.RecallRows(branch, limit, q);
      if rows.Err? { return Err(rows.error); }
      var kept := [];
      ghost var keep := RowView(Ordinary(State()));
      for i := 0 to |rows.value|
        invariant kept == Filter(rows.value[..i], keep)
      {
        assert rows.value[..i + 1][..i] == rows.value[..i];
        var key := rows.value[i].record.key;
        if key !in phase || phase[key] == Integration || phase[key] == Attention {
          kept := kept + [rows.value[i]];
        }
      }
      assert rows.value[..|rows.value|] == rows.value;
      return Ok(kept);
    }

    method RecallWithin(branch: string, limit: int, q: Recall.Query, allowPartitioned: bool, allowContained: bool)
      returns (r: Result<seq<Recall.Row>, Recall.RecallError>)
      ensures r == RecallScoped(State(), store.d, store.State(), branch, limit, q, allowPartitioned, allowContained)
    {
      var rows := store.RecallRows(branch, limit, q);
      if rows.Err? { return Err(rows.error); }
      var kept := [];
      ghost var keep := RowView(Scoped(State(), allowPartitioned, allowContained));
      for i := 0 to |rows.value|
        invariant kept == Filter(rows.value[..i], keep)
      {
        assert rows.value[..i + 1][..i] == rows.value[..i];
        var key := rows.value[i].record.key;
        var at := if key in phase then phase[key] else Integration;
        var shown := if at == Containment then allowContained else if at == Partition then allowPartitioned else at != Disintegration;
        if shown { kept := kept + [rows.value[i]]; }
      }
      assert rows.value[..|rows.value|] == rows.value;
      return Ok(kept);
    }
  }

  lemma ObservingIsSound(cfg: Config, st: Loop, session: string, hash: string, actor: string)
    ensures LoopRuns.Inv(cfg, st) ==>
              && LoopRuns.Inv(cfg, ObserveAction(cfg, st, session, hash, actor).0)
              && (ObserveAction(cfg, st, session, hash, actor).1.Ok? <==> !cfg.blank(session))
  {
    if LoopRuns.Inv(cfg, st) {
      LoopRuns.ObserveKeepsInv(cfg, st, session, hash, actor);
      if !cfg.blank(session) { LoopTheorems.RecoveriesContain(cfg, st, session, hash, actor); }
    }
  }
}
