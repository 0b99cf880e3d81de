/** What the calls of the loop answer: exactly when each is accepted, with which error it is refused
    otherwise, and where it leaves its key. */
module LoopAnswers {
  import opened Common
  import opened Decimal
  import opened FeedbackLoop
  import opened LifecycleLog
  import opened LoopRuns
  import opened LoopLaws
  import Objects
  import Dreamcatcher

  /** Why a session is not heard: it has no name, or it was seized. */
  ghost predicate Unheard(cfg: Config, st: Loop, session: string, error: LoopError) {
    if cfg.blank(session) then error == NoSession else session in st.seized && error == SeizurePause
  }

  predicate Heard(cfg: Config, st: Loop, session: string) { !cfg.blank(session) && session !in st.seized }

  /** An expression is accepted exactly for a new key, which is then in derivation with what was
      expressed as its payload. */
  lemma ExpressAnswers(cfg: Config, st: Loop, session: string, key: string, value: string, agent: string, tags: seq<string>, salience: real, confidence: real)
    ensures var (next, r) := Express(cfg, st, session, key, value, agent, tags, salience, confidence);
            && (!Heard(cfg, st, session) ==> r.Err? && Unheard(cfg, st, session, r.error))
            && (Heard(cfg, st, session) ==> if key in st.phase then r == Err(AlreadyInLifecycle) else r == Ok(()))
            && (r.Err? ==> next == st)
            && (r.Ok? ==>
                  && next.phase == st.phase[key := Derivation] && key in next.payload && next.payload == st.payload[key := next.payload[key]]
                  && Measures(next.payload[key].tokens, cfg.bytes(value))
                  && next.payload[key] == Payload(value, agent, tags, salience, confidence, next.payload[key].tokens))
  {
  }

  /** An admission is for a key in derivation. It succeeds exactly if the session holds fewer items than
      the limit and the key's tokens fit the budget beside those that it holds; otherwise it naps. */
  lemma AdmitAnswers(cfg: Config, st: Loop, session: string, key: string, actor: string)
    ensures var (next, r) := Admit(cfg, st, session, key, actor);
            && (!Heard(cfg, st, session) ==> r.Err? && Unheard(cfg, st, session, r.error))
            && (Heard(cfg, st, session) && Lookup(st.phase, key) != Some(Derivation) ==> r == Err(WrongPhase))
            && (Heard(cfg, st, session) && Lookup(st.phase, key) == Some(Derivation) ==>
                  if |WorkingOf(st, session)| < cfg.itemLimit && Tokens(WorkingOf(st, session)) + TokensOf(st, key) <= cfg.tokenBudget then
                    && r == Ok(Admitted) && next.phase == st.phase[key := Attention]
                    && Item(key, TokensOf(st, key)) in WorkingOf(next, session)
                  else r == Ok(Napped))
            && (r != Ok(Admitted) ==> next.phase == st.phase && next.log == st.log)
  {
    if Heard(cfg, st, session) && Lookup(st.phase, key) == Some(Derivation) && !Full(cfg, st, session, TokensOf(st, key)) {
      var item := Item(key, TokensOf(st, key));
      var held := Touch(st.(working := st.working[session := PutItem(WorkingOf(st, session), item)]), session, key);
      PutItemFacts(WorkingOf(st, session), item);
      TransitionOutcome(cfg, held, key, Attention, "admit", actor, session, false);
    }
  }

  /** An impression is for a key in attention. It fails with the store, and otherwise integrates the key,
      whose items the session no longer holds. */
  lemma ImpressAnswers(cfg: Config, d: Objects.Digests, w: World, session: string, key: string, actor: string, branch: string, now: string)
    ensures var (next, db, r) := Impress(cfg, d, w.loop, w.db, session, key, actor, branch, now);
            var st := w.loop;
            && (!Heard(cfg, st, session) ==> r.Err? && Unheard(cfg, st, session, r.error))
            && (Heard(cfg, st, session) && Lookup(st.phase, key) != Some(Attention) ==> r == Err(WrongPhase))
            && (Heard(cfg, st, session) && Lookup(st.phase, key) == Some(Attention) ==>
                  if key !in st.payload then r == Err(NoPayload)
                  else
                    var (db', res) := Dreamcatcher.Remember(d, w.db, ImpressInput(st.payload[key], key, actor, branch), now);
                    db == db' && r == if res.Err? then Err(StoreFailed(res.error)) else Ok(()))
            && (r.Err? ==> next == st)
            && (r.Ok? ==> next.phase == st.phase[key := Integration])
  {
    var st := w.loop;
    if Heard(cfg, st, session) && Lookup(st.phase, key) == Some(Attention) {
      TransitionOutcome(cfg, Touch(Release(st, session, key), session, key), key, Integration, "impress", actor, session, false);
    }
  }

  /** After an accepted impression the session holds no item of the key. */
  lemma ImpressReleases(cfg: Config, d: Objects.Digests, w: World, session: string, key: string, actor: string, branch: string, now: string, item: Item)
    requires Impress(cfg, d, w.loop, w.db, session, key, actor, branch, now).2.Ok?
    ensures item in WorkingOf(Impress(cfg, d, w.loop, w.db, session, key, actor, branch, now).0, session)
            <==> item in WorkingOf(w.loop, session) && item.key != key
  {
    var freed := Touch(Release(w.loop, session, key), session, key);
    ImpressShape(cfg, d, w, session, key, actor, branch, now);
    DropItemFacts(WorkingOf(w.loop, session), key);
    DropItemFacts(WorkingOf(freed, session), key);
  }

  /** Where each move leads, and from where it may start. */
  function Leads(m: Move): Phase {
    match m
    case FridgeMove => Partition
    case FreezerMove => Containment
    case ThawMove => Partition
    case ReintegrateMove => Integration
    case DisintegrateMove => Disintegration
  }

  predicate StartsFrom(m: Move, p: Phase) {
    match m
    case FridgeMove => p == Attention || p == Integration || p == Containment
    case FreezerMove => p == Partition
    case ThawMove => p == Attention || p == Integration || p == Containment
    case ReintegrateMove => p == Attention || p == Partition
    case DisintegrateMove => p == Containment
  }

  /** A move is accepted exactly from the phases where it may start; it leaves the key where it leads. */
  lemma MoveAnswers(cfg: Config, st: Loop, m: Move, session: string, key: string, actor: string)
    ensures var (next, r) := MoveKey(cfg, st, m, session, key, actor);
            && (!Heard(cfg, st, session) ==> r.Err? && Unheard(cfg, st, session, r.error))
            && (Heard(cfg, st, session) ==>
                  r == if key !in st.phase then Err(NotInLifecycle)
                       else if StartsFrom(m, st.phase[key]) then Ok(())
                       else if st.phase[key] == Leads(m) then Err(NoOp)
                       else Err(NotAllowed))
            && next.phase == if r.Ok? then st.phase[key := Leads(m)] else st.phase
  {
    var freed := if m.DisintegrateMove? then Release(st, session, key) else st;
    TransitionOutcome(cfg, freed, key, Target(m), ReasonOf(m), actor, session, false);
  }

  /** A wraparound is for a disintegrated key that the branch answers. It fails with the store, and
      otherwise answers a derived key, which is then in derivation; its own key stays where it is. */
  lemma WrapAnswers(cfg: Config, d: Objects.Digests, w: World, session: string, key: string, actor: string, branch: string, now: string)
    ensures var (next, db, r) := Wrap(cfg, d, w.loop, w.db, session, key, actor, branch, now);
            var st, parent, derived := w.loop, Dreamcatcher.Get(d, w.db, branch, key), key + "::derived:" + Dec(|w.loop.log| + 1);
            && (!Heard(cfg, st, session) ==> r.Err? && Unheard(cfg, st, session, r.error))
            && (Heard(cfg, st, session) && Lookup(st.phase, key) != Some(Disintegration) ==> r == Err(WrongPhase))
            && (Heard(cfg, st, session) && Lookup(st.phase, key) == Some(Disintegration) ==>
                  if parent.Err? then r == Err(StoreFailed(parent.error))
                  else if parent.value.None? || !parent.value.value.Memory? then r == Err(NoParent)
                  else
                    var (db', res) := Dreamcatcher.Remember(d, w.db, DerivedInput(cfg, derived, key, parent.value.value.record, actor, branch), now);
                    db == db' && r == if res.Err? then Err(StoreFailed(res.error)) else Ok(derived))
            && (r.Err? ==> next == st)
            && (r.Ok? ==> next.phase == st.phase[derived := Derivation] && next.working == st.working)
  {
  }
}
