/** The Memory Feedback Loop: six lifecycle phases, an append-only transition log, a bounded
    working set per session, and the recoveries that the stutter detector triggers. The
    functions here say what each public call does to the loop; DreamcatcherStore values stand
    for the durable store. */
module FeedbackLoop {
  import opened Common
  import opened Decimal
  import Objects
  import Dreamcatcher
  import Recall
  import opened Detector

  datatype Phase = Derivation | Attention | Integration | Partition | Containment | Disintegration

  datatype Direction = Forward | Reverse | Direct | Wraparound

  datatype TransitionEvent = TransitionEvent(
    number: nat, key: string, from: Option<Phase>, to: Phase, direction: Direction, reason: string,
    actor: string, session: string, derivedKey: Option<string>)

  datatype Item = Item(key: string, tokens: nat)

  datatype Payload = Payload(value: string, originatingAgentId: string, tags: seq<string>,
                             salience: real, confidence: real, tokens: nat)

  /** The budgets of the constructor, and how values are measured and derived. */
  datatype Config = Config(itemLimit: int, tokenBudget: int, hashWindow: int,
                           bytes: string -> nat, blank: string -> bool,
                           derivedValue: (string, string) -> string)

  datatype Loop = Loop(
    phase: map<string, Phase>, payload: map<string, Payload>, working: map<string, seq<Item>>,
    touched: map<string, seq<string>>, stutter: map<string, Stutter>, seized: set<string>,
    goals: set<string>, log: seq<TransitionEvent>)

  const EmptyLoop := Loop(map[], map[], map[], map[], map[], {}, {}, [])

  datatype LoopError =
    | NoSession | SeizurePause | AlreadyInLifecycle | WrongPhase | NotInLifecycle | NoOp
    | AttentionHeld | NotAllowed | NoPayload | NoParent | StoreFailed(error: Dreamcatcher.DbError)

  // ---- phases and edges ---------------------------------------------------------------

  predicate Allowed(from: Phase, to: Phase) {
    match from
    case Derivation => to == Attention
    case Attention => to == Integration || to == Derivation || to == Partition
    case Integration => to == Attention || to == Partition
    case Partition => to == Integration || to == Containment
    case Containment => to == Partition || to == Disintegration
    case Disintegration => false
  }

  function PhaseIndex(p: Phase): nat {
    match p
    case Derivation => 0
    case Attention => 1
    case Integration => 2
    case Partition => 3
    case Containment => 4
    case Disintegration => 5
  }

  function DirectionOf(from: Phase, to: Phase): Direction {
    if from == Disintegration && to == Derivation then Wraparound
    else
      var delta := (PhaseIndex(to) - PhaseIndex(from) + 6) % 6;
      if delta == 1 then Forward else if delta == 5 then Reverse else Direct
  }

  function EstimateTokens(cfg: Config, value: string): nat {
    Max(1, (cfg.bytes(value) + 3) / 4)
  }

  // ---- working sets -------------------------------------------------------------------

  function WorkingOf(st: Loop, session: string): seq<Item> {
    if session in st.working then st.working[session] else []
  }

  function Tokens(items: seq<Item>): nat {
    if items == [] then 0 else Tokens(items[..|items| - 1]) + items[|items| - 1].tokens
  }

  function DropItem(items: seq<Item>, key: string): seq<Item> {
    if items == [] then []
    else
      var rest := DropItem(items[..|items| - 1], key);
      if items[|items| - 1].key == key then rest else rest + [items[|items| - 1]]
  }

  /** A set on an insertion-ordered map: replaces in place or appends. */
  function PutItem(items: seq<Item>, item: Item): seq<Item> {
    if items == [] then [item]
    else if items[0].key == item.key then [item] + items[1..]
    else [items[0]] + PutItem(items[1..], item)
  }

  function Release(st: Loop, session: string, key: string): Loop {
    if session in st.working then st.(working := st.working[session := DropItem(st.working[session], key)]) else st
  }

  function TouchedBy(st: Loop, session: string): seq<string> {
    if session in st.touched then st.touched[session] else []
  }

  function Touch(st: Loop, session: string, key: string): Loop {
    var keys := TouchedBy(st, session);
    st.(touched := st.touched[session := if key in keys then keys else keys + [key]])
  }

  // ---- transitions --------------------------------------------------------------------

  function Append(st: Loop, key: string, from: Option<Phase>, to: Phase, direction: Direction, reason: string,
                  actor: string, session: string, derivedKey: Option<string>): Loop {
    st.(phase := if from == Some(to) then st.phase else st.phase[key := to],
        log := st.log + [TransitionEvent(|st.log| + 1, key, from, to, direction, reason, actor, session, derivedKey)])
  }

  function Awake(cfg: Config, st: Loop, session: string): Option<LoopError> {
    if cfg.blank(session) then Some(NoSession)
    else if session in st.seized then Some(SeizurePause)
    else None
  }

  /** Moves a key along an edge. The guards that only repeat an earlier one are left out: a
      direct edge that is neither allowed nor permitted was refused already, and
      disintegration has no outgoing edge at all. */
  function Transition(cfg: Config, st: Loop, key: string, to: Phase, reason: string, actor: string,
                      session: string, allowDirect: bool): Result<Loop, LoopError> {
    if Awake(cfg, st, session).Some? then Err(Awake(cfg, st, session).value)
    else if key !in st.phase then Err(NotInLifecycle)
    else
      var from := st.phase[key];
      var direction := DirectionOf(from, to);
      if from == to then Err(NoOp)
      else if from == Containment && to == Attention then Err(AttentionHeld)
      else if !Allowed(from, to) && !(allowDirect && direction == Direct) then Err(NotAllowed)
      else
        var freed := if from == Attention then Release(st, session, key) else st;
        Ok(Append(freed, key, Some(from), to, direction, reason, actor, session, None))
  }

  // ---- public calls -------------------------------------------------------------------

  function Express(cfg: Config, st: Loop, session: string, key: string, value: string, agent: string,
                   tags: seq<string>, salience: real, confidence: real): (Loop, Result<(), LoopError>) {
    if Awake(cfg, st, session).Some? then (st, Err(Awake(cfg, st, session).value))
    else if key in st.phase then (st, Err(AlreadyInLifecycle))
    else
      var known := st.(payload := st.payload[key := Payload(value, agent, tags, salience, confidence, EstimateTokens(cfg, value))],
                       goals := if "goal" in tags then st.goals + {key} else st.goals);
      (Append(Touch(known, session, key), key, None, Derivation, Forward, "express", agent, session, None), Ok(()))
  }

  datatype Admission = Napped | Admitted

  function TokensOf(st: Loop, key: string): nat {
    if key in st.payload then st.payload[key].tokens else 1
  }

  predicate Full(cfg: Config, st: Loop, session: string, tokens: nat) {
    |WorkingOf(st, session)| >= cfg.itemLimit || Tokens(WorkingOf(st, session)) + tokens > cfg.tokenBudget
  }

  function Admit(cfg: Config, st: Loop, session: string, key: string, actor: string): (Loop, Result<Admission, LoopError>) {
    if Awake(cfg, st, session).Some? then (st, Err(Awake(cfg, st, session).value))
    else if Lookup(st.phase, key) != Some(Derivation) then (st, Err(WrongPhase))
    else
      var items := WorkingOf(st, session);
      if Full(cfg, st, session, TokensOf(st, key)) then (st.(working := st.working[session := items]), Ok(Napped))
      else
        var held := Touch(st.(working := st.working[session := PutItem(items, Item(key, TokensOf(st, key)))]), session, key);
        match Transition(cfg, held, key, Attention, "admit", actor, session, false)
        case Ok(next) => (next, Ok(Admitted))
        case Err(e) => (held, Err(e))
  }

  function ImpressInput(p: Payload, key: string, actor: string, branch: string): Dreamcatcher.Input {
    Dreamcatcher.Input(branch, key, p.value, Some(p.originatingAgentId), None, Some(actor), None, p.salience, p.confidence, p.tags)
  }

  function Impress(cfg: Config, d: Objects.Digests, st: Loop, db: Dreamcatcher.Db, session: string, key: string, actor: string,
                   branch: string, now: string): (Loop, Dreamcatcher.Db, Result<(), LoopError>) {
    if Awake(cfg, st, session).Some? then (st, db, Err(Awake(cfg, st, session).value))
    else if Lookup(st.phase, key) != Some(Attention) then (st, db, Err(WrongPhase))
    else if key !in st.payload then (st, db, Err(NoPayload))
    else
      var (db', res) := Dreamcatcher.Remember(d, db, ImpressInput(st.payload[key], key, actor, branch), now);
      if res.Err? then (st, db', Err(StoreFailed(res.error)))
      else
        var freed := Touch(Release(st, session, key), session, key);
        match Transition(cfg, freed, key, Integration, "impress", actor, session, false)
        case Ok(next) => (next, db', Ok(()))
        case Err(e) => (freed, db', Err(e))
  }

  /** The calls that request one transition and nothing else. */
  datatype Move = FridgeMove | FreezerMove | ThawMove | ReintegrateMove | DisintegrateMove

  function Target(m: Move): Phase {
    match m
    case FridgeMove => Partition
    case FreezerMove => Containment
    case ThawMove => Partition
    case ReintegrateMove => Integration
    case DisintegrateMove => Disintegration
  }

  function ReasonOf(m: Move): string {
    match m
    case FridgeMove => "fridge"
    case FreezerMove => "freezer"
    case ThawMove => "release"
    case ReintegrateMove => "reintegrate"
    case DisintegrateMove => "disintegrate"
  }

  function MoveKey(cfg: Config, st: Loop, m: Move, session: string, key: string, actor: string): (Loop, Result<(), LoopError>) {
    if Awake(cfg, st, session).Some? then (st, Err(Awake(cfg, st, session).value))
    else
      // Disintegration gives up the working-set item before the edge is checked.
      var freed := if m.DisintegrateMove? then Release(st, session, key) else st;
      match Transition(cfg, freed, key, Target(m), ReasonOf(m), actor, session, false)
      case Ok(next) => (next, Ok(()))
      case Err(e) => (freed, Err(e))
  }

  function DerivedKey(st: Loop, key: string): string {
    key + "::derived:" + Dec(|st.log| + 1)
  }

  function DerivedInput(cfg: Config, derived: string, key: string, parent: Objects.Record, actor: string, branch: string)
    : Dreamcatcher.Input {
    Dreamcatcher.Input(branch, derived, cfg.derivedValue(key, parent.provenanceHash), None, Some(parent.originAgentHash),
                       Some(actor), None, 1.0, 1.0, ["mfl-derived"])
  }

  /** Emits a derived key from a disintegrated one. Note that nothing checks whether the
      derived key is already in the lifecycle. */
  function Wrap(cfg: Config, d: Objects.Digests, st: Loop, db: Dreamcatcher.Db, session: string, key: string, actor: string,
                branch: string, now: string): (Loop, Dreamcatcher.Db, Result<string, LoopError>) {
    if Awake(cfg, st, session).Some? then (st, db, Err(Awake(cfg, st, session).value))
    else if Lookup(st.phase, key) != Some(Disintegration) then (st, db, Err(WrongPhase))
    else
      var parent := Dreamcatcher.Get(d, db, branch, key);
      if parent.Err? then (st, db, Err(StoreFailed(parent.error)))
      else if parent.value.None? || !parent.value.value.Memory? then (st, db, Err(NoParent))
      else
        var derived := DerivedKey(st, key);
        var input := DerivedInput(cfg, derived, key, parent.value.value.record, actor, branch);
        var (db', res) := Dreamcatcher.Remember(d, db, input, now);
        if res.Err? then (st, db', Err(StoreFailed(res.error)))
        else
          var known := st.(payload := st.payload[derived :=
            Payload(input.value, actor, input.tags, 1.0, 1.0, EstimateTokens(cfg, input.value))]);
          var emitted := Append(known, key, Some(Disintegration), Disintegration, Wraparound, "wraparound-emit",
                                actor, session, Some(derived));
          (Append(emitted, derived, None, Derivation, Wraparound, "wraparound-derived", actor, session, Some(derived)),
           db', Ok(derived))
  }

  // ---- recovery -----------------------------------------------------------------------

  function Distinct(keys: seq<string>): seq<string> {
    if keys == [] then []
    else
      var front, last := Distinct(keys[..|keys| - 1]), keys[|keys| - 1];
      if last in front then front else front + [last]
  }

  function Without(keys: seq<string>, out: set<string>): seq<string> {
    if keys == [] then []
    else
      var front, last := Without(keys[..|keys| - 1], out), keys[|keys| - 1];
      if last in out then front else front + [last]
  }

  function KeysOf(items: seq<Item>): seq<string> {
    seq(|items|, i requires 0 <= i < |items| => items[i].key)
  }

  /** What a recovery of a session may act on: everything the session touched or works with,
      except goals. */
  function RecoveryKeys(st: Loop, session: string): seq<string> {
    Without(Distinct(TouchedBy(st, session) + KeysOf(WorkingOf(st, session))), st.goals)
  }

  /** Puts a key into containment by way of partition. */
  function Contain(cfg: Config, st: Loop, session: string, first: string, second: string, actor: string, key: string)
    : Result<Loop, LoopError> {
    var parted :- if Lookup(st.phase, key) == Some(Partition) then Ok(st)
                  else Transition(cfg, st, key, Partition, first, actor, session, true);
    Transition(cfg, parted, key, Containment, second, actor, session, false)
  }

  /** One turn of the recovery loop. */
  function RecoverKey(cfg: Config, st: Loop, session: string, step: Recovery, actor: string, key: string): Result<Loop, LoopError> {
    var phase := Lookup(st.phase, key);
    match step
    case Nap => Ok(st)
    case Fridge =>
      if phase == Some(Integration) || phase == Some(Attention) then
        Transition(cfg, Release(st, session, key), key, Partition, "fridge", actor, session, false)
      else Ok(st)
    case Freezer =>
      if phase == Some(Partition) || phase == Some(Integration) || phase == Some(Attention) then
        Contain(cfg, Release(st, session, key), session, "fridge", "freezer", actor, key)
      else Ok(st)
    case Seizure =>
      if phase == Some(Containment) || phase == Some(Disintegration) then Ok(st)
      else Contain(cfg, Release(st, session, key), session, "seizure-fridge", "seizure", actor, key)
  }

  function RecoverAll(cfg: Config, st: Loop, session: string, step: Recovery, actor: string, keys: seq<string>): Result<Loop, LoopError>
    decreases |keys|
  {
    if keys == [] then Ok(st)
    else
      var next :- RecoverKey(cfg, st, session, step, actor, keys[0]);
      RecoverAll(cfg, next, session, step, actor, keys[1..])
  }

  function ApplyRecovery(cfg: Config, st: Loop, session: string, step: Recovery, actor: string): Result<Loop, LoopError> {
    var next :- RecoverAll(cfg, st, session, step, actor, RecoveryKeys(st, session));
    Ok(if step == Seizure then next.(seized := next.seized + {session}) else next)
  }

  function StutterOf(st: Loop, session: string): Stutter {
    if session in st.stutter then st.stutter[session] else Fresh
  }

  function ObserveAction(cfg: Config, st: Loop, session: string, hash: string, actor: string)
    : (Loop, Result<Option<Recovery>, LoopError>) {
    if cfg.blank(session) then (st, Err(NoSession))
    else
      var noted := Note(cfg.hashWindow, StutterOf(st, session), hash);
      var seen := st.(stutter := st.stutter[session := noted]);
      if session in st.seized then (seen, Ok(Some(Seizure)))
      else
        match Decide(noted)
        case None => (seen, Ok(None))
        case Some(step) =>
          var counted := st.(stutter := st.stutter[session := noted.(recoveries := noted.recoveries + 1)]);
          match ApplyRecovery(cfg, counted, session, step, actor)
          case Ok(next) => (next, Ok(Some(step)))
          case Err(e) => (counted, Err(e))
  }

  // ---- filtered recall ----------------------------------------------------------------

  predicate OrdinarilyVisible(st: Loop, key: string) {
    key in st.phase ==> st.phase[key] == Integration || st.phase[key] == Attention
  }

  predicate ScopedVisible(st: Loop, key: string, allowPartitioned: bool, allowContained: bool) {
    match if key in st.phase then st.phase[key] else Integration
    case Containment => allowContained
    case Partition => allowPartitioned
    case Disintegration => false
    case _ => true
  }

  function Filter<T>(rows: seq<T>, keep: T -> bool): seq<T> {
    if rows == [] then []
    else
      var front := Filter(rows[..|rows| - 1], keep);
      if keep(rows[|rows| - 1]) then front + [rows[|rows| - 1]] else front
  }

  /** Which keys a recall shows. */
  type View = string -> bool

  function Ordinary(st: Loop): View { (key: string) => OrdinarilyVisible(st, key) }

  function Scoped(st: Loop, allowPartitioned: bool, allowContained: bool): View {
    (key: string) => ScopedVisible(st, key, allowPartitioned, allowContained)
  }

  function RowView(view: View): Recall.Row -> bool { (row: Recall.Row) => view(row.record.key) }

  /** A recall whose rows are filtered after the limit was applied. */
  function RecallThrough(view: View, d: Objects.Digests, db: Dreamcatcher.Db, branch: string, limit: int, q: Recall.Query)
    : Result<seq<Recall.Row>, Recall.RecallError> {
    var rows :- Recall.Recall(d, db, branch, limit, q);
    Ok(Filter(rows, RowView(view)))
  }

  function RecallOrdinary(st: Loop, d: Objects.Digests, db: Dreamcatcher.Db, branch: string, limit: int, q: Recall.Query)
    : Result<seq<Recall.Row>, Recall.RecallError> {
    RecallThrough(Ordinary(st), d, db, branch, limit, q)
  }

  function RecallScoped(st: Loop, d: Objects.Digests, db: Dreamcatcher.Db, branch: string, limit: int, q: Recall.Query,
                        allowPartitioned: bool, allowContained: bool): Result<seq<Recall.Row>, Recall.RecallError> {
    RecallThrough(Scoped(st, allowPartitioned, allowContained), d, db, branch, limit, q)
  }
}
