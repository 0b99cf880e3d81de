/** The cognitive host: it composes the store, the feedback loop and the idle scheduler. A turn is
    expressed, admitted and written through; when attention is full the host naps and dreams
    instead of dropping what is in attention. */
module Hosts {
  import opened Common
  import opened Decimal
  import opened Detector
  import opened FeedbackLoop
  import Objects
  import Dreamcatcher
  import Recall
  import Scheduler
  import IdleScheduler

  /** `turnDigest`, `turnValue` and `actionHash` stand for the canonical JSON of a turn and its
      digest: of text and action, and of an action with its sequence number. */
  datatype HostConfig = HostConfig(
    loop: Config, d: Objects.Digests, actor: string, branch: string, writeThrough: bool,
    turnDigest: (string, string) -> string, turnValue: (string, string) -> string, actionHash: (string, nat) -> string)

  datatype Host = Host(count: nat, loop: Loop, db: Dreamcatcher.Db, sched: IdleScheduler.Sched)

  datatype Turn = Turn(session: string, text: string, action: string, tags: seq<string>, actor: Option<string>, persist: Option<bool>)

  /** The clock readings of a dream, and the store's clock during a call. */
  datatype Times = Times(observe: nat, promote: nat, settle: nat)

  datatype Clock = Clock(now: string, first: Times, second: Times)

  datatype HostError = SessionRequired | LoopFailed(error: LoopError) | SchedulerFailed(fault: Scheduler.Fault)

  datatype DreamReply = Dreamed(keys: seq<string>) | NotPromoted(reason: IdleScheduler.Refusal)

  datatype Status = StatusNap | StatusAdmitted | StatusIntegrated

  datatype TurnReply = TurnReply(status: Status, key: string)

  const DreamCapability := "dreamcatcher:write"

  /** The key of a turn: its session, its number, and a digest of what was said. */
  function TurnKey(hc: HostConfig, session: string, n: nat, text: string, action: string): string {
    "turn:" + session + ":" + Dec(n) + ":" + hc.turnDigest(text, action)
  }

  // ---- dreaming -----------------------------------------------------------------------

  /** The items of a session that are in attention. */
  function AttentionKeys(st: Loop, items: seq<Item>): seq<string> {
    if items == [] then []
    else
      var front, key := AttentionKeys(st, items[..|items| - 1]), items[|items| - 1].key;
      if Lookup(st.phase, key) == Some(Attention) then front + [key] else front
  }

  function ImpressAll(hc: HostConfig, loop: Loop, db: Dreamcatcher.Db, session: string, keys: seq<string>, now: string):
    (Loop, Dreamcatcher.Db, Result<(), LoopError>)
    decreases |keys|
  {
    if keys == [] then (loop, db, Ok(()))
    else
      var (loop', db', r) := Impress(hc.loop, hc.d, loop, db, session, keys[0], hc.actor, hc.branch, now);
      if r.Err? then (loop', db', r) else ImpressAll(hc, loop', db', session, keys[1..], now)
  }

  /** Settles the lease of a dream. When the success cannot be settled, a failure is tried. */
  function SettleDream(sched: IdleScheduler.Sched, lease: nat, r: Result<(), LoopError>, keys: seq<string>, time: int):
    (s: (IdleScheduler.Sched, Result<DreamReply, HostError>))
    ensures Scheduler.Housed(sched.reg) ==> Scheduler.Housed(s.0.reg)
  {
    if r.Err? then
      var bad := IdleScheduler.SettleLease(sched, lease, Scheduler.Failed, time);
      (bad.s, Err(if IdleScheduler.ErrorOf(bad).Some? then SchedulerFailed(IdleScheduler.ErrorOf(bad).value) else LoopFailed(r.error)))
    else
      var good := IdleScheduler.SettleLease(sched, lease, Scheduler.Succeeded, time);
      if IdleScheduler.ErrorOf(good) == None then (good.s, Ok(Dreamed(keys)))
      else
        var bad := IdleScheduler.SettleLease(good.s, lease, Scheduler.Failed, time);
        (bad.s, Err(SchedulerFailed(if IdleScheduler.ErrorOf(bad).Some? then IdleScheduler.ErrorOf(bad).value else IdleScheduler.ErrorOf(good).value)))
  }

  function ObserveIdle(sched: IdleScheduler.Sched, state: Option<(int, bool)>, time: int): (e: IdleScheduler.Effect)
    ensures Scheduler.Housed(sched.reg) ==> Scheduler.Housed(e.s.reg)
  {
    if state.None? then IdleScheduler.Just(sched)
    else IdleScheduler.ObserveExternal(sched, state.value.0, state.value.1, time)
  }

  /** One idle dream: if the scheduler promotes it, everything that the session has in attention
      is impressed, and the lease is settled. */
  function Dream(hc: HostConfig, h: Host, session: string, state: Option<(int, bool)>, t: Times, now: string):
    (r: (Host, Result<DreamReply, HostError>))
    requires Scheduler.Housed(h.sched.reg)
    ensures Scheduler.Housed(r.0.sched.reg)
  {
    var seen := ObserveIdle(h.sched, state, t.observe);
    if IdleScheduler.ErrorOf(seen).Some? then (h.(sched := seen.s), Err(SchedulerFailed(IdleScheduler.ErrorOf(seen).value)))
    else
      DreamSeen(hc, h.(sched := seen.s), session, t, now)
  }

  /** The rest of a dream, once the external state is observed. */
  function DreamSeen(hc: HostConfig, h: Host, session: string, t: Times, now: string): (r: (Host, Result<DreamReply, HostError>))
    requires Scheduler.Housed(h.sched.reg)
    ensures Scheduler.Housed(r.0.sched.reg)
  {
    var promo := IdleScheduler.TryPromote(h.sched, {DreamCapability}, t.promote);
    if IdleScheduler.ErrorOf(promo).Some? then (h.(sched := promo.s), Err(SchedulerFailed(IdleScheduler.ErrorOf(promo).value)))
    else if promo.leased.None? then
      (h.(sched := promo.s), Ok(NotPromoted(if promo.refused.Some? then promo.refused.value else IdleScheduler.NothingEligible)))
    else DreamUnder(hc, h.(sched := promo.s), session, promo.leased.value.id, t.settle, now)
  }

  function DreamUnder(hc: HostConfig, h: Host, session: string, lease: nat, time: int,
                      now: string): (r: (Host, Result<DreamReply, HostError>))
    requires Scheduler.Housed(h.sched.reg)
    ensures Scheduler.Housed(r.0.sched.reg)
  {
    var keys := AttentionKeys(h.loop, WorkingOf(h.loop, session));
    var (loop, db, r) := ImpressAll(hc, h.loop, h.db, session, keys, now);
    var (sched, reply) := SettleDream(h.sched, lease, r, keys, time);
    (h.(loop := loop, db := db, sched := sched), reply)
  }

  // ---- turns --------------------------------------------------------------------------

  function ActorOf(hc: HostConfig, turn: Turn): string {
    if turn.actor.Some? then turn.actor.value else hc.actor
  }

  function ObserveTurn(hc: HostConfig, h: Host, turn: Turn, clock: Clock): (r: (Host, Result<TurnReply, HostError>))
    requires Scheduler.Housed(h.sched.reg)
    ensures Scheduler.Housed(r.0.sched.reg)
  {
    if hc.loop.blank(turn.session) then (h, Err(SessionRequired))
    else
      var key := TurnKey(hc, turn.session, h.count + 1, turn.text, turn.action);
      var (loop, r) := Express(hc.loop, h.loop, turn.session, key, hc.turnValue(turn.text, turn.action), ActorOf(hc, turn), turn.tags, 1.0, 1.0);
      var next := h.(count := h.count + 1, loop := loop);
      if r.Err? then (next, Err(LoopFailed(r.error))) else AdmitTurn(hc, next, turn, key, clock)
  }

  /** Admits the key; when attention is full, dreams once and tries again. */
  function AdmitTurn(hc: HostConfig, h: Host, turn: Turn, key: string, clock: Clock): (r: (Host, Result<TurnReply, HostError>))
    requires Scheduler.Housed(h.sched.reg)
    ensures Scheduler.Housed(r.0.sched.reg)
  {
    var (loop, r) := Admit(hc.loop, h.loop, turn.session, key, ActorOf(hc, turn));
    var next := h.(loop := loop);
    if r.Err? then (next, Err(LoopFailed(r.error)))
    else if r.value == Admitted then FinishTurn(hc, next, turn, key, clock, false)
    else
      var (dreamer, dreamt) := Dream(hc, next, turn.session, Some((0, false)), clock.first, clock.now);
      if dreamt.Err? then (dreamer, Err(dreamt.error)) else AdmitAgain(hc, dreamer, turn, key, clock, dreamt.value)
  }

  function AdmitAgain(hc: HostConfig, h: Host, turn: Turn, key: string, clock: Clock, dreamt: DreamReply):
    (r: (Host, Result<TurnReply, HostError>))
    requires Scheduler.Housed(h.sched.reg)
    ensures Scheduler.Housed(r.0.sched.reg)
  {
    var (loop, r) := Admit(hc.loop, h.loop, turn.session, key, ActorOf(hc, turn));
    var next := h.(loop := loop);
    if r.Err? then (next, Err(LoopFailed(r.error)))
    else if r.value == Napped then (next, Ok(TurnReply(StatusNap, key)))
    else FinishTurn(hc, next, turn, key, clock, dreamt.Dreamed?)
  }

  predicate Persists(hc: HostConfig, turn: Turn) {
    if turn.persist.Some? then turn.persist.value else hc.writeThrough
  }

  /** Writes an admitted turn through, and shows the action to the detector. */
  function FinishTurn(hc: HostConfig, h: Host, turn: Turn, key: string, clock: Clock, dreamed: bool):
    (r: (Host, Result<TurnReply, HostError>))
    requires Scheduler.Housed(h.sched.reg)
    ensures Scheduler.Housed(r.0.sched.reg)
  {
    if Persists(hc, turn) then
      var (loop, db, r) := Impress(hc.loop, hc.d, h.loop, h.db, turn.session, key, ActorOf(hc, turn), hc.branch, clock.now);
      var next := h.(loop := loop, db := db);
      if r.Err? then (next, Err(LoopFailed(r.error))) else ShowAction(hc, next, turn, key, clock, dreamed, StatusIntegrated)
    else ShowAction(hc, h, turn, key, clock, dreamed, StatusAdmitted)
  }

  function ShowAction(hc: HostConfig, h: Host, turn: Turn, key: string, clock: Clock, dreamed: bool, status: Status):
    (r: (Host, Result<TurnReply, HostError>))
    requires Scheduler.Housed(h.sched.reg)
    ensures Scheduler.Housed(r.0.sched.reg)
  {
    var (loop, r) := ObserveAction(hc.loop, h.loop, turn.session, hc.actionHash(turn.action, h.count), ActorOf(hc, turn));
    var next := h.(loop := loop);
    if r.Err? then (next, Err(LoopFailed(r.error)))
    else if r.value == Some(Nap) && !dreamed then
      var (dreamer, dreamt) := Dream(hc, next, turn.session, Some((0, false)), clock.second, clock.now);
      if dreamt.Err? then (dreamer, Err(dreamt.error)) else (dreamer, Ok(TurnReply(status, key)))
    else (next, Ok(TurnReply(status, key)))
  }

  // ---- bounded recall -----------------------------------------------------------------

  /** How many recalled lines fit: the longest prefix within the token budget. */
  function Fitting(costs: seq<nat>, budget: int): nat
    ensures Fitting(costs, budget) <= |costs|
  {
    if costs == [] || costs[0] > budget then 0 else 1 + Fitting(costs[1..], budget - costs[0])
  }

  function Sum(costs: seq<nat>): nat {
    if costs == [] then 0 else costs[0] + Sum(costs[1..])
  }

  /** What is injected fits the budget, and one line more would not. */
  lemma {:induction false} FittingIsLongest(costs: seq<nat>, budget: int)
    requires budget >= 0
    ensures Sum(costs[..Fitting(costs, budget)]) <= budget
    ensures Fitting(costs, budget) < |costs| ==> Sum(costs[..Fitting(costs, budget) + 1]) > budget
  {
    var n := Fitting(costs, budget);
    if costs != [] && costs[0] <= budget {
      FittingIsLongest(costs[1..], budget - costs[0]);
      assert costs[..n][1..] == costs[1..][..n - 1];
      if n < |costs| { assert costs[..n + 1][1..] == costs[1..][..n]; }
    }
  }

  /** The lines that a recall for the next generation injects. */
  function InjectedLines(hc: HostConfig, h: Host, limit: int, q: Recall.Query, cost: Recall.Row -> nat, budget: int):
    Result<seq<Recall.Row>, Recall.RecallError>
  {
    var rows :- RecallOrdinary(h.loop, hc.d, h.db, hc.branch, limit, q);
    Ok(rows[..Fitting(seq(|rows|, i requires 0 <= i < |rows| => cost(rows[i])), budget)])
  }

  // ---- calls --------------------------------------------------------------------------

  datatype Call =
    | DoTurn(turn: Turn, clock: Clock)
    | DoDream(session: string, state: Option<(int, bool)>, times: Times, now: string)
    | DoNote(queueDepth: int, primaryActive: bool, time: nat)

  function Do(hc: HostConfig, h: Host, call: Call): (r: Host)
    requires Scheduler.Housed(h.sched.reg)
    ensures Scheduler.Housed(r.sched.reg)
  {
    match call
    case DoTurn(turn, clock) => ObserveTurn(hc, h, turn, clock).0
    case DoDream(session, state, times, now) => Dream(hc, h, session, state, times, now).0
    case DoNote(queueDepth, primaryActive, time) => h.(sched := IdleScheduler.ObserveExternal(h.sched, queueDepth, primaryActive, time).s)
  }

  // ---- opening ------------------------------------------------------------------------

  /** The default drives and the dream task. */
  function DefaultRegistry(): Scheduler.Registry {
    var a := Scheduler.RegisterDrive(Scheduler.EmptyRegistry, "system-stability", None, 0, true).0;
    var b := Scheduler.RegisterDrive(a, "task-fulfillment", None, 1, true).0;
    var c := Scheduler.RegisterDrive(b, "epigenetic-optimization", None, 2, true).0;
    Scheduler.RegisterTask(c, Scheduler.TaskSpec("dream-cycle", "epigenetic-optimization", 0, {DreamCapability}, 0, 32, 1, true, true)).0
  }

  /** A freshly opened host over a store; an existing branch is used as it is. */
  function Open(hc: HostConfig, db: Dreamcatcher.Db): Host {
    Host(0, EmptyLoop, Dreamcatcher.CreateBranch(hc.d, db, hc.branch, hc.actor).0,
         IdleScheduler.Sched(DefaultRegistry(), 60000, 1, 0, false, None, 0))
  }
}
