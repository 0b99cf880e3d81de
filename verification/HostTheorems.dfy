/** What the cognitive host guarantees over whole runs: it never loses a turn. */
module HostTheorems {
  import opened Common
  import opened FeedbackLoop
  import opened LifecycleLog
  import LoopRuns
  import LoopTheorems
  import opened WorkingSets
  import opened Hosts
  import opened HostRuns
  import opened StoredKeys
  import Objects
  import Dreamcatcher
  import Scheduler
  import IdleScheduler
  import SchedulerRuns

  /** The actions that a run shows to the detector. */
  function ActionsOf(calls: seq<Call>): set<string> {
    set i | 0 <= i < |calls| && calls[i].DoTurn? :: calls[i].turn.action
  }

  function Run(hc: HostConfig, h: Host, calls: seq<Call>): (r: Host)
    requires Scheduler.Housed(h.sched.reg)
    ensures Scheduler.Housed(r.sched.reg)
  {
    if calls == [] then h else Do(hc, Run(hc, h, calls[..|calls| - 1]), calls[|calls| - 1])
  }

  // ---- one call -----------------------------------------------------------------------

  ghost predicate CallFacts(hc: HostConfig, h: Host, next: Host, actions: set<string>) {
    next.count <= h.count + 1 && Kept(hc, next.loop, next.db, next.count, next.count, actions) && Advances(h.loop, next.loop)
  }

  lemma CallKept(hc: HostConfig, h: Host, call: Call, actions: set<string>)
    requires Reasonable(hc) && Scheduler.Housed(h.sched.reg) && Kept(hc, h.loop, h.db, h.count, h.count, actions)
    requires Apart(hc, actions, h.count + 1) && (call.DoTurn? ==> call.turn.action in actions)
    ensures CallFacts(hc, h, Do(hc, h, call), actions)
  {
    match call
    case DoTurn(turn, clock) => TurnIsKept(hc, h, turn, clock, actions);
    case DoDream(session, state, times, now) => DreamCallKept(hc, h, session, state, times, now, actions);
    case DoNote(_, _, _) => SameAdvances(h.loop, h.loop);
  }

  lemma DreamCallKept(hc: HostConfig, h: Host, session: string, state: Option<(int, bool)>, t: Times, now: string, actions: set<string>)
    requires Reasonable(hc) && Scheduler.Housed(h.sched.reg) && Kept(hc, h.loop, h.db, h.count, h.count, actions)
    ensures CallFacts(hc, h, Dream(hc, h, session, state, t, now).0, actions)
  {
    if hc.loop.blank(session) {
      BlankDream(hc, h, session, state, t, now, actions);
    } else {
      DreamKept(hc, h, h.count, actions, session, state, t, now);
    }
  }

  /** A dream of a session without a name impresses nothing. */
  lemma BlankDream(hc: HostConfig, h: Host, session: string, state: Option<(int, bool)>, t: Times, now: string, actions: set<string>)
    requires Scheduler.Housed(h.sched.reg) && Kept(hc, h.loop, h.db, h.count, h.count, actions) && hc.loop.blank(session)
    ensures CallFacts(hc, h, Dream(hc, h, session, state, t, now).0, actions)
  {
    DreamCases(hc, h, session, state, t, now);
    BlankImpresses(hc, h.loop, h.db, session, AttentionKeys(h.loop, WorkingOf(h.loop, session)), now);
    SameAdvances(h.loop, h.loop);
  }

  lemma BlankImpresses(hc: HostConfig, st: Loop, db: Dreamcatcher.Db, session: string, keys: seq<string>, now: string)
    requires hc.loop.blank(session)
    ensures ImpressAll(hc, st, db, session, keys, now).0 == st && ImpressAll(hc, st, db, session, keys, now).1 == db
  {
  }

  // ---- runs ---------------------------------------------------------------------------

  /** A host as it is opened over a store that depicts some picture. */
  ghost predicate Fresh(hc: HostConfig, h: Host) {
    && h.count == 0 && h.loop == EmptyLoop && IdleScheduler.Inv(h.sched)
    && exists c :: Dreamcatcher.Depicts(hc.d, h.db, c)
  }

  lemma FreshIsKept(hc: HostConfig, h: Host, actions: set<string>)
    requires Fresh(hc, h)
    ensures Kept(hc, h.loop, h.db, 0, 0, actions)
  {
    assert LoopRuns.Inv(hc.loop, EmptyLoop);
    assert Orderly(hc, h.loop, 0) by { EmptyIsOrderly(hc); }
    var c :| Dreamcatcher.Depicts(hc.d, h.db, c);
    assert AllStored(hc, h.loop, c);
    WholeOf(hc, h.loop, h.db, 0, 0, actions);
  }

  lemma EmptyIsOrderly(hc: HostConfig)
    ensures Orderly(hc, EmptyLoop, 0)
  {
    assert WorkingOf(EmptyLoop, "") == [];
    assert forall s, k :: !Holds(EmptyLoop, s, k);
    assert Numbered(hc, {}, 0);
    assert EmptyLoop.phase.Keys == {};
  }

  lemma {:induction false} RunKept(hc: HostConfig, h: Host, calls: seq<Call>, actions: set<string>, limit: nat)
    requires Reasonable(hc) && Fresh(hc, h) && ActionsOf(calls) <= actions && |calls| <= limit && Apart(hc, actions, limit)
    ensures var r := Run(hc, h, calls); r.count <= |calls| && Kept(hc, r.loop, r.db, r.count, r.count, actions)
  {
    FreshIsKept(hc, h, actions);
    if calls != [] {
      var front, last := calls[..|calls| - 1], calls[|calls| - 1];
      FrontActions(calls);
      RunKept(hc, h, front, actions, limit);
      var before := Run(hc, h, front);
      assert last.DoTurn? ==> last.turn.action in ActionsOf(calls);
      ApartSooner(hc, actions, before.count + 1, limit);
      CallKept(hc, before, last, actions);
    }
  }

  lemma FrontActions(calls: seq<Call>)
    requires calls != []
    ensures ActionsOf(calls[..|calls| - 1]) <= ActionsOf(calls)
  {
    forall a | a in ActionsOf(calls[..|calls| - 1]) ensures a in ActionsOf(calls) {
      var i :| 0 <= i < |calls| - 1 && calls[..|calls| - 1][i].DoTurn? && calls[..|calls| - 1][i].turn.action == a;
      assert calls[i].DoTurn? && calls[i].turn.action == a;
    }
  }

  lemma ApartSooner(hc: HostConfig, actions: set<string>, n: nat, limit: nat)
    requires Apart(hc, actions, limit) && n <= limit
    ensures Apart(hc, actions, n)
  {
  }

  /** Because every action is shown with a new number, no session of a host is ever seized, and no
      detector ever asks for a recovery, however often a turn is repeated. */
  lemma HostsAreNeverSeized(hc: HostConfig, h: Host, calls: seq<Call>)
    requires Reasonable(hc) && Fresh(hc, h) && Apart(hc, ActionsOf(calls), |calls|)
    ensures var st := Run(hc, h, calls).loop;
            st.seized == {} && forall s :: s in st.stutter ==> st.stutter[s].recoveries == 0
  {
    var r := Run(hc, h, calls);
    RunKept(hc, h, calls, ActionsOf(calls), |calls|);
    PartsOf(hc, r.loop, r.db, r.count, r.count, ActionsOf(calls));
  }

  /** The key went through attention at some time. */
  ghost predicate WasAdmitted(log: seq<TransitionEvent>, k: string) {
    exists i :: 0 <= i < |log| && log[i].key == k && log[i].to == Attention
  }

  /** The store answers the key with its value. */
  ghost predicate Durably(hc: HostConfig, h: Host, k: string) { Durable(hc.d, h.loop, h.db, hc.branch, k) }

  /** The key is in attention, in the working set of the session that brought it in. */
  ghost predicate InAttention(h: Host, k: string) {
    && k in h.loop.phase && h.loop.phase[k] == Attention
    && k in Owners(h.loop.log) && Holds(h.loop, Owners(h.loop.log)[k], k)
  }

  lemma WhereKeysAre(hc: HostConfig, h: Host, actions: set<string>, k: string)
    requires Reasonable(hc) && Kept(hc, h.loop, h.db, h.count, h.count, actions)
    requires h.db.heap.clean && KeysApart(hc.d, h.loop.phase.Keys) && k in h.loop.phase && h.loop.phase[k] != Derivation
    ensures InAttention(h, k) || (h.loop.phase[k] == Integration && Durably(hc, h, k))
  {
    PartsOf(hc, h.loop, h.db, h.count, h.count, actions);
    if h.loop.phase[k] == Integration { IntegratedIsStored(hc, h, k); } else { AttendedIsHeldHere(hc, h, k); }
  }

  lemma AttendedIsHeldHere(hc: HostConfig, h: Host, k: string)
    requires Placed(hc, h.loop.phase, h.count) && Agrees(h.loop, true)
    requires k in h.loop.phase && h.loop.phase[k] != Derivation && h.loop.phase[k] != Integration
    ensures InAttention(h, k)
  {
  }

  lemma IntegratedIsStored(hc: HostConfig, h: Host, k: string)
    requires Reasonable(hc) && Safe(hc, h.loop, h.db) && h.db.heap.clean && KeysApart(hc.d, h.loop.phase.Keys)
    requires k in h.loop.phase && h.loop.phase[k] == Integration
    ensures Durably(hc, h, k)
  {
    var c :| Dreamcatcher.Depicts(hc.d, h.db, c) && AllStored(hc, h.loop, c);
    assert Stored(hc.d, h.loop, c, hc.branch, k);
    DurableIfStored(hc.d, h.loop, h.db, c, hc.branch, k);
  }

  /** An admitted key is never in derivation again. */
  lemma AdmittedHasLeft(st: Loop, k: string)
    requires Faithful(st) && WasAdmitted(st.log, k)
    ensures k in st.phase && st.phase[k] != Derivation
  {
    var i :| 0 <= i < |st.log| && st.log[i].key == k && st.log[i].to == Attention;
    LeavesDerivation(st.log, i, |st.log|, k);
    assert st.log[..|st.log|] == st.log;
  }

  lemma {:induction false} LeavesDerivation(log: seq<TransitionEvent>, i: nat, j: nat, k: string)
    requires LifecycleLog.Sound(log) && i < j <= |log| && log[i].key == k && log[i].to == Attention
    ensures k in Replay(log[..j]) && Replay(log[..j])[k] != Derivation
  {
    if i < j - 1 {
      LeavesDerivation(log, i, j - 1, k);
      LoopTheorems.EntryKeepsKey(log, j, k);
    } else {
      LoopTheorems.ReplayLast(log, j);
    }
  }

  /** The host never loses a turn. After any run of turns, dreams and notes on a fresh host, and
      unless a digest collided, each key that was ever admitted is still in attention, in the
      working set of its session, or integrated, with the store answering its value. */
  lemma HostNeverLosesATurn(hc: HostConfig, h: Host, calls: seq<Call>, k: string)
    requires Reasonable(hc) && Fresh(hc, h) && Apart(hc, ActionsOf(calls), |calls|)
    requires Run(hc, h, calls).db.heap.clean && KeysApart(hc.d, Run(hc, h, calls).loop.phase.Keys)
    requires WasAdmitted(Run(hc, h, calls).loop.log, k)
    ensures var r := Run(hc, h, calls);
            InAttention(r, k) || (k in r.loop.phase && r.loop.phase[k] == Integration && Durably(hc, r, k))
  {
    var r := Run(hc, h, calls);
    RunKept(hc, h, calls, ActionsOf(calls), |calls|);
    PartsOf(hc, r.loop, r.db, r.count, r.count, ActionsOf(calls));
    AdmittedHasLeft(r.loop, k);
    WhereKeysAre(hc, r, ActionsOf(calls), k);
  }

  /** What a reply says about its key is so: an integrated turn can be read back from the store, an
      admitted one is in attention or stored, and a napping one still waits. */
  ghost predicate IsTrue(hc: HostConfig, h: Host, reply: TurnReply) {
    match reply.status
    case StatusNap => Lookup(h.loop.phase, reply.key) == Some(Derivation)
    case StatusAdmitted => InAttention(h, reply.key) || Durably(hc, h, reply.key)
    case StatusIntegrated => Durably(hc, h, reply.key)
  }

  /** No key that had been admitted before is lost. */
  ghost predicate NoneLost(hc: HostConfig, before: Host, next: Host) {
    forall k :: k in before.loop.phase && before.loop.phase[k] != Derivation ==> InAttention(next, k) || Durably(hc, next, k)
  }

  /** The reply of a turn tells the truth, and no key that was admitted before is lost by it. */
  lemma TurnRepliesAreTrue(hc: HostConfig, h: Host, calls: seq<Call>, turn: Turn, clock: Clock)
    requires Reasonable(hc) && Fresh(hc, h) && Apart(hc, ActionsOf(calls) + {turn.action}, |calls| + 1)
    requires ObserveTurn(hc, Run(hc, h, calls), turn, clock).1.Ok?
    requires ObserveTurn(hc, Run(hc, h, calls), turn, clock).0.db.heap.clean
    requires KeysApart(hc.d, ObserveTurn(hc, Run(hc, h, calls), turn, clock).0.loop.phase.Keys)
    ensures var before := Run(hc, h, calls);
            var (next, r) := ObserveTurn(hc, before, turn, clock);
            && r.value.key !in before.loop.phase
            && IsTrue(hc, next, r.value) && NoneLost(hc, before, next)
            && r.value.key in next.loop.payload && next.loop.payload[r.value.key].value == hc.turnValue(turn.text, turn.action)
  {
    var actions := ActionsOf(calls) + {turn.action};
    var before := Run(hc, h, calls);
    TurnAfterRun(hc, h, calls, turn, clock, actions);
    TurnLeavesAll(hc, before, turn, ObserveTurn(hc, before, turn, clock).0, ObserveTurn(hc, before, turn, clock).1, actions);
  }

  lemma TurnAfterRun(hc: HostConfig, h: Host, calls: seq<Call>, turn: Turn, clock: Clock, actions: set<string>)
    requires Reasonable(hc) && Fresh(hc, h) && actions == ActionsOf(calls) + {turn.action} && Apart(hc, actions, |calls| + 1)
    ensures var (next, r) := ObserveTurn(hc, Run(hc, h, calls), turn, clock);
            TurnFacts(hc, Run(hc, h, calls), turn, next, r, actions)
  {
    ApartSooner(hc, actions, |calls|, |calls| + 1);
    RunKept(hc, h, calls, actions, |calls|);
    var before := Run(hc, h, calls);
    ApartSooner(hc, actions, before.count + 1, |calls| + 1);
    TurnIsKept(hc, before, turn, clock, actions);
  }

  lemma TurnLeavesAll(hc: HostConfig, before: Host, turn: Turn, next: Host, r: Result<TurnReply, HostError>, actions: set<string>)
    requires Reasonable(hc) && TurnFacts(hc, before, turn, next, r, actions) && r.Ok?
    requires next.db.heap.clean && KeysApart(hc.d, next.loop.phase.Keys)
    ensures IsTrue(hc, next, r.value) && NoneLost(hc, before, next)
  {
    match r.value.status {
      case StatusNap =>
      case StatusAdmitted => WhereKeysAre(hc, next, actions, r.value.key);
      case StatusIntegrated => IntegratedReply(hc, next, actions, r.value.key);
    }
    forall k | k in before.loop.phase && before.loop.phase[k] != Derivation ensures InAttention(next, k) || Durably(hc, next, k) {
      WhereKeysAre(hc, next, actions, k);
    }
  }

  lemma IntegratedReply(hc: HostConfig, h: Host, actions: set<string>, k: string)
    requires Reasonable(hc) && Kept(hc, h.loop, h.db, h.count, h.count, actions)
    requires h.db.heap.clean && KeysApart(hc.d, h.loop.phase.Keys) && Lookup(h.loop.phase, k) == Some(Integration)
    ensures Durably(hc, h, k)
  {
    PartsOf(hc, h.loop, h.db, h.count, h.count, actions);
    IntegratedIsStored(hc, h, k);
  }

  // ---- the lease of a dream -----------------------------------------------------------

  /** The scheduler is sound and holds no lease. */
  ghost predicate Unleased(s: IdleScheduler.Sched) { IdleScheduler.Inv(s) && s.active.None? }

  lemma DreamSettlesItsLease(sched: IdleScheduler.Sched, lease: nat, r: Result<(), LoopError>, keys: seq<string>, time: nat)
    requires IdleScheduler.Inv(sched) && sched.active.Some? && sched.active.value.lease == lease
    ensures Unleased(SettleDream(sched, lease, r, keys, time).0)
  {
    SettleEnds(sched, lease, Scheduler.Failed, time);
    SettleEnds(sched, lease, Scheduler.Succeeded, time);
    var good := IdleScheduler.SettleLease(sched, lease, Scheduler.Succeeded, time);
    SettleNothing(good.s, lease, Scheduler.Failed, time);
  }

  lemma SettleEnds(sched: IdleScheduler.Sched, lease: nat, outcome: Scheduler.Outcome, time: nat)
    requires IdleScheduler.Inv(sched) && sched.active.Some? && sched.active.value.lease == lease && !outcome.Unknown?
    ensures Unleased(IdleScheduler.SettleLease(sched, lease, outcome, time).s)
  {
    SchedulerRuns.SettleFacts(sched, lease, outcome, time);
    SchedulerRuns.ExpireFacts(sched, time);
    SchedulerRuns.CloseFacts(sched, outcome, time);
  }

  lemma SettleNothing(sched: IdleScheduler.Sched, lease: nat, outcome: Scheduler.Outcome, time: nat)
    requires Unleased(sched)
    ensures IdleScheduler.SettleLease(sched, lease, outcome, time).s == sched
  {
  }

  lemma DreamKeepsUnleased(hc: HostConfig, h: Host, session: string, state: Option<(int, bool)>, t: Times, now: string)
    requires Unleased(h.sched)
    ensures Unleased(Dream(hc, h, session, state, t, now).0.sched)
  {
    var seen := ObserveIdle(h.sched, state, t.observe);
    if state.Some? {
      SchedulerRuns.ObserveFacts(h.sched, state.value.0, state.value.1, t.observe);
    }
    if IdleScheduler.ErrorOf(seen) == None {
      PromotionIsSettled(hc, h, seen.s, session, t, now);
    }
  }

  lemma PromotionIsSettled(hc: HostConfig, h: Host, s: IdleScheduler.Sched, session: string, t: Times, now: string)
    requires Unleased(s)
    ensures var promo := IdleScheduler.TryPromote(s, {DreamCapability}, t.promote);
            && IdleScheduler.ErrorOf(promo) == None && (promo.leased.None? ==> Unleased(promo.s))
            && (promo.leased.Some? ==> Unleased(DreamUnder(hc, h.(sched := promo.s), session, promo.leased.value.id, t.settle, now).0.sched))
  {
    var promo := IdleScheduler.TryPromote(s, {DreamCapability}, t.promote);
    SchedulerRuns.PromoteFacts(s, {DreamCapability}, t.promote);
    PromoteHasNoError(s, {DreamCapability}, t.promote);
    if promo.leased.Some? {
      var keys := AttentionKeys(h.loop, WorkingOf(h.loop, session));
      DreamSettlesItsLease(promo.s, promo.leased.value.id, ImpressAll(hc, h.loop, h.db, session, keys, now).2, keys, t.settle);
    }
  }

  lemma PromoteHasNoError(s: IdleScheduler.Sched, capabilities: set<string>, now: int)
    requires Unleased(s)
    ensures IdleScheduler.TryPromote(s, capabilities, now).error == None
  {
    assert IdleScheduler.ExpireActive(s, now) == IdleScheduler.Just(s);
    SchedulerRuns.PromoteStep(IdleScheduler.Just(s), capabilities, now);
  }

  lemma ShowKeepsUnleased(hc: HostConfig, h: Host, turn: Turn, key: string, clock: Clock, dreamed: bool, status: Status)
    requires Unleased(h.sched)
    ensures Unleased(ShowAction(hc, h, turn, key, clock, dreamed, status).0.sched)
  {
    var loop := ObserveAction(hc.loop, h.loop, turn.session, hc.actionHash(turn.action, h.count), ActorOf(hc, turn)).0;
    DreamKeepsUnleased(hc, h.(loop := loop), turn.session, Some((0, false)), clock.second, clock.now);
    ShowMayDream(hc, h, turn, key, clock, dreamed, status, loop);
  }

  lemma ShowMayDream(hc: HostConfig, h: Host, turn: Turn, key: string, clock: Clock, dreamed: bool, status: Status, loop: Loop)
    requires Scheduler.Housed(h.sched.reg)
    requires loop == ObserveAction(hc.loop, h.loop, turn.session, hc.actionHash(turn.action, h.count), ActorOf(hc, turn)).0
    ensures ShowAction(hc, h, turn, key, clock, dreamed, status).0.sched
            in {h.sched, Dream(hc, h.(loop := loop), turn.session, Some((0, false)), clock.second, clock.now).0.sched}
  {
  }

  lemma FinishKeepsUnleased(hc: HostConfig, h: Host, turn: Turn, key: string, clock: Clock, dreamed: bool)
    requires Unleased(h.sched)
    ensures Unleased(FinishTurn(hc, h, turn, key, clock, dreamed).0.sched)
  {
    var (loop, db, _) := Impress(hc.loop, hc.d, h.loop, h.db, turn.session, key, ActorOf(hc, turn), hc.branch, clock.now);
    ShowKeepsUnleased(hc, h.(loop := loop, db := db), turn, key, clock, dreamed, StatusIntegrated);
    ShowKeepsUnleased(hc, h, turn, key, clock, dreamed, StatusAdmitted);
  }

  lemma AgainKeepsUnleased(hc: HostConfig, h: Host, turn: Turn, key: string, clock: Clock, dreamt: DreamReply)
    requires Unleased(h.sched)
    ensures Unleased(AdmitAgain(hc, h, turn, key, clock, dreamt).0.sched)
  {
    var loop := Admit(hc.loop, h.loop, turn.session, key, ActorOf(hc, turn)).0;
    FinishKeepsUnleased(hc, h.(loop := loop), turn, key, clock, dreamt.Dreamed?);
  }

  lemma AdmitKeepsUnleased(hc: HostConfig, h: Host, turn: Turn, key: string, clock: Clock)
    requires Unleased(h.sched)
    ensures Unleased(AdmitTurn(hc, h, turn, key, clock).0.sched)
  {
    var (loop, r) := Admit(hc.loop, h.loop, turn.session, key, ActorOf(hc, turn));
    var next := h.(loop := loop);
    FinishKeepsUnleased(hc, next, turn, key, clock, false);
    DreamKeepsUnleased(hc, next, turn.session, Some((0, false)), clock.first, clock.now);
    var (dreamer, dreamt) := Dream(hc, next, turn.session, Some((0, false)), clock.first, clock.now);
    if dreamt.Ok? { AgainKeepsUnleased(hc, dreamer, turn, key, clock, dreamt.value); }
  }

  lemma CallKeepsUnleased(hc: HostConfig, h: Host, call: Call)
    requires Unleased(h.sched)
    ensures Unleased(Do(hc, h, call).sched)
  {
    match call
    case DoTurn(turn, clock) =>
      AdmitKeepsUnleased(hc, AfterExpress(hc, h, turn, TurnKey(hc, turn.session, h.count + 1, turn.text, turn.action)), turn,
                         TurnKey(hc, turn.session, h.count + 1, turn.text, turn.action), clock);
    case DoDream(session, state, times, now) => DreamKeepsUnleased(hc, h, session, state, times, now);
    case DoNote(queueDepth, primaryActive, time) => SchedulerRuns.ObserveFacts(h.sched, queueDepth, primaryActive, time);
  }

  /** No call of the host, whatever fails inside it, leaves a lease behind. */
  lemma {:induction false} HostsHoldNoLease(hc: HostConfig, h: Host, calls: seq<Call>)
    requires Unleased(h.sched)
    ensures Unleased(Run(hc, h, calls).sched)
  {
    if calls != [] {
      HostsHoldNoLease(hc, h, calls[..|calls| - 1]);
      CallKeepsUnleased(hc, Run(hc, h, calls[..|calls| - 1]), calls[|calls| - 1]);
    }
  }

  // ---- naps ---------------------------------------------------------------------------

  lemma ImpressKeepsKeys(hc: HostConfig, st: Loop, db: Dreamcatcher.Db, session: string, k: string, now: string)
    ensures Impress(hc.loop, hc.d, st, db, session, k, hc.actor, hc.branch, now).0.phase.Keys == st.phase.Keys
  {
    var freed := Touch(Release(st, session, k), session, k);
    TransitionOutcome(hc.loop, freed, k, Integration, "impress", hc.actor, session, false);
  }

  lemma {:induction false} ImpressAllKeepsKeys(hc: HostConfig, st: Loop, db: Dreamcatcher.Db, session: string,
                                               keys: seq<string>, now: string)
    ensures ImpressAll(hc, st, db, session, keys, now).0.phase.Keys == st.phase.Keys
    decreases |keys|
  {
    if keys != [] {
      ImpressKeepsKeys(hc, st, db, session, keys[0], now);
      var (next, db', r) := Impress(hc.loop, hc.d, st, db, session, keys[0], hc.actor, hc.branch, now);
      if r.Ok? { ImpressAllKeepsKeys(hc, next, db', session, keys[1..], now); }
    }
  }

  /** A dream that succeeds empties its session's working set. */
  lemma DreamEmptiesWorkingSet(hc: HostConfig, h: Host, seen: nat, actions: set<string>, session: string,
                               state: Option<(int, bool)>, t: Times, now: string)
    requires Reasonable(hc) && Scheduler.Housed(h.sched.reg) && Kept(hc, h.loop, h.db, h.count, seen, actions) && !hc.loop.blank(session)
    requires Dream(hc, h, session, state, t, now).1.Ok? && Dream(hc, h, session, state, t, now).1.value.Dreamed?
    ensures WorkingOf(Dream(hc, h, session, state, t, now).0.loop, session) == []
  {
    var next := Dream(hc, h, session, state, t, now).0;
    var keys := AttentionKeys(h.loop, WorkingOf(h.loop, session));
    DreamKept(hc, h, seen, actions, session, state, t, now);
    DreamCases(hc, h, session, state, t, now);
    ImpressAllKeepsKeys(hc, h.loop, h.db, session, keys, now);
    PartsOf(hc, h.loop, h.db, h.count, seen, actions);
    PartsOf(hc, next.loop, next.db, next.count, seen, actions);
    forall k | Lookup(h.loop.phase, k) == Some(Derivation) ensures Lookup(next.loop.phase, k) == Some(Derivation) {
      DreamLeavesDerivation(hc, h, session, state, t, now, k);
    }
    NothingHeld(hc, h.loop, next.loop, session);
  }

  lemma NothingHeld(hc: HostConfig, st: Loop, next: Loop, session: string)
    requires Agrees(st, true) && Agrees(next, true) && Advances(st, next) && PlainPhases(st.phase) && next.phase.Keys == st.phase.Keys
    requires AllIntegrated(next, AttentionKeys(st, WorkingOf(st, session)))
    requires forall k :: Lookup(st.phase, k) == Some(Derivation) ==> Lookup(next.phase, k) == Some(Derivation)
    ensures WorkingOf(next, session) == []
  {
    if WorkingOf(next, session) != [] {
      var item := WorkingOf(next, session)[0];
      assert Holds(next, session, item.key);
      assert Lookup(next.phase, item.key) == Some(Attention);
      assert Lookup(st.phase, item.key) != Some(Derivation);
      WasHeld(hc, st, next, session, item.key);
    }
  }

  lemma WasHeld(hc: HostConfig, st: Loop, next: Loop, session: string, k: string)
    requires Agrees(st, true) && Agrees(next, true) && Advances(st, next) && PlainPhases(st.phase)
    requires k in st.phase && st.phase[k] != Derivation && Holds(next, session, k)
    ensures Lookup(st.phase, k) == Some(Attention) && k in AttentionKeys(st, WorkingOf(st, session))
  {
    var owner := Owners(st.log)[k];
    assert Owned(st, owner, k) && Owned(next, owner, k) && Owned(next, session, k);
    assert Holds(st, session, k);
    AttentionKeysHeld(st, WorkingOf(st, session));
  }

  predicate FitsAlone(cfg: Config, tokens: nat) { 1 <= cfg.itemLimit && tokens <= cfg.tokenBudget }

  /** The scheduler would refuse the idle dream of a full session. */
  predicate DreamRefused(sched: IdleScheduler.Sched, t: Times)
    requires Scheduler.Housed(sched.reg)
  {
    IdleScheduler.TryPromote(IdleScheduler.ObserveExternal(sched, 0, false, t.observe).s, {DreamCapability}, t.promote).leased.None?
  }

  /** What a dream that did not fail answers, and that a refused one changes nothing of the loop. */
  lemma DreamAnswers(hc: HostConfig, h: Host, session: string, t: Times, now: string)
    requires Scheduler.Housed(h.sched.reg) && Dream(hc, h, session, Some((0, false)), t, now).1.Ok?
    ensures var (next, r) := Dream(hc, h, session, Some((0, false)), t, now);
            (r.value.NotPromoted? <==> DreamRefused(h.sched, t)) && (r.value.NotPromoted? ==> next.loop == h.loop)
  {
    var seen := IdleScheduler.ObserveExternal(h.sched, 0, false, t.observe);
    SeenAnswers(hc, h.(sched := seen.s), session, t, now);
    assert Dream(hc, h, session, Some((0, false)), t, now) == DreamSeen(hc, h.(sched := seen.s), session, t, now);
  }

  lemma SeenAnswers(hc: HostConfig, h: Host, session: string, t: Times, now: string)
    requires Scheduler.Housed(h.sched.reg)
    ensures var (next, r) := DreamSeen(hc, h, session, t, now);
            r.Ok? ==>
              && (r.value.NotPromoted? <==> IdleScheduler.TryPromote(h.sched, {DreamCapability}, t.promote).leased.None?)
              && (r.value.NotPromoted? ==> next.loop == h.loop)
  {
    var promo := IdleScheduler.TryPromote(h.sched, {DreamCapability}, t.promote);
    if promo.leased.Some? {
      var keys := AttentionKeys(h.loop, WorkingOf(h.loop, session));
      SettleCase(promo.s, promo.leased.value.id, ImpressAll(hc, h.loop, h.db, session, keys, now).2, keys, t.settle);
    }
  }

  /** An admission that does not fail naps exactly when the session is full. */
  lemma AdmitNapsIfFull(cfg: Config, st: Loop, session: string, key: string, actor: string)
    requires Admit(cfg, st, session, key, actor).1.Ok?
    ensures Admit(cfg, st, session, key, actor).1.value == Napped <==> Full(cfg, st, session, TokensOf(st, key))
    ensures Admit(cfg, st, session, key, actor).1.value == Napped ==>
              && WorkingOf(Admit(cfg, st, session, key, actor).0, session) == WorkingOf(st, session)
              && Admit(cfg, st, session, key, actor).0.payload == st.payload
  {
  }

  lemma FinishIsNoNap(hc: HostConfig, h: Host, turn: Turn, key: string, clock: Clock, dreamed: bool)
    requires Scheduler.Housed(h.sched.reg) && FinishTurn(hc, h, turn, key, clock, dreamed).1.Ok?
    ensures FinishTurn(hc, h, turn, key, clock, dreamed).1.value.status != StatusNap
  {
  }

  lemma AgainNapsIfFull(hc: HostConfig, h: Host, turn: Turn, key: string, clock: Clock, dreamt: DreamReply)
    requires Scheduler.Housed(h.sched.reg) && AdmitAgain(hc, h, turn, key, clock, dreamt).1.Ok?
    ensures AdmitAgain(hc, h, turn, key, clock, dreamt).1.value.status == StatusNap
            <==> Full(hc.loop, h.loop, turn.session, TokensOf(h.loop, key))
  {
    AdmitNapsIfFull(hc.loop, h.loop, turn.session, key, ActorOf(hc, turn));
    var (loop, r) := Admit(hc.loop, h.loop, turn.session, key, ActorOf(hc, turn));
    if r.value == Admitted { FinishIsNoNap(hc, h.(loop := loop), turn, key, clock, dreamt.Dreamed?); }
  }

  lemma EmptyFits(cfg: Config, st: Loop, session: string, tokens: nat)
    requires WorkingOf(st, session) == []
    ensures Full(cfg, st, session, tokens) <==> !FitsAlone(cfg, tokens)
  {
  }

  /** After a first nap, a turn naps for good exactly if its dream is refused or it does not fit. */
  lemma SecondNap(hc: HostConfig, h: Host, turn: Turn, key: string, clock: Clock, seen: nat, actions: set<string>)
    requires Reasonable(hc) && Scheduler.Housed(h.sched.reg) && !hc.loop.blank(turn.session)
    requires Kept(hc, h.loop, h.db, h.count, seen, actions) && key in h.loop.payload
    requires Full(hc.loop, h.loop, turn.session, TokensOf(h.loop, key)) && AfterNap(hc, h, turn, key, clock).1.Ok?
    ensures AfterNap(hc, h, turn, key, clock).1.value.status == StatusNap
            <==> DreamRefused(h.sched, clock.first) || !FitsAlone(hc.loop, TokensOf(h.loop, key))
  {
    var (dreamer, dreamt) := Dream(hc, h, turn.session, Some((0, false)), clock.first, clock.now);
    DreamAnswers(hc, h, turn.session, clock.first, clock.now);
    AgainNapsIfFull(hc, dreamer, turn, key, clock, dreamt.value);
    if dreamt.value.Dreamed? {
      DreamEmptiesWorkingSet(hc, h, seen, actions, turn.session, Some((0, false)), clock.first, clock.now);
      DreamKept(hc, h, seen, actions, turn.session, Some((0, false)), clock.first, clock.now);
      EmptyFits(hc.loop, dreamer.loop, turn.session, TokensOf(h.loop, key));
    }
  }

  /** Expressing a turn leaves its session's working set, and counts the tokens of its value. */
  lemma ExpressedTokens(hc: HostConfig, h: Host, turn: Turn, key: string)
    requires Express(hc.loop, h.loop, turn.session, key, hc.turnValue(turn.text, turn.action), ActorOf(hc, turn), turn.tags, 1.0, 1.0).1.Ok?
    ensures var next := AfterExpress(hc, h, turn, key);
            && key in next.loop.payload && next.sched == h.sched
            && WorkingOf(next.loop, turn.session) == WorkingOf(h.loop, turn.session)
            && TokensOf(next.loop, key) == EstimateTokens(hc.loop, hc.turnValue(turn.text, turn.action))
  {
  }

  /** When a turn of a host naps: its session is full, and the dream is refused or cannot help. */
  predicate MustNap(hc: HostConfig, h: Host, turn: Turn, clock: Clock)
    requires Scheduler.Housed(h.sched.reg)
  {
    var tokens := EstimateTokens(hc.loop, hc.turnValue(turn.text, turn.action));
    && Full(hc.loop, h.loop, turn.session, tokens)
    && (DreamRefused(h.sched, clock.first) || !FitsAlone(hc.loop, tokens))
  }

  lemma AdmitTurnNaps(hc: HostConfig, h: Host, turn: Turn, key: string, clock: Clock, seen: nat, actions: set<string>)
    requires Reasonable(hc) && Scheduler.Housed(h.sched.reg) && !hc.loop.blank(turn.session)
    requires Kept(hc, h.loop, h.db, h.count, seen, actions) && key in h.loop.payload
    requires Lookup(h.loop.phase, key) == Some(Derivation) && Owned(h.loop, turn.session, key)
    requires AdmitTurn(hc, h, turn, key, clock).1.Ok?
    ensures AdmitTurn(hc, h, turn, key, clock).1.value.status == StatusNap
            <==> && Full(hc.loop, h.loop, turn.session, TokensOf(h.loop, key))
                 && (DreamRefused(h.sched, clock.first) || !FitsAlone(hc.loop, TokensOf(h.loop, key)))
  {
    AdmitKept(hc, h.loop, h.db, h.count, seen, actions, turn.session, key, ActorOf(hc, turn));
    AdmitNapsIfFull(hc.loop, h.loop, turn.session, key, ActorOf(hc, turn));
    var (loop, r) := Admit(hc.loop, h.loop, turn.session, key, ActorOf(hc, turn));
    var next := h.(loop := loop);
    if r.value == Admitted {
      FinishIsNoNap(hc, next, turn, key, clock, false);
    } else {
      assert AdmitTurn(hc, h, turn, key, clock) == AfterNap(hc, next, turn, key, clock);
      SecondNap(hc, next, turn, key, clock, seen, actions);
    }
  }

  /** In every run of a fresh host, a turn that does not fail ends as a nap if and only if its
      session's working set is full and either the scheduler refuses the dream or the turn would
      not even fit into an empty working set. */
  lemma NapsOnlyForARefusedDream(hc: HostConfig, h: Host, calls: seq<Call>, turn: Turn, clock: Clock)
    requires Reasonable(hc) && Fresh(hc, h) && Apart(hc, ActionsOf(calls), |calls|)
    requires ObserveTurn(hc, Run(hc, h, calls), turn, clock).1.Ok?
    ensures ObserveTurn(hc, Run(hc, h, calls), turn, clock).1.value.status == StatusNap
            <==> MustNap(hc, Run(hc, h, calls), turn, clock)
  {
    var before := Run(hc, h, calls);
    RunKept(hc, h, calls, ActionsOf(calls), |calls|);
    TurnNaps(hc, before, turn, clock, ActionsOf(calls));
  }

  lemma TurnNaps(hc: HostConfig, h: Host, turn: Turn, clock: Clock, actions: set<string>)
    requires Reasonable(hc) && Scheduler.Housed(h.sched.reg) && Kept(hc, h.loop, h.db, h.count, h.count, actions)
    requires ObserveTurn(hc, h, turn, clock).1.Ok?
    ensures ObserveTurn(hc, h, turn, clock).1.value.status == StatusNap <==> MustNap(hc, h, turn, clock)
  {
    var key := TurnKey(hc, turn.session, h.count + 1, turn.text, turn.action);
    TurnExpresses(hc, h, turn, key, actions);
    TurnUnfolds(hc, h, turn, key, clock);
    ExpressedTokens(hc, h, turn, key);
    AdmitTurnNaps(hc, AfterExpress(hc, h, turn, key), turn, key, clock, h.count, actions);
  }

  // ---- opening ------------------------------------------------------------------------

  /** Opening a host over a sound store, old or new, starts a fresh host. */
  lemma OpenIsFresh(hc: HostConfig, db: Dreamcatcher.Db, c: Dreamcatcher.Picture)
    requires Dreamcatcher.Depicts(hc.d, db, c)
    ensures Fresh(hc, Open(hc, db)) && Unleased(Open(hc, db).sched)
  {
    OpenDepicts(hc, db, c);
    OpenIsSound(hc, db);
  }

  lemma OpenDepicts(hc: HostConfig, db: Dreamcatcher.Db, c: Dreamcatcher.Picture)
    requires Dreamcatcher.Depicts(hc.d, db, c)
    ensures exists x :: Dreamcatcher.Depicts(hc.d, Open(hc, db).db, x)
  {
    Dreamcatcher.CreateRefines(hc.d, db, c, hc.branch, hc.actor);
    var created := Dreamcatcher.CreateBranch(hc.d, db, hc.branch, hc.actor).1.Ok?;
    assert Dreamcatcher.Depicts(hc.d, Open(hc, db).db, if created then c[hc.branch := map[]] else c);
  }

  lemma OpenIsSound(hc: HostConfig, db: Dreamcatcher.Db)
    ensures Unleased(Open(hc, db).sched)
  {
    DefaultRegistryIsSound();
  }

  lemma DefaultRegistryIsSound()
    ensures Unleased(IdleScheduler.Sched(DefaultRegistry(), 60000, 1, 0, false, None, 0))
  {
    var s := IdleScheduler.Sched(Scheduler.EmptyRegistry, 60000, 1, 0, false, None, 0);
    var a := Scheduler.RegisterDrive(Scheduler.EmptyRegistry, "system-stability", None, 0, true).0;
    var b := Scheduler.RegisterDrive(a, "task-fulfillment", None, 1, true).0;
    var e := Scheduler.RegisterDrive(b, "epigenetic-optimization", None, 2, true).0;
    SchedulerRuns.NewDriveFacts(Scheduler.EmptyRegistry, "system-stability", None, 0, true);
    SchedulerRuns.NewDriveFacts(a, "task-fulfillment", None, 1, true);
    SchedulerRuns.NewDriveFacts(b, "epigenetic-optimization", None, 2, true);
    SchedulerRuns.NewTaskFacts(s.(reg := e), Scheduler.TaskSpec("dream-cycle", "epigenetic-optimization", 0, {DreamCapability}, 0, 32, 1, true, true));
  }
}
