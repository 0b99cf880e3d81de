/** Two guarantees over whole scheduler runs: an eligible task is passed over only as often as
    the tasks ahead of it still have attempts, and a task rests for its cooldown. */
module SchedulerFairness {
  import opened Common
  import opened Scheduler
  import opened IdleScheduler
  import opened SchedulerRuns
  import opened SchedulerLedger

  // ---- starvation ---------------------------------------------------------------------

  lemma {:induction false} RanksStay(reg: Registry, next: Registry, id: string)
    requires Forest(reg) && Forest(next) && KeepsDrives(reg, next) && id in reg.drives
    ensures Ranks(DrivePath(reg, id)) == Ranks(DrivePath(next, id))
    decreases Position(reg.driveOrder, id)
  {
    if reg.drives[id].parent.Some? {
      ParentIsEarlier(reg, id);
      RanksStay(reg, next, reg.drives[id].parent.value);
      RanksOfLonger(DrivePath(reg, reg.drives[id].parent.value), reg.drives[id]);
      RanksOfLonger(DrivePath(next, reg.drives[id].parent.value), next.drives[id]);
    }
  }

  lemma RanksOfLonger(path: seq<Drive>, drive: Drive)
    ensures Ranks(path + [drive]) == Ranks(path) + [drive.rank]
  {
  }

  predicate Ahead(reg: Registry, a: string, b: string)
    requires Housed(reg) && a in reg.tasks && b in reg.tasks
  {
    Before(CandidateOf(reg, a), CandidateOf(reg, b))
  }

  lemma AheadStays(reg: Registry, next: Registry, leased: Option<Lease>, a: string, b: string)
    requires Housed(reg) && Housed(next) && KeepsOrder(reg, next, leased) && a in reg.tasks && b in reg.tasks
    ensures Ahead(reg, a, b) == Ahead(next, a, b)
  {
    RanksStay(reg, next, reg.tasks[a].driveId);
    RanksStay(reg, next, reg.tasks[b].driveId);
  }

  function AheadTerm(reg: Registry, id: string, x: string): int
    requires Housed(reg) && x in reg.tasks && id in reg.tasks
  {
    if Ahead(reg, id, x) then Remaining(reg.tasks[id]) else 0
  }

  function AheadTerms(reg: Registry, x: string): map<string, int>
    requires Housed(reg) && x in reg.tasks
  {
    map id | id in reg.tasks :: AheadTerm(reg, id, x)
  }

  /** The attempts left to the tasks that come before `x`. */
  function AheadBudget(reg: Registry, x: string): int
    requires Housed(reg) && x in reg.tasks
  {
    Sum(reg.taskOrder, AheadTerms(reg, x))
  }

  lemma TermFalls(reg: Registry, next: Registry, leased: Option<Lease>, id: string, x: string)
    requires Housed(reg) && Housed(next) && KeepsOrder(reg, next, leased) && id in reg.tasks && x in reg.tasks
    ensures AheadTerm(next, id, x) == AheadTerm(reg, id, x)
              - if leased.Some? && leased.value.task == id && Ahead(reg, id, x) then 1 else 0
  {
    AheadStays(reg, next, leased, id, x);
  }

  /** The call issues a lease to another task although `x` was eligible. */
  ghost predicate PassesOver(w: World, event: Event, x: string)
    requires Ledger(w)
  {
    && event.call.DoPromote? && x in w.s.reg.tasks
    && Do(w.s, event.call, event.now).leased.Some?
    && Do(w.s, event.call, event.now).leased.value.task != x
    && ExpiredEligible(w.s, x, event)
  }

  ghost predicate ExpiredEligible(s: Sched, x: string, event: Event)
    requires event.call.DoPromote?
  {
    var reg := ExpireActive(s, event.now).s.reg;
    Housed(reg) && x in reg.tasks && Eligible(reg, x, event.now, event.call.capabilities)
  }

  /** A lease goes to the selected task, so an eligible task can only lose to one ahead of it. */
  lemma LoserIsBehind(w: World, event: Event, x: string)
    requires Ledger(w) && PassesOver(w, event, x)
    ensures var y := Do(w.s, event.call, event.now).leased.value.task;
            y in w.s.reg.tasks && Ahead(w.s.reg, y, x)
  {
    var e, y := ExpireActive(w.s, event.now), Do(w.s, event.call, event.now).leased.value.task;
    ExpireFacts(w.s, event.now);
    ExpireKeeps(w.s, event.now);
    LeasedIsSelected(w.s, event.call.capabilities, event.now);
    SelectionIsMinimum(e.s.reg, event.now, event.call.capabilities);
    AheadStays(w.s.reg, e.s.reg, None, y, x);
  }

  lemma LeasedIsSelected(s: Sched, capabilities: set<string>, now: int)
    requires Inv(s) && now >= 0 && TryPromote(s, capabilities, now).leased.Some?
    ensures Housed(ExpireActive(s, now).s.reg)
    ensures SelectCandidate(ExpireActive(s, now).s.reg, now, capabilities).Some?
    ensures SelectCandidate(ExpireActive(s, now).s.reg, now, capabilities).value.id == TryPromote(s, capabilities, now).leased.value.task
  {
    ExpireFacts(s, now);
    PromoteUnfolds(s, capabilities, now);
  }

  lemma StepSpendsAhead(w: World, event: Event, x: string)
    requires Ledger(w) && Steady(event.call) && x in w.s.reg.tasks
    ensures Ledger(Step(w, event)) && x in Step(w, event).s.reg.tasks
    ensures BudgetAheadOf(Step(w, event), x) + (if PassesOver(w, event, x) then 1 else 0) <= BudgetAheadOf(w, x)
  {
    StepKeepsLedger(w, event);
    SteadyKeeps(w.s, event.call, event.now);
    LeasedTaskKnown(w.s, event.call, event.now);
    if PassesOver(w, event, x) { LoserIsBehind(w, event, x); }
    AheadFalls(w.s.reg, Step(w, event).s.reg, Do(w.s, event.call, event.now).leased, x);
  }

  lemma TermsFall(reg: Registry, next: Registry, leased: Option<Lease>, x: string, spent: set<string>)
    requires Housed(reg) && Housed(next) && KeepsOrder(reg, next, leased) && x in reg.tasks
    requires leased.Some? ==> leased.value.task in reg.taskOrder
    requires spent == if leased.Some? && Ahead(reg, leased.value.task, x) then {leased.value.task} else {}
    ensures next.taskOrder == reg.taskOrder
    ensures forall id :: id in reg.taskOrder ==>
              id in AheadTerms(next, x) && id in AheadTerms(reg, x)
              && AheadTerms(next, x)[id] == AheadTerms(reg, x)[id] - if id in spent then 1 else 0
  {
    forall id | id in reg.taskOrder
      ensures AheadTerms(next, x)[id] == AheadTerms(reg, x)[id] - if id in spent then 1 else 0
    {
      TermFalls(reg, next, leased, id, x);
    }
  }

  lemma AheadFalls(reg: Registry, next: Registry, leased: Option<Lease>, x: string)
    requires Housed(reg) && Housed(next) && KeepsOrder(reg, next, leased) && x in reg.tasks
    requires leased.Some? ==> leased.value.task in reg.taskOrder
    ensures AheadBudget(next, x) == AheadBudget(reg, x)
              - if leased.Some? && Ahead(reg, leased.value.task, x) then 1 else 0
  {
    var y := if leased.Some? then leased.value.task else "";
    var spent := if leased.Some? && Ahead(reg, y, x) then {y} else {};
    TermsFall(reg, next, leased, x, spent);
    SumFalls(reg.taskOrder, AheadTerms(reg, x), AheadTerms(next, x), spent, y);
  }

  lemma AheadBudgetIsNat(reg: Registry, x: string)
    requires Housed(reg) && TasksBudgeted(reg) && x in reg.tasks
    ensures 0 <= AheadBudget(reg, x)
  {
    SumIsNat(reg.taskOrder, AheadTerms(reg, x));
  }

  function BudgetAheadOf(w: World, x: string): int
    requires Housed(w.s.reg) && x in w.s.reg.tasks
  {
    AheadBudget(w.s.reg, x)
  }

  ghost function PassOvers(w: World, events: seq<Event>, x: string): nat
    requires Ledger(w)
  {
    if events == [] then 0
    else
      var before := Run(w, events[..|events| - 1]);
      PassOvers(w, events[..|events| - 1], x) + if PassesOver(before, events[|events| - 1], x) then 1 else 0
  }

  /** No starvation: while tasks are neither registered nor rearmed, a task is passed over when
      it is eligible at most as often as the tasks ahead of it had attempts left at the start. */
  lemma {:induction false} NoStarvation(w: World, events: seq<Event>, x: string)
    requires Ledger(w) && TasksBudgeted(w.s.reg) && SteadyRun(events) && x in w.s.reg.tasks
    ensures x in Run(w, events).s.reg.tasks
    ensures 0 <= BudgetAheadOf(Run(w, events), x)
    ensures PassOvers(w, events, x) + BudgetAheadOf(Run(w, events), x) <= BudgetAheadOf(w, x)
  {
    if events != [] {
      var front, last := events[..|events| - 1], events[|events| - 1];
      NoStarvation(w, front, x);
      StepSpendsAhead(Run(w, front), last, x);
    }
    PromotionsSpendBudget(w, events);
    AheadBudgetIsNat(Run(w, events).s.reg, x);
  }

  // ---- rest ---------------------------------------------------------------------------

  ghost predicate LastSettlement(w: World, i: int, x: string) {
    && 0 <= i < |w.settlements| && w.settlements[i].task == x
    && forall j :: i < j < |w.settlements| ==> w.settlements[j].task != x
  }

  /** Lease `j` is the next lease of the task of lease `i`. */
  ghost predicate NextLease(w: World, i: int, j: int) {
    && 0 <= i < j < |w.leases| && w.leases[i].task == w.leases[j].task
    && forall k :: i < k < j ==> w.leases[k].task != w.leases[j].task
  }

  /** Every lease of `x` but the first comes a cooldown after the settlement before it, and so
      will the next. */
  ghost predicate Rested(w: World, x: string) {
    && (x !in w.s.reg.tasks ==> forall i :: 0 <= i < |w.leases| ==> w.leases[i].task != x)
    && (x in w.s.reg.tasks ==> LeasesRest(w, x) && NextRests(w, x, w.s.reg.tasks[x]))
  }

  ghost predicate LeasesRest(w: World, x: string)
    requires x in w.s.reg.tasks
  {
    forall i, j :: NextLease(w, i, j) && w.leases[j].task == x ==>
      i < |w.settlements| && w.leases[j].at >= w.settlements[i].at + w.s.reg.tasks[x].cooldownMs
  }

  ghost predicate NextRests(w: World, x: string, t: Task) {
    forall i :: LastSettlement(w, i, x) && t.status == Ready ==> t.nextEligibleAt == w.settlements[i].at + t.cooldownMs
  }

  /** What a call does to a task that it does not rearm. */
  ghost predicate TaskMove(t: Task, u: Task, settled: bool, leased: bool, now: int) {
    && u.cooldownMs == t.cooldownMs
    && (settled && u.status == Ready ==> u.nextEligibleAt == now + t.cooldownMs)
    && (leased ==> u.status == Leased && now >= if settled then now + t.cooldownMs else t.nextEligibleAt)
    && (leased && !settled ==> t.status == Ready)
    && (!leased && !settled && u.status == Ready ==> t.status == Ready && u.nextEligibleAt == t.nextEligibleAt)
  }

  predicate Of(x: string, settled: Option<Settlement>) { settled.Some? && settled.value.task == x }

  predicate Takes(x: string, leased: Option<Lease>) { leased.Some? && leased.value.task == x }

  ghost predicate Moves(s: Sched, e: Effect, x: string, now: int) {
    x in s.reg.tasks && x in e.s.reg.tasks
    && TaskMove(s.reg.tasks[x], e.s.reg.tasks[x], Of(x, e.settled), Takes(x, e.leased), now)
  }

  lemma CloseMoves(s: Sched, outcome: Outcome, x: string, now: int)
    requires Inv(s) && s.active.Some? && !outcome.Unknown? && now >= 0 && x in s.reg.tasks
    ensures Moves(s, Close(s, outcome, now), x, now)
  {
    CloseFacts(s, outcome, now);
  }

  lemma ExpireMoves(s: Sched, x: string, now: int)
    requires Inv(s) && now >= 0 && x in s.reg.tasks
    ensures Moves(s, ExpireActive(s, now), x, now)
  {
    if s.active.Some? { CloseMoves(s, Expired, x, now); }
  }

  lemma PromotedMoves(s: Sched, e: Effect, f: Effect, x: string, now: int)
    requires Moves(s, e, x, now) && e.leased == None && Promoted(e, f, now)
    requires f.leased.Some? ==>
               && f.leased.value.task in e.s.reg.tasks && e.s.reg.tasks[f.leased.value.task].status == Ready
               && now >= e.s.reg.tasks[f.leased.value.task].nextEligibleAt
    ensures Moves(s, f, x, now)
  {
  }

  lemma PromoteMoves(s: Sched, capabilities: set<string>, x: string, now: int)
    requires Inv(s) && now >= 0 && x in s.reg.tasks
    ensures Moves(s, TryPromote(s, capabilities, now), x, now)
  {
    var e, f := ExpireActive(s, now), TryPromote(s, capabilities, now);
    ExpireFacts(s, now);
    ExpireMoves(s, x, now);
    PromoteUnfolds(s, capabilities, now);
    PromoteStep(e, capabilities, now);
    if f.leased.Some? {
      LeasedIsSelected(s, capabilities, now);
      SelectionIsMinimum(e.s.reg, now, capabilities);
    }
    PromotedMoves(s, e, f, x, now);
  }

  lemma ObserveMoves(s: Sched, queueDepth: int, primaryActive: bool, x: string, now: int)
    requires Inv(s) && now >= 0 && x in s.reg.tasks
    ensures Moves(s, ObserveExternal(s, queueDepth, primaryActive, now), x, now)
  {
    if queueDepth >= 0 {
      if queueDepth == 0 && !primaryActive {
        ExpireMoves(s.(idle := true), x, now);
      } else if s.active.Some? {
        CloseMoves(s.(promotions := 0), Abandoned, x, now);
        CloseFacts(s.(promotions := 0), Abandoned, now);
      }
    }
  }

  lemma SettleMoves(s: Sched, lease: nat, outcome: Outcome, x: string, now: int)
    requires Inv(s) && now >= 0 && x in s.reg.tasks
    ensures Moves(s, SettleLease(s, lease, outcome, now), x, now)
  {
    ExpireFacts(s, now);
    ExpireMoves(s, x, now);
    var e := ExpireActive(s, now);
    if e.s.active.Some? && e.s.active.value.lease == lease && !outcome.Unknown? {
      assert e.s == s;
      CloseMoves(s, outcome, x, now);
    } else {
      assert SettleLease(s, lease, outcome, now).s == e.s;
    }
  }

  predicate Rearms(call: Call, x: string) { call.DoRearm? && call.id == x }

  lemma RegistryMoves(s: Sched, call: Call, x: string, now: int)
    requires Housed(s.reg) && OnRegistryOnly(call) && !Rearms(call, x) && x in s.reg.tasks
    ensures x in Do(s, call, now).s.reg.tasks
    ensures TaskMove(s.reg.tasks[x], Do(s, call, now).s.reg.tasks[x], false, false, now)
  {
    match call
    case DoRegisterDrive(_, _, _, _) =>
    case DoSetDrive(_, _) =>
    case DoRegisterTask(_) =>
    case DoSetTask(_, _) =>
    case DoRearm(_, _, _) =>
  }

  lemma CallMoves(s: Sched, call: Call, x: string, now: int)
    requires Inv(s) && now >= 0 && !Rearms(call, x) && x in s.reg.tasks
    ensures Moves(s, Do(s, call, now), x, now)
  {
    match call
    case DoObserve(queueDepth, primaryActive) => ObserveMoves(s, queueDepth, primaryActive, x, now);
    case DoPromote(capabilities) => PromoteMoves(s, capabilities, x, now);
    case DoSettle(lease, outcome) => SettleMoves(s, lease, outcome, x, now);
    case DoAbort => if s.active.Some? { CloseMoves(s, Abandoned, x, now); }
    case DoLook => ExpireMoves(s, x, now);
    case _ => RegistryMoves(s, call, x, now); RegistryFacts(s, call, now);
  }

  /** How the ledger grew, without the state behind it. */
  ghost predicate Extends(w: World, next: World, settled: Option<Settlement>, leased: Option<Lease>, now: int) {
    && next.leases == w.leases + Entry(leased)
    && next.settlements == w.settlements + Entry(settled)
    && (settled.Some? ==> settled.value.at == now)
    && (leased.Some? ==> leased.value.at == now && |next.settlements| == |w.leases|)
  }

  lemma OldNextLease(w: World, next: World, settled: Option<Settlement>, leased: Option<Lease>, now: int, i: int, j: int)
    requires Extends(w, next, settled, leased, now) && NextLease(next, i, j) && j < |w.leases|
    ensures NextLease(w, i, j)
  {
    forall k | i < k < j ensures w.leases[k].task != w.leases[j].task {
      assert next.leases[k] == w.leases[k];
    }
  }

  lemma OldLastSettlement(w: World, next: World, settled: Option<Settlement>, leased: Option<Lease>, now: int, i: int, x: string)
    requires Extends(w, next, settled, leased, now) && LastSettlement(next, i, x) && i < |w.settlements|
    ensures LastSettlement(w, i, x) && !Of(x, settled) && next.settlements[i] == w.settlements[i]
  {
    forall k | i < k < |w.settlements| ensures w.settlements[k].task != x {
      assert next.settlements[k] == w.settlements[k];
    }
    if settled.Some? { assert next.settlements[|w.settlements|] == settled.value; }
  }

  lemma LeaseAfterRest(w: World, next: World, settled: Option<Settlement>, leased: Option<Lease>, now: int, x: string,
                       t: Task, u: Task, i: int)
    requires Extends(w, next, settled, leased, now) && Numbered(next)
    requires NextRests(w, x, t) && TaskMove(t, u, Of(x, settled), Takes(x, leased), now)
    requires Takes(x, leased) && NextLease(next, i, |w.leases|)
    ensures i < |next.settlements| && next.leases[|w.leases|].at >= next.settlements[i].at + u.cooldownMs
  {
    assert next.leases[|w.leases|] == leased.value;
    assert LastSettlement(next, i, x) by {
      assert next.settlements[i].task == next.leases[i].task;
      forall k | i < k < |next.settlements| ensures next.settlements[k].task != x {
        assert next.settlements[k].task == next.leases[k].task;
      }
    }
    if i < |w.settlements| { OldLastSettlement(w, next, settled, leased, now, i, x); }
  }

  lemma StepKeepsRest(w: World, event: Event, x: string)
    requires Ledger(w) && !Rearms(event.call, x) && Rested(w, x)
    ensures Rested(Step(w, event), x)
  {
    var e, next := Do(w.s, event.call, event.now), Step(w, event);
    CallFacts(w.s, event.call, event.now);
    StepKeepsLedger(w, event);
    assert Extends(w, next, e.settled, e.leased, event.now);
    if x in w.s.reg.tasks {
      CallMoves(w.s, event.call, x, event.now);
      GrowthKeepsRest(w, next, e.settled, e.leased, event.now, x);
    } else {
      UnknownStaysUnleased(w, next, e.settled, e.leased, event.now, x);
    }
  }

  lemma GrowthKeepsRest(w: World, next: World, settled: Option<Settlement>, leased: Option<Lease>, now: int, x: string)
    requires Extends(w, next, settled, leased, now) && Numbered(w) && Numbered(next)
    requires x in w.s.reg.tasks && x in next.s.reg.tasks && Rested(w, x)
    requires TaskMove(w.s.reg.tasks[x], next.s.reg.tasks[x], Of(x, settled), Takes(x, leased), now)
    ensures Rested(next, x)
  {
    var t, u := w.s.reg.tasks[x], next.s.reg.tasks[x];
    forall i, j | NextLease(next, i, j) && next.leases[j].task == x
      ensures i < |next.settlements| && next.leases[j].at >= next.settlements[i].at + u.cooldownMs
    {
      if j < |w.leases| {
        OldNextLease(w, next, settled, leased, now, i, j);
        assert next.leases[j] == w.leases[j] && next.settlements[i] == w.settlements[i];
      } else {
        LeaseAfterRest(w, next, settled, leased, now, x, t, u, i);
      }
    }
    forall i | LastSettlement(next, i, x) && u.status == Ready ensures u.nextEligibleAt == next.settlements[i].at + u.cooldownMs {
      if i < |w.settlements| { OldLastSettlement(w, next, settled, leased, now, i, x); }
    }
  }

  lemma UnknownStaysUnleased(w: World, next: World, settled: Option<Settlement>, leased: Option<Lease>, now: int, x: string)
    requires Extends(w, next, settled, leased, now) && Numbered(next)
    requires x !in w.s.reg.tasks && Rested(w, x)
    requires leased.Some? ==> leased.value.task in w.s.reg.tasks
    ensures Rested(next, x)
  {
    forall i | 0 <= i < |next.leases| ensures next.leases[i].task != x {
      if i < |w.leases| { assert next.leases[i] == w.leases[i]; }
    }
  }

  /** Rest: in every run from a fresh scheduler that never rearms `x`, each further lease of `x`
      comes at least its cooldown after the settlement of its previous lease. */
  lemma {:induction false} TasksRest(leaseDuration: int, maxPromotions: int, events: seq<Event>, x: string)
    requires 1 <= leaseDuration && 1 <= maxPromotions
    requires forall i :: 0 <= i < |events| ==> !Rearms(events[i].call, x)
    ensures Ledger(Fresh(leaseDuration, maxPromotions))
    ensures Rested(Run(Fresh(leaseDuration, maxPromotions), events), x)
  {
    FreshIsSound(leaseDuration, maxPromotions);
    if events != [] {
      var front, last := events[..|events| - 1], events[|events| - 1];
      TasksRest(leaseDuration, maxPromotions, front, x);
      StepKeepsRest(Run(Fresh(leaseDuration, maxPromotions), front), last, x);
    }
  }
}
