/** Whole runs of the idle scheduler, recorded in a ledger of leases and settlements: each lease
    is settled once, promotions stay within the epoch cap and the tasks' budgets, a task rests
    between settlement and next lease, and no eligible task is passed over forever. */
module SchedulerLedger {
  import opened Common
  import opened Scheduler
  import opened IdleScheduler
  import opened SchedulerRuns

  /** The scheduler with every lease and settlement so far; `epoch` counts the leases issued
      before the last observation of outside activity. */
  datatype World = World(s: Sched, leases: seq<Lease>, settlements: seq<Settlement>, epoch: nat)

  datatype Event = Event(call: Call, now: nat)

  function Entry<T>(x: Option<T>): seq<T> { if x.Some? then [x.value] else [] }

  predicate SeesActivity(call: Call) {
    call.DoObserve? && call.queueDepth >= 0 && !(call.queueDepth == 0 && !call.primaryActive)
  }

  function Step(w: World, event: Event): World
    requires Housed(w.s.reg)
  {
    var e := Do(w.s, event.call, event.now);
    World(e.s, w.leases + Entry(e.leased), w.settlements + Entry(e.settled),
          if SeesActivity(event.call) then |w.leases| else w.epoch)
  }

  /** Leases are numbered from one, settled in order, each once, all but the active one, and
      those of the current epoch are exactly the counted promotions. */
  ghost predicate Numbered(w: World) {
    && |w.leases| == w.s.leaseSequence
    && (forall i :: 0 <= i < |w.leases| ==> w.leases[i].id == i + 1)
    && |w.settlements| + (if w.s.active.Some? then 1 else 0) == |w.leases|
    && (forall i :: 0 <= i < |w.settlements| ==>
          w.settlements[i].lease == i + 1 && w.settlements[i].task == w.leases[i].task && !w.settlements[i].outcome.Unknown?)
    && (w.s.active.Some? ==> w.s.active.value.task == w.leases[|w.leases| - 1].task)
    && w.epoch + w.s.promotions == |w.leases|
    && (w.s.active.Some? ==> w.s.active.value.lease == |w.leases|)
  }

  ghost predicate Ledger(w: World) { Inv(w.s) && Numbered(w) }

  lemma StepKeepsLedger(w: World, event: Event)
    requires Ledger(w)
    ensures Ledger(Step(w, event))
  {
    CallFacts(w.s, event.call, event.now);
    PromotionsCounted(w.s, event.call, event.now);
    LedgerGrows(w, Step(w, event), Do(w.s, event.call, event.now), event);
  }

  lemma PromotionsCounted(s: Sched, call: Call, now: int)
    requires Inv(s) && now >= 0
    ensures var e := Do(s, call, now);
            e.s.promotions == (if SeesActivity(call) then 0 else s.promotions) + |Entry(e.leased)|
    ensures SeesActivity(call) ==> Do(s, call, now).leased == None
  {
    match call
    case DoObserve(queueDepth, primaryActive) => ObserveFacts(s, queueDepth, primaryActive, now);
    case DoPromote(capabilities) => PromotePromotions(s, capabilities, now);
    case DoSettle(lease, outcome) => SettleFacts(s, lease, outcome, now);
    case DoAbort => if s.active.Some? { CloseFacts(s, Abandoned, now); }
    case DoLook => ExpireSane(s, now); ExpireFacts(s, now);
    case _ => RegistryFacts(s, call, now);
  }

  lemma PromotePromotions(s: Sched, capabilities: set<string>, now: int)
    requires Inv(s) && now >= 0
    ensures var e := TryPromote(s, capabilities, now); e.s.promotions == s.promotions + |Entry(e.leased)|
  {
    var e, f := ExpireActive(s, now), TryPromote(s, capabilities, now);
    ExpireFacts(s, now);
    ExpireSane(s, now);
    PromoteUnfolds(s, capabilities, now);
    PromoteStep(e, capabilities, now);
  }

  lemma LedgerGrows(w: World, next: World, e: Effect, event: Event)
    requires Numbered(w) && Sane(w.s, e, event.now)
    requires e.s.promotions == (if SeesActivity(event.call) then 0 else w.s.promotions) + |Entry(e.leased)|
    requires SeesActivity(event.call) ==> e.leased == None
    requires next == World(e.s, w.leases + Entry(e.leased), w.settlements + Entry(e.settled),
                           if SeesActivity(event.call) then |w.leases| else w.epoch)
    ensures Numbered(next)
  {
    forall i | 0 <= i < |next.settlements|
      ensures next.settlements[i].lease == i + 1 && next.settlements[i].task == next.leases[i].task && !next.settlements[i].outcome.Unknown?
    {
      if i < |w.settlements| { assert next.settlements[i] == w.settlements[i] && next.leases[i] == w.leases[i]; }
    }
  }

  function Run(w: World, events: seq<Event>): (r: World)
    requires Ledger(w)
    ensures Ledger(r)
  {
    if events == [] then w
    else
      var before := Run(w, events[..|events| - 1]);
      StepKeepsLedger(before, events[|events| - 1]);
      Step(before, events[|events| - 1])
  }

  function Fresh(leaseDuration: int, maxPromotions: int): World {
    World(Sched(EmptyRegistry, leaseDuration, maxPromotions, 0, false, None, 0), [], [], 0)
  }

  lemma FreshIsSound(leaseDuration: int, maxPromotions: int)
    requires 1 <= leaseDuration && 1 <= maxPromotions
    ensures Ledger(Fresh(leaseDuration, maxPromotions))
  {
  }

  ghost predicate Settles(w: World, lease: nat, i: int) {
    0 <= i < |w.settlements| && w.settlements[i].lease == lease
  }

  ghost predicate Unsettled(w: World, lease: nat) {
    forall k :: !Settles(w, lease, k)
  }

  ghost predicate SettledOnce(w: World, lease: nat) {
    exists k :: Settles(w, lease, k) && (forall j :: Settles(w, lease, j) ==> j == k)
  }

  ghost predicate ActiveLease(w: World, lease: nat) {
    w.s.active.Some? && w.s.active.value.lease == lease
  }

  /** The lease protocol, over every run from a fresh scheduler: every lease issued is either the
      active one and unsettled, or has exactly one settlement; at most one task is leased, that
      of the active lease, only while idle; and an epoch never exceeds its cap. */
  lemma LeaseProtocol(leaseDuration: int, maxPromotions: int, events: seq<Event>)
    requires 1 <= leaseDuration && 1 <= maxPromotions
    ensures Ledger(Fresh(leaseDuration, maxPromotions))
    ensures var w := Run(Fresh(leaseDuration, maxPromotions), events);
            && (forall i :: 0 <= i < |w.leases| ==>
                  if ActiveLease(w, w.leases[i].id) then Unsettled(w, w.leases[i].id) else SettledOnce(w, w.leases[i].id))
            && SoleLease(w.s)
            && (w.s.active.Some? ==> w.s.idle)
            && |w.leases| - w.epoch <= w.s.maxPromotions
  {
    FreshIsSound(leaseDuration, maxPromotions);
    var w := Run(Fresh(leaseDuration, maxPromotions), events);
    forall i | 0 <= i < |w.leases|
      ensures if ActiveLease(w, w.leases[i].id) then Unsettled(w, w.leases[i].id) else SettledOnce(w, w.leases[i].id)
    {
      LeaseSettledOnce(w, i);
    }
  }

  lemma LeaseSettledOnce(w: World, i: nat)
    requires Numbered(w) && i < |w.leases|
    ensures if ActiveLease(w, w.leases[i].id) then Unsettled(w, w.leases[i].id) else SettledOnce(w, w.leases[i].id)
  {
    var lease := w.leases[i].id;
    assert lease == i + 1;
    forall k | Settles(w, lease, k) ensures k == i {
      assert w.settlements[k].lease == k + 1;
    }
    if ActiveLease(w, lease) {
      assert |w.settlements| == i;
    } else {
      assert Settles(w, lease, i);
    }
  }

  // ---- budgets ------------------------------------------------------------------------

  function Remaining(t: Task): int { t.maxAttempts - t.attempts }

  function Sum(ids: seq<string>, amounts: map<string, int>): int
    requires forall id :: id in ids ==> id in amounts
  {
    if ids == [] then 0 else Sum(ids[..|ids| - 1], amounts) + amounts[ids[|ids| - 1]]
  }

  lemma {:induction false} SumFalls(ids: seq<string>, a: map<string, int>, b: map<string, int>, spent: set<string>, id: string)
    requires NoDuplicates(ids) && forall x :: x in ids ==> x in a && x in b && b[x] == a[x] - (if x in spent then 1 else 0)
    requires spent <= {id}
    ensures Sum(ids, b) == Sum(ids, a) - (if id in spent && id in ids then 1 else 0)
  {
    if ids != [] {
      SumFalls(ids[..|ids| - 1], a, b, spent, id);
      assert ids == ids[..|ids| - 1] + [ids[|ids| - 1]];
    }
  }

  lemma {:induction false} SumIsNat(ids: seq<string>, a: map<string, int>)
    requires forall x :: x in ids ==> x in a && a[x] >= 0
    ensures 0 <= Sum(ids, a)
  {
    if ids != [] { SumIsNat(ids[..|ids| - 1], a); }
  }

  function Budgets(reg: Registry): map<string, int> {
    map id | id in reg.tasks :: Remaining(reg.tasks[id])
  }

  function TotalBudget(reg: Registry): int
    requires Housed(reg)
  {
    Sum(reg.taskOrder, Budgets(reg))
  }

  /** No call of the run is a rejected rearm of the spoiling kind. */
  ghost predicate Unspoiled(w: World, events: seq<Event>)
    requires Ledger(w)
  {
    forall i :: 0 <= i < |events| ==> !SpoilsBudget(Run(w, events[..i]).s.reg, events[i].call)
  }

  ghost predicate AlwaysBudgeted(w: World, events: seq<Event>)
    requires Ledger(w)
  {
    forall i :: 0 <= i <= |events| ==> TasksBudgeted(Run(w, events[..i]).s.reg)
  }

  lemma NextOfRun(w: World, events: seq<Event>, i: nat)
    requires Ledger(w) && i < |events|
    ensures Run(w, events[..i + 1]) == Step(Run(w, events[..i]), events[i])
  {
    assert events[..i + 1][..i] == events[..i];
  }

  /** Over every run of a fresh scheduler, with registrations, rearms and all: every task stays
      within its budget at all times if and only if no call is of the spoiling kind. */
  lemma RunsKeepBudgets(leaseDuration: int, maxPromotions: int, events: seq<Event>)
    requires 1 <= leaseDuration && 1 <= maxPromotions
    ensures Ledger(Fresh(leaseDuration, maxPromotions))
    ensures AlwaysBudgeted(Fresh(leaseDuration, maxPromotions), events) <==> Unspoiled(Fresh(leaseDuration, maxPromotions), events)
  {
    FreshIsSound(leaseDuration, maxPromotions);
    var w := Fresh(leaseDuration, maxPromotions);
    StartIsBudgeted(w, events);
    if Unspoiled(w, events) {
      forall i | 0 <= i <= |events| ensures TasksBudgeted(Run(w, events[..i]).s.reg) {
        UnspoiledPrefix(w, events, i);
        assert BudgetedAfter(w, events, i);
      }
    }
    if AlwaysBudgeted(w, events) {
      forall i | 0 <= i < |events| ensures !SpoilsBudget(Run(w, events[..i]).s.reg, events[i].call) {
        assert TasksBudgeted(Run(w, events[..i]).s.reg) && TasksBudgeted(Run(w, events[..i + 1]).s.reg);
        NextIsBudgeted(w, events, i);
      }
    }
  }

  lemma StartIsBudgeted(w: World, events: seq<Event>)
    requires Ledger(w) && TasksBudgeted(w.s.reg)
    ensures BudgetedAfter(w, events, 0)
  {
  }

  /** The tasks are within their budgets after the first calls of a run. */
  ghost predicate BudgetedAfter(w: World, events: seq<Event>, i: nat)
    requires Ledger(w) && i <= |events|
  {
    forall reg :: reg == Run(w, events[..i]).s.reg ==> TasksBudgeted(reg)
  }

  lemma {:induction false} UnspoiledPrefix(w: World, events: seq<Event>, i: nat)
    requires Ledger(w) && BudgetedAfter(w, events, 0) && Unspoiled(w, events) && i <= |events|
    ensures BudgetedAfter(w, events, i)
  {
    if i > 0 {
      UnspoiledPrefix(w, events, i - 1);
      NextIsBudgeted(w, events, i - 1);
    }
  }

  /** The next call of a run leaves the tasks within their budgets unless it is of the spoiling kind. */
  lemma NextIsBudgeted(w: World, events: seq<Event>, i: nat)
    requires Ledger(w) && i < |events| && BudgetedAfter(w, events, i)
    ensures BudgetedAfter(w, events, i + 1) <==> !SpoilsBudget(Run(w, events[..i]).s.reg, events[i].call)
  {
    var before := Run(w, events[..i]);
    NextOfRun(w, events, i);
    assert TasksBudgeted(before.s.reg);
    StepKeepsBudgets(before, events[i]);
  }

  lemma StepKeepsBudgets(w: World, event: Event)
    requires Ledger(w) && TasksBudgeted(w.s.reg)
    ensures TasksBudgeted(Step(w, event).s.reg) <==> !SpoilsBudget(w.s.reg, event.call)
  {
    BudgetsKept(w.s, event.call, event.now);
  }

  /** A steady call neither registers nor rearms a task. */
  predicate Steady(call: Call) { !call.DoRegisterTask? && !call.DoRearm? }

  /** What a steady call may do to a task: everything that orders it stays, and its remaining
      attempts shrink by one exactly if it is leased. */
  ghost predicate Keeps(a: Task, b: Task, leases: int) {
    && OnlyStatus(a, b) && b.maxAttempts == a.maxAttempts && b.cooldownMs == a.cooldownMs
    && b.attempts == a.attempts + leases
  }

  ghost predicate KeepsTasks(reg: Registry, next: Registry, leased: Option<Lease>) {
    && next.taskOrder == reg.taskOrder && next.tasks.Keys == reg.tasks.Keys
    && forall id :: id in reg.tasks ==>
         Keeps(reg.tasks[id], next.tasks[id], if leased.Some? && leased.value.task == id then 1 else 0)
  }

  /** Drives keep their parent and rank; new ones may appear. */
  ghost predicate KeepsDrives(reg: Registry, next: Registry) {
    forall id :: id in reg.drives ==>
      && id in next.drives
      && next.drives[id].parent == reg.drives[id].parent && next.drives[id].rank == reg.drives[id].rank
  }

  ghost predicate KeepsOrder(reg: Registry, next: Registry, leased: Option<Lease>) {
    KeepsTasks(reg, next, leased) && KeepsDrives(reg, next)
  }

  lemma CloseKeeps(s: Sched, outcome: Outcome, now: int)
    requires Inv(s) && s.active.Some? && !outcome.Unknown? && now >= 0
    ensures KeepsOrder(s.reg, Close(s, outcome, now).s.reg, None)
  {
    CloseFacts(s, outcome, now);
  }

  lemma ExpireKeeps(s: Sched, now: int)
    requires Inv(s) && now >= 0
    ensures KeepsOrder(s.reg, ExpireActive(s, now).s.reg, None)
  {
    if s.active.Some? { CloseKeeps(s, Expired, now); }
  }

  lemma PromoteKeeps(s: Sched, capabilities: set<string>, now: int)
    requires Inv(s) && now >= 0
    ensures var f := TryPromote(s, capabilities, now); KeepsOrder(s.reg, f.s.reg, f.leased)
  {
    ExpireFacts(s, now);
    ExpireKeeps(s, now);
    PromoteUnfolds(s, capabilities, now);
    PromoteStep(ExpireActive(s, now), capabilities, now);
    PromotedKeeps(s.reg, ExpireActive(s, now), TryPromote(s, capabilities, now), now);
  }

  lemma PromotedKeeps(reg: Registry, e: Effect, f: Effect, now: int)
    requires KeepsOrder(reg, e.s.reg, None) && e.leased == None && Promoted(e, f, now)
    ensures KeepsOrder(reg, f.s.reg, f.leased)
  {
  }

  lemma ObserveKeeps(s: Sched, queueDepth: int, primaryActive: bool, now: int)
    requires Inv(s) && now >= 0
    ensures KeepsOrder(s.reg, ObserveExternal(s, queueDepth, primaryActive, now).s.reg, None)
  {
    if queueDepth >= 0 {
      if queueDepth == 0 && !primaryActive {
        ExpireKeeps(s.(idle := true), now);
      } else if s.active.Some? {
        CloseKeeps(s.(promotions := 0), Abandoned, now);
        CloseFacts(s.(promotions := 0), Abandoned, now);
      }
    }
  }

  lemma KeepsOrderTransitive(a: Registry, b: Registry, c: Registry)
    requires KeepsOrder(a, b, None) && KeepsOrder(b, c, None)
    ensures KeepsOrder(a, c, None)
  {
  }

  lemma SettleKeeps(s: Sched, lease: nat, outcome: Outcome, now: int)
    requires Inv(s) && now >= 0
    ensures KeepsOrder(s.reg, SettleLease(s, lease, outcome, now).s.reg, None)
  {
    ExpireFacts(s, now);
    ExpireKeeps(s, now);
    var e := ExpireActive(s, now);
    if e.s.active.Some? && e.s.active.value.lease == lease && !outcome.Unknown? {
      CloseKeeps(e.s, outcome, now);
      KeepsOrderTransitive(s.reg, e.s.reg, Close(e.s, outcome, now).s.reg);
      assert SettleLease(s, lease, outcome, now) == Close(e.s, outcome, now);
    } else {
      assert SettleLease(s, lease, outcome, now).s == e.s;
    }
  }

  lemma RegistryKeeps(s: Sched, call: Call, now: int)
    requires Housed(s.reg) && Steady(call) && OnRegistryOnly(call)
    ensures KeepsOrder(s.reg, Do(s, call, now).s.reg, None)
  {
    match call
    case DoSetDrive(id, enabled) => SetDriveKeeps(s.reg, id, enabled);
    case DoSetTask(id, enabled) => SetTaskKeeps(s.reg, id, enabled);
    case DoRegisterDrive(id, parent, rank, enabled) => RegisterDriveKeeps(s.reg, id, parent, rank, enabled);
  }

  lemma SetDriveKeeps(reg: Registry, id: string, enabled: bool)
    requires Housed(reg)
    ensures KeepsOrder(reg, SetDriveEnabled(reg, id, enabled).0, None)
  {
  }

  lemma SetTaskKeeps(reg: Registry, id: string, enabled: bool)
    requires Housed(reg)
    ensures KeepsOrder(reg, SetTaskEnabled(reg, id, enabled).0, None)
  {
  }

  lemma RegisterDriveKeeps(reg: Registry, id: string, parent: Option<string>, rank: int, enabled: bool)
    requires Housed(reg)
    ensures KeepsOrder(reg, RegisterDrive(reg, id, parent, rank, enabled).0, None)
  {
  }

  lemma SteadyKeeps(s: Sched, call: Call, now: int)
    requires Inv(s) && now >= 0 && Steady(call)
    ensures var e := Do(s, call, now); KeepsOrder(s.reg, e.s.reg, e.leased)
  {
    match call
    case DoObserve(queueDepth, primaryActive) =>
      ObserveKeeps(s, queueDepth, primaryActive, now);
      ObserveFacts(s, queueDepth, primaryActive, now);
    case DoPromote(capabilities) => PromoteKeeps(s, capabilities, now);
    case DoSettle(lease, outcome) => SettleKeeps(s, lease, outcome, now); SettleFacts(s, lease, outcome, now);
    case DoAbort => AbortKeeps(s, now);
    case DoLook => ExpireKeeps(s, now); ExpireFacts(s, now);
    case _ => RegistryKeeps(s, call, now); RegistryFacts(s, call, now);
  }

  lemma AbortKeeps(s: Sched, now: int)
    requires Inv(s) && now >= 0
    ensures KeepsOrder(s.reg, AbortActive(s, now).s.reg, None) && AbortActive(s, now).leased == None
  {
    if s.active.Some? { CloseKeeps(s, Abandoned, now); CloseFacts(s, Abandoned, now); }
  }

  predicate SteadyRun(events: seq<Event>) {
    forall i :: 0 <= i < |events| ==> Steady(events[i].call)
  }

  ghost predicate Spent(w: World, after: World) {
    && Housed(w.s.reg) && Housed(after.s.reg)
    && |after.leases| - |w.leases| == TotalBudget(w.s.reg) - TotalBudget(after.s.reg)
    && 0 <= TotalBudget(after.s.reg)
  }

  /** Bounded autonomy: in a steady run every promotion spends exactly one of the attempts that
      remained at its start, so there are never more promotions than those. */
  lemma {:induction false} PromotionsSpendBudget(w: World, events: seq<Event>)
    requires Ledger(w) && TasksBudgeted(w.s.reg) && SteadyRun(events)
    ensures Spent(w, Run(w, events)) && TasksBudgeted(Run(w, events).s.reg)
  {
    if events != [] {
      var front, last := events[..|events| - 1], events[|events| - 1];
      PromotionsSpendBudget(w, front);
      StepSpends(Run(w, front), last);
    } else {
      SumIsNat(w.s.reg.taskOrder, Budgets(w.s.reg));
    }
  }

  lemma StepSpends(w: World, event: Event)
    requires Ledger(w) && TasksBudgeted(w.s.reg) && Steady(event.call)
    ensures Spent(w, Step(w, event)) && TasksBudgeted(Step(w, event).s.reg)
  {
    BudgetsKept(w.s, event.call, event.now);
    var e := Do(w.s, event.call, event.now);
    SteadyKeeps(w.s, event.call, event.now);
    StepKeepsLedger(w, event);
    LeasedTaskKnown(w.s, event.call, event.now);
    RegistrySpends(w.s.reg, e.s.reg, e.leased);
  }

  lemma LeasedTaskKnown(s: Sched, call: Call, now: int)
    requires Inv(s) && now >= 0
    ensures Do(s, call, now).leased.Some? ==> Do(s, call, now).leased.value.task in s.reg.taskOrder
  {
    CallFacts(s, call, now);
  }

  lemma RegistrySpends(reg: Registry, next: Registry, leased: Option<Lease>)
    requires Housed(reg) && Housed(next) && KeepsOrder(reg, next, leased) && TasksBudgeted(next)
    requires leased.Some? ==> leased.value.task in reg.taskOrder
    ensures |Entry(leased)| == TotalBudget(reg) - TotalBudget(next)
    ensures 0 <= TotalBudget(next)
  {
    var id := if leased.Some? then leased.value.task else "";
    var spent := if leased.Some? then {id} else {};
    forall x | x in reg.taskOrder ensures Budgets(next)[x] == Budgets(reg)[x] - if x in spent then 1 else 0 {
      assert Keeps(reg.tasks[x], next.tasks[x], if leased.Some? && leased.value.task == x then 1 else 0);
    }
    SumFalls(reg.taskOrder, Budgets(reg), Budgets(next), spent, id);
    SumIsNat(next.taskOrder, Budgets(next));
  }
}
