/** What every run of the idle scheduler keeps. */
module SchedulerRuns {
  import opened Common
  import opened Scheduler
  import opened IdleScheduler

  /** A rearm that is rejected for its time after it has already stored a new budget that the
      attempts so far do not fit: fewer than were made, no more than were made although the task
      is ready, or another number than were made although it is exhausted. */
  predicate SpoilsBudget(reg: Registry, call: Call) {
    && call.DoRearm? && call.id in reg.tasks && reg.tasks[call.id].status != Leased
    && call.maxAttempts.Some? && call.maxAttempts.value >= 1 && call.notBefore < 0
    && var t, v := reg.tasks[call.id], call.maxAttempts.value;
       v < t.attempts || (t.status == Ready && v == t.attempts) || (t.status == Exhausted && v != t.attempts)
  }

  lemma CloseFacts(s: Sched, outcome: Outcome, now: int)
    requires Inv(s) && s.active.Some? && !outcome.Unknown? && now >= 0
    ensures var e, a := Close(s, outcome, now), s.active.value;
            && e.fault == None && e.error == None && e.leased == None
            && e.s == s.(active := None, reg := s.reg.(tasks := s.reg.tasks[a.task := Settled(s.reg.tasks[a.task], outcome, now)]))
            && e.settled == Some(Settlement(a.lease, a.task, outcome, now))
            && Inv(e.s)
  {
  }

  lemma ExpireFacts(s: Sched, now: int)
    requires Inv(s) && now >= 0
    ensures var e := ExpireActive(s, now);
            && Inv(e.s) && e.fault == None && e.error == None && e.leased == None
            && e.s == (if s.active.Some? && now >= s.active.value.expiresAt then Close(s, Expired, now).s else s)
            && (e.settled.Some? <==> s.active.Some? && e.s.active.None?)
            && (e.settled.Some? ==> e.settled == Some(Settlement(s.active.value.lease, s.active.value.task, Expired, now)))
  {
    if s.active.Some? { CloseFacts(s, Expired, now); }
  }

  /** What a call's effect may be: nothing faults; a settlement is of the lease that was active
      and leaves none active; a lease is the next one, goes to a ready task, and becomes active. */
  ghost predicate Sane(s: Sched, e: Effect, now: int) {
    && e.fault == None
    && (e.settled.Some? ==>
          && s.active.Some? && e.settled.value.lease == s.active.value.lease && e.settled.value.task == s.active.value.task
          && !e.settled.value.outcome.Unknown? && e.settled.value.at == now)
    && (e.leased.Some? ==>
          && e.leased.value.id == s.leaseSequence + 1 == e.s.leaseSequence
          && e.leased.value.task in s.reg.tasks && e.leased.value.at == now
          && e.s.active == Some(Active(e.leased.value.id, e.leased.value.task, e.leased.value.expiresAt))
          && e.s.promotions == s.promotions + 1 && e.s.idle)
    && (e.leased.None? ==>
          && e.s.leaseSequence == s.leaseSequence
          && e.s.active == if e.settled.Some? then None else s.active)
    && (e.leased.Some? ==> s.active.None? || e.settled.Some?)
  }

  /** The state in which a task has been leased. */
  function LeasedState(s: Sched, id: string, now: int): Sched
    requires id in s.reg.tasks
  {
    var t := s.reg.tasks[id];
    s.(reg := s.reg.(tasks := s.reg.tasks[id := t.(status := Leased, attempts := t.attempts + 1)]),
       leaseSequence := s.leaseSequence + 1, promotions := s.promotions + 1,
       active := Some(Active(s.leaseSequence + 1, id, now + s.leaseDuration)))
  }

  lemma LeaseFacts(s: Sched, id: string, now: int)
    requires Inv(s) && s.idle && s.active.None? && s.promotions < s.maxPromotions
    requires id in s.reg.tasks && s.reg.tasks[id].status == Ready
    ensures Inv(LeasedState(s, id, now))
  {
    UpdateKeepsHoused(s.reg, id, s.reg.tasks[id].(status := Leased, attempts := s.reg.tasks[id].attempts + 1));
  }

  lemma IssueShape(e: Effect, id: string, now: int)
    requires id in e.s.reg.tasks && e.s.reg.tasks[id].status == Ready && now >= e.s.reg.tasks[id].nextEligibleAt
    requires e.s.reg.tasks[id].attempts < e.s.reg.tasks[id].maxAttempts
    ensures Issue(e, id, now) == e.(s := LeasedState(e.s, id, now),
                                    leased := Some(Lease(e.s.leaseSequence + 1, id, now, now + e.s.leaseDuration)))
  {
  }

  lemma IssueFacts(e: Effect, id: string, now: int)
    requires Inv(e.s) && e.s.idle && e.s.active.None? && e.s.promotions < e.s.maxPromotions
    requires id in e.s.reg.tasks && e.s.reg.tasks[id].status == Ready && now >= e.s.reg.tasks[id].nextEligibleAt
    requires e.s.reg.tasks[id].attempts < e.s.reg.tasks[id].maxAttempts
    ensures Issue(e, id, now) == e.(s := LeasedState(e.s, id, now),
                                    leased := Some(Lease(e.s.leaseSequence + 1, id, now, now + e.s.leaseDuration)))
    ensures Inv(Issue(e, id, now).s)
  {
    IssueShape(e, id, now);
    LeaseFacts(e.s, id, now);
  }

  /** A promotion either changes nothing but its refusal or leases the selected task. */
  ghost predicate Promoted(e: Effect, f: Effect, now: int) {
    || f == e.(refused := f.refused)
    || (f.leased.Some? && f.leased.value.task in e.s.reg.tasks && e.s.reg.tasks[f.leased.value.task].status == Ready
        && e.s.idle && e.s.active.None? && e.s.promotions < e.s.maxPromotions
        && f == e.(s := LeasedState(e.s, f.leased.value.task, now),
                   leased := Some(Lease(e.s.leaseSequence + 1, f.leased.value.task, now, now + e.s.leaseDuration))))
  }

  lemma PromoteStep(e: Effect, capabilities: set<string>, now: int)
    requires Inv(e.s)
    ensures Inv(Promote(e, capabilities, now).s) && Promoted(e, Promote(e, capabilities, now), now)
  {
    if e.s.idle && e.s.active.None? && e.s.promotions < e.s.maxPromotions {
      SelectionIsMinimum(e.s.reg, now, capabilities);
      match SelectCandidate(e.s.reg, now, capabilities)
      case None =>
      case Some(task) => IssueFacts(e, task.id, now);
    }
  }

  lemma PromoteFacts(s: Sched, capabilities: set<string>, now: int)
    requires Inv(s) && now >= 0
    ensures Inv(TryPromote(s, capabilities, now).s) && Sane(s, TryPromote(s, capabilities, now), now)
  {
    var e, f := ExpireActive(s, now), TryPromote(s, capabilities, now);
    ExpireFacts(s, now);
    ExpireSane(s, now);
    assert f == Promote(e, capabilities, now) by { PromoteUnfolds(s, capabilities, now); }
    PromoteStep(e, capabilities, now);
    PromotedSane(s, e, f, now);
  }

  lemma PromoteUnfolds(s: Sched, capabilities: set<string>, now: int)
    requires Housed(s.reg) && ExpireActive(s, now).fault == None
    ensures TryPromote(s, capabilities, now) == Promote(ExpireActive(s, now), capabilities, now)
  {
  }

  lemma ExpireSane(s: Sched, now: int)
    requires Inv(s) && now >= 0
    ensures Sane(s, ExpireActive(s, now), now) && ExpireActive(s, now).s.promotions == s.promotions
    ensures ExpireActive(s, now).s.reg.tasks.Keys == s.reg.tasks.Keys
  {
    ExpireFacts(s, now);
    if s.active.Some? { CloseFacts(s, Expired, now); }
  }

  lemma PromotedSane(s: Sched, e: Effect, f: Effect, now: int)
    requires Sane(s, e, now) && e.leased == None && e.s.promotions == s.promotions
    requires e.s.reg.tasks.Keys == s.reg.tasks.Keys && Promoted(e, f, now)
    ensures Sane(s, f, now)
  {
  }

  lemma ObserveFacts(s: Sched, queueDepth: int, primaryActive: bool, now: int)
    requires Inv(s) && now >= 0
    ensures var e := ObserveExternal(s, queueDepth, primaryActive, now);
            && Inv(e.s) && Sane(s, e, now) && e.leased == None
            && (queueDepth >= 0 ==>
                  && e.error == None
                  && e.s.idle == (queueDepth == 0 && !primaryActive)
                  && (!e.s.idle ==> e.s.active.None? && e.s.promotions == 0)
                  && (e.s.idle ==> e.s.promotions == s.promotions))
            && (queueDepth < 0 ==> e.s == s)
  {
    if queueDepth >= 0 {
      var idle := queueDepth == 0 && !primaryActive;
      if idle {
        ExpireFacts(s.(idle := true), now);
      } else {
        var reset := s.(promotions := 0);
        if s.active.Some? { CloseFacts(reset, Abandoned, now); }
      }
    }
  }

  lemma SettleFacts(s: Sched, lease: nat, outcome: Outcome, now: int)
    requires Inv(s) && now >= 0
    ensures Inv(SettleLease(s, lease, outcome, now).s) && Sane(s, SettleLease(s, lease, outcome, now), now)
    ensures SettleLease(s, lease, outcome, now).s.promotions == s.promotions
    ensures SettleLease(s, lease, outcome, now).leased == None
  {
    ExpireFacts(s, now);
    var x := ExpireActive(s, now);
    if x.s.active.Some? && x.s.active.value.lease == lease {
      ActiveSettles(s, x, outcome, now);
    }
  }

  /** The settlement of a lease that has not expired. */
  lemma ActiveSettles(s: Sched, x: Effect, outcome: Outcome, now: int)
    requires Inv(s) && now >= 0 && x.s == s && s.active.Some? && x == Just(s)
    ensures !outcome.Unknown? ==> Inv(Close(s, outcome, now).s) && Sane(s, Close(s, outcome, now), now)
                                  && Close(s, outcome, now).s.promotions == s.promotions && Close(s, outcome, now).leased == None
    ensures outcome.Unknown? ==> Sane(s, x.(error := Close(s, outcome, now).fault), now)
  {
    if !outcome.Unknown? { CloseFacts(s, outcome, now); }
  }

  ghost predicate OnRegistryOnly(call: Call) {
    !call.DoObserve? && !call.DoPromote? && !call.DoSettle? && !call.DoAbort? && !call.DoLook?
  }

  /** A registry call touches nothing of the scheduler, and leases nothing. */
  ghost predicate RegistryOnly(s: Sched, e: Effect) {
    && e.s == s.(reg := e.s.reg)
    && e.settled == None && e.leased == None && e.fault == None
  }

  lemma RegistryFacts(s: Sched, call: Call, now: int)
    requires Inv(s) && OnRegistryOnly(call)
    ensures Inv(Do(s, call, now).s) && RegistryOnly(s, Do(s, call, now))
  {
    match call
    case DoRegisterDrive(id, parent, rank, enabled) => NewDriveFacts(s.reg, id, parent, rank, enabled);
    case DoSetDrive(id, enabled) => SetDriveFacts(s.reg, id, enabled);
    case DoRegisterTask(spec) => NewTaskFacts(s, spec);
    case DoSetTask(id, enabled) => if id in s.reg.tasks { TaskChangeFacts(s, id, s.reg.tasks[id].(enabled := enabled)); }
    case DoRearm(id, maxAttempts, notBefore) => RearmFacts(s, id, maxAttempts, notBefore);
  }

  lemma TaskChangeFacts(s: Sched, id: string, t: Task)
    requires Inv(s) && id in s.reg.tasks && OnlyStatus(s.reg.tasks[id], t)
    requires t.status == Leased <==> s.reg.tasks[id].status == Leased
    ensures Inv(s.(reg := s.reg.(tasks := s.reg.tasks[id := t])))
  {
    UpdateKeepsHoused(s.reg, id, t);
  }

  lemma RearmFacts(s: Sched, id: string, maxAttempts: Option<int>, notBefore: int)
    requires Inv(s)
    ensures Inv(s.(reg := RearmTask(s.reg, id, maxAttempts, notBefore).0))
  {
    var next := RearmTask(s.reg, id, maxAttempts, notBefore).0;
    if next != s.reg {
      assert next == s.reg.(tasks := s.reg.tasks[id := next.tasks[id]]);
      TaskChangeFacts(s, id, next.tasks[id]);
    }
  }

  lemma SetDriveFacts(reg: Registry, id: string, enabled: bool)
    requires Housed(reg)
    ensures Housed(SetDriveEnabled(reg, id, enabled).0)
    ensures SetDriveEnabled(reg, id, enabled).0.tasks == reg.tasks
  {
    var next := SetDriveEnabled(reg, id, enabled).0;
    assert forall x :: x in next.drives ==> next.drives[x].parent == reg.drives[x].parent;
  }

  lemma NewDriveFacts(reg: Registry, id: string, parent: Option<string>, rank: int, enabled: bool)
    requires Housed(reg)
    ensures Housed(RegisterDrive(reg, id, parent, rank, enabled).0)
    ensures RegisterDrive(reg, id, parent, rank, enabled).0.tasks == reg.tasks
  {
    var next := RegisterDrive(reg, id, parent, rank, enabled).0;
    if next != reg {
      forall x | x in next.drives && next.drives[x].parent.Some?
        ensures Precedes(next.driveOrder, next.drives[x].parent.value, x)
      {
        var p := next.drives[x].parent.value;
        if x == id {
          var i :| 0 <= i < |reg.driveOrder| && reg.driveOrder[i] == p;
          assert next.driveOrder[i] == p && next.driveOrder[|reg.driveOrder|] == x;
        } else {
          var i, j :| 0 <= i < j < |reg.driveOrder| && reg.driveOrder[i] == p && reg.driveOrder[j] == x;
          assert next.driveOrder[i] == p && next.driveOrder[j] == x;
        }
      }
    }
  }

  lemma NewTaskFacts(s: Sched, spec: TaskSpec)
    requires Inv(s)
    ensures Inv(s.(reg := RegisterTask(s.reg, spec).0))
  {
    NewTaskHoused(s.reg, spec);
  }

  lemma NewTaskHoused(reg: Registry, spec: TaskSpec)
    requires Housed(reg)
    ensures Housed(RegisterTask(reg, spec).0)
  {
  }

  /** No call faults below the scheduler, and every call keeps the lease invariant. */
  lemma CallFacts(s: Sched, call: Call, now: int)
    requires Inv(s) && now >= 0
    ensures Inv(Do(s, call, now).s) && Sane(s, Do(s, call, now), now)
  {
    match call
    case DoObserve(queueDepth, primaryActive) => ObserveFacts(s, queueDepth, primaryActive, now);
    case DoPromote(capabilities) => PromoteFacts(s, capabilities, now);
    case DoSettle(lease, outcome) => SettleFacts(s, lease, outcome, now);
    case DoAbort => if s.active.Some? { CloseFacts(s, Abandoned, now); }
    case DoLook => ExpireFacts(s, now);
    case _ => RegistryFacts(s, call, now);
  }

  // ---- budgets ------------------------------------------------------------------------

  lemma CloseBudgets(s: Sched, outcome: Outcome, now: int)
    requires Inv(s) && TasksBudgeted(s.reg) && s.active.Some? && !outcome.Unknown? && now >= 0
    ensures TasksBudgeted(Close(s, outcome, now).s.reg)
  {
    CloseFacts(s, outcome, now);
    assert Budgeted(s.reg.tasks[s.active.value.task]);
  }

  lemma ExpireBudgets(s: Sched, now: int)
    requires Inv(s) && TasksBudgeted(s.reg) && now >= 0
    ensures TasksBudgeted(ExpireActive(s, now).s.reg)
  {
    if s.active.Some? { CloseBudgets(s, Expired, now); }
  }

  lemma PromoteBudgets(s: Sched, capabilities: set<string>, now: int)
    requires Inv(s) && TasksBudgeted(s.reg) && now >= 0
    ensures TasksBudgeted(TryPromote(s, capabilities, now).s.reg)
  {
    var e := ExpireActive(s, now);
    ExpireFacts(s, now);
    ExpireBudgets(s, now);
    PromoteUnfolds(s, capabilities, now);
    PromoteStep(e, capabilities, now);
    PromotedBudgets(e, TryPromote(s, capabilities, now), now);
  }

  lemma PromotedBudgets(e: Effect, f: Effect, now: int)
    requires TasksBudgeted(e.s.reg) && Promoted(e, f, now)
    ensures TasksBudgeted(f.s.reg)
  {
  }

  lemma ObserveBudgets(s: Sched, queueDepth: int, primaryActive: bool, now: int)
    requires Inv(s) && TasksBudgeted(s.reg) && now >= 0
    ensures TasksBudgeted(ObserveExternal(s, queueDepth, primaryActive, now).s.reg)
  {
    if queueDepth >= 0 {
      if queueDepth == 0 && !primaryActive {
        ExpireBudgets(s.(idle := true), now);
      } else if s.active.Some? {
        CloseBudgets(s.(promotions := 0), Abandoned, now);
        CloseFacts(s.(promotions := 0), Abandoned, now);
      }
    }
  }

  lemma SettleBudgets(s: Sched, lease: nat, outcome: Outcome, now: int)
    requires Inv(s) && TasksBudgeted(s.reg) && now >= 0
    ensures TasksBudgeted(SettleLease(s, lease, outcome, now).s.reg)
  {
    ExpireFacts(s, now);
    ExpireBudgets(s, now);
    var e := ExpireActive(s, now);
    if e.s.active.Some? && e.s.active.value.lease == lease && !outcome.Unknown? {
      CloseBudgets(e.s, outcome, now);
      assert SettleLease(s, lease, outcome, now) == Close(e.s, outcome, now);
    } else {
      assert SettleLease(s, lease, outcome, now).s == e.s;
    }
  }

  lemma RegistryBudgets(s: Sched, call: Call, now: int)
    requires TasksBudgeted(s.reg) && OnRegistryOnly(call) && Housed(s.reg) && !SpoilsBudget(s.reg, call)
    ensures TasksBudgeted(Do(s, call, now).s.reg)
  {
    match call
    case DoRegisterDrive(_, _, _, _) =>
    case DoSetDrive(_, _) =>
    case DoRegisterTask(_) =>
    case DoSetTask(_, _) =>
    case DoRearm(id, _, _) => if id in s.reg.tasks { assert Budgeted(s.reg.tasks[id]); }
  }

  /** Every task stays within its budget, and its status says what is left of it, in every call
      but exactly the rejected rearms of the spoiling kind. */
  lemma BudgetsKept(s: Sched, call: Call, now: int)
    requires Inv(s) && TasksBudgeted(s.reg) && now >= 0
    ensures TasksBudgeted(Do(s, call, now).s.reg) <==> !SpoilsBudget(s.reg, call)
  {
    if call.DoRearm? {
      RejectedRearmMaySpoil(s, call, now);
    } else {
      OtherBudgets(s, call, now);
    }
  }

  lemma OtherBudgets(s: Sched, call: Call, now: int)
    requires Inv(s) && TasksBudgeted(s.reg) && now >= 0 && !call.DoRearm?
    ensures TasksBudgeted(Do(s, call, now).s.reg)
  {
    match call
    case DoObserve(queueDepth, primaryActive) => ObserveBudgets(s, queueDepth, primaryActive, now);
    case DoPromote(capabilities) => PromoteBudgets(s, capabilities, now);
    case DoSettle(lease, outcome) => SettleBudgets(s, lease, outcome, now);
    case DoAbort => if s.active.Some? { CloseBudgets(s, Abandoned, now); }
    case DoLook => ExpireBudgets(s, now);
    case _ => RegistryBudgets(s, call, now);
  }

  /** A rearm keeps every task within its budget exactly if it is not of the spoiling kind. */
  lemma RejectedRearmMaySpoil(s: Sched, call: Call, now: int)
    requires Housed(s.reg) && TasksBudgeted(s.reg) && call.DoRearm?
    ensures TasksBudgeted(Do(s, call, now).s.reg) <==> !SpoilsBudget(s.reg, call)
  {
    if SpoilsBudget(s.reg, call) {
      var after := Do(s, call, now).s.reg;
      assert after.tasks[call.id] == s.reg.tasks[call.id].(maxAttempts := call.maxAttempts.value);
      assert call.id in after.tasks;
    } else {
      RegistryBudgets(s, call, now);
    }
  }
}
