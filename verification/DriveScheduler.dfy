/** The registry and the idle scheduler as objects. The scheduler holds a reference to the
    registry, which other callers may use between its calls. */
module DriveSchedulers {
  import opened Common
  import opened Sorting
  import opened Scheduler
  import opened IdleScheduler
  import opened SchedulerRuns

  /** The difference at the first position where two rank paths differ. */
  method CompareRanks(left: seq<int>, right: seq<int>) returns (order: int)
    ensures order == CompareArrays(left, right)
  {
    var length := if |left| < |right| then |right| else |left|;
    for index := 0 to length
      invariant index <= |left| && index <= |right|
      invariant CompareArrays(left, right) == CompareArrays(left[index..], right[index..])
    {
      if index == |left| { return -1; }
      if index == |right| { return 1; }
      if left[index] != right[index] { return left[index] - right[index]; }
    }
    return 0;
  }

  lemma DrivePathStep(reg: Registry, id: string)
    requires Forest(reg) && id in reg.drives
    ensures reg.drives[id].parent.None? ==> DrivePath(reg, id) == [reg.drives[id]]
    ensures reg.drives[id].parent.Some? ==>
              && reg.drives[id].parent.value in reg.drives
              && Position(reg.driveOrder, reg.drives[id].parent.value) < Position(reg.driveOrder, id)
              && DrivePath(reg, id) == DrivePath(reg, reg.drives[id].parent.value) + [reg.drives[id]]
  {
    if reg.drives[id].parent.Some? { ParentIsEarlier(reg, id); }
  }

  /** No call on a task disturbs the order of registration. */
  lemma EnableKeepsHoused(reg: Registry, id: string, enabled: bool)
    requires Housed(reg)
    ensures Housed(SetTaskEnabled(reg, id, enabled).0)
  {
    if id in reg.tasks { UpdateKeepsHoused(reg, id, reg.tasks[id].(enabled := enabled)); }
  }

  lemma RearmKeepsHoused(reg: Registry, id: string, maxAttempts: Option<int>, notBefore: int)
    requires Housed(reg)
    ensures Housed(RearmTask(reg, id, maxAttempts, notBefore).0)
  {
    var next := RearmTask(reg, id, maxAttempts, notBefore).0;
    if next != reg {
      assert next == reg.(tasks := reg.tasks[id := next.tasks[id]]);
      UpdateKeepsHoused(reg, id, next.tasks[id]);
    }
  }

  lemma SettleKeepsHoused(reg: Registry, id: string, outcome: Outcome, now: int)
    requires Housed(reg)
    ensures Housed(SettleTask(reg, id, outcome, now).0)
  {
    if SettleTask(reg, id, outcome, now).1.Ok? { UpdateKeepsHoused(reg, id, SettleTask(reg, id, outcome, now).1.value); }
  }

  /** Walks from a drive up to its root. The walk ends because parents are registered first. */
  method WalkUp(ghost reg: Registry, drives: map<string, Drive>, id: string) returns (path: seq<Drive>)
    requires Forest(reg) && reg.drives == drives && id in drives
    ensures path == DrivePath(reg, id)
  {
    path := [];
    var drive := Some(drives[id]);
    ghost var above := DrivePath(reg, id);
    while drive.Some?
      invariant DrivePath(reg, id) == above + path
      invariant if drive.None? then above == []
                else drive.value.id in drives && drives[drive.value.id] == drive.value && above == DrivePath(reg, drive.value.id)
      decreases if drive.Some? then 1 + Position(reg.driveOrder, drive.value.id) else 0
    {
      DrivePathStep(reg, drive.value.id);
      path := [drive.value] + path;
      if drive.value.parent.None? {
        above, drive := [], None;
      } else {
        drive := Some(drives[drive.value.parent.value]);
        above := DrivePath(reg, drive.value.id);
      }
    }
  }

  class DriveRegistry {
    var driveOrder: seq<string>
    var drives: map<string, Drive>
    var taskOrder: seq<string>
    var tasks: map<string, Task>
    var sequence: nat

    constructor ()
      ensures Valid() && Reg() == EmptyRegistry
    {
      driveOrder, drives, taskOrder, tasks, sequence := [], map[], [], map[], 0;
    }

    ghost function Reg(): Registry
      reads this
    {
      Registry(driveOrder, drives, taskOrder, tasks)
    }

    ghost predicate Valid()
      reads this
    {
      Housed(Reg()) && sequence == |taskOrder|
    }

    method AddDrive(id: string, parent: Option<string>, rank: int, enabled: bool) returns (r: Result<(), Fault>)
      requires Valid()
      modifies this
      ensures Valid()
      ensures (Reg(), r) == RegisterDrive(old(Reg()), id, parent, rank, enabled)
    {
      NewDriveFacts(Reg(), id, parent, rank, enabled);
      if id in drives { return Err(DriveExists); }
      if parent.Some? && parent.value !in drives { return Err(UnknownDrive); }
      driveOrder, drives := driveOrder + [id], drives[id := Drive(id, parent, rank, enabled)];
      return Ok(());
    }

    method EnableDrive(id: string, enabled: bool) returns (r: Result<(), Fault>)
      requires Valid()
      modifies this`drives
      ensures Valid()
      ensures (Reg(), r) == SetDriveEnabled(old(Reg()), id, enabled)
    {
      SetDriveFacts(Reg(), id, enabled);
      if id !in drives { return Err(UnknownDrive); }
      drives := drives[id := drives[id].(enabled := enabled)];
      return Ok(());
    }

    method AddTask(spec: TaskSpec) returns (r: Result<(), Fault>)
      requires Valid()
      modifies this
      ensures Valid()
      ensures (Reg(), r) == RegisterTask(old(Reg()), spec)
    {
      NewTaskHoused(Reg(), spec);
      if spec.id in tasks { return Err(TaskExists); }
      if spec.driveId !in drives { return Err(UnknownDrive); }
      if spec.notBefore < 0 || spec.maxAttempts < 1 || spec.cooldownMs < 0 { return Err(BadArgument); }
      if spec.repeat && spec.cooldownMs == 0 { return Err(BadArgument); }
      var task := Task(spec.id, spec.driveId, spec.priority, spec.capabilities, spec.maxAttempts, spec.cooldownMs,
                       spec.repeat, spec.enabled, 0, spec.notBefore, Ready, sequence, None);
      sequence := sequence + 1;
      taskOrder, tasks := taskOrder + [spec.id], tasks[spec.id := task];
      return Ok(());
    }

    /** Stores the mutable fields of a task. */
    method Update(id: string, task: Task)
      modifies this`tasks
      ensures Reg() == old(Reg()).(tasks := old(tasks)[id := task])
    {
      tasks := tasks[id := task];
    }

    method MarkEnabled(id: string, enabled: bool) returns (r: Result<(), Fault>)
      modifies this`tasks
      ensures (Reg(), r) == SetTaskEnabled(old(Reg()), id, enabled)
    {
      if id !in tasks { return Err(UnknownTask); }
      Update(id, tasks[id].(enabled := enabled));
      return Ok(());
    }

    method StoreBudget(id: string, maxAttempts: Option<int>, notBefore: int) returns (r: Result<(), Fault>)
      modifies this`tasks
      ensures (Reg(), r) == RearmTask(old(Reg()), id, maxAttempts, notBefore)
    {
      if id !in tasks { return Err(UnknownTask); }
      if tasks[id].status == Leased { return Err(CannotRearm); }
      if maxAttempts.Some? {
        if maxAttempts.value < 1 { return Err(BadArgument); }
        Update(id, tasks[id].(maxAttempts := maxAttempts.value));
      }
      assert Reg() == old(Reg()).(tasks := old(tasks)[id := tasks[id]]);
      if notBefore < 0 { return Err(BadArgument); }
      r := Restart(id, notBefore);
      assert tasks == old(tasks)[id := tasks[id]];
    }

    /** Gives a task its attempts back. */
    method Restart(id: string, notBefore: int) returns (r: Result<(), Fault>)
      requires id in tasks
      modifies this`tasks
      ensures r == Ok(())
      ensures Reg() == old(Reg()).(tasks := old(tasks)[id :=
                old(tasks)[id].(attempts := 0, nextEligibleAt := notBefore, status := Ready, lastOutcome := None)])
    {
      Update(id, tasks[id].(attempts := 0, nextEligibleAt := notBefore, status := Ready, lastOutcome := None));
      return Ok(());
    }

    method PathOfDrive(id: string) returns (path: seq<Drive>)
      requires Valid() && id in drives
      ensures path == DrivePath(Reg(), id) && IsRootPath(Reg(), id, path)
    {
      path := WalkUp(Reg(), drives, id);
      DrivePathIsRootPath(Reg(), id);
    }

    method AllEnabled(path: seq<Drive>) returns (all: bool)
      ensures all == forall drive :: drive in path ==> drive.enabled
    {
      for i := 0 to |path|
        invariant forall j :: 0 <= j < i ==> path[j].enabled
      {
        if !path[i].enabled { return false; }
      }
      return true;
    }

    /** The eligible tasks, in the order of registration. */
    method EligibleTasks(now: int, capabilities: set<string>) returns (eligible: seq<Candidate>)
      requires Valid()
      ensures eligible == EligibleFrom(Reg(), taskOrder, now, capabilities)
    {
      eligible := [];
      for i := 0 to |taskOrder|
        invariant eligible == EligibleFrom(Reg(), taskOrder[..i], now, capabilities)
      {
        assert taskOrder[..i + 1][..i] == taskOrder[..i];
        var task := tasks[taskOrder[i]];
        var path := PathOfDrive(task.driveId);
        var open := AllEnabled(path);
        if task.enabled && task.status == Ready && task.attempts < task.maxAttempts && now >= task.nextEligibleAt
           && open && task.capabilities <= capabilities
        {
          eligible := eligible + [Candidate(task, Ranks(path))];
        }
      }
      assert taskOrder[..|taskOrder|] == taskOrder;
    }

    method Select(now: int, capabilities: set<string>) returns (best: Option<Task>)
      requires Valid()
      ensures best == SelectCandidate(Reg(), now, capabilities)
    {
      var eligible := EligibleTasks(now, capabilities);
      var sorted := Sort(CandidateOrder(), eligible);
      best := if sorted == [] then None else Some(sorted[0].task);
    }

    method TakeTask(id: string, now: int) returns (r: Result<Task, Fault>)
      modifies this`tasks
      ensures (Reg(), r) == LeaseTask(old(Reg()), id, now)
    {
      if id !in tasks {
        r := Err(UnknownTask);
      } else {
        var t := tasks[id];
        if t.status != Ready || t.attempts >= t.maxAttempts || now < t.nextEligibleAt {
          r := Err(NotLeaseable);
        } else {
          t := t.(status := Leased, attempts := t.attempts + 1);
          Update(id, t);
          r := Ok(t);
        }
      }
    }

    method CloseTask(id: string, outcome: Outcome, now: int) returns (r: Result<Task, Fault>)
      modifies this`tasks
      ensures (Reg(), r) == SettleTask(old(Reg()), id, outcome, now)
    {
      if id !in tasks { return Err(UnknownTask); }
      if outcome.Unknown? { return Err(UnknownOutcome); }
      var t := tasks[id];
      if t.status != Leased { return Err(NotLeased); }
      if now < 0 { return Err(BadArgument); }
      t := t.(lastOutcome := Some(outcome));
      if t.attempts < t.maxAttempts && (t.repeat || outcome != Succeeded) {
        t := t.(status := Ready, nextEligibleAt := now + t.cooldownMs);
      } else {
        t := t.(status := if outcome == Succeeded then Completed else Exhausted);
      }
      Update(id, t);
      return Ok(t);
    }

    // The calls on a task: each does what its method above does, and keeps the registry valid.

    method EnableTask(id: string, enabled: bool) returns (r: Result<(), Fault>)
      requires Valid()
      modifies this`tasks
      ensures Valid()
      ensures (Reg(), r) == SetTaskEnabled(old(Reg()), id, enabled)
    {
      EnableKeepsHoused(Reg(), id, enabled);
      r := MarkEnabled(id, enabled);
    }

    method Rearm(id: string, maxAttempts: Option<int>, notBefore: int) returns (r: Result<(), Fault>)
      requires Valid()
      modifies this`tasks
      ensures Valid()
      ensures (Reg(), r) == RearmTask(old(Reg()), id, maxAttempts, notBefore)
    {
      RearmKeepsHoused(Reg(), id, maxAttempts, notBefore);
      r := StoreBudget(id, maxAttempts, notBefore);
    }

    method Lease(id: string, now: int) returns (r: Result<Task, Fault>)
      requires Valid()
      modifies this`tasks
      ensures Valid()
      ensures (Reg(), r) == LeaseTask(old(Reg()), id, now)
    {
      LeaseKeepsHoused(Reg(), id, now);
      r := TakeTask(id, now);
    }

    method Settle(id: string, outcome: Outcome, now: int) returns (r: Result<Task, Fault>)
      requires Valid()
      modifies this`tasks
      ensures Valid()
      ensures (Reg(), r) == SettleTask(old(Reg()), id, outcome, now)
    {
      SettleKeepsHoused(Reg(), id, outcome, now);
      r := CloseTask(id, outcome, now);
    }
  }

  datatype Promotion = Promoted(lease: Lease) | Refused(reason: Refusal)

  /** What a promotion attempt returns to its caller. */
  function PromotionOf(e: Effect): Result<Promotion, Fault> {
    if e.fault.Some? then Err(e.fault.value)
    else if e.leased.Some? then Ok(Promoted(e.leased.value))
    else if e.refused.Some? then Ok(Refused(e.refused.value))
    else Ok(Refused(NothingEligible))
  }

  /** A promotion does not depend on what expired before it. */
  lemma PromoteAfterExpiry(s: Sched, capabilities: set<string>, now: int)
    requires Housed(s.reg) && ExpireActive(s, now).fault == None
    ensures var e := ExpireActive(s, now);
            && TryPromote(s, capabilities, now).s == IdleScheduler.Promote(Just(e.s), capabilities, now).s
            && PromotionOf(TryPromote(s, capabilities, now)) == PromotionOf(IdleScheduler.Promote(Just(e.s), capabilities, now))
  {
    PromoteUnfolds(s, capabilities, now);
    ExpiryOnlySettles(s, now);
    PromoteIgnoresSettled(ExpireActive(s, now).s, ExpireActive(s, now).settled, capabilities, now);
  }

  lemma ExpiryOnlySettles(s: Sched, now: int)
    requires ExpireActive(s, now).fault == None
    ensures ExpireActive(s, now) == Just(ExpireActive(s, now).s).(settled := ExpireActive(s, now).settled)
  {
  }

  lemma PromoteIgnoresSettled(s: Sched, settled: Option<Settlement>, capabilities: set<string>, now: int)
    requires Housed(s.reg)
    ensures var a, b := IdleScheduler.Promote(Just(s).(settled := settled), capabilities, now), IdleScheduler.Promote(Just(s), capabilities, now);
            a.s == b.s && PromotionOf(a) == PromotionOf(b)
  {
    match SelectCandidate(s.reg, now, capabilities)
    case None =>
    case Some(task) => IssueIgnoresSettled(s, settled, task.id, now);
  }

  lemma IssueIgnoresSettled(s: Sched, settled: Option<Settlement>, id: string, now: int)
    ensures var a, b := Issue(Just(s).(settled := settled), id, now), Issue(Just(s), id, now);
            a.s == b.s && PromotionOf(a) == PromotionOf(b)
  {
  }

  /** The state in which the active lease is the next one. */
  function WithLease(s: Sched, reg: Registry, lease: Lease): Sched {
    s.(reg := reg, leaseSequence := lease.id, active := Some(Active(lease.id, lease.task, lease.expiresAt)),
       promotions := s.promotions + 1)
  }

  lemma IssueOutcome(s: Sched, id: string, now: int)
    ensures var (reg, r), e := LeaseTask(s.reg, id, now), Issue(Just(s), id, now);
            var lease := Lease(s.leaseSequence + 1, id, now, now + s.leaseDuration);
            if r.Err? then reg == s.reg && e.s == s && PromotionOf(e) == Err(r.error)
            else e.s == WithLease(s, reg, lease) && PromotionOf(e) == Ok(Promoted(lease))
  {
  }

  lemma PromoteIsSound(s: Sched, capabilities: set<string>, now: int)
    requires Housed(s.reg)
    ensures Inv(s) && now >= 0 ==> Inv(TryPromote(s, capabilities, now).s) && PromotionOf(TryPromote(s, capabilities, now)).Ok?
  {
    if Inv(s) && now >= 0 { PromoteFacts(s, capabilities, now); }
  }

  lemma ObserveIsSound(s: Sched, queueDepth: int, primaryActive: bool, now: int)
    ensures Inv(s) && now >= 0 ==>
              && Inv(ObserveExternal(s, queueDepth, primaryActive, now).s)
              && (ErrorOf(ObserveExternal(s, queueDepth, primaryActive, now)) == None <==> queueDepth >= 0)
  {
    if Inv(s) && now >= 0 { ObserveFacts(s, queueDepth, primaryActive, now); }
  }

  class IdleDriveScheduler {
    const registry: DriveRegistry
    const leaseDuration: int
    const maxPromotions: int
    var promotions: int
    var idle: bool
    var active: Option<Active>
    var leaseSequence: nat

    constructor (registry: DriveRegistry, leaseDuration: int, maxPromotions: int)
      requires registry.Valid() && 1 <= leaseDuration && 1 <= maxPromotions
      ensures Valid() && this.registry == registry
      ensures State() == Sched(registry.Reg(), leaseDuration, maxPromotions, 0, false, None, 0)
    {
      this.registry, this.leaseDuration, this.maxPromotions := registry, leaseDuration, maxPromotions;
      promotions, idle, active, leaseSequence := 0, false, None, 0;
    }

    ghost function State(): Sched
      reads this, registry
    {
      Sched(registry.Reg(), leaseDuration, maxPromotions, promotions, idle, active, leaseSequence)
    }

    ghost predicate Valid()
      reads this, registry
    {
      registry.Valid()
    }

    /** Settles the active lease. */
    method Finish(outcome: Outcome, now: int) returns (error: Option<Fault>)
      requires active.Some?
      modifies this`active, registry`tasks
      ensures State() == Close(old(State()), outcome, now).s && error == Close(old(State()), outcome, now).fault
    {
      var r := registry.CloseTask(active.value.task, outcome, now);
      if r.Err? { return Some(r.error); }
      active := None;
      return None;
    }

    method Expire(now: int) returns (error: Option<Fault>)
      modifies this`active, registry`tasks
      ensures State() == ExpireActive(old(State()), now).s && error == ExpireActive(old(State()), now).fault
    {
      if active.None? || now < active.value.expiresAt { return None; }
      error := Finish(Expired, now);
    }

    method AbortActive(now: int) returns (error: Option<Fault>)
      requires Valid()
      modifies this`active, registry`tasks
      ensures Valid()
      ensures State() == IdleScheduler.AbortActive(old(State()), now).s && error == IdleScheduler.AbortActive(old(State()), now).fault
    {
      error := Abort(now);
    }

    method Abort(now: int) returns (error: Option<Fault>)
      modifies this`active, registry`tasks
      ensures State() == IdleScheduler.AbortActive(old(State()), now).s && error == IdleScheduler.AbortActive(old(State()), now).fault
    {
      if active.None? { return None; }
      error := Finish(Abandoned, now);
    }

    /** The part of an observation that ends the lease when there is outside activity. */
    method LeaveIdle(now: int) returns (error: Option<Fault>)
      modifies this`active, this`promotions, registry`tasks
      ensures State() == IdleScheduler.AbortActive(old(State()).(promotions := 0), now).s
      ensures error == IdleScheduler.AbortActive(old(State()).(promotions := 0), now).fault
    {
      promotions := 0;
      error := Abort(now);
    }

    method Observe(queueDepth: int, primaryActive: bool, now: int) returns (error: Option<Fault>)
      requires Valid()
      modifies this, registry`tasks
      ensures Valid()
      ensures State() == ObserveExternal(old(State()), queueDepth, primaryActive, now).s
      ensures error == ErrorOf(ObserveExternal(old(State()), queueDepth, primaryActive, now))
      ensures old(Inv(State())) && now >= 0 ==> Inv(State()) && (error == None <==> queueDepth >= 0)
    {
      ObserveIsSound(State(), queueDepth, primaryActive, now);
      error := NoteState(queueDepth, primaryActive, now);
    }

    method NoteState(queueDepth: int, primaryActive: bool, now: int) returns (error: Option<Fault>)
      modifies this, registry`tasks
      ensures State() == ObserveExternal(old(State()), queueDepth, primaryActive, now).s
      ensures error == ErrorOf(ObserveExternal(old(State()), queueDepth, primaryActive, now))
    {
      if queueDepth < 0 { return Some(BadArgument); }
      var quiet := queueDepth == 0 && !primaryActive;
      if !quiet {
        error := LeaveIdle(now);
        if error.Some? { return; }
      }
      idle := quiet;
      error := Expire(now);
    }

    /** Leases the selected task to this scheduler. */
    method IssueLease(id: string, now: int) returns (r: Result<Promotion, Fault>)
      modifies this, registry`tasks
      ensures State() == Issue(Just(old(State())), id, now).s
      ensures r == PromotionOf(Issue(Just(old(State())), id, now))
    {
      ghost var before := State();
      var leased := registry.TakeTask(id, now);
      IssueOutcome(before, id, now);
      if leased.Err? {
        r := Err(leased.error);
      } else {
        leaseSequence := leaseSequence + 1;
        active := Some(Active(leaseSequence, id, now + leaseDuration));
        promotions := promotions + 1;
        r := Ok(Promoted(IdleScheduler.Lease(leaseSequence, id, now, now + leaseDuration)));
      }
    }

    /** The rest of a promotion, once an expired lease is settled. */
    method PromoteNow(capabilities: set<string>, now: int) returns (r: Result<Promotion, Fault>)
      requires Valid()
      modifies this, registry`tasks
      ensures State() == IdleScheduler.Promote(Just(old(State())), capabilities, now).s
      ensures r == PromotionOf(IdleScheduler.Promote(Just(old(State())), capabilities, now))
    {
      if !idle { return Ok(Refused(NotIdle)); }
      if active.Some? { return Ok(Refused(LeaseActive)); }
      if promotions >= maxPromotions { return Ok(Refused(EpochExhausted)); }
      var candidate := registry.Select(now, capabilities);
      if candidate.None? { return Ok(Refused(NothingEligible)); }
      r := IssueLease(candidate.value.id, now);
    }

    method Promote(capabilities: set<string>, now: int) returns (r: Result<Promotion, Fault>)
      requires Valid()
      modifies this, registry`tasks
      ensures Valid()
      ensures State() == TryPromote(old(State()), capabilities, now).s
      ensures r == PromotionOf(TryPromote(old(State()), capabilities, now))
      ensures old(Inv(State())) && now >= 0 ==> Inv(State()) && r.Ok?
    {
      ghost var before := State();
      var fault := Expire(now);
      if fault.Some? {
        r := Err(fault.value);
      } else {
        r := PromoteNow(capabilities, now);
        PromoteAfterExpiry(before, capabilities, now);
      }
      PromoteIsSound(before, capabilities, now);
    }

    method SettleActive(lease: nat, outcome: Outcome, now: int) returns (error: Option<Fault>)
      requires Valid()
      modifies this`active, registry`tasks
      ensures Valid()
      ensures State() == SettleLease(old(State()), lease, outcome, now).s
      ensures error == ErrorOf(SettleLease(old(State()), lease, outcome, now))
    {
      error := SettleNow(lease, outcome, now);
    }

    method SettleNow(lease: nat, outcome: Outcome, now: int) returns (error: Option<Fault>)
      modifies this`active, registry`tasks
      ensures State() == SettleLease(old(State()), lease, outcome, now).s
      ensures error == ErrorOf(SettleLease(old(State()), lease, outcome, now))
    {
      error := Expire(now);
      if error.Some? { return; }
      if active.None? || active.value.lease != lease { return Some(UnknownLease); }
      error := Finish(outcome, now);
    }
  }
}
