/** The idle scheduler over a drive registry: at most one lease, settled exactly once, and a
    capped number of promotions per idle epoch. Every public call reads the clock once. */
module IdleScheduler {
  import opened Common
  import opened Scheduler

  datatype Active = Active(lease: nat, task: string, expiresAt: int)

  datatype Sched = Sched(reg: Registry, leaseDuration: int, maxPromotions: int, promotions: int,
                         idle: bool, active: Option<Active>, leaseSequence: nat)

  datatype Settlement = Settlement(lease: nat, task: string, outcome: Outcome, at: int)

  datatype Lease = Lease(id: nat, task: string, at: int, expiresAt: int)

  datatype Refusal = NotIdle | LeaseActive | EpochExhausted | NothingEligible

  /** What a call did: the new state, the settlement and the lease it made, if any, and
      whether it failed, by its own error or by a fault of the registry below it. */
  datatype Effect = Effect(s: Sched, settled: Option<Settlement>, leased: Option<Lease>,
                           refused: Option<Refusal>, error: Option<Fault>, fault: Option<Fault>)

  function Just(s: Sched): Effect { Effect(s, None, None, None, None, None) }

  /** What a caller sees thrown. */
  function ErrorOf(e: Effect): Option<Fault> {
    if e.fault.Some? then e.fault else e.error
  }

  /** Registries are housed whatever the mutable fields of their tasks are. */
  ghost predicate OnlyStatus(a: Task, b: Task) {
    a.id == b.id && a.driveId == b.driveId && a.sequence == b.sequence && a.priority == b.priority
  }

  lemma TaskUpdateKeepsHoused(reg: Registry)
    ensures forall id, t :: Housed(reg) && id in reg.tasks && OnlyStatus(reg.tasks[id], t) ==> Housed(reg.(tasks := reg.tasks[id := t]))
  {
    forall id, t | Housed(reg) && id in reg.tasks && OnlyStatus(reg.tasks[id], t)
      ensures Housed(reg.(tasks := reg.tasks[id := t]))
    {
      UpdateKeepsHoused(reg, id, t);
    }
  }

  lemma UpdateKeepsHoused(reg: Registry, id: string, t: Task)
    requires Housed(reg) && id in reg.tasks && OnlyStatus(reg.tasks[id], t)
    ensures Housed(reg.(tasks := reg.tasks[id := t]))
  {
  }

  lemma LeaseKeepsHoused(reg: Registry, id: string, now: int)
    ensures Housed(reg) ==> Housed(LeaseTask(reg, id, now).0)
  {
    if Housed(reg) && LeaseTask(reg, id, now).1.Ok? { UpdateKeepsHoused(reg, id, LeaseTask(reg, id, now).1.value); }
  }

  /** Settles the active lease. */
  function Close(s: Sched, outcome: Outcome, now: int): (e: Effect)
    requires s.active.Some?
    ensures Housed(s.reg) ==> Housed(e.s.reg)
  {
    TaskUpdateKeepsHoused(s.reg);
    var a := s.active.value;
    var (reg, r) := SettleTask(s.reg, a.task, outcome, now);
    if r.Err? then Just(s).(fault := Some(r.error))
    else Just(s.(reg := reg, active := None)).(settled := Some(Settlement(a.lease, a.task, outcome, now)))
  }

  function ExpireActive(s: Sched, now: int): (e: Effect)
    ensures Housed(s.reg) ==> Housed(e.s.reg)
  {
    if s.active.None? || now < s.active.value.expiresAt then Just(s) else Close(s, Expired, now)
  }

  function AbortActive(s: Sched, now: int): (e: Effect)
    ensures Housed(s.reg) ==> Housed(e.s.reg)
  {
    if s.active.None? then Just(s) else Close(s, Abandoned, now)
  }

  function Look(s: Sched, now: int): Effect { ExpireActive(s, now) }

  function ObserveExternal(s: Sched, queueDepth: int, primaryActive: bool, now: int): (e: Effect)
    ensures Housed(s.reg) ==> Housed(e.s.reg)
  {
    if queueDepth < 0 then Just(s).(error := Some(BadArgument))
    else
      var idle := queueDepth == 0 && !primaryActive;
      var aborted := if idle then Just(s) else AbortActive(s.(promotions := 0), now);
      if aborted.fault.Some? then aborted
      else
        var looked := ExpireActive(aborted.s.(idle := idle), now);
        looked.(settled := if aborted.settled.Some? then aborted.settled else looked.settled)
  }

  function TryPromote(s: Sched, capabilities: set<string>, now: int): (f: Effect)
    requires Housed(s.reg)
    ensures Housed(f.s.reg)
  {
    var e := ExpireActive(s, now);
    if e.fault.Some? then e else Promote(e, capabilities, now)
  }

  /** The rest of a promotion, once an expired lease is settled. */
  function Promote(e: Effect, capabilities: set<string>, now: int): (f: Effect)
    requires Housed(e.s.reg)
    ensures Housed(f.s.reg)
  {
    if !e.s.idle then e.(refused := Some(NotIdle))
    else if e.s.active.Some? then e.(refused := Some(LeaseActive))
    else if e.s.promotions >= e.s.maxPromotions then e.(refused := Some(EpochExhausted))
    else
      match SelectCandidate(e.s.reg, now, capabilities)
      case None => e.(refused := Some(NothingEligible))
      case Some(task) => Issue(e, task.id, now)
  }

  function Issue(e: Effect, id: string, now: int): (f: Effect)
    ensures Housed(e.s.reg) ==> Housed(f.s.reg)
  {
    LeaseKeepsHoused(e.s.reg, id, now);
    var (reg, r) := LeaseTask(e.s.reg, id, now);
    if r.Err? then e.(fault := Some(r.error))
    else
      var lease := e.s.leaseSequence + 1;
      var expiresAt := now + e.s.leaseDuration;
      e.(s := e.s.(reg := reg, leaseSequence := lease, active := Some(Active(lease, id, expiresAt)),
                   promotions := e.s.promotions + 1),
         leased := Some(Lease(lease, id, now, expiresAt)))
  }

  function SettleLease(s: Sched, lease: nat, outcome: Outcome, now: int): (e: Effect)
    ensures Housed(s.reg) ==> Housed(e.s.reg)
  {
    var x := ExpireActive(s, now);
    if x.fault.Some? then x
    else if x.s.active.None? || x.s.active.value.lease != lease then x.(error := Some(UnknownLease))
    else if outcome.Unknown? then x.(error := Close(x.s, outcome, now).fault)
    else Close(x.s, outcome, now)
  }

  // ---- all calls ----------------------------------------------------------------------

  datatype Call =
    | DoObserve(queueDepth: int, primaryActive: bool)
    | DoPromote(capabilities: set<string>)
    | DoSettle(lease: nat, outcome: Outcome)
    | DoAbort
    | DoLook
    | DoRegisterDrive(id: string, parent: Option<string>, rank: int, enabled: bool)
    | DoSetDrive(id: string, enabled: bool)
    | DoRegisterTask(spec: TaskSpec)
    | DoSetTask(id: string, enabled: bool)
    | DoRearm(id: string, maxAttempts: Option<int>, notBefore: int)

  function OnRegistry(s: Sched, r: (Registry, Result<(), Fault>)): Effect {
    Just(s.(reg := r.0)).(error := if r.1.Err? then Some(r.1.error) else None)
  }

  function Do(s: Sched, call: Call, now: int): Effect
    requires Housed(s.reg)
  {
    match call
    case DoObserve(queueDepth, primaryActive) => ObserveExternal(s, queueDepth, primaryActive, now)
    case DoPromote(capabilities) => TryPromote(s, capabilities, now)
    case DoSettle(lease, outcome) => SettleLease(s, lease, outcome, now)
    case DoAbort => AbortActive(s, now)
    case DoLook => Look(s, now)
    case DoRegisterDrive(id, parent, rank, enabled) => OnRegistry(s, RegisterDrive(s.reg, id, parent, rank, enabled))
    case DoSetDrive(id, enabled) => OnRegistry(s, SetDriveEnabled(s.reg, id, enabled))
    case DoRegisterTask(spec) => OnRegistry(s, RegisterTask(s.reg, spec))
    case DoSetTask(id, enabled) => OnRegistry(s, SetTaskEnabled(s.reg, id, enabled))
    case DoRearm(id, maxAttempts, notBefore) => OnRegistry(s, RearmTask(s.reg, id, maxAttempts, notBefore))
  }

  // ---- the invariant ------------------------------------------------------------------

  /** What the status of a task says about its budget. */
  ghost predicate Budgeted(t: Task) {
    && 0 <= t.attempts && t.attempts <= t.maxAttempts && 1 <= t.maxAttempts && 0 <= t.cooldownMs
    && (t.status == Ready ==> t.attempts < t.maxAttempts)
    && (t.status == Exhausted ==> t.attempts == t.maxAttempts)
    && (t.status == Leased ==> 1 <= t.attempts)
  }

  ghost predicate TasksBudgeted(reg: Registry) {
    forall id :: id in reg.tasks ==> Budgeted(reg.tasks[id])
  }

  /** The leased tasks are exactly the task of the active lease. */
  ghost predicate SoleLease(s: Sched) {
    forall id :: id in s.reg.tasks ==>
      (s.reg.tasks[id].status == Leased <==> s.active.Some? && s.active.value.task == id)
  }

  ghost predicate Inv(s: Sched) {
    && Housed(s.reg) && SoleLease(s)
    && 1 <= s.leaseDuration && 1 <= s.maxPromotions
    && 0 <= s.promotions <= s.maxPromotions
    && (s.active.Some? ==> s.idle && s.active.value.task in s.reg.tasks && s.active.value.lease == s.leaseSequence)
  }
}
