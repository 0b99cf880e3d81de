/** The life of a task: everything that a call may do to it, and so what its settlements decide. */
module Settlements {
  import opened Common
  import opened Scheduler
  import opened IdleScheduler
  import opened SchedulerRuns
  import opened SchedulerLedger

  // ---- what may happen to a task -----------------------------------------------------------

  /** A settlement: the task is ready again exactly if it has attempts left and repeats or did not
      succeed, and then rests for its cooldown; otherwise success completes it, and anything else
      exhausts it. Nothing else of it changes but the outcome that it remembers. */
  ghost predicate SettledAs(t: Task, u: Task, outcome: Outcome, now: int) {
    && u == t.(status := u.status, lastOutcome := Some(outcome), nextEligibleAt := u.nextEligibleAt)
    && (u.status == Ready <==> t.attempts < t.maxAttempts && (t.repeat || outcome != Succeeded))
    && (u.status == Ready ==> u.nextEligibleAt == now + t.cooldownMs)
    && (u.status != Ready ==> u.nextEligibleAt == t.nextEligibleAt && u.status == if outcome == Succeeded then Completed else Exhausted)
  }

  predicate MayBeLeased(t: Task, now: int) { t.enabled && t.status == Ready && t.attempts < t.maxAttempts && t.nextEligibleAt <= now }

  ghost predicate LeasedAs(t: Task, u: Task, now: int) {
    && MayBeLeased(t, now) && u == t.(status := Leased, attempts := t.attempts + 1)
  }

  ghost predicate RearmedAs(t: Task, u: Task, maxAttempts: Option<int>, notBefore: int) {
    if t.status == Leased || (maxAttempts.Some? && maxAttempts.value < 1) then u == t
    else
      var budget := if maxAttempts.Some? then maxAttempts.value else t.maxAttempts;
      if notBefore < 0 then u == t.(maxAttempts := budget)
      else u == t.(maxAttempts := budget, attempts := 0, nextEligibleAt := notBefore, status := Ready, lastOutcome := None)
  }

  /** What a call that settles and leases these does to the task. */
  ghost predicate Evolves(t: Task, u: Task, call: Call, settled: Option<Settlement>, leased: Option<Lease>, now: int) {
    var taken := leased.Some? && leased.value.task == t.id;
    if settled.Some? && settled.value.task == t.id then
      t.status == Leased && exists mid :: SettledAs(t, mid, settled.value.outcome, now) && if taken then LeasedAs(mid, u, now) else u == mid
    else if taken then LeasedAs(t, u, now)
    else if call.DoRearm? && call.id == t.id then RearmedAs(t, u, call.maxAttempts, call.notBefore)
    else if call.DoSetTask? && call.id == t.id then u == t.(enabled := call.enabled)
    else u == t
  }

  // ---- and that nothing else may -------------------------------------------------------------

  lemma CloseSettles(s: Sched, outcome: Outcome, now: int, x: string)
    requires Inv(s) && s.active.Some? && !outcome.Unknown? && now >= 0 && x in s.reg.tasks
    ensures x in Close(s, outcome, now).s.reg.tasks
    ensures var t, u := s.reg.tasks[x], Close(s, outcome, now).s.reg.tasks[x];
            if s.active.value.task == x then t.status == Leased && SettledAs(t, u, outcome, now) else u == t
  {
    CloseFacts(s, outcome, now);
  }

  lemma ExpireSettles(s: Sched, now: int, x: string)
    requires Inv(s) && now >= 0 && x in s.reg.tasks
    ensures var e := ExpireActive(s, now);
            && x in e.s.reg.tasks
            && var t, u := s.reg.tasks[x], e.s.reg.tasks[x];
               if e.settled.Some? && e.settled.value.task == x then
                 t.status == Leased && e.settled.value.outcome == Expired && SettledAs(t, u, Expired, now)
               else u == t
  {
    ExpireFacts(s, now);
    if s.active.Some? { CloseSettles(s, Expired, now, x); }
  }

  /** Only the selected task is leased. */
  lemma PromotePicks(e: Effect, capabilities: set<string>, now: int)
    requires Housed(e.s.reg) && e.leased == None
    ensures var f, best := Promote(e, capabilities, now), SelectCandidate(e.s.reg, now, capabilities);
            f.settled == e.settled && (f.leased.Some? ==> best.Some? && f.leased.value.task == best.value.id)
  {
  }

  lemma PromoteLeases(e: Effect, capabilities: set<string>, now: int, x: string)
    requires Inv(e.s) && e.leased == None && x in e.s.reg.tasks
    ensures var f := Promote(e, capabilities, now);
            && f.settled == e.settled && x in f.s.reg.tasks
            && if f.leased.Some? && f.leased.value.task == x then LeasedAs(e.s.reg.tasks[x], f.s.reg.tasks[x], now)
               else f.s.reg.tasks[x] == e.s.reg.tasks[x]
  {
    PromoteStep(e, capabilities, now);
    PromotePicks(e, capabilities, now);
    if Promote(e, capabilities, now).leased.Some? { SelectedMayBeLeased(e.s.reg, capabilities, now); }
    PromotedLeases(e, Promote(e, capabilities, now), now, x);
  }

  lemma SelectedMayBeLeased(reg: Registry, capabilities: set<string>, now: int)
    requires Housed(reg) && SelectCandidate(reg, now, capabilities).Some?
    ensures var id := SelectCandidate(reg, now, capabilities).value.id; id in reg.tasks && MayBeLeased(reg.tasks[id], now)
  {
    SelectionIsMinimum(reg, now, capabilities);
  }

  lemma PromotedLeases(e: Effect, f: Effect, now: int, x: string)
    requires Promoted(e, f, now) && e.leased == None && x in e.s.reg.tasks
    requires f.leased.Some? && f.leased.value.task == x ==> MayBeLeased(e.s.reg.tasks[x], now)
    ensures x in f.s.reg.tasks
    ensures if f.leased.Some? && f.leased.value.task == x then LeasedAs(e.s.reg.tasks[x], f.s.reg.tasks[x], now)
            else f.s.reg.tasks[x] == e.s.reg.tasks[x]
  {
  }

  lemma PromotionEvolves(s: Sched, capabilities: set<string>, now: int, x: string)
    requires Inv(s) && now >= 0 && x in s.reg.tasks
    ensures var f := TryPromote(s, capabilities, now);
            x in f.s.reg.tasks && Evolves(s.reg.tasks[x], f.s.reg.tasks[x], DoPromote(capabilities), f.settled, f.leased, now)
  {
    var e := ExpireActive(s, now);
    ExpireFacts(s, now);
    PromoteUnfolds(s, capabilities, now);
    ExpireSettles(s, now, x);
    PromoteLeases(e, capabilities, now, x);
    assert s.reg.tasks[x].id == x;
    if e.settled.Some? && e.settled.value.task == x { assert SettledAs(s.reg.tasks[x], e.s.reg.tasks[x], Expired, now); }
  }

  lemma ObservationEvolves(s: Sched, queueDepth: int, primaryActive: bool, now: int, x: string)
    requires Inv(s) && now >= 0 && x in s.reg.tasks
    ensures var f := ObserveExternal(s, queueDepth, primaryActive, now);
            x in f.s.reg.tasks && Evolves(s.reg.tasks[x], f.s.reg.tasks[x], DoObserve(queueDepth, primaryActive), f.settled, f.leased, now)
  {
    assert s.reg.tasks[x].id == x;
    if queueDepth >= 0 {
      if queueDepth == 0 && !primaryActive {
        ExpireFacts(s.(idle := true), now);
        ExpireSettles(s.(idle := true), now, x);
      } else if s.active.Some? {
        var reset := s.(promotions := 0);
        CloseFacts(reset, Abandoned, now);
        CloseSettles(reset, Abandoned, now, x);
      }
    }
  }

  /** A settlement closes the active lease, or only a lease that ran out. */
  lemma SettlementUnfolds(s: Sched, lease: nat, outcome: Outcome, now: int)
    requires Inv(s) && now >= 0
    ensures var f, x := SettleLease(s, lease, outcome, now), ExpireActive(s, now);
            || (s.active.Some? && !outcome.Unknown? && f == Close(s, outcome, now))
            || (f.s == x.s && f.settled == x.settled && f.leased == None)
  {
    ExpireFacts(s, now);
  }

  lemma SettlementEvolves(s: Sched, lease: nat, outcome: Outcome, now: int, x: string)
    requires Inv(s) && now >= 0 && x in s.reg.tasks
    ensures var f := SettleLease(s, lease, outcome, now);
            x in f.s.reg.tasks && Evolves(s.reg.tasks[x], f.s.reg.tasks[x], DoSettle(lease, outcome), f.settled, f.leased, now)
  {
    assert s.reg.tasks[x].id == x;
    SettlementUnfolds(s, lease, outcome, now);
    ExpireSettles(s, now, x);
    if s.active.Some? && !outcome.Unknown? && SettleLease(s, lease, outcome, now) == Close(s, outcome, now) {
      ClosureEvolves(s, outcome, now, x, DoSettle(lease, outcome));
    }
  }

  lemma ClosureEvolves(s: Sched, outcome: Outcome, now: int, x: string, call: Call)
    requires Inv(s) && s.active.Some? && !outcome.Unknown? && now >= 0 && x in s.reg.tasks && !call.DoRearm? && !call.DoSetTask?
    ensures var f := Close(s, outcome, now);
            x in f.s.reg.tasks && Evolves(s.reg.tasks[x], f.s.reg.tasks[x], call, f.settled, f.leased, now)
  {
    assert s.reg.tasks[x].id == x;
    CloseFacts(s, outcome, now);
    CloseSettles(s, outcome, now, x);
  }

  lemma AbandonmentEvolves(s: Sched, now: int, x: string)
    requires Inv(s) && now >= 0 && x in s.reg.tasks
    ensures var f := AbortActive(s, now);
            x in f.s.reg.tasks && Evolves(s.reg.tasks[x], f.s.reg.tasks[x], DoAbort, f.settled, f.leased, now)
  {
    if s.active.Some? { ClosureEvolves(s, Abandoned, now, x, DoAbort); }
  }

  lemma LookEvolves(s: Sched, now: int, x: string)
    requires Inv(s) && now >= 0 && x in s.reg.tasks
    ensures var f := Look(s, now); x in f.s.reg.tasks && Evolves(s.reg.tasks[x], f.s.reg.tasks[x], DoLook, f.settled, f.leased, now)
  {
    assert s.reg.tasks[x].id == x;
    ExpireFacts(s, now);
    ExpireSettles(s, now, x);
  }

  lemma RearmEvolves(s: Sched, id: string, maxAttempts: Option<int>, notBefore: int, x: string)
    requires Inv(s) && x in s.reg.tasks
    ensures var reg := RearmTask(s.reg, id, maxAttempts, notBefore).0;
            x in reg.tasks && if id == x then RearmedAs(s.reg.tasks[x], reg.tasks[x], maxAttempts, notBefore) else reg.tasks[x] == s.reg.tasks[x]
  {
  }

  lemma RegistryEvolves(s: Sched, call: Call, now: int, x: string)
    requires Inv(s) && OnRegistryOnly(call) && x in s.reg.tasks
    ensures var f := Do(s, call, now);
            x in f.s.reg.tasks && Evolves(s.reg.tasks[x], f.s.reg.tasks[x], call, f.settled, f.leased, now)
  {
    assert s.reg.tasks[x].id == x;
    match call
    case DoRegisterDrive(_, _, _, _) =>
    case DoSetDrive(_, _) =>
    case DoRegisterTask(_) =>
    case DoSetTask(_, _) =>
    case DoRearm(id, maxAttempts, notBefore) => RearmEvolves(s, id, maxAttempts, notBefore, x);
  }

  /** Every call does to every task exactly what it settles, leases, rearms or switches, and nothing
      else. */
  lemma TasksEvolve(s: Sched, call: Call, now: int, x: string)
    requires Inv(s) && now >= 0 && x in s.reg.tasks
    ensures var e := Do(s, call, now);
            && x in e.s.reg.tasks && s.reg.tasks[x].id == x
            && Evolves(s.reg.tasks[x], e.s.reg.tasks[x], call, e.settled, e.leased, now)
  {
    match call
    case DoObserve(queueDepth, primaryActive) => ObservationEvolves(s, queueDepth, primaryActive, now, x);
    case DoPromote(capabilities) => PromotionEvolves(s, capabilities, now, x);
    case DoSettle(lease, outcome) => SettlementEvolves(s, lease, outcome, now, x);
    case DoAbort => AbandonmentEvolves(s, now, x);
    case DoLook => LookEvolves(s, now, x);
    case _ => RegistryEvolves(s, call, now, x);
  }

  // ---- registration ------------------------------------------------------------------------

  /** The task carries what it was registered with, but for its budget and its switch. */
  ghost predicate OnTerms(t: Task, spec: TaskSpec) {
    && t.id == spec.id && t.driveId == spec.driveId && t.priority == spec.priority && t.capabilities == spec.capabilities
    && t.cooldownMs == spec.cooldownMs && t.repeat == spec.repeat
  }

  /** A task is registered exactly if it is new, its drive is known, and its terms are proper; it then
      starts ready, from its time on, with its whole budget. */
  lemma RegistersExactly(s: Sched, spec: TaskSpec, now: int)
    requires Inv(s)
    ensures var e := Do(s, DoRegisterTask(spec), now);
            && (e.error == None <==> spec.id !in s.reg.tasks && spec.driveId in s.reg.drives && spec.notBefore >= 0
                                     && spec.maxAttempts >= 1 && spec.cooldownMs >= 0 && !(spec.repeat && spec.cooldownMs == 0))
            && (e.error != None ==> e.s == s)
            && (e.error == None ==>
                  && e.s.reg.tasks.Keys == s.reg.tasks.Keys + {spec.id} && e.s.reg.taskOrder == s.reg.taskOrder + [spec.id]
                  && var t := e.s.reg.tasks[spec.id];
                     && OnTerms(t, spec) && t.enabled == spec.enabled && t.maxAttempts == spec.maxAttempts && t.attempts == 0
                     && t.status == Ready && t.nextEligibleAt == spec.notBefore && t.lastOutcome == None && t.sequence == |s.reg.taskOrder|)
  {
  }

  lemma TermsStay(t: Task, u: Task, call: Call, settled: Option<Settlement>, leased: Option<Lease>, now: int, spec: TaskSpec)
    requires Evolves(t, u, call, settled, leased, now) && OnTerms(t, spec)
    ensures OnTerms(u, spec)
  {
  }

  /** Over every run, a task stays on the terms of its registration. */
  lemma {:induction false} TermsAreKept(w: World, events: seq<Event>, spec: TaskSpec)
    requires Ledger(w) && spec.id in w.s.reg.tasks && OnTerms(w.s.reg.tasks[spec.id], spec)
    ensures var last := Run(w, events); spec.id in last.s.reg.tasks && OnTerms(last.s.reg.tasks[spec.id], spec)
  {
    if events != [] {
      var before, event := Run(w, events[..|events| - 1]), events[|events| - 1];
      TermsAreKept(w, events[..|events| - 1], spec);
      TasksEvolve(before.s, event.call, event.now, spec.id);
      var e := Do(before.s, event.call, event.now);
      TermsStay(before.s.reg.tasks[spec.id], e.s.reg.tasks[spec.id], event.call, e.settled, e.leased, event.now, spec);
    }
  }

  // ---- drives --------------------------------------------------------------------------------

  /** A drive is registered exactly if it is new and its parent, if it names one, is known; it is then
      what it was registered as. Otherwise nothing changes. */
  lemma RegistersDriveExactly(s: Sched, id: string, parent: Option<string>, rank: int, enabled: bool, now: int)
    requires Inv(s)
    ensures var e := Do(s, DoRegisterDrive(id, parent, rank, enabled), now);
            && (e.error == None <==> id !in s.reg.drives && (parent.Some? ==> parent.value in s.reg.drives))
            && (e.error != None ==> e.s == s)
            && (e.error == None ==>
                  && id in e.s.reg.drives && e.s.reg.drives.Keys == s.reg.drives.Keys + {id}
                  && e.s.reg.drives[id].id == id && e.s.reg.drives[id].parent == parent
                  && e.s.reg.drives[id].rank == rank && e.s.reg.drives[id].enabled == enabled
                  && e.s.reg.tasks == s.reg.tasks)
  {
  }

  /** A known drive keeps its parent and its rank in every call, and is switched by its own switch alone. */
  lemma DrivesEvolve(s: Sched, call: Call, now: int, x: string)
    requires Inv(s) && now >= 0 && x in s.reg.drives
    ensures var drives := Do(s, call, now).s.reg.drives;
            x in drives && drives[x] == if call.DoSetDrive? && call.id == x then s.reg.drives[x].(enabled := call.enabled) else s.reg.drives[x]
  {
    if !OnRegistryOnly(call) { DrivesStay(s, call, now); }
  }

  lemma CloseKeepsDrives(s: Sched, outcome: Outcome, now: int)
    requires s.active.Some?
    ensures Close(s, outcome, now).s.reg.drives == s.reg.drives
  {
  }

  lemma DrivesStay(s: Sched, call: Call, now: int)
    requires Inv(s) && now >= 0 && !OnRegistryOnly(call)
    ensures Do(s, call, now).s.reg.drives == s.reg.drives
  {
    match call
    case DoObserve(queueDepth, primaryActive) => ObservationKeepsDrives(s, queueDepth, primaryActive, now);
    case DoPromote(capabilities) => PromotionKeepsDrives(s, capabilities, now);
    case DoSettle(lease, outcome) => SettlementKeepsDrives(s, lease, outcome, now);
    case DoAbort => if s.active.Some? { CloseKeepsDrives(s, Abandoned, now); }
    case DoLook => if s.active.Some? { CloseKeepsDrives(s, Expired, now); }
  }

  lemma ExpiryKeepsDrives(s: Sched, now: int)
    ensures ExpireActive(s, now).s.reg.drives == s.reg.drives
  {
    if s.active.Some? { CloseKeepsDrives(s, Expired, now); }
  }

  lemma ObservationKeepsDrives(s: Sched, queueDepth: int, primaryActive: bool, now: int)
    ensures ObserveExternal(s, queueDepth, primaryActive, now).s.reg.drives == s.reg.drives
  {
    var idle, reset := queueDepth == 0 && !primaryActive, s.(promotions := 0);
    var aborted := if idle then Just(s) else AbortActive(reset, now);
    if !idle && s.active.Some? { CloseKeepsDrives(reset, Abandoned, now); }
    ExpiryKeepsDrives(aborted.s.(idle := idle), now);
  }

  lemma SettlementKeepsDrives(s: Sched, lease: nat, outcome: Outcome, now: int)
    requires Inv(s) && now >= 0
    ensures SettleLease(s, lease, outcome, now).s.reg.drives == s.reg.drives
  {
    SettlementUnfolds(s, lease, outcome, now);
    ExpiryKeepsDrives(s, now);
    if s.active.Some? { CloseKeepsDrives(s, outcome, now); }
  }

  lemma PromotionKeepsDrives(s: Sched, capabilities: set<string>, now: int)
    requires Inv(s) && now >= 0
    ensures TryPromote(s, capabilities, now).s.reg.drives == s.reg.drives
  {
    ExpireFacts(s, now);
    if s.active.Some? { CloseKeepsDrives(s, Expired, now); }
    PromoteUnfolds(s, capabilities, now);
    PromoteStep(ExpireActive(s, now), capabilities, now);
  }

  /** Whether a drive is switched on after some calls. */
  function SwitchedOn(events: seq<Event>, x: string, before: bool): bool {
    if events == [] then before
    else
      var last := events[|events| - 1].call;
      if last.DoSetDrive? && last.id == x then last.enabled else SwitchedOn(events[..|events| - 1], x, before)
  }

  /** Over every run, a drive stays what it was registered as, but for its switch, which is as it was
      last set. */
  lemma {:induction false} DrivesAreAsTold(w: World, events: seq<Event>, x: string)
    requires Ledger(w) && x in w.s.reg.drives
    ensures var drives := Run(w, events).s.reg.drives;
            x in drives && drives[x] == w.s.reg.drives[x].(enabled := SwitchedOn(events, x, w.s.reg.drives[x].enabled))
  {
    if events != [] {
      var before, event := Run(w, events[..|events| - 1]), events[|events| - 1];
      DrivesAreAsTold(w, events[..|events| - 1], x);
      DrivesEvolve(before.s, event.call, event.now, x);
    }
  }

  // ---- what a settlement decides -------------------------------------------------------------

  /** In every run: whenever a call settles a task, the task can be leased again (and is, if the same
      call leases it) exactly if it has attempts left and was registered as repeating or did not
      succeed; otherwise it is completed if it succeeded, and exhausted if not. */
  lemma SettlementDecides(w: World, events: seq<Event>, event: Event, spec: TaskSpec)
    requires Ledger(w) && spec.id in w.s.reg.tasks && OnTerms(w.s.reg.tasks[spec.id], spec)
    requires var e := Do(Run(w, events).s, event.call, event.now); e.settled.Some? && e.settled.value.task == spec.id
    ensures var before, e := Run(w, events), Do(Run(w, events).s, event.call, event.now);
            && spec.id in before.s.reg.tasks && spec.id in e.s.reg.tasks
            && var t, u := before.s.reg.tasks[spec.id], e.s.reg.tasks[spec.id];
               var outcome, again := e.settled.value.outcome, e.leased.Some? && e.leased.value.task == spec.id;
               && t.status == Leased
               && (u.status == (if again then Leased else Ready)
                   <==> t.attempts < t.maxAttempts && (spec.repeat || outcome != Succeeded))
               && (!(t.attempts < t.maxAttempts && (spec.repeat || outcome != Succeeded)) ==>
                     u.status == (if outcome == Succeeded then Completed else Exhausted) && !again)
               && (u.status == Ready ==> u.nextEligibleAt == event.now + spec.cooldownMs)
               && u.lastOutcome == Some(outcome)
  {
    TermsAreKept(w, events, spec);
    var before := Run(w, events);
    TasksEvolve(before.s, event.call, event.now, spec.id);
    var e, t := Do(before.s, event.call, event.now), before.s.reg.tasks[spec.id];
    var mid :| SettledAs(t, mid, e.settled.value.outcome, event.now)
               && if e.leased.Some? && e.leased.value.task == spec.id then LeasedAs(mid, e.s.reg.tasks[spec.id], event.now)
                  else e.s.reg.tasks[spec.id] == mid;
  }

  // ---- repeating tasks -----------------------------------------------------------------------

  /** A rearm that is rejected for its time. */
  predicate LateRejection(call: Call) { call.DoRearm? && call.notBefore < 0 }

  /** A repeating task is completed only when its budget is spent. */
  ghost predicate CompletedIsSpent(t: Task) { t.repeat && t.status == Completed ==> t.attempts >= t.maxAttempts }

  lemma CompletedStaysSpent(t: Task, u: Task, call: Call, settled: Option<Settlement>, leased: Option<Lease>, now: int)
    requires Evolves(t, u, call, settled, leased, now) && CompletedIsSpent(t) && !LateRejection(call)
    ensures CompletedIsSpent(u)
  {
  }

  /** Over every run in which no rearm is rejected for its time, a repeating task is never completed
      with attempts left. */
  lemma {:induction false} RepeatingTasksGoOn(w: World, events: seq<Event>, x: string)
    requires Ledger(w) && x in w.s.reg.tasks && CompletedIsSpent(w.s.reg.tasks[x])
    requires forall event :: event in events ==> !LateRejection(event.call)
    ensures var last := Run(w, events); x in last.s.reg.tasks && CompletedIsSpent(last.s.reg.tasks[x])
  {
    if events != [] {
      var before, event := Run(w, events[..|events| - 1]), events[|events| - 1];
      RepeatingTasksGoOn(w, events[..|events| - 1], x);
      TasksEvolve(before.s, event.call, event.now, x);
      var e := Do(before.s, event.call, event.now);
      CompletedStaysSpent(before.s.reg.tasks[x], e.s.reg.tasks[x], event.call, e.settled, e.leased, event.now);
    }
  }

  // ---- completed tasks -----------------------------------------------------------------------

  lemma CompletedRests(t: Task, u: Task, call: Call, settled: Option<Settlement>, leased: Option<Lease>, now: int)
    requires Evolves(t, u, call, settled, leased, now) && t.status == Completed && !(call.DoRearm? && call.id == t.id)
    ensures u.status == Completed && !(leased.Some? && leased.value.task == t.id)
  {
  }

  /** The task is completed, and was not leased since. */
  ghost predicate RestsSince(w: World, later: World, x: string) {
    && x in later.s.reg.tasks && later.s.reg.tasks[x].status == Completed
    && |w.leases| <= |later.leases| && forall i: nat :: |w.leases| <= i < |later.leases| ==> later.leases[i].task != x
  }

  lemma CompletedStep(w: World, event: Event, x: string)
    requires Ledger(w) && x in w.s.reg.tasks && w.s.reg.tasks[x].status == Completed
    requires !(event.call.DoRearm? && event.call.id == x)
    ensures RestsSince(w, Step(w, event), x) && w.leases <= Step(w, event).leases
  {
    TasksEvolve(w.s, event.call, event.now, x);
    var e := Do(w.s, event.call, event.now);
    CompletedRests(w.s.reg.tasks[x], e.s.reg.tasks[x], event.call, e.settled, e.leased, event.now);
  }

  lemma RestsOn(w: World, middle: World, last: World, x: string)
    requires RestsSince(w, middle, x) && RestsSince(middle, last, x) && middle.leases <= last.leases
    ensures RestsSince(w, last, x)
  {
  }

  /** A completed task is never leased again before somebody rearms it. */
  lemma {:induction false} CompletedTasksRest(w: World, events: seq<Event>, x: string)
    requires Ledger(w) && x in w.s.reg.tasks && w.s.reg.tasks[x].status == Completed
    requires forall event :: event in events ==> !(event.call.DoRearm? && event.call.id == x)
    ensures RestsSince(w, Run(w, events), x)
  {
    if events != [] {
      var front, event := events[..|events| - 1], events[|events| - 1];
      assert event in events && forall e :: e in front ==> e in events;
      CompletedTasksRest(w, front, x);
      CompletedStep(Run(w, front), event, x);
      RestsOn(w, Run(w, front), Step(Run(w, front), event), x);
    }
  }
}
