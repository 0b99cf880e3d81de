/** What the idle scheduler answers: which task a promotion leases and why it refuses, when a lease
    runs out, and what the host's activity does to it. */
module Promotions {
  import opened Common
  import opened Scheduler
  import opened IdleScheduler
  import opened SchedulerRuns
  import opened SchedulerLedger
  import opened Settlements

  // ---- who qualifies -----------------------------------------------------------------------

  /** The task may be leased now: it and every drive from its root down are switched on, it is ready
      and rested, has attempts left, and asks for no more than the host can do. */
  ghost predicate Qualifies(reg: Registry, t: Task, now: int, capabilities: set<string>) {
    && t.enabled && t.status == Ready && t.attempts < t.maxAttempts && t.nextEligibleAt <= now
    && (forall c :: c in t.capabilities ==> c in capabilities)
    && (forall path, drive: Drive :: IsRootPath(reg, t.driveId, path) && drive in path ==> drive.enabled)
  }

  lemma EligibleQualifies(reg: Registry, id: string, now: int, capabilities: set<string>)
    requires Housed(reg) && id in reg.tasks
    ensures Eligible(reg, id, now, capabilities) <==> Qualifies(reg, reg.tasks[id], now, capabilities)
  {
    var driveId := reg.tasks[id].driveId;
    var drives := DrivePath(reg, driveId);
    DrivePathIsRootPath(reg, driveId);
    forall path | IsRootPath(reg, driveId, path) ensures path == drives { RootPathUnique(reg, driveId, path, drives); }
    if Qualifies(reg, reg.tasks[id], now, capabilities) {
      forall drive | drive in drives ensures drive.enabled { assert IsRootPath(reg, driveId, drives) && drive in drives; }
    }
  }

  // ---- who comes first ---------------------------------------------------------------------

  /** At the first level where two lists differ, the left one has the smaller rank, or ends. */
  ghost predicate RanksBefore(a: seq<int>, b: seq<int>) {
    exists k :: DiffersAt(a, b, k)
  }

  ghost predicate DiffersAt(a: seq<int>, b: seq<int>, k: nat) {
    && k <= |a| && k < |b| && (forall i :: 0 <= i < k ==> a[i] == b[i])
    && (k == |a| || a[k] < b[k])
  }

  lemma {:induction false} CompareIsRanksBefore(a: seq<int>, b: seq<int>)
    ensures CompareArrays(a, b) < 0 <==> RanksBefore(a, b)
  {
    if a != [] && b != [] && a[0] == b[0] {
      CompareIsRanksBefore(a[1..], b[1..]);
      if k: nat :| DiffersAt(a[1..], b[1..], k) { OneDeeper(a, b, k); }
      if k: nat :| DiffersAt(a, b, k) { assert k > 0; OneHigher(a, b, k); }
    } else if b != [] && (a == [] || a[0] < b[0]) {
      assert DiffersAt(a, b, 0);
    }
  }

  lemma OneDeeper(a: seq<int>, b: seq<int>, k: nat)
    requires a != [] && b != [] && a[0] == b[0] && DiffersAt(a[1..], b[1..], k)
    ensures DiffersAt(a, b, k + 1)
  {
    forall i | 0 <= i < k + 1 ensures a[i] == b[i] {
      if i > 0 { assert a[1..][i - 1] == b[1..][i - 1]; }
    }
  }

  lemma OneHigher(a: seq<int>, b: seq<int>, k: nat)
    requires a != [] && b != [] && a[0] == b[0] && DiffersAt(a, b, k) && k > 0
    ensures DiffersAt(a[1..], b[1..], k - 1)
  {
  }

  /** The one task is more urgent than the other: its drives rank before the other's from the root
      down; at equal ranks its priority number is smaller; at equal priorities it was registered
      earlier. */
  ghost predicate Sooner(reg: Registry, t: Task, u: Task)
    requires Forest(reg) && t.driveId in reg.drives && u.driveId in reg.drives
  {
    var a, b := Ranks(DrivePath(reg, t.driveId)), Ranks(DrivePath(reg, u.driveId));
    || RanksBefore(a, b)
    || (a == b && t.priority < u.priority)
    || (a == b && t.priority == u.priority && t.sequence < u.sequence)
  }

  lemma BeforeIsSooner(reg: Registry, a: string, b: string)
    requires Housed(reg) && a in reg.tasks && b in reg.tasks
    ensures Before(CandidateOf(reg, a), CandidateOf(reg, b)) <==> Sooner(reg, reg.tasks[a], reg.tasks[b])
  {
    var p, q := CandidateOf(reg, a).ranks, CandidateOf(reg, b).ranks;
    CompareIsRanksBefore(p, q);
    CompareIsRanksBefore(q, p);
    CompareFlips(p, q);
  }

  // ---- promotions --------------------------------------------------------------------------

  /** The lease of a scheduler has run out. */
  predicate RanOut(s: Sched, now: int) { s.active.Some? && now >= s.active.value.expiresAt }

  /** What a promotion leases: the most urgent of the tasks that qualify, if any does. */
  ghost predicate MostUrgent(reg: Registry, id: string, now: int, capabilities: set<string>)
    requires Housed(reg)
  {
    && id in reg.tasks && Qualifies(reg, reg.tasks[id], now, capabilities)
    && forall x :: x in reg.tasks && x != id && Qualifies(reg, reg.tasks[x], now, capabilities) ==>
         Sooner(reg, reg.tasks[id], reg.tasks[x])
  }

  lemma SelectionIsMostUrgent(reg: Registry, now: int, capabilities: set<string>)
    requires Housed(reg)
    ensures SelectCandidate(reg, now, capabilities) == None
            <==> forall id :: id in reg.tasks ==> !Qualifies(reg, reg.tasks[id], now, capabilities)
    ensures SelectCandidate(reg, now, capabilities).Some? ==> MostUrgent(reg, SelectCandidate(reg, now, capabilities).value.id, now, capabilities)
  {
    SelectionIsMinimum(reg, now, capabilities);
    forall id | id in reg.tasks ensures Eligible(reg, id, now, capabilities) <==> Qualifies(reg, reg.tasks[id], now, capabilities) {
      EligibleQualifies(reg, id, now, capabilities);
    }
    if SelectCandidate(reg, now, capabilities).Some? {
      var best := SelectCandidate(reg, now, capabilities).value.id;
      forall x | x in reg.tasks && x != best && Qualifies(reg, reg.tasks[x], now, capabilities)
        ensures Sooner(reg, reg.tasks[best], reg.tasks[x])
      {
        BeforeIsSooner(reg, best, x);
      }
    }
  }

  /** Why a promotion is refused before any task is looked at, in this order: the host is not idle,
      a lease is still active, or the promotions of the epoch are used up. */
  function Obstacle(s: Sched, now: int): Option<Refusal> {
    if !s.idle then Some(NotIdle)
    else if s.active.Some? && !RanOut(s, now) then Some(LeaseActive)
    else if s.promotions >= s.maxPromotions then Some(EpochExhausted)
    else None
  }

  /** Nothing has changed but that a lease which ran out is settled. */
  ghost predicate Refuses(s: Sched, e: Effect, now: int) {
    && e.leased == None && e.s == s.(active := if RanOut(s, now) then None else s.active, reg := e.s.reg)
  }

  /** The task has the next lease, for the lease duration. */
  ghost predicate Leases(s: Sched, e: Effect, task: string, now: int) {
    && e.leased == Some(Lease(s.leaseSequence + 1, task, now, now + s.leaseDuration))
    && e.s == s.(active := Some(Active(s.leaseSequence + 1, task, now + s.leaseDuration)),
                 leaseSequence := s.leaseSequence + 1, promotions := s.promotions + 1, reg := e.s.reg)
  }

  /** What a promotion answers, once a lease that ran out is settled: its obstacle, if there is one;
      that nothing is eligible, if no task qualifies; otherwise it leases the most urgent task that
      does. */
  lemma PromotionAnswers(s: Sched, capabilities: set<string>, now: int)
    requires Inv(s) && now >= 0
    ensures var e, reg := TryPromote(s, capabilities, now), ExpireActive(s, now).s.reg;
            && Housed(reg) && e.error == None && e.fault == None
            && (e.settled.Some? <==> RanOut(s, now))
            && (Obstacle(s, now).Some? ==> e.refused == Obstacle(s, now) && Refuses(s, e, now))
            && (Obstacle(s, now).None? ==> LeasesBest(s, reg, e, capabilities, now))
  {
    var x := ExpireActive(s, now);
    ExpiryKeeps(s, now);
    PromoteUnfolds(s, capabilities, now);
    if Obstacle(s, now).Some? { PromoteBlocked(s, x, capabilities, now); } else { PromoteOpen(s, x, capabilities, now); }
  }

  ghost predicate LeasesBest(s: Sched, reg: Registry, e: Effect, capabilities: set<string>, now: int)
    requires Housed(reg)
  {
    if forall id :: id in reg.tasks ==> !Qualifies(reg, reg.tasks[id], now, capabilities) then
      e.refused == Some(NothingEligible) && Refuses(s, e, now)
    else
      e.refused == None && e.leased.Some? && Leases(s, e, e.leased.value.task, now) && MostUrgent(reg, e.leased.value.task, now, capabilities)
  }

  /** Looking for a lease that ran out touches nothing but that lease and its task. */
  lemma ExpiryKeeps(s: Sched, now: int)
    requires Inv(s) && now >= 0
    ensures var x := ExpireActive(s, now);
            && Inv(x.s) && x == Just(x.s).(settled := x.settled)
            && (x.settled.Some? <==> RanOut(s, now))
            && x.s == s.(active := if RanOut(s, now) then None else s.active, reg := x.s.reg)
  {
    ExpireFacts(s, now);
    if s.active.Some? { CloseFacts(s, Expired, now); }
  }

  lemma PromoteBlocked(s: Sched, x: Effect, capabilities: set<string>, now: int)
    requires Housed(x.s.reg) && Obstacle(s, now).Some?
    requires x.s == s.(active := if RanOut(s, now) then None else s.active, reg := x.s.reg)
    ensures Promote(x, capabilities, now) == x.(refused := Obstacle(s, now))
  {
  }

  lemma PromoteOpen(s: Sched, x: Effect, capabilities: set<string>, now: int)
    requires Inv(x.s) && Obstacle(s, now).None? && x == Just(x.s).(settled := x.settled)
    requires x.s == s.(active := None, reg := x.s.reg)
    ensures var e := Promote(x, capabilities, now);
            e.settled == x.settled && e.error == None && e.fault == None && LeasesBest(s, x.s.reg, e, capabilities, now)
  {
    var best := SelectCandidate(x.s.reg, now, capabilities);
    SelectionIsMostUrgent(x.s.reg, now, capabilities);
    PromoteSelected(x, capabilities, now);
    if best.Some? { BestIsLeased(s, x, best.value.id, capabilities, now); }
  }

  lemma BestIsLeased(s: Sched, x: Effect, id: string, capabilities: set<string>, now: int)
    requires Housed(x.s.reg) && MostUrgent(x.s.reg, id, now, capabilities)
    requires x.refused == None && x.s == s.(active := None, reg := x.s.reg)
    ensures LeasesBest(s, x.s.reg, x.(s := LeasedState(x.s, id, now), leased := Some(Lease(x.s.leaseSequence + 1, id, now, now + x.s.leaseDuration))),
                       capabilities, now)
  {
  }

  lemma PromoteSelected(x: Effect, capabilities: set<string>, now: int)
    requires Inv(x.s) && x.s.idle && x.s.active.None? && x.s.promotions < x.s.maxPromotions
    ensures var e, best := Promote(x, capabilities, now), SelectCandidate(x.s.reg, now, capabilities);
            if best == None then e == x.(refused := Some(NothingEligible))
            else best.value.id in x.s.reg.tasks && e == x.(s := LeasedState(x.s, best.value.id, now),
                                                           leased := Some(Lease(x.s.leaseSequence + 1, best.value.id, now, now + x.s.leaseDuration)))
  {
    SelectionIsMinimum(x.s.reg, now, capabilities);
    if SelectCandidate(x.s.reg, now, capabilities).Some? {
      IssueFacts(x, SelectCandidate(x.s.reg, now, capabilities).value.id, now);
    }
  }

  // ---- settlements and observations ----------------------------------------------------------

  /** A settlement is accepted exactly for the lease that is active and has not run out, with an
      outcome that is known; one that has run out is settled as expired first. */
  lemma SettlementAnswers(s: Sched, lease: nat, outcome: Outcome, now: int)
    requires Inv(s) && now >= 0
    ensures var e := SettleLease(s, lease, outcome, now);
            var mine := s.active.Some? && !RanOut(s, now) && s.active.value.lease == lease;
            && e.leased == None && e.fault == None
            && (mine && !outcome.Unknown? ==>
                  e.error == None && e.s.active == None && e.settled == Some(Settlement(lease, s.active.value.task, outcome, now)))
            && (mine && outcome.Unknown? ==> e.error == Some(UnknownOutcome) && e.s == s && e.settled == None)
            && (!mine ==> e.error == Some(UnknownLease))
            && (RanOut(s, now) ==>
                  e.s.active == None && e.settled == Some(Settlement(s.active.value.lease, s.active.value.task, Expired, now)))
            && (!mine && !RanOut(s, now) ==> e.s == s && e.settled == None)
  {
    ExpiryKeeps(s, now);
    if s.active.Some? {
      CloseFacts(s, Expired, now);
      if s.active.value.lease == lease && !RanOut(s, now) { ActiveSettles(s, outcome, now); }
    }
  }

  lemma ActiveSettles(s: Sched, outcome: Outcome, now: int)
    requires Inv(s) && now >= 0 && s.active.Some? && !RanOut(s, now)
    ensures var lease := s.active.value.lease;
            var e := SettleLease(s, lease, outcome, now);
            && e.leased == None && e.fault == None
            && if outcome.Unknown? then e.error == Some(UnknownOutcome) && e.s == s && e.settled == None
               else e.error == None && e.s.active == None && e.settled == Some(Settlement(lease, s.active.value.task, outcome, now))
  {
    if outcome.Unknown? { assert Close(s, outcome, now).fault == Some(UnknownOutcome); }
    else { CloseFacts(s, outcome, now); }
  }

  /** An observation of the host: a negative depth is refused; an empty queue without primary work makes
      the host idle and settles only a lease that ran out; anything else makes it busy, starts a
      new epoch, and abandons the lease. */
  lemma ObservationAnswers(s: Sched, queueDepth: int, primaryActive: bool, now: int)
    requires Inv(s) && now >= 0
    ensures var e := ObserveExternal(s, queueDepth, primaryActive, now);
            && e.leased == None && e.fault == None
            && (queueDepth < 0 ==> e.error == Some(BadArgument) && e.s == s && e.settled == None)
            && (queueDepth == 0 && !primaryActive ==>
                  && e.error == None && e.s.idle && e.s.promotions == s.promotions
                  && e.s.active == (if RanOut(s, now) then None else s.active)
                  && e.settled == if RanOut(s, now) then Some(Settlement(s.active.value.lease, s.active.value.task, Expired, now)) else None)
            && (queueDepth > 0 || (queueDepth == 0 && primaryActive) ==>
                  && e.error == None && !e.s.idle && e.s.promotions == 0 && e.s.active == None
                  && e.settled == if s.active.Some? then Some(Settlement(s.active.value.lease, s.active.value.task, Abandoned, now)) else None)
  {
    if queueDepth == 0 && !primaryActive {
      ExpireFacts(s.(idle := true), now);
      if s.active.Some? { CloseFacts(s.(idle := true), Expired, now); }
    } else if queueDepth >= 0 && s.active.Some? {
      CloseFacts(s.(promotions := 0), Abandoned, now);
    }
  }

  // ---- how long leases last ------------------------------------------------------------------

  /** Leases last for the lease duration, the active one included. */
  ghost predicate Timed(w: World) {
    && (forall i :: 0 <= i < |w.leases| ==> w.leases[i].expiresAt == w.leases[i].at + w.s.leaseDuration)
    && (w.s.active.Some? ==> w.leases != [] && w.s.active.value.expiresAt == w.leases[|w.leases| - 1].expiresAt)
  }

  /** A call that looks at the clock. */
  predicate Timely(call: Call) { (call.DoObserve? && call.queueDepth >= 0) || call.DoPromote? || call.DoSettle? || call.DoLook? }

  lemma StepIsTimed(w: World, event: Event)
    requires Ledger(w) && Timed(w)
    ensures Timed(Step(w, event)) && Step(w, event).s.leaseDuration == w.s.leaseDuration
    ensures Timely(event.call) && Step(w, event).s.active.Some? ==> event.now < Step(w, event).s.active.value.expiresAt
  {
    CallIsTimed(w.s, event.call, event.now);
    var next := Step(w, event);
    forall i | 0 <= i < |next.leases| ensures next.leases[i].expiresAt == next.leases[i].at + w.s.leaseDuration {
      if i < |w.leases| { assert next.leases[i] == w.leases[i]; }
    }
  }

  ghost predicate TimedEffect(s: Sched, e: Effect, call: Call, now: int) {
    && e.s.leaseDuration == s.leaseDuration
    && (e.leased.Some? ==> e.leased.value.expiresAt == e.leased.value.at + s.leaseDuration
                           && e.s.active.Some? && e.s.active.value.expiresAt == e.leased.value.expiresAt)
    && (e.leased.None? && e.s.active.Some? ==> e.s.active == s.active)
    && (Timely(call) && e.s.active.Some? ==> now < e.s.active.value.expiresAt)
  }

  lemma CallIsTimed(s: Sched, call: Call, now: int)
    requires Inv(s) && now >= 0
    ensures TimedEffect(s, Do(s, call, now), call, now)
  {
    DurationStays(s, call, now);
    match call
    case DoObserve(queueDepth, primaryActive) => ObservationAnswers(s, queueDepth, primaryActive, now);
    case DoPromote(capabilities) => PromotionIsTimed(s, capabilities, now);
    case DoSettle(lease, outcome) => SettlementAnswers(s, lease, outcome, now);
    case DoAbort => if s.active.Some? { CloseFacts(s, Abandoned, now); }
    case DoLook => ExpireFacts(s, now);
    case _ => RegistryFacts(s, call, now);
  }

  lemma PromotionIsTimed(s: Sched, capabilities: set<string>, now: int)
    requires Inv(s) && now >= 0
    ensures TimedEffect(s, TryPromote(s, capabilities, now), DoPromote(capabilities), now)
  {
    PromotionAnswers(s, capabilities, now);
  }

  lemma CloseKeeps(s: Sched, outcome: Outcome, now: int)
    requires s.active.Some?
    ensures var e := Close(s, outcome, now); e.s.leaseDuration == s.leaseDuration && e.s.maxPromotions == s.maxPromotions
  {
  }

  lemma SettlementKeepsDuration(s: Sched, lease: nat, outcome: Outcome, now: int)
    requires Inv(s) && now >= 0
    ensures SettleLease(s, lease, outcome, now).s.leaseDuration == s.leaseDuration
  {
    ExpiryKeeps(s, now);
    SettlementUnfolds(s, lease, outcome, now);
    if s.active.Some? { CloseKeeps(s, outcome, now); }
  }

  lemma DurationStays(s: Sched, call: Call, now: int)
    requires Inv(s) && now >= 0
    ensures Do(s, call, now).s.leaseDuration == s.leaseDuration
  {
    match call
    case DoObserve(_, _) =>
    case DoPromote(capabilities) => PromotionIsTimed(s, capabilities, now);
    case DoSettle(lease, outcome) => SettlementKeepsDuration(s, lease, outcome, now);
    case DoAbort => if s.active.Some? { CloseKeeps(s, Abandoned, now); }
    case DoLook => ExpiryKeeps(s, now);
    case _ => RegistryFacts(s, call, now);
  }

  /** Over every run of a fresh scheduler: each lease lasts for the lease duration, and after any call
      that looks at the clock no lease is active that has run out. */
  lemma {:induction false} LeasesRunOut(leaseDuration: int, maxPromotions: int, events: seq<Event>)
    requires 1 <= leaseDuration && 1 <= maxPromotions && Ledger(Fresh(leaseDuration, maxPromotions))
    ensures var w := Run(Fresh(leaseDuration, maxPromotions), events);
            && w.s.leaseDuration == leaseDuration && Timed(w)
            && (events != [] && Timely(events[|events| - 1].call) && w.s.active.Some? ==> events[|events| - 1].now < w.s.active.value.expiresAt)
  {
    if events != [] {
      var front, event := events[..|events| - 1], events[|events| - 1];
      LeasesRunOut(leaseDuration, maxPromotions, front);
      StepIsTimed(Run(Fresh(leaseDuration, maxPromotions), front), event);
    }
  }
}
