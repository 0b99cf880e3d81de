/** The cognitive host as an object over a loop, its store and a scheduler. */
module CognitiveHosts {
  import opened Common
  import opened FeedbackLoop
  import opened Hosts
  import LoopRuns
  import LoopTheorems
  import Detector
  import Dreamcatcher
  import HostRuns
  import MemoryFeedbackLoops
  import DreamcatcherStores
  import DriveSchedulers
  import IdleScheduler
  import Scheduler
  import Recall

  class CognitiveHost {
    const hc: HostConfig
    const loop: MemoryFeedbackLoops.MemoryFeedbackLoop
    const scheduler: DriveSchedulers.IdleDriveScheduler
    var count: nat

    constructor (hc: HostConfig, loop: MemoryFeedbackLoops.MemoryFeedbackLoop, scheduler: DriveSchedulers.IdleDriveScheduler)
      requires loop.cfg == hc.loop && loop.store.d == hc.d && LoopRuns.Inv(hc.loop, loop.State()) && scheduler.Valid()
      ensures Valid() && this.hc == hc && this.loop == loop && this.scheduler == scheduler && count == 0
    {
      this.hc, this.loop, this.scheduler := hc, loop, scheduler;
      count := 0;
    }

    ghost function State(): Host
      reads this, loop, loop.store, scheduler, scheduler.registry
    {
      Host(count, loop.State(), loop.store.State(), scheduler.State())
    }

    ghost predicate Valid()
      reads this, loop, loop.store, scheduler, scheduler.registry
    {
      && loop.cfg == hc.loop && loop.store.d == hc.d
      && scheduler.Valid() && LoopRuns.Inv(hc.loop, loop.State())
    }

    /** Impresses the given keys one after the other, up to the first failure. */
    method ImpressItems(session: string, keys: seq<string>, now: string) returns (r: Result<(), LoopError>)
      requires loop.cfg == hc.loop && loop.store.d == hc.d
      modifies loop, loop.store
      ensures (loop.State(), loop.store.State(), r) == ImpressAll(hc, old(loop.State()), old(loop.store.State()), session, keys, now)
    {
      ghost var all := ImpressAll(hc, loop.State(), loop.store.State(), session, keys, now);
      var i := 0;
      while i < |keys|
        invariant 0 <= i <= |keys|
        invariant all == ImpressAll(hc, loop.State(), loop.store.State(), session, keys[i..], now)
      {
        assert keys[i..][0] == keys[i] && keys[i..][1..] == keys[i + 1..];
        r := loop.ImpressKey(session, keys[i], hc.actor, hc.branch, now);
        if r.Err? { return; }
        i := i + 1;
      }
      return Ok(());
    }

    /** The working-set items of a session that are in attention. */
    method AttendedKeys(session: string) returns (keys: seq<string>)
      ensures keys == AttentionKeys(loop.State(), WorkingOf(loop.State(), session))
    {
      var items := if session in loop.working then loop.working[session] else [];
      keys := [];
      for i := 0 to |items|
        invariant keys == AttentionKeys(loop.State(), items[..i])
      {
        assert items[..i + 1][..i] == items[..i];
        if Lookup(loop.phase, items[i].key) == Some(Attention) { keys := keys + [items[i].key]; }
      }
      assert items[..|items|] == items;
    }

    /** Settles the lease of a dream after its impressions. */
    method SettleLeaseOf(lease: nat, impressed: Result<(), LoopError>, keys: seq<string>,
                         time: int) returns (r: Result<DreamReply, HostError>)
      modifies scheduler`active, scheduler.registry`tasks
      ensures (scheduler.State(), r) == SettleDream(old(scheduler.State()), lease, impressed, keys, time)
    {
      if impressed.Err? {
        var fault := scheduler.SettleNow(lease, Scheduler.Failed, time);
        if fault.Some? { return Err(SchedulerFailed(fault.value)); }
        return Err(LoopFailed(impressed.error));
      }
      var fault := scheduler.SettleNow(lease, Scheduler.Succeeded, time);
      if fault.None? { return Ok(Dreamed(keys)); }
      var again := scheduler.SettleNow(lease, Scheduler.Failed, time);
      return Err(SchedulerFailed(if again.Some? then again.value else fault.value));
    }

    /** Dreams under a lease that the scheduler has just issued. */
    method DreamWith(session: string, lease: nat, time: int, now: string) returns (r: Result<DreamReply, HostError>)
      requires loop.cfg == hc.loop && loop.store.d == hc.d && Scheduler.Housed(scheduler.registry.Reg())
      modifies loop, loop.store, scheduler`active, scheduler.registry`tasks
      ensures (State(), r) == DreamUnder(hc, old(State()), session, lease, time, now)
    {
      var keys := AttendedKeys(session);
      var impressed := ImpressItems(session, keys, now);
      r := SettleLeaseOf(lease, impressed, keys, time);
    }

    method ObserveState(state: Option<(int, bool)>, time: int) returns (fault: Option<Scheduler.Fault>)
      modifies scheduler, scheduler.registry`tasks
      ensures scheduler.State() == ObserveIdle(old(scheduler.State()), state, time).s
      ensures fault == IdleScheduler.ErrorOf(ObserveIdle(old(scheduler.State()), state, time))
    {
      if state.None? { return None; }
      fault := scheduler.NoteState(state.value.0, state.value.1, time);
    }

    /** Dreams, as the host's callers ask for it. */
    method DreamFor(session: string, state: Option<(int, bool)>, t: Times, now: string) returns (r: Result<DreamReply, HostError>)
      requires Valid()
      modifies loop, loop.store, scheduler, scheduler.registry`tasks
      ensures Valid()
      ensures (State(), r) == Dream(hc, old(State()), session, state, t, now)
    {
      DreamKeepsLoopInv(hc, State(), session, state, t, now);
      r := DreamNow(session, state, t, now);
    }

    method DreamNow(session: string, state: Option<(int, bool)>, t: Times, now: string) returns (r: Result<DreamReply, HostError>)
      requires loop.cfg == hc.loop && loop.store.d == hc.d && scheduler.Valid()
      modifies loop, loop.store, scheduler, scheduler.registry`tasks
      ensures (State(), r) == Dream(hc, old(State()), session, state, t, now)
      ensures scheduler.Valid()
    {
      var fault := ObserveState(state, t.observe);
      if fault.Some? { return Err(SchedulerFailed(fault.value)); }
      r := DreamOnceSeen(session, t, now);
    }

    method DreamOnceSeen(session: string, t: Times, now: string) returns (r: Result<DreamReply, HostError>)
      requires loop.cfg == hc.loop && loop.store.d == hc.d && scheduler.Valid()
      modifies loop, loop.store, scheduler, scheduler.registry`tasks
      ensures (State(), r) == DreamSeen(hc, old(State()), session, t, now)
    {
      DreamByPromotion(hc, State(), session, t, now);
      var promo := scheduler.Promote({DreamCapability}, t.promote);
      if promo.Err? {
        r := Err(SchedulerFailed(promo.error));
      } else if promo.value.Refused? {
        r := Ok(NotPromoted(promo.value.reason));
      } else {
        r := DreamWith(session, promo.value.lease.id, t.settle, now);
      }
    }

    /** Shows the action of a turn to the detector. In a sound loop an observation never fails. */
    method ShowTo(turn: Turn, key: string, clock: Clock, dreamed: bool, status: Status) returns (r: Result<TurnReply, HostError>)
      requires Valid() && !hc.loop.blank(turn.session)
      modifies loop, loop.store, scheduler, scheduler.registry`tasks
      ensures (State(), r) == ShowAction(hc, old(State()), turn, key, clock, dreamed, status)
    {
      var hash := hc.actionHash(turn.action, count);
      LoopTheorems.RecoveriesContain(hc.loop, loop.State(), turn.session, hash, ActorOf(hc, turn));
      var seen := loop.Observe(turn.session, hash, ActorOf(hc, turn));
      if seen.value == Some(Detector.Nap) && !dreamed {
        var dreamt := DreamNow(turn.session, Some((0, false)), clock.second, clock.now);
        if dreamt.Err? { return Err(dreamt.error); }
      }
      return Ok(TurnReply(status, key));
    }

    /** Writes an admitted turn through, if it is to persist. */
    method FinishWith(turn: Turn, key: string, clock: Clock, dreamed: bool) returns (r: Result<TurnReply, HostError>)
      requires Valid() && !hc.loop.blank(turn.session)
      modifies loop, loop.store, scheduler, scheduler.registry`tasks
      ensures (State(), r) == FinishTurn(hc, old(State()), turn, key, clock, dreamed)
    {
      var status := StatusAdmitted;
      if Persists(hc, turn) {
        LoopRuns.ImpressKeepsInv(hc.loop, hc.d, loop.State(), loop.store.State(), turn.session, key, ActorOf(hc, turn), hc.branch, clock.now);
        var impressed := loop.ImpressKey(turn.session, key, ActorOf(hc, turn), hc.branch, clock.now);
        if impressed.Err? { return Err(LoopFailed(impressed.error)); }
        status := StatusIntegrated;
      }
      r := ShowTo(turn, key, clock, dreamed, status);
    }

    method AdmitOnceMore(turn: Turn, key: string, clock: Clock, dreamt: DreamReply) returns (r: Result<TurnReply, HostError>)
      requires Valid() && !hc.loop.blank(turn.session)
      modifies loop, loop.store, scheduler, scheduler.registry`tasks
      ensures (State(), r) == AdmitAgain(hc, old(State()), turn, key, clock, dreamt)
    {
      LoopRuns.AdmitFacts(hc.loop, loop.State(), turn.session, key, ActorOf(hc, turn));
      var admitted := loop.AdmitKey(turn.session, key, ActorOf(hc, turn));
      if admitted.Err? { return Err(LoopFailed(admitted.error)); }
      if admitted.value == Napped { return Ok(TurnReply(StatusNap, key)); }
      r := FinishWith(turn, key, clock, dreamt.Dreamed?);
    }

    method AdmitKeyOf(turn: Turn, key: string, clock: Clock) returns (r: Result<TurnReply, HostError>)
      requires Valid() && !hc.loop.blank(turn.session)
      modifies loop, loop.store, scheduler, scheduler.registry`tasks
      ensures (State(), r) == AdmitTurn(hc, old(State()), turn, key, clock)
    {
      LoopRuns.AdmitFacts(hc.loop, loop.State(), turn.session, key, ActorOf(hc, turn));
      var admitted := loop.AdmitKey(turn.session, key, ActorOf(hc, turn));
      if admitted.Err? { return Err(LoopFailed(admitted.error)); }
      if admitted.value == Admitted {
        r := FinishWith(turn, key, clock, false);
      } else {
        DreamKeepsLoopInv(hc, State(), turn.session, Some((0, false)), clock.first, clock.now);
        var dreamt := DreamNow(turn.session, Some((0, false)), clock.first, clock.now);
        if dreamt.Err? { return Err(dreamt.error); }
        r := AdmitOnceMore(turn, key, clock, dreamt.value);
      }
    }

    /** Observes a turn: expresses it under a new key, admits it, and writes it through. */
    method ObserveOneTurn(turn: Turn, clock: Clock) returns (r: Result<TurnReply, HostError>)
      requires Valid()
      modifies this, loop, loop.store, scheduler, scheduler.registry`tasks
      ensures Valid()
      ensures (State(), r) == ObserveTurn(hc, old(State()), turn, clock)
    {
      TurnKeepsLoopInv(hc, State(), turn, clock);
      r := ExpressTurn(turn, clock);
    }

    method ExpressTurn(turn: Turn, clock: Clock) returns (r: Result<TurnReply, HostError>)
      requires Valid()
      modifies this, loop, loop.store, scheduler, scheduler.registry`tasks
      ensures (State(), r) == ObserveTurn(hc, old(State()), turn, clock)
    {
      if hc.loop.blank(turn.session) { return Err(SessionRequired); }
      count := count + 1;
      var key := TurnKey(hc, turn.session, count, turn.text, turn.action);
      var value := hc.turnValue(turn.text, turn.action);
      LoopRuns.ExpressKeepsInv(hc.loop, loop.State(), turn.session, key, value, ActorOf(hc, turn), turn.tags, 1.0, 1.0);
      var expressed := loop.ExpressKey(turn.session, key, value, ActorOf(hc, turn), turn.tags, 1.0, 1.0);
      if expressed.Err? { return Err(LoopFailed(expressed.error)); }
      r := AdmitKeyOf(turn, key, clock);
    }

    method NoteExternalState(queueDepth: int, primaryActive: bool, time: int) returns (fault: Option<Scheduler.Fault>)
      requires Valid()
      modifies scheduler, scheduler.registry`tasks
      ensures Valid()
      ensures scheduler.State() == IdleScheduler.ObserveExternal(old(scheduler.State()), queueDepth, primaryActive, time).s
      ensures fault == IdleScheduler.ErrorOf(IdleScheduler.ObserveExternal(old(scheduler.State()), queueDepth, primaryActive, time))
    {
      fault := scheduler.Observe(queueDepth, primaryActive, time);
    }

    /** The rows that are injected for the next generation: the longest prefix within the budget. */
    method InjectBoundedRecall(limit: int, q: Recall.Query, cost: Recall.Row -> nat, budget: int)
      returns (r: Result<seq<Recall.Row>, Recall.RecallError>)
      requires loop.cfg == hc.loop && loop.store.d == hc.d
      ensures r == InjectedLines(hc, State(), limit, q, cost, budget)
    {
      var rows := loop.RecallVisible(hc.branch, limit, q);
      if rows.Err? { return Err(rows.error); }
      var n := CountFitting(rows.value, cost, budget);
      return Ok(rows.value[..n]);
    }

    /** Adds up line costs until the budget would be exceeded. */
    static method CountFitting(rows: seq<Recall.Row>, cost: Recall.Row -> nat, budget: int) returns (n: nat)
      ensures n == Fitting(seq(|rows|, i requires 0 <= i < |rows| => cost(rows[i])), budget)
      ensures n <= |rows|
    {
      ghost var costs: seq<nat> := seq(|rows|, i requires 0 <= i < |rows| => cost(rows[i]));
      var tokens := 0;
      n := 0;
      while n < |rows| && tokens + cost(rows[n]) <= budget
        invariant 0 <= n <= |rows|
        invariant Fitting(costs, budget) == n + Fitting(costs[n..], budget - tokens)
      {
        assert costs[n..][0] == cost(rows[n]) && costs[n..][1..] == costs[n + 1..];
        tokens := tokens + cost(rows[n]);
        n := n + 1;
      }
      assert n < |rows| ==> costs[n..][0] == cost(rows[n]);
    }
  }

  lemma {:induction false} ImpressAllKeepsInv(hc: HostConfig, st: Loop, db: Dreamcatcher.Db, session: string,
                                              keys: seq<string>, now: string)
    requires LoopRuns.Inv(hc.loop, st)
    ensures LoopRuns.Inv(hc.loop, ImpressAll(hc, st, db, session, keys, now).0)
    decreases |keys|
  {
    if keys != [] {
      LoopRuns.ImpressKeepsInv(hc.loop, hc.d, st, db, session, keys[0], hc.actor, hc.branch, now);
      var (next, db', r) := Impress(hc.loop, hc.d, st, db, session, keys[0], hc.actor, hc.branch, now);
      if r.Ok? { ImpressAllKeepsInv(hc, next, db', session, keys[1..], now); }
    }
  }

  lemma DreamKeepsLoopInv(hc: HostConfig, h: Host, session: string, state: Option<(int, bool)>, t: Times, now: string)
    requires Scheduler.Housed(h.sched.reg) && LoopRuns.Inv(hc.loop, h.loop)
    ensures LoopRuns.Inv(hc.loop, Dream(hc, h, session, state, t, now).0.loop)
  {
    HostRuns.DreamCases(hc, h, session, state, t, now);
    ImpressAllKeepsInv(hc, h.loop, h.db, session, AttentionKeys(h.loop, WorkingOf(h.loop, session)), now);
  }

  lemma ShowKeepsLoopInv(hc: HostConfig, h: Host, turn: Turn, key: string, clock: Clock, dreamed: bool, status: Status)
    requires Scheduler.Housed(h.sched.reg) && LoopRuns.Inv(hc.loop, h.loop)
    ensures LoopRuns.Inv(hc.loop, ShowAction(hc, h, turn, key, clock, dreamed, status).0.loop)
  {
    var hash := hc.actionHash(turn.action, h.count);
    LoopRuns.ObserveKeepsInv(hc.loop, h.loop, turn.session, hash, ActorOf(hc, turn));
    var loop := ObserveAction(hc.loop, h.loop, turn.session, hash, ActorOf(hc, turn)).0;
    DreamKeepsLoopInv(hc, h.(loop := loop), turn.session, Some((0, false)), clock.second, clock.now);
  }

  lemma FinishKeepsLoopInv(hc: HostConfig, h: Host, turn: Turn, key: string, clock: Clock, dreamed: bool)
    requires Scheduler.Housed(h.sched.reg) && LoopRuns.Inv(hc.loop, h.loop)
    ensures LoopRuns.Inv(hc.loop, FinishTurn(hc, h, turn, key, clock, dreamed).0.loop)
  {
    LoopRuns.ImpressKeepsInv(hc.loop, hc.d, h.loop, h.db, turn.session, key, ActorOf(hc, turn), hc.branch, clock.now);
    var (loop, db, _) := Impress(hc.loop, hc.d, h.loop, h.db, turn.session, key, ActorOf(hc, turn), hc.branch, clock.now);
    ShowKeepsLoopInv(hc, h.(loop := loop, db := db), turn, key, clock, dreamed, StatusIntegrated);
    ShowKeepsLoopInv(hc, h, turn, key, clock, dreamed, StatusAdmitted);
  }

  lemma AgainKeepsLoopInv(hc: HostConfig, h: Host, turn: Turn, key: string, clock: Clock, dreamt: DreamReply)
    requires Scheduler.Housed(h.sched.reg) && LoopRuns.Inv(hc.loop, h.loop)
    ensures LoopRuns.Inv(hc.loop, AdmitAgain(hc, h, turn, key, clock, dreamt).0.loop)
  {
    LoopRuns.AdmitFacts(hc.loop, h.loop, turn.session, key, ActorOf(hc, turn));
    var loop := Admit(hc.loop, h.loop, turn.session, key, ActorOf(hc, turn)).0;
    FinishKeepsLoopInv(hc, h.(loop := loop), turn, key, clock, dreamt.Dreamed?);
  }

  lemma AdmitKeepsLoopInv(hc: HostConfig, h: Host, turn: Turn, key: string, clock: Clock)
    requires Scheduler.Housed(h.sched.reg) && LoopRuns.Inv(hc.loop, h.loop)
    ensures LoopRuns.Inv(hc.loop, AdmitTurn(hc, h, turn, key, clock).0.loop)
  {
    LoopRuns.AdmitFacts(hc.loop, h.loop, turn.session, key, ActorOf(hc, turn));
    var (loop, r) := Admit(hc.loop, h.loop, turn.session, key, ActorOf(hc, turn));
    AdmitUnfolds(hc, h, turn, key, clock);
    if r == Ok(Admitted) { FinishKeepsLoopInv(hc, h.(loop := loop), turn, key, clock, false); }
    if r == Ok(Napped) { NapKeepsLoopInv(hc, h.(loop := loop), turn, key, clock); }
  }

  lemma AdmitUnfolds(hc: HostConfig, h: Host, turn: Turn, key: string, clock: Clock)
    requires Scheduler.Housed(h.sched.reg)
    ensures var (loop, r) := Admit(hc.loop, h.loop, turn.session, key, ActorOf(hc, turn));
            var next := h.(loop := loop);
            AdmitTurn(hc, h, turn, key, clock).0 ==
              if r == Ok(Admitted) then FinishTurn(hc, next, turn, key, clock, false).0
              else if r == Ok(Napped) then HostRuns.AfterNap(hc, next, turn, key, clock).0
              else next
  {
  }

  lemma NapKeepsLoopInv(hc: HostConfig, h: Host, turn: Turn, key: string, clock: Clock)
    requires Scheduler.Housed(h.sched.reg) && LoopRuns.Inv(hc.loop, h.loop)
    ensures LoopRuns.Inv(hc.loop, HostRuns.AfterNap(hc, h, turn, key, clock).0.loop)
  {
    DreamKeepsLoopInv(hc, h, turn.session, Some((0, false)), clock.first, clock.now);
    var (dreamer, dreamt) := Dream(hc, h, turn.session, Some((0, false)), clock.first, clock.now);
    if dreamt.Ok? { AgainKeepsLoopInv(hc, dreamer, turn, key, clock, dreamt.value); }
  }

  lemma TurnKeepsLoopInv(hc: HostConfig, h: Host, turn: Turn, clock: Clock)
    requires Scheduler.Housed(h.sched.reg) && LoopRuns.Inv(hc.loop, h.loop)
    ensures LoopRuns.Inv(hc.loop, ObserveTurn(hc, h, turn, clock).0.loop)
  {
    var key := TurnKey(hc, turn.session, h.count + 1, turn.text, turn.action);
    var value := hc.turnValue(turn.text, turn.action);
    LoopRuns.ExpressKeepsInv(hc.loop, h.loop, turn.session, key, value, ActorOf(hc, turn), turn.tags, 1.0, 1.0);
    var next := HostRuns.AfterExpress(hc, h, turn, key);
    TurnIsAdmission(hc, h, turn, key, next, clock);
    AdmitKeepsLoopInv(hc, next, turn, key, clock);
  }

  lemma TurnIsAdmission(hc: HostConfig, h: Host, turn: Turn, key: string, next: Host, clock: Clock)
    requires Scheduler.Housed(h.sched.reg) && key == TurnKey(hc, turn.session, h.count + 1, turn.text, turn.action)
    requires next == HostRuns.AfterExpress(hc, h, turn, key)
    ensures ObserveTurn(hc, h, turn, clock).0 in {h, next, AdmitTurn(hc, next, turn, key, clock).0}
  {
  }

  lemma PromoteAnswers(e: IdleScheduler.Effect, time: int)
    requires Scheduler.Housed(e.s.reg) && e.error == None && e.leased == None
    ensures var p := IdleScheduler.Promote(e, {DreamCapability}, time);
            p.error == None && (p.fault == None && p.leased == None ==> p.refused.Some?)
  {
  }

  lemma ExpiryHasNoError(s: IdleScheduler.Sched, time: int)
    ensures IdleScheduler.ExpireActive(s, time).error == None && IdleScheduler.ExpireActive(s, time).leased == None
  {
  }

  lemma PromotionsAnswer(s: IdleScheduler.Sched, time: int)
    requires Scheduler.Housed(s.reg)
    ensures var e := IdleScheduler.TryPromote(s, {DreamCapability}, time);
            e.error == None && (e.fault == None && e.leased == None ==> e.refused.Some?)
  {
    ExpiryHasNoError(s, time);
    PromoteAnswers(IdleScheduler.ExpireActive(s, time), time);
  }

  /** What the scheduler object returns from a promotion decides how a dream goes on. */
  lemma DreamByPromotion(hc: HostConfig, h: Host, session: string, t: Times, now: string)
    requires Scheduler.Housed(h.sched.reg)
    ensures var e := IdleScheduler.TryPromote(h.sched, {DreamCapability}, t.promote);
            var p, next := DriveSchedulers.PromotionOf(e), h.(sched := e.s);
            DreamSeen(hc, h, session, t, now) ==
              if p.Err? then (next, Err(SchedulerFailed(p.error)))
              else if p.value.Refused? then (next, Ok(NotPromoted(p.value.reason)))
              else DreamUnder(hc, next, session, p.value.lease.id, t.settle, now)
  {
    PromotionsAnswer(h.sched, t.promote);
  }
}
