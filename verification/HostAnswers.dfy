/** What dreams and notes of the host answer: when a dream is refused, what it returns, and how its lease
    is settled. */
module HostAnswers {
  import opened Common
  import opened FeedbackLoop
  import opened Hosts
  import Detector
  import opened IdleScheduler
  import opened Scheduler
  import opened Settlements
  import opened Promotions
  import opened SchedulerRuns

  // ---- settling a dream ---------------------------------------------------------------------

  /** The task was settled so: it remembers the outcome. */
  ghost predicate SettledWith(before: Sched, after: Sched, task: string, outcome: Outcome) {
    after.active == None && task in after.reg.tasks && after.reg.tasks[task].lastOutcome == Some(outcome)
  }

  lemma ActiveIsSettledWith(s: Sched, outcome: Outcome, now: int)
    requires Inv(s) && now >= 0 && s.active.Some? && !outcome.Unknown?
    ensures SettledWith(s, SettleLease(s, s.active.value.lease, outcome, now).s, s.active.value.task, if RanOut(s, now) then Expired else outcome)
    ensures SettleLease(s, s.active.value.lease, outcome, now).error == if RanOut(s, now) then Some(UnknownLease) else None
    ensures SettleLease(s, s.active.value.lease, outcome, now).fault == None
  {
    SettlementAnswers(s, s.active.value.lease, outcome, now);
    CloseSettles(s, outcome, now, s.active.value.task);
    CloseSettles(s, Expired, now, s.active.value.task);
    ExpireFacts(s, now);
  }

  /** While its lease lasts, a dream is settled as a success exactly if everything was impressed, and
      answers the keys or the error; after that it is settled as expired and answers that the lease is
      unknown. */
  lemma DreamIsSettled(s: Sched, r: Result<(), LoopError>, keys: seq<string>, time: int)
    requires Inv(s) && time >= 0 && s.active.Some?
    ensures var (next, reply) := SettleDream(s, s.active.value.lease, r, keys, time);
            && SettledWith(s, next, s.active.value.task, if RanOut(s, time) then Expired else if r.Ok? then Succeeded else Failed)
            && reply == if RanOut(s, time) then Err(SchedulerFailed(UnknownLease)) else if r.Ok? then Ok(Dreamed(keys)) else Err(LoopFailed(r.error))
  {
    ActiveIsSettledWith(s, Failed, time);
    ActiveIsSettledWith(s, Succeeded, time);
    NothingToSettle(SettleLease(s, s.active.value.lease, Succeeded, time).s, s.active.value.lease, Failed, time);
  }

  lemma NothingToSettle(s: Sched, lease: nat, outcome: Outcome, time: int)
    requires s.active == None
    ensures SettleLease(s, lease, outcome, time) == Just(s).(error := Some(UnknownLease))
  {
  }

  // ---- dreams ---------------------------------------------------------------------------------

  /** A dream that is told of a negative queue fails. Otherwise it is refused for the reason for which
      the scheduler refuses to promote a task that may write, and leaves loop and store alone; or it
      impresses what the session has in attention under the lease that it got, and answers as that
      lease is settled. */
  lemma DreamTells(hc: HostConfig, h: Host, session: string, state: Option<(int, bool)>, t: Times, now: string)
    requires Inv(h.sched)
    ensures var (next, r) := Dream(hc, h, session, state, t, now);
            if state.Some? && state.value.0 < 0 then next == h && r == Err(SchedulerFailed(BadArgument))
            else
              var told := ObserveIdle(h.sched, state, t.observe).s;
              var promo := TryPromote(told, {"dreamcatcher:write"}, t.promote);
              var (loop, db, done) := ImpressAll(hc, h.loop, h.db, session, AttentionKeys(h.loop, WorkingOf(h.loop, session)), now);
              && Inv(told) && promo.fault == None && promo.error == None
              && (promo.leased.None? ==> promo.refused.Some? && r == Ok(NotPromoted(promo.refused.value)) && next == h.(sched := promo.s))
              && (promo.leased.Some? ==>
                    && next == h.(loop := loop, db := db, sched := next.sched)
                    && SettledWith(promo.s, next.sched, promo.leased.value.task,
                                   if t.settle >= promo.leased.value.expiresAt then Expired else if done.Ok? then Succeeded else Failed)
                    && r == if t.settle >= promo.leased.value.expiresAt then Err(SchedulerFailed(UnknownLease))
                            else if done.Ok? then Ok(Dreamed(AttentionKeys(h.loop, WorkingOf(h.loop, session))))
                            else Err(LoopFailed(done.error)))
  {
    if !(state.Some? && state.value.0 < 0) {
      var told := ObserveIdle(h.sched, state, t.observe).s;
      ObservedIsSound(h.sched, state, t.observe);
      PromotedIsSound(told, t.promote);
      var promo := TryPromote(told, {DreamCapability}, t.promote);
      if promo.leased.Some? {
        var (loop, db, done) := ImpressAll(hc, h.loop, h.db, session, AttentionKeys(h.loop, WorkingOf(h.loop, session)), now);
        DreamIsSettled(promo.s, done, AttentionKeys(h.loop, WorkingOf(h.loop, session)), t.settle);
      }
    }
  }

  lemma ObservedIsSound(s: Sched, state: Option<(int, bool)>, time: nat)
    requires Inv(s) && (state.Some? ==> state.value.0 >= 0)
    ensures Inv(ObserveIdle(s, state, time).s) && ErrorOf(ObserveIdle(s, state, time)) == None
  {
    if state.Some? {
      ObserveFacts(s, state.value.0, state.value.1, time);
      ObservationAnswers(s, state.value.0, state.value.1, time);
    }
  }

  lemma PromotedIsSound(s: Sched, time: nat)
    requires Inv(s)
    ensures var promo := TryPromote(s, {DreamCapability}, time);
            && Inv(promo.s) && promo.error == None && promo.fault == None && (promo.leased.None? ==> promo.refused.Some?)
            && (promo.leased.Some? ==> promo.s.active == Some(Active(promo.leased.value.id, promo.leased.value.task, promo.leased.value.expiresAt)))
  {
    PromoteFacts(s, {DreamCapability}, time);
    PromotionAnswers(s, {DreamCapability}, time);
  }

  // ---- notes and shown actions ----------------------------------------------------------------

  /** A note of the world outside reaches the scheduler and nothing else: the host is idle exactly if
      the queue is empty and no primary work goes on, and a lease is given up when it is not. */
  lemma NoteTells(hc: HostConfig, h: Host, queueDepth: int, primaryActive: bool, time: nat)
    requires Inv(h.sched)
    ensures var next := Hosts.Do(hc, h, DoNote(queueDepth, primaryActive, time));
            && next == h.(sched := next.sched)
            && (queueDepth < 0 ==> next == h)
            && (queueDepth >= 0 ==> next.sched.idle == (queueDepth == 0 && !primaryActive))
            && (queueDepth > 0 || (queueDepth == 0 && primaryActive) ==> next.sched.active == None && next.sched.promotions == 0)
  {
    ObservationAnswers(h.sched, queueDepth, primaryActive, time);
  }

  /** A shown action makes the host dream exactly if the loop answers a nap and the turn has not dreamed. */
  lemma NapsDream(hc: HostConfig, h: Host, turn: Turn, key: string, clock: Clock, dreamed: bool, status: Hosts.Status)
    requires Housed(h.sched.reg)
    ensures var (loop, r) := ObserveAction(hc.loop, h.loop, turn.session, hc.actionHash(turn.action, h.count), ActorOf(hc, turn));
            var next, shown := ShowAction(hc, h, turn, key, clock, dreamed, status), h.(loop := loop);
            if r == Ok(Some(Detector.Nap)) && !dreamed then next.0 == Dream(hc, shown, turn.session, Some((0, false)), clock.second, clock.now).0
            else next.0 == shown && next.1 == if r.Err? then Err(LoopFailed(r.error)) else Ok(TurnReply(status, key))
  {
  }
}
