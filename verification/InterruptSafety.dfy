/** What every call of the interrupt controller keeps: the session cap, the leases of active
    sessions, and the first abort reason of every lease. */
module InterruptSafety {
  import opened Common
  import opened Sorting
  import opened Interrupts

  datatype Call =
    | DoBegin(session: Option<string>, client: Client, requestId: Option<string>, priority: int)
    | DoEnd(lease: nat)
    | DoInject(session: Option<string>, notice: Notice)
    | DoPreempt(session: Option<string>, notice: Notice)
    | DoCancel(session: Option<string>, reason: Option<string>)
    | DoConsume(session: Option<string>)
    | DoApply(session: Option<string>, body: Option<seq<Message>>)
    | DoLook(session: Option<string>)
    | DoExpire
    | ClientSignals(signal: nat)

  function Do(cfg: Limits, irq: Irq, call: Call, now: int): (r: Irq)
    requires Listed(irq)
    ensures Listed(r)
  {
    match call
    case DoBegin(session, client, requestId, priority) => Begin(cfg, irq, session, client, requestId, priority, now).0
    case DoEnd(lease) => End(irq, lease, now).0
    case DoInject(session, notice) => Inject(cfg, irq, session, notice, now).0
    case DoPreempt(session, notice) => Preempt(cfg, irq, session, notice, now).0
    case DoCancel(session, reason) => Cancel(cfg, irq, session, reason, now).0
    case DoConsume(session) => Consume(cfg, irq, session, now).0
    case DoApply(session, body) => ApplyPending(cfg, irq, session, body, now).0
    case DoLook(session) => Look(cfg, irq, session, now).0
    case DoExpire => ExpireSessions(cfg, irq, now)
    case ClientSignals(signal) => ClientAbort(irq, signal)
  }

  /** Only idle sessions go; the others stay as they are. */
  ghost predicate Survive(a: Irq, b: Irq) {
    && b == a.(order := b.order, sessions := b.sessions)
    && (forall x :: x in b.sessions ==> x in a.sessions && b.sessions[x] == a.sessions[x])
    && (forall x :: x in a.sessions && x !in b.sessions ==> a.sessions[x].active.None?)
  }

  lemma SurvivorsKeepInv(cfg: Limits, a: Irq, b: Irq)
    requires Inv(cfg, a) && Survive(a, b) && Listed(b) && |b.order| <= |a.order|
    ensures Inv(cfg, b)
  {
  }

  lemma ExpireFacts(cfg: Limits, irq: Irq, now: int)
    requires Inv(cfg, irq)
    ensures var e := ExpireSessions(cfg, irq, now); Survive(irq, e) && Inv(cfg, e)
    ensures forall x :: x in irq.sessions ==>
              (x in ExpireSessions(cfg, irq, now).sessions <==> irq.sessions[x].active.Some? || irq.sessions[x].lastTouched > now - cfg.ttl)
  {
    FreshOrderFacts(irq.order, irq.sessions, now - cfg.ttl);
    SurvivorsKeepInv(cfg, irq, ExpireSessions(cfg, irq, now));
  }

  ghost predicate AllActive(irq: Irq) {
    forall x :: x in irq.sessions ==> irq.sessions[x].active.Some?
  }

  /** Capacity gives up at most one session: an idle one that nobody touched for longest. */
  lemma EvictionFacts(cfg: Limits, irq: Irq)
    requires Inv(cfg, irq)
    ensures var r := MakeRoom(cfg, irq);
            && Survive(irq, r) && Inv(cfg, r)
            && (forall x, y :: x in irq.sessions && x !in r.sessions && y in r.sessions && irq.sessions[y].active.None? ==>
                  |irq.order| == cfg.maxSessions && irq.sessions[x].lastTouched <= irq.sessions[y].lastTouched)
            && (|r.order| >= cfg.maxSessions <==> |irq.order| >= cfg.maxSessions && AllActive(irq))
            && |r.order| + 1 >= |irq.order|
  {
    OldestIdleIsLeast(irq.order, irq.sessions);
    var oldest := OldestIdle(irq.order, irq.sessions);
    if oldest.Some? { WithoutFacts(irq.order, oldest.value); }
    SurvivorsKeepInv(cfg, irq, MakeRoom(cfg, irq));
  }

  lemma ClearFacts(cfg: Limits, irq: Irq, id: string, create: bool, now: int)
    requires Inv(cfg, irq)
    ensures var c := Clear(cfg, irq, id, create, now);
            Survive(irq, c) && Inv(cfg, c) && forall x :: x in c.sessions ==> !Stale(c.sessions[x], now - cfg.ttl)
  {
    ExpireFacts(cfg, irq, now);
    EvictionFacts(cfg, ExpireSessions(cfg, irq, now));
  }

  lemma PutFacts(cfg: Limits, irq: Irq, id: string, s: Session)
    requires Inv(cfg, irq)
    requires if id in irq.sessions then s.active == irq.sessions[id].active else s.active.None? && |irq.order| < cfg.maxSessions
    ensures Inv(cfg, Put(irq, id, s))
  {
  }

  lemma ReachFacts(cfg: Limits, irq: Irq, id: string, create: bool, now: int)
    requires Inv(cfg, irq)
    ensures var t := Reach(cfg, irq, id, create, now).0;
            Inv(cfg, t) && t == irq.(order := t.order, sessions := t.sessions)
  {
    ClearFacts(cfg, irq, id, create, now);
    var c := Clear(cfg, irq, id, create, now);
    if id in c.sessions { PutFacts(cfg, c, id, c.sessions[id].(lastTouched := now)); }
    else if create && |c.order| < cfg.maxSessions { PutFacts(cfg, c, id, Session(None, [], now)); }
  }

  /** A call is refused for lack of room exactly when the table is full of active sessions. */
  lemma RefusedExactlyWhenAllActive(cfg: Limits, irq: Irq, id: string, now: int)
    requires Inv(cfg, irq)
    ensures !Reach(cfg, irq, id, true, now).1 <==> id !in irq.sessions && |irq.order| == cfg.maxSessions && AllActive(irq)
  {
    ExpireFacts(cfg, irq, now);
    var e := ExpireSessions(cfg, irq, now);
    EvictionFacts(cfg, e);
    AllSurvive(irq, e);
    if |irq.order| == cfg.maxSessions && AllActive(irq) {
      assert forall x :: x in irq.sessions ==> x in e.sessions;
    } else if |e.order| == cfg.maxSessions {
      NotAllActive(irq, e);
    }
  }

  lemma NotAllActive(a: Irq, b: Irq)
    requires Survive(a, b) && !AllActive(a) && forall x :: x in a.sessions ==> x in b.sessions
    ensures !AllActive(b)
  {
    var x :| x in a.sessions && a.sessions[x].active.None?;
    assert b.sessions[x] == a.sessions[x];
  }

  lemma AllSurvive(a: Irq, b: Irq)
    requires Listed(a) && Listed(b) && Survive(a, b)
    ensures |b.order| <= |a.order|
    ensures (forall x :: x in a.sessions ==> x in b.sessions) <==> |b.order| == |a.order|
  {
    OrderSize(a);
    OrderSize(b);
    assert b.sessions.Keys <= a.sessions.Keys;
    if b.sessions.Keys == a.sessions.Keys {
    } else {
      assert b.sessions.Keys < a.sessions.Keys;
      StrictSubsetIsSmaller(b.sessions.Keys, a.sessions.Keys);
    }
    SubsetIsSmaller(b.sessions.Keys, a.sessions.Keys);
  }

  lemma StrictSubsetIsSmaller<T>(a: set<T>, b: set<T>)
    requires a < b
    ensures |a| < |b|
  {
    var x :| x in b && x !in a;
    SubsetIsSmaller(a + {x}, b);
  }

  function Members(order: seq<string>): set<string> { set id | id in order }

  lemma OrderSize(irq: Irq)
    requires Listed(irq)
    ensures |irq.order| == |irq.sessions.Keys|
  {
    DistinctCount(irq.order, Members(irq.order));
    assert Members(irq.order) == irq.sessions.Keys;
  }

  // ---- calls keep the invariant -------------------------------------------------------

  lemma NewLeaseFacts(cfg: Limits, t: Irq, id: string, lease: Lease)
    requires Inv(cfg, t) && id in t.sessions && t.sessions[id].active.None? && lease.session == id && !lease.ended
    ensures Inv(cfg, Put(t, id, t.sessions[id].(active := Some(|t.leases|))).(leases := t.leases + [lease]))
  {
    var next := Put(t, id, t.sessions[id].(active := Some(|t.leases|))).(leases := t.leases + [lease]);
    forall i | 0 <= i < |next.leases| && !next.leases[i].ended
      ensures next.leases[i].session in next.sessions && next.sessions[next.leases[i].session].active == Some(i)
    {
      if i < |t.leases| { assert next.leases[i] == t.leases[i]; }
    }
  }

  lemma BeginKeepsInv(cfg: Limits, irq: Irq, session: Option<string>, client: Client, requestId: Option<string>, priority: int, now: int)
    requires Inv(cfg, irq)
    ensures Inv(cfg, Begin(cfg, irq, session, client, requestId, priority, now).0)
  {
    if session.Some? {
      var (t, ok) := Reach(cfg, irq, session.value, true, now);
      ReachFacts(cfg, irq, session.value, true, now);
      var (next, r) := Begin(cfg, irq, session, client, requestId, priority, now);
      if r.Ok? { NewLeaseFacts(cfg, t, session.value, next.leases[|t.leases|]); }
    }
  }

  lemma EndKeepsInv(cfg: Limits, irq: Irq, lease: nat, now: int)
    requires Inv(cfg, irq)
    ensures Inv(cfg, End(irq, lease, now).0)
  {
  }

  lemma EnqueueKeepsInv(cfg: Limits, t: Irq, id: string, notice: Notice, now: int)
    requires Inv(cfg, t) && id in t.sessions
    ensures Inv(cfg, Enqueue(cfg, t, id, notice, now).0)
    ensures Enqueue(cfg, t, id, notice, now).0.leases == t.leases
  {
    if Enqueue(cfg, t, id, notice, now).1.Ok? {
      PutFacts(cfg, t.(sequence := t.sequence + 1), id,
               t.sessions[id].(pending := Retained(cfg, t.sessions[id].pending + [EventOf(notice, now, t.sequence)])));
    }
  }

  lemma InjectKeepsInv(cfg: Limits, irq: Irq, session: Option<string>, notice: Notice, now: int)
    requires Inv(cfg, irq)
    ensures Inv(cfg, Inject(cfg, irq, session, notice, now).0)
    ensures Inject(cfg, irq, session, notice, now).0.leases == irq.leases
  {
    if session.Some? {
      var (t, ok) := Reach(cfg, irq, session.value, true, now);
      ReachFacts(cfg, irq, session.value, true, now);
      if ok { EnqueueKeepsInv(cfg, t, session.value, notice, now); }
    }
  }

  lemma AbortKeepsInv(cfg: Limits, irq: Irq, lease: nat, reason: Reason)
    requires Inv(cfg, irq) && lease < |irq.leases|
    ensures Inv(cfg, Abort(irq, lease, reason))
  {
  }

  lemma AbortAfterKeepsInv(cfg: Limits, u: Irq, id: string)
    requires Inv(cfg, u)
    ensures Abortable(u, id).Some? ==> forall event :: Inv(cfg, Abort(u, Abortable(u, id).value, ByPreemption(event)))
  {
    var active := Abortable(u, id);
    forall event | active.Some? ensures Inv(cfg, Abort(u, active.value, ByPreemption(event))) {
      AbortKeepsInv(cfg, u, active.value, ByPreemption(event));
    }
  }

  lemma PreemptKeepsInv(cfg: Limits, irq: Irq, session: Option<string>, notice: Notice, now: int)
    requires Inv(cfg, irq)
    ensures Inv(cfg, Preempt(cfg, irq, session, notice, now).0)
  {
    if session.Some? {
      var (t, ok) := Reach(cfg, irq, session.value, true, now);
      ReachFacts(cfg, irq, session.value, true, now);
      InjectKeepsInv(cfg, t, session, notice, now);
      if ok { AbortAfterKeepsInv(cfg, Inject(cfg, t, session, notice, now).0, session.value); }
    }
  }

  lemma CancelKeepsInv(cfg: Limits, irq: Irq, session: Option<string>, reason: Option<string>, now: int)
    requires Inv(cfg, irq)
    ensures Inv(cfg, Cancel(cfg, irq, session, reason, now).0)
  {
    if session.Some? {
      var (t, ok) := Reach(cfg, irq, session.value, false, now);
      ReachFacts(cfg, irq, session.value, false, now);
      var active := Abortable(t, session.value);
      if active.Some? && reason.Some? { AbortKeepsInv(cfg, t, active.value, ByCancel(reason.value)); }
    }
  }

  lemma ConsumeKeepsInv(cfg: Limits, irq: Irq, session: Option<string>, now: int)
    requires Inv(cfg, irq)
    ensures Inv(cfg, Consume(cfg, irq, session, now).0)
    ensures Consume(cfg, irq, session, now).0.leases == irq.leases
  {
    if session.Some? {
      var (t, ok) := Reach(cfg, irq, session.value, false, now);
      ReachFacts(cfg, irq, session.value, false, now);
      if session.value in t.sessions { PutFacts(cfg, t, session.value, t.sessions[session.value].(pending := [])); }
    }
  }

  lemma ClientAbortKeepsInv(cfg: Limits, irq: Irq, signal: nat)
    requires Inv(cfg, irq)
    ensures Inv(cfg, ClientAbort(irq, signal))
  {
  }

  /** Every call keeps: at most `maxSessions` sessions, and a one-to-one match between active
      sessions and leases that have not ended, so no active session is ever dropped. */
  lemma CallsKeepInv(cfg: Limits, irq: Irq, call: Call, now: int)
    requires Inv(cfg, irq)
    ensures Inv(cfg, Do(cfg, irq, call, now))
  {
    match call
    case DoBegin(session, client, requestId, priority) => BeginKeepsInv(cfg, irq, session, client, requestId, priority, now);
    case DoEnd(lease) => EndKeepsInv(cfg, irq, lease, now);
    case DoInject(session, notice) => InjectKeepsInv(cfg, irq, session, notice, now);
    case DoPreempt(session, notice) => PreemptKeepsInv(cfg, irq, session, notice, now);
    case DoCancel(session, reason) => CancelKeepsInv(cfg, irq, session, reason, now);
    case DoConsume(session) => ConsumeKeepsInv(cfg, irq, session, now);
    case DoApply(session, body) => ConsumeKeepsInv(cfg, irq, session, now);
    case DoLook(session) => if session.Some? { ReachFacts(cfg, irq, session.value, false, now); }
    case DoExpire => ExpireFacts(cfg, irq, now);
    case ClientSignals(signal) => ClientAbortKeepsInv(cfg, irq, signal);
  }

  // ---- abort reasons ------------------------------------------------------------------

  /** The ways in which a call may give lease `i` its abort reason. */
  ghost predicate Causes(cfg: Limits, irq: Irq, call: Call, now: int, i: nat, reason: Reason)
    requires Listed(irq) && i < |irq.leases|
  {
    var lease := irq.leases[i];
    && !lease.ended
    && match reason
       case ByClient(signal) => call == ClientSignals(signal) && lease.client == Some(signal)
       case ByCancel(text) => call == DoCancel(Some(lease.session), Some(text))
       case ByPreemption(event) =>
         && call.DoPreempt? && call.session == Some(lease.session)
         && Preempt(cfg, irq, call.session, call.notice, now).1 == Ok(Preempted(Queued(true, event), true, Some(lease.requestId)))
  }

  /** First abort wins: a lease keeps its reason, and only gets one while it is live, from an
      accepted preemption, a cancellation or its own client. */
  ghost predicate FirstAbortWins(cfg: Limits, irq: Irq, next: Irq, call: Call, now: int)
    requires Listed(irq)
  {
    && |irq.leases| <= |next.leases|
    && forall i :: 0 <= i < |irq.leases| ==>
         && next.leases[i] == irq.leases[i].(reason := next.leases[i].reason, ended := next.leases[i].ended)
         && (irq.leases[i].ended ==> next.leases[i].ended)
         && (irq.leases[i].reason.Some? ==> next.leases[i].reason == irq.leases[i].reason)
         && (irq.leases[i].reason.None? && next.leases[i].reason.Some? ==> Causes(cfg, irq, call, now, i, next.leases[i].reason.value))
  }

  lemma EndAborts(cfg: Limits, irq: Irq, lease: nat, now: int)
    requires Inv(cfg, irq)
    ensures FirstAbortWins(cfg, irq, Do(cfg, irq, DoEnd(lease), now), DoEnd(lease), now)
  {
  }

  lemma SignalAborts(cfg: Limits, irq: Irq, signal: nat, now: int)
    requires Inv(cfg, irq)
    ensures FirstAbortWins(cfg, irq, Do(cfg, irq, ClientSignals(signal), now), ClientSignals(signal), now)
  {
  }

  lemma AbortsOnce(cfg: Limits, irq: Irq, call: Call, now: int)
    requires Inv(cfg, irq)
    ensures FirstAbortWins(cfg, irq, Do(cfg, irq, call, now), call, now)
  {
    match call
    case DoBegin(session, client, requestId, priority) => BeginAborts(cfg, irq, session, client, requestId, priority, now);
    case DoEnd(lease) => EndAborts(cfg, irq, lease, now);
    case DoInject(session, notice) => InjectKeepsInv(cfg, irq, session, notice, now);
    case DoPreempt(session, notice) => PreemptAborts(cfg, irq, session, notice, now);
    case DoCancel(session, reason) => CancelAborts(cfg, irq, session, reason, now);
    case DoConsume(session) => ConsumeKeepsInv(cfg, irq, session, now);
    case DoApply(session, _) => ConsumeKeepsInv(cfg, irq, session, now);
    case DoLook(session) => if session.Some? { ReachFacts(cfg, irq, session.value, false, now); }
    case DoExpire => ExpireFacts(cfg, irq, now);
    case ClientSignals(signal) => SignalAborts(cfg, irq, signal, now);
  }

  /** A preemption only ever touches the lease that it reports. */
  lemma PreemptShape(cfg: Limits, irq: Irq, session: Option<string>, notice: Notice, now: int)
    requires Inv(cfg, irq)
    ensures var (next, r) := Preempt(cfg, irq, session, notice, now);
            || (next.leases == irq.leases && !(r.Ok? && r.value.preempted))
            || exists i, event :: Preempts(irq, next, session, r, i, event)
  {
    if session.Some? {
      ReachFacts(cfg, irq, session.value, true, now);
      var (t, ok) := Reach(cfg, irq, session.value, true, now);
      InjectKeepsInv(cfg, t, session, notice, now);
      if ok {
        var (u, queued) := Inject(cfg, t, session, notice, now);
        InterruptShape(cfg, irq, u, session.value, queued);
      }
    }
  }

  lemma InterruptShape(cfg: Limits, irq: Irq, u: Irq, id: string, queued: Result<Queued, Fault>)
    requires Inv(cfg, u) && u.leases == irq.leases
    ensures var (next, r) := Interrupt(u, id, queued);
            || (next.leases == irq.leases && !(r.Ok? && r.value.preempted))
            || exists i, event :: Preempts(irq, next, Some(id), r, i, event)
  {
    var (next, r) := Interrupt(u, id, queued);
    if next.leases != irq.leases {
      assert Preempts(irq, next, Some(id), r, Abortable(u, id).value, queued.value.event);
    }
  }

  ghost predicate Preempts(irq: Irq, next: Irq, session: Option<string>, r: Result<Preempted, Fault>, i: nat, event: Event) {
    && i < |irq.leases| && !irq.leases[i].ended && irq.leases[i].reason.None?
    && session == Some(irq.leases[i].session)
    && r == Ok(Preempted(Queued(true, event), true, Some(irq.leases[i].requestId)))
    && next.leases == irq.leases[i := irq.leases[i].(reason := Some(ByPreemption(event)))]
  }

  lemma PreemptAborts(cfg: Limits, irq: Irq, session: Option<string>, notice: Notice, now: int)
    requires Inv(cfg, irq)
    ensures FirstAbortWins(cfg, irq, Preempt(cfg, irq, session, notice, now).0, DoPreempt(session, notice), now)
  {
    PreemptShape(cfg, irq, session, notice, now);
    var (next, r) := Preempt(cfg, irq, session, notice, now);
    if next.leases != irq.leases {
      var i, event :| Preempts(irq, next, session, r, i, event);
      assert Causes(cfg, irq, DoPreempt(session, notice), now, i, ByPreemption(event));
      OneAbort(cfg, irq, next, DoPreempt(session, notice), now, i, ByPreemption(event));
    }
  }

  lemma BeginAborts(cfg: Limits, irq: Irq, session: Option<string>, client: Client, requestId: Option<string>, priority: int, now: int)
    requires Inv(cfg, irq)
    ensures FirstAbortWins(cfg, irq, Begin(cfg, irq, session, client, requestId, priority, now).0,
                           DoBegin(session, client, requestId, priority), now)
  {
    BeginLeases(cfg, irq, session, client, requestId, priority, now);
    LeasesGrow(cfg, irq, Begin(cfg, irq, session, client, requestId, priority, now).0, DoBegin(session, client, requestId, priority), now);
  }

  lemma LeasesGrow(cfg: Limits, irq: Irq, next: Irq, call: Call, now: int)
    requires Inv(cfg, irq) && |irq.leases| <= |next.leases| && next.leases[..|irq.leases|] == irq.leases
    ensures FirstAbortWins(cfg, irq, next, call, now)
  {
    forall i | 0 <= i < |irq.leases| ensures next.leases[i] == irq.leases[i] {
      assert next.leases[i] == next.leases[..|irq.leases|][i];
    }
  }

  lemma BeginLeases(cfg: Limits, irq: Irq, session: Option<string>, client: Client, requestId: Option<string>, priority: int, now: int)
    requires Inv(cfg, irq)
    ensures var next := Begin(cfg, irq, session, client, requestId, priority, now).0;
            |irq.leases| <= |next.leases| && next.leases[..|irq.leases|] == irq.leases
  {
    if session.Some? { ReachFacts(cfg, irq, session.value, true, now); }
  }

  lemma OneAbort(cfg: Limits, irq: Irq, next: Irq, call: Call, now: int, i: nat, reason: Reason)
    requires Listed(irq) && i < |irq.leases| && irq.leases[i].reason.None? && Causes(cfg, irq, call, now, i, reason)
    requires next.leases == irq.leases[i := irq.leases[i].(reason := Some(reason))]
    ensures FirstAbortWins(cfg, irq, next, call, now)
  {
  }

  lemma CancelAborts(cfg: Limits, irq: Irq, session: Option<string>, reason: Option<string>, now: int)
    requires Inv(cfg, irq)
    ensures FirstAbortWins(cfg, irq, Cancel(cfg, irq, session, reason, now).0, DoCancel(session, reason), now)
  {
    if session.Some? {
      ReachFacts(cfg, irq, session.value, false, now);
      var t, next := Reach(cfg, irq, session.value, false, now).0, Cancel(cfg, irq, session, reason, now).0;
      var active := Abortable(t, session.value);
      if active.Some? && reason.Some? {
        OneAbort(cfg, irq, next, DoCancel(session, reason), now, active.value, ByCancel(reason.value));
      } else {
        assert next.leases == irq.leases;
      }
    }
  }
}
