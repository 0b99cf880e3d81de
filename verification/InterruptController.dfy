/** The interrupt controller as an object: its methods update the session table, the leases and
    the sequence counter in place, each as the functions over controller values say. */
module InterruptControllers {
  import opened Common
  import opened Sorting
  import opened Interrupts
  import opened InterruptSafety

  class InterruptController {
    const cfg: Limits
    var order: seq<string>
    var sessions: map<string, Session>
    var leases: seq<Lease>
    var sequence: nat
    var clients: set<nat>

    constructor (cfg: Limits)
      requires Sensible(cfg)
      ensures this.cfg == cfg && Valid() && State() == EmptyIrq
    {
      this.cfg := cfg;
      order, sessions, leases, sequence, clients := [], map[], [], 0, {};
    }

    ghost function State(): Irq
      reads this
    {
      Irq(order, sessions, leases, sequence, clients)
    }

    ghost predicate Valid()
      reads this
    {
      Inv(cfg, State())
    }

    /** Deletes the idle sessions that nobody touched within the time to live. */
    method ExpireIdle(now: int)
      requires Listed(State())
      modifies this`order, this`sessions
      ensures State() == ExpireSessions(cfg, old(State()), now)
    {
      var threshold := now - cfg.ttl;
      var kept: seq<string>, live: map<string, Session> := [], map[];
      for i := 0 to |order|
        invariant kept == FreshOrder(order[..i], sessions, threshold)
        invariant forall id :: id in live <==> id in order[..i] && !Stale(sessions[id], threshold)
        invariant forall id :: id in live ==> live[id] == sessions[id]
      {
        assert order[..i + 1] == order[..i] + [order[i]];
        var state := sessions[order[i]];
        if !(state.active.None? && state.lastTouched <= threshold) {
          kept, live := kept + [order[i]], live[order[i] := state];
        }
      }
      assert order[..|order|] == order;
      assert live == FreshSessions(sessions, threshold);
      order, sessions := kept, live;
    }

    /** Gives up the first of the least recently touched idle sessions. */
    method EvictIdle()
      requires Listed(State())
      modifies this`order, this`sessions
      ensures State() == EvictOldestIdle(old(State()))
    {
      var oldest: Option<string> := None;
      for i := 0 to |order|
        invariant oldest == OldestIdle(order[..i], sessions)
        invariant oldest.Some? ==> oldest.value in sessions
      {
        assert order[..i + 1][..i] == order[..i];
        var state := sessions[order[i]];
        if state.active.None? && (oldest.None? || state.lastTouched < sessions[oldest.value].lastTouched) {
          oldest := Some(order[i]);
        }
      }
      assert order[..|order|] == order;
      if oldest.Some? {
        order, sessions := Without(order, oldest.value), sessions - {oldest.value};
      }
    }

    method Store(id: string, state: Session)
      requires Listed(State())
      modifies this`order, this`sessions
      ensures State() == Put(old(State()), id, state)
    {
      if id !in sessions { order := order + [id]; }
      sessions := sessions[id := state];
    }

    /** Finds, creates and touches a session; false when the table is full of active sessions. */
    method ReachSession(id: string, create: bool, now: int) returns (ok: bool)
      requires Listed(State())
      modifies this`order, this`sessions
      ensures (State(), ok) == Reach(cfg, old(State()), id, create, now)
    {
      ExpireIdle(now);
      if id !in sessions && create && |order| >= cfg.maxSessions { EvictIdle(); }
      if id in sessions {
        Store(id, sessions[id].(lastTouched := now));
        return true;
      }
      if !create { return true; }
      if |order| >= cfg.maxSessions { return false; }
      Store(id, Session(None, [], now));
      return true;
    }

    method StartIn(id: string, client: Client, requestId: Option<string>, priority: int, now: int) returns (r: Result<nat, Fault>)
      requires Listed(State()) && id in sessions
      modifies this
      ensures (State(), r) == Start(old(State()), id, client, requestId, priority, now)
    {
      if sessions[id].active.Some? { return Err(Conflict); }
      if priority < 0 || priority > 255 { return Err(BadPriority); }
      if client.NotASignal? { return Err(BadSignal); }
      if requestId.None? { return Err(BadRequest); }
      var reason := None;
      var linked := None;
      if client.Signal? {
        linked := Some(client.id);
        if client.id in clients { reason := Some(ByClient(client.id)); }
      }
      var lease := |leases|;
      leases := leases + [Lease(id, requestId.value, priority, now, linked, reason, false)];
      Store(id, sessions[id].(active := Some(lease)));
      return Ok(lease);
    }

    method BeginLease(session: Option<string>, client: Client, requestId: Option<string>, priority: int, now: int)
      returns (r: Result<nat, Fault>)
      requires Valid()
      modifies this
      ensures Valid()
      ensures (State(), r) == Begin(cfg, old(State()), session, client, requestId, priority, now)
    {
      BeginKeepsInv(cfg, State(), session, client, requestId, priority, now);
      if session.None? { return Err(BadSession); }
      var ok := ReachSession(session.value, true, now);
      if !ok { return Err(Capacity); }
      r := StartIn(session.value, client, requestId, priority, now);
    }

    method EndLease(lease: nat, now: int) returns (first: bool)
      requires Valid()
      modifies this
      ensures Valid()
      ensures (State(), first) == End(old(State()), lease, now)
    {
      EndKeepsInv(cfg, State(), lease, now);
      if lease >= |leases| || leases[lease].ended { return false; }
      leases := leases[lease := leases[lease].(ended := true)];
      var id := leases[lease].session;
      if id in sessions {
        var state := sessions[id];
        if state.active == Some(lease) { state := state.(active := None); }
        Store(id, state.(lastTouched := now));
      }
      return true;
    }

    /** Pushes an event, sorts the queue, and keeps its first `maxPending` events. */
    method EnqueueIn(id: string, notice: Notice, now: int) returns (r: Result<Queued, Fault>)
      requires Listed(State()) && id in sessions
      modifies this
      ensures (State(), r) == Enqueue(cfg, old(State()), id, notice, now)
    {
      var number := sequence;
      sequence := sequence + 1;
      if notice.Malformed? || notice.priority < 0 || notice.priority > 255 { return Err(BadEvent); }
      var event := EventOf(notice, now, number);
      var pending := sessions[id].pending + [event];
      pending := Sort(EventOrder(), pending);
      var retained := Take(cfg.maxPending, pending);
      Store(id, sessions[id].(pending := retained));
      return Ok(Queued(event in retained, event));
    }

    method QueueEvent(session: Option<string>, notice: Notice, now: int) returns (r: Result<Queued, Fault>)
      requires Listed(State())
      modifies this
      ensures (State(), r) == Inject(cfg, old(State()), session, notice, now)
    {
      if session.None? { return Err(BadSession); }
      var ok := ReachSession(session.value, true, now);
      if !ok { return Err(Capacity); }
      r := EnqueueIn(session.value, notice, now);
    }

    method InjectEvent(session: Option<string>, notice: Notice, now: int) returns (r: Result<Queued, Fault>)
      requires Valid()
      modifies this
      ensures Valid()
      ensures (State(), r) == Inject(cfg, old(State()), session, notice, now)
    {
      InjectKeepsInv(cfg, State(), session, notice, now);
      r := QueueEvent(session, notice, now);
    }

    method AbortLease(lease: nat, reason: Reason)
      requires lease < |leases| && Listed(State())
      modifies this`leases
      ensures State() == Abort(old(State()), lease, reason)
    {
      leases := leases[lease := leases[lease].(reason := Some(reason))];
    }

    method PreemptActive(session: Option<string>, notice: Notice, now: int) returns (r: Result<Preempted, Fault>)
      requires Valid()
      modifies this
      ensures Valid()
      ensures (State(), r) == Preempt(cfg, old(State()), session, notice, now)
    {
      PreemptKeepsInv(cfg, State(), session, notice, now);
      if session.None? { return Err(BadSession); }
      var ok := ReachSession(session.value, true, now);
      if !ok { return Err(Capacity); }
      var queued := QueueEvent(session, notice, now);
      r := InterruptFor(session.value, queued);
    }

    method InterruptFor(id: string, queued: Result<Queued, Fault>) returns (r: Result<Preempted, Fault>)
      requires Listed(State())
      modifies this`leases
      ensures (State(), r) == Interrupt(old(State()), id, queued)
    {
      if queued.Err? { return Err(queued.error); }
      var active := Abortable(Irq(order, sessions, leases, sequence, clients), id);
      if queued.value.accepted && active.Some? {
        var requestId := leases[active.value].requestId;
        AbortLease(active.value, ByPreemption(queued.value.event));
        return Ok(Preempted(queued.value, true, Some(requestId)));
      }
      return Ok(Preempted(queued.value, false, None));
    }

    method CancelActive(session: Option<string>, reason: Option<string>, now: int) returns (r: Result<bool, Fault>)
      requires Valid()
      modifies this
      ensures Valid()
      ensures (State(), r) == Cancel(cfg, old(State()), session, reason, now)
    {
      CancelKeepsInv(cfg, State(), session, reason, now);
      if session.None? { return Err(BadSession); }
      var _ := ReachSession(session.value, false, now);
      var active := Abortable(Irq(order, sessions, leases, sequence, clients), session.value);
      if active.None? { return Ok(false); }
      if reason.None? { return Err(BadReason); }
      AbortLease(active.value, ByCancel(reason.value));
      return Ok(true);
    }

    method ConsumePending(session: Option<string>, now: int) returns (r: Result<seq<Event>, Fault>)
      requires Valid()
      modifies this
      ensures Valid()
      ensures (State(), r) == Consume(cfg, old(State()), session, now)
    {
      ConsumeKeepsInv(cfg, State(), session, now);
      if session.None? { return Err(BadSession); }
      var id := session.value;
      var _ := ReachSession(id, false, now);
      if id !in sessions || sessions[id].pending == [] { return Ok([]); }
      var events := sessions[id].pending;
      Store(id, sessions[id].(pending := []));
      return Ok(events);
    }

    method ApplyTo(session: Option<string>, body: Option<seq<Message>>, now: int)
      returns (r: Result<(seq<Message>, seq<Event>), Fault>)
      requires Valid()
      modifies this
      ensures Valid()
      ensures (State(), r) == ApplyPending(cfg, old(State()), session, body, now)
    {
      var events := ConsumePending(session, now);
      if events.Err? { return Err(events.error); }
      var result := InjectContext(body, events.value, cfg.maxPending);
      if result.Err? { return Err(result.error); }
      return Ok((result.value, events.value));
    }

    /** A client signal aborts: every lease that still listens carries its reason on. */
    method OnClientAbort(signal: nat)
      requires Valid()
      modifies this
      ensures Valid()
      ensures State() == ClientAbort(old(State()), signal)
    {
      ClientAbortKeepsInv(cfg, State(), signal);
      if signal in clients { return; }
      ghost var before := leases;
      clients := clients + {signal};
      for i := 0 to |leases|
        invariant |leases| == |before|
        invariant order == old(order) && sessions == old(sessions) && sequence == old(sequence) && clients == old(clients) + {signal}
        invariant forall j :: 0 <= j < |before| ==> leases[j] == if j < i then ClientAborts(before[j], signal) else before[j]
      {
        leases := leases[i := ClientAborts(leases[i], signal)];
      }
      assert leases == ClientAbort(old(State()), signal).leases;
    }
  }
}
